/** How the changes of a statement can reach a row twice, and schemas on which none takes away, the second time, what
    other rows reference (foreign_key.rs). */
module ForkedSchemas {
  import opened Schemas
  import opened ForeignKeys
  import opened StraightSchemas

  /** Where changes come from: a statement that deletes rows of `top`, or one that leaves each of them. */
  datatype Way = Way(gone: bool, top: Name)

  predicate Unlinks(key: ForeignKey) {
    key.onDelete == SetNull || key.onDelete == SetDefault
  }

  predicate Meet(a: seq<Column>, b: seq<Column>) {
    exists column :: column in a && column in b
  }

  /** Whether a DELETE of a row of `top` can reach one of `name` by `n` keys that all cascade. */
  ghost predicate Deletes(tables: seq<Table>, top: Name, n: nat, name: Name) {
    if n == 0 then top == name
    else exists r: Reference ::
           && r.0 in tables && r.0.name == name && r.1 in r.0.foreignKeys && r.1.onDelete == Cascade
           && Deletes(tables, top, n - 1, r.1.references)
  }

  /** Whether the statement can alter, `n` keys from its own rows, what a key references in a row that is left. */
  ghost predicate Alters(tables: seq<Table>, way: Way, n: nat, key: ForeignKey)
    decreases n, 0
  {
    if n == 0 then !way.gone && key.references == way.top
    else exists r: Reference ::
           && r.0 in tables && r.0.name == key.references && r.1 in r.0.foreignKeys
           && Meet(r.1.columns, key.referencedColumns) && Follows(tables, way, n - 1, r.1)
  }

  /** Whether a key then gives rows of its own table other values. */
  ghost predicate Follows(tables: seq<Table>, way: Way, n: nat, key: ForeignKey)
    decreases n, 1
  {
    || (way.gone && Unlinks(key) && Deletes(tables, way.top, n, key.references))
    || (Acting(key.onUpdate) && Alters(tables, way, n, key))
  }

  /** Whether rows of `name` can be given other values, `n` keys away. */
  ghost predicate Touched(tables: seq<Table>, way: Way, n: nat, name: Name) {
    n > 0 && exists r: Reference ::
      r.0 in tables && r.0.name == name && r.1 in r.0.foreignKeys && Follows(tables, way, n - 1, r.1)
  }

  /** Whether rows of `name` can be changed there at all. */
  ghost predicate Comes(tables: seq<Table>, way: Way, n: nat, name: Name) {
    || (n == 0 && name == way.top)
    || (way.gone && Deletes(tables, way.top, n, name))
    || Touched(tables, way, n, name)
  }

  /** Whether one statement can change a row, and then, by a longer way, delete it, or alter in it what others
      reference: too late, where the row's turn is over. */
  ghost predicate Forked(tables: seq<Table>) {
    exists way: Way, m: nat, n: nat, name: Name :: IsFork(tables, way, m, n, name)
  }

  ghost predicate IsFork(tables: seq<Table>, way: Way, m: nat, n: nat, name: Name) {
    && m < n && Referencing(tables, name) != []
    && (|| (way.gone && Touched(tables, way, m, name) && Deletes(tables, way.top, n, name))
        || (Comes(tables, way, m, name) && AltersSome(tables, way, n, name)))
  }

  ghost predicate AltersSome(tables: seq<Table>, way: Way, n: nat, name: Name) {
    exists s :: s in Referencing(tables, name) && Alters(tables, way, n, s.1)
  }

  /** What a statement is: it leaves none of its rows, or leaves each of them. */
  predicate Uniform(own: seq<Changed>) {
    (forall i :: 0 <= i < |own| ==> own[i].now.None?) || (forall i :: 0 <= i < |own| ==> own[i].now.Some?)
  }

  /** The storage takes a row as it is, where others may reference it. */
  ghost predicate NormalStays(db: Database) {
    && NormalKeeps(db)
    && forall table, row, s :: table in db.tables && db.normalize(table, row).Some? &&
                               s in Referencing(db.tables, table.name) ==>
         Cells(db.normalize(table, row).value, s.1.referencedColumns) == Cells(row, s.1.referencedColumns)
  }

  /** A statement that is accepted, on a database that is intact and keeps what it stores, and leaves one that is not.
      */
  ghost predicate Broken(db: Database, own: seq<Changed>) {
    && Sound(db) && NormalStays(db) && Intact(db, [], 0) && Listed(db, own, |own|) && Uniform(own)
    && (forall i :: 0 <= i < |own| ==> own[i].table.name == own[0].table.name)
    && Enforced(db, own).Some? && !Intact(db, Enforced(db, own).value.changed, |own|)
  }

  /** Keys that give rows other values have no columns in their own table's primary key. */
  ghost predicate KeysStay(tables: seq<Table>) {
    forall table :: table in tables ==> KeyStays(table)
  }

  lemma {:induction false} RewrittenElsewhere(table: Table, key: ForeignKey, action: Action, values: Option<seq<Value>>,
                                              row: Row, n: nat, column: Column)
    requires n <= |key.columns| && (values.Some? ==> |values.value| == |key.columns|) && column !in key.columns
    ensures Get(Rewritten(table, key, action, values, row, n), column) == Get(row, column)
  {
    if n > 0 {
      RewrittenElsewhere(table, key, action, values, row, n - 1, column);
      assert key.columns[n - 1] in key.columns;
    }
  }

  lemma RewrittenCells(table: Table, key: ForeignKey, action: Action, values: Option<seq<Value>>, row: Row,
                       columns: seq<Column>)
    requires (values.Some? ==> |values.value| == |key.columns|) && !Meet(key.columns, columns)
    ensures Cells(Rewritten(table, key, action, values, row, |key.columns|), columns) == Cells(row, columns)
  {
    forall i | 0 <= i < |columns|
      ensures Get(Rewritten(table, key, action, values, row, |key.columns|), columns[i]) == Get(row, columns[i])
    {
      assert columns[i] in columns;
      RewrittenElsewhere(table, key, action, values, row, |key.columns|, columns[i]);
    }
  }

  /** Whether a change is one the way explains, `rank` keys from the statement's own rows. */
  ghost predicate Reached(tables: seq<Table>, way: Way, rank: nat, item: Changed) {
    match item.now
    case None => way.gone && Deletes(tables, way.top, rank, item.table.name)
    case Some(now) => Comes(tables, way, rank, item.table.name) && (item.was.Some? ==>
        forall s :: s in Referencing(tables, item.table.name) ==> AltersIf(tables, way, rank, s.1, item.was.value, now))
  }

  ghost predicate AltersIf(tables: seq<Table>, way: Way, rank: nat, key: ForeignKey, was: Row, now: Row) {
    Cells(was, key.referencedColumns) != Cells(now, key.referencedColumns) ==> Alters(tables, way, rank, key)
  }

  /** How far each change is from the statement's own: no change is listed before a nearer one. */
  ghost predicate Ranked(db: Database, state: State, own: nat, ranks: seq<nat>, way: Way) {
    && own <= |ranks| == |state.changed| && state.turn < |ranks|
    && (forall i, j :: 0 <= i < j < |ranks| ==> ranks[i] <= ranks[j])
    && (forall i :: 0 <= i < |ranks| ==> ranks[i] <= ranks[state.turn] + 1)
    && (forall i :: 0 <= i < |ranks| && IsReferenced(db, state.changed[i].table.name) ==>
          Reached(db.tables, way, ranks[i], state.changed[i]))
    && (forall i :: own <= i < |ranks| && IsReferenced(db, state.changed[i].table.name) &&
                    state.changed[i].now.Some? ==>
          Touched(db.tables, way, ranks[i], state.changed[i].table.name))
  }

  /** What a key does next is what the way says it may. */
  ghost predicate Hits(tables: seq<Table>, way: Way, rank: nat, key: ForeignKey, gone: bool) {
    if gone then way.gone && key.onDelete == Cascade && Deletes(tables, way.top, rank, key.references)
    else Follows(tables, way, rank, key)
  }

  ghost predicate Steady(db: Database, state: State, own: nat) {
    Listed(db, state.changed, own) && state.steady && KeysKept(state.changed, own)
  }

  /** A row listed for the first time is one further than the change whose turn it is. */
  lemma PushRanked(db: Database, state: State, own: nat, ranks: seq<nat>, way: Way, item: Changed, steady: bool)
    requires Ranked(db, state, own, ranks, way)
    requires IsReferenced(db, item.table.name) ==>
               Reached(db.tables, way, ranks[state.turn] + 1, item) &&
               (item.now.Some? ==> Touched(db.tables, way, ranks[state.turn] + 1, item.table.name))
    ensures Ranked(db, State(state.changed + [item], steady, state.turn), own, ranks + [ranks[state.turn] + 1], way)
  {
    hide Reached, IsReferenced, Touched;
  }

  lemma ReplaceRanked(db: Database, state: State, own: nat, ranks: seq<nat>, way: Way, i: nat, item: Changed,
                      steady: bool)
    requires Ranked(db, state, own, ranks, way) && own <= i < |state.changed| && item.table == state.changed[i].table
    requires state.changed[i].now.Some?
    requires IsReferenced(db, item.table.name) ==> Reached(db.tables, way, ranks[i], item)
    ensures Ranked(db, State(state.changed[i := item], steady, state.turn), own, ranks, way)
  {
    hide Reached, IsReferenced, Touched;
  }

  /** What a key makes of a row is reached by one key more. */
  lemma Further(db: Database, way: Way, rank: nat, reference: Reference, row: Row, base: Row, next: Option<Row>)
    requires reference.0 in db.tables && reference.1 in reference.0.foreignKeys
    requires Hits(db.tables, way, rank, reference.1, next.None?)
    requires next.Some? ==> KeepsOthers(db, reference, base, next.value)
    requires Reached(db.tables, way, rank + 1, Changed(reference.0, Some(row), Some(base))) || base == row
    ensures Reached(db.tables, way, rank + 1, Changed(reference.0, Some(row), next))
    ensures next.Some? ==> Touched(db.tables, way, rank + 1, reference.0.name)
  {
    var (child, key) := reference;
    hide Follows, Referencing;
    if next.Some? {
      assert Touched(db.tables, way, rank + 1, child.name);
      forall s | s in Referencing(db.tables, child.name)
        ensures AltersIf(db.tables, way, rank + 1, s.1, row, next.value)
      {
        if Meet(key.columns, s.1.referencedColumns) {
          MeetsAlters(db.tables, way, rank, reference, s.1);
        } else if base != row {
          assert AltersIf(db.tables, way, rank + 1, s.1, row, base);
        }
      }
    }
  }

  lemma MeetsAlters(tables: seq<Table>, way: Way, rank: nat, r: Reference, key: ForeignKey)
    requires r.0 in tables && r.1 in r.0.foreignKeys && r.0.name == key.references
    requires Meet(r.1.columns, key.referencedColumns) && Follows(tables, way, rank, r.1)
    ensures Alters(tables, way, rank + 1, key)
  {
    hide Follows;
  }

  /** A row that a key gives other values is otherwise as it was. */
  ghost predicate KeepsOthers(db: Database, reference: Reference, base: Row, next: Row) {
    forall s :: s in Referencing(db.tables, reference.0.name) && !Meet(reference.1.columns, s.1.referencedColumns) ==>
      Cells(next, s.1.referencedColumns) == Cells(base, s.1.referencedColumns)
  }

  lemma RewriteOthers(db: Database, reference: Reference, action: Action, values: Option<seq<Value>>, base: Row)
    requires NormalStays(db) && reference.0 in db.tables
    requires values.Some? ==> |values.value| == |reference.1.columns|
    ensures var (child, key) := reference;
            var next := db.normalize(child, Rewritten(child, key, action, values, base, |key.columns|));
            next.Some? ==> KeepsOthers(db, reference, base, next.value)
  {
    var (child, key) := reference;
    hide Rewritten;
    forall s | s in Referencing(db.tables, child.name) && !Meet(key.columns, s.1.referencedColumns)
      ensures Cells(Rewritten(child, key, action, values, base, |key.columns|), s.1.referencedColumns) ==
              Cells(base, s.1.referencedColumns)
    {
      RewrittenCells(child, key, action, values, base, s.1.referencedColumns);
    }
  }

  /** Without a fork, a listed row that a key harms is no nearer than one it would list, so its turn is to come. */
  lemma NoForkLater(db: Database, state: State, own: nat, ranks: seq<nat>, way: Way, i: nat, reference: Reference,
                    base: Row, next: Option<Row>)
    requires Ranked(db, state, own, ranks, way) && own <= i < |ranks| && !Forked(db.tables)
    requires reference.0 in db.tables && reference.1 in reference.0.foreignKeys
    requires state.changed[i].table == reference.0 && IsReferenced(db, reference.0.name)
    requires state.changed[i].now == Some(base) && !Harmless(db, reference.0, base, next)
    requires Hits(db.tables, way, ranks[state.turn], reference.1, next.None?)
    requires next.Some? ==> KeepsOthers(db, reference, base, next.value)
    ensures ranks[i] == ranks[state.turn] + 1 && state.turn < i
  {
    hide Hits, KeepsOthers, Harmless, Ranked, Touched, Alters, Deletes, Referencing;
    RankedAt(db, state, own, ranks, way, i);
    assert Comes(db.tables, way, ranks[i], reference.0.name);
    HarmFurther(db, way, ranks[state.turn], reference, base, next);
    assert !IsFork(db.tables, way, ranks[i], ranks[state.turn] + 1, reference.0.name);
  }

  lemma HarmFurther(db: Database, way: Way, rank: nat, reference: Reference, base: Row, next: Option<Row>)
    requires reference.0 in db.tables && reference.1 in reference.0.foreignKeys
    requires !Harmless(db, reference.0, base, next) && Hits(db.tables, way, rank, reference.1, next.None?)
    requires next.Some? ==> KeepsOthers(db, reference, base, next.value)
    ensures || (way.gone && Deletes(db.tables, way.top, rank + 1, reference.0.name))
            || AltersSome(db.tables, way, rank + 1, reference.0.name)
  {
    hide Follows, Referencing, Alters;
    if next.None? {
      DeletesFurther(db.tables, way, rank, reference);
    } else {
      var s :| s in Referencing(db.tables, reference.0.name) &&
        Cells(next.value, s.1.referencedColumns) != Cells(base, s.1.referencedColumns);
      MeetsAlters(db.tables, way, rank, reference, s.1);
    }
  }

  lemma DeletesFurther(tables: seq<Table>, way: Way, rank: nat, r: Reference)
    requires r.0 in tables && r.1 in r.0.foreignKeys && r.1.onDelete == Cascade
    requires Deletes(tables, way.top, rank, r.1.references)
    ensures Deletes(tables, way.top, rank + 1, r.0.name)
  {
  }

  lemma RankedAt(db: Database, state: State, own: nat, ranks: seq<nat>, way: Way, i: nat)
    requires Ranked(db, state, own, ranks, way) && i < |ranks|
    ensures own <= |ranks| == |state.changed| && state.turn < |ranks| && ranks[i] <= ranks[state.turn] + 1
    ensures i <= state.turn ==> ranks[i] <= ranks[state.turn]
    ensures IsReferenced(db, state.changed[i].table.name) ==>
              Reached(db.tables, way, ranks[i], state.changed[i]) &&
              (own <= i && state.changed[i].now.Some? ==>
                Touched(db.tables, way, ranks[i], state.changed[i].table.name))
    ensures ranks[i] > ranks[state.turn] ==> state.turn < i
  {
    hide Reached, Touched, IsReferenced;
  }

  /** Such a row has not been changed where others may reference it, or none of its table has had its turn. */
  lemma ComesEarly(db: Database, state: State, own: nat, ranks: seq<nat>, way: Way, i: nat, row: Row, base: Row)
    requires Ranked(db, state, own, ranks, way) && own <= i < |ranks| && !Forked(db.tables)
    requires IsReferenced(db, state.changed[i].table.name) && state.changed[i].was == Some(row)
    requires state.changed[i].now == Some(base) && ranks[i] == ranks[state.turn] + 1 && state.turn < i
    ensures Early(db, state, i, row, base)
  {
    hide Ranked, Touched, Alters, Deletes, Referencing;
    RankedAt(db, state, own, ranks, way, i);
    var table := state.changed[i].table;
    if !Harmless(db, table, row, Some(base)) {
      var s :| s in Referencing(db.tables, table.name) &&
        Cells(base, s.1.referencedColumns) != Cells(row, s.1.referencedColumns);
      assert AltersIf(db.tables, way, ranks[i], s.1, row, base);
      assert AltersSome(db.tables, way, ranks[i], table.name);
      forall q | 0 <= q <= state.turn ensures state.changed[q].table.name != table.name {
        RankedAt(db, state, own, ranks, way, q);
        assert !IsFork(db.tables, way, ranks[q], ranks[i], table.name);
        assert state.changed[q].table.name == table.name ==> Comes(db.tables, way, ranks[q], table.name);
      }
    }
  }

  lemma FoundRow(db: Database, changed: seq<Changed>, own: nat, child: Table, row: Row)
    requires Sound(db) && Listed(db, changed, own) && child in db.tables && row in db.Rows(child.name)
    ensures match Find(changed, child.name, row)
            case None => true
            case Some(i) => changed[i].table == child && changed[i].was == Some(row)
  {
    hide Key;
    var found := Find(changed, child.name, row);
    if found.Some? {
      SameTable(db, changed, own, found.value, child);
    }
  }

  lemma PutRanked(db: Database, state: State, own: nat, ranks: seq<nat>, way: Way, reference: Reference, row: Row,
                  base: Row, next: Option<Row>) returns (after: seq<nat>)
    requires Sound(db) && !Forked(db.tables)
    requires Steady(db, state, own) && Ranked(db, state, own, ranks, way)
    requires reference.0 in db.tables && reference.1 in reference.0.foreignKeys && row in db.Rows(reference.0.name)
    requires Hits(db.tables, way, ranks[state.turn], reference.1, next.None?)
    requires next.Some? ==> KeepsOthers(db, reference, base, next.value)
    requires match Find(state.changed, reference.0.name, row)
             case None => base == row
             case Some(i) => own <= i && state.changed[i].now == Some(base)
    requires next.Some? ==> Key(reference.0, next.value) == Key(reference.0, row)
    ensures var put := Put(db, state, Find(state.changed, reference.0.name, row), reference.0, row, base, next);
            put.steady && Ranked(db, put, own, after, way) && ranks <= after
  {
    var (child, key) := reference;
    hide Sound, Forked, Listed, KeysKept, Key, Harmless, Find, IsReferenced, Ranked, Hits, KeepsOthers, Reached,
         Touched, Early;
    var found := Find(state.changed, child.name, row);
    var steady := Put(db, state, found, child, row, base, next).steady;
    FoundRow(db, state.changed, own, child, row);
    RankedTurn(db, state, own, ranks, way);
    match found
    case None =>
      Further(db, way, ranks[state.turn], reference, row, base, next);
      PushRanked(db, state, own, ranks, way, Changed(child, Some(row), next), steady);
      after := ranks + [ranks[state.turn] + 1];
    case Some(i) =>
      AlwaysHarmless(db, child, base);
      ReplaceReached(db, state, own, ranks, way, i, reference, row, base, next);
      ReplaceRanked(db, state, own, ranks, way, i, state.changed[i].(now := next), steady);
      after := ranks;
  }

  lemma ReplaceReached(db: Database, state: State, own: nat, ranks: seq<nat>, way: Way, i: nat, reference: Reference,
                       row: Row, base: Row, next: Option<Row>)
    requires Ranked(db, state, own, ranks, way) && own <= i < |ranks| && !Forked(db.tables)
    requires reference.0 in db.tables && reference.1 in reference.0.foreignKeys
    requires state.changed[i] == Changed(reference.0, Some(row), Some(base))
    requires Hits(db.tables, way, ranks[state.turn], reference.1, next.None?)
    requires next.Some? ==> KeepsOthers(db, reference, base, next.value)
    ensures IsReferenced(db, reference.0.name) ==>
              Reached(db.tables, way, ranks[i], Changed(reference.0, Some(row), next)) &&
              (Harmless(db, reference.0, base, next) || Early(db, state, i, row, base))
  {
    hide Ranked, Hits, KeepsOthers, Touched, Comes, Alters, Deletes, Forked, Early, Referencing;
    if IsReferenced(db, reference.0.name) {
      RankedAt(db, state, own, ranks, way, i);
      if Harmless(db, reference.0, base, next) {
        if next.Some? {
          forall s | s in Referencing(db.tables, reference.0.name)
            ensures AltersIf(db.tables, way, ranks[i], s.1, row, next.value)
          {
            assert AltersIf(db.tables, way, ranks[i], s.1, row, base);
          }
        }
      } else {
        NoForkLater(db, state, own, ranks, way, i, reference, base, next);
        ComesEarly(db, state, own, ranks, way, i, row, base);
        Further(db, way, ranks[state.turn], reference, row, base, next);
      }
    }
  }

  lemma RevisitRanked(db: Database, state: State, own: nat, ranks: seq<nat>, way: Way, reference: Reference,
                      values: Option<seq<Value>>, row: Row) returns (after: seq<nat>)
    requires values.Some? ==> |values.value| == |reference.1.columns|
    requires Sound(db) && KeysStay(db.tables) && NormalStays(db) && !Forked(db.tables)
    requires Steady(db, state, own) && Ranked(db, state, own, ranks, way)
    requires reference.0 in db.tables && reference.1 in reference.0.foreignKeys && row in db.Rows(reference.0.name)
    requires MayAct(db.tables, way, ranks[state.turn], reference.1, values.None?)
    ensures match Revisit(db, state, own, reference, ActionOf(reference.1, values.None?), values, row)
            case None => true
            case Some(next) => next.steady && Ranked(db, next, own, after, way) && ranks <= after
  {
    var (child, key) := reference;
    hide Sound, KeysStay, Forked, Listed, KeysKept, Ranked, Key, Harmless, Rewritten, Find, Hits, IsReferenced,
         KeepsOthers, NormalKeeps, NormalStays;
    after := ranks;
    var action := ActionOf(key, values.None?);
    var found := Find(state.changed, child.name, row);
    if found.Some? && (found.value < own || state.changed[found.value].now.None?) {
    } else if Acting(action) {
      var base := if found.Some? then state.changed[found.value].now.value else row;
      BaseKey(db, state.changed, own, child, row);
      var next := if action == Cascade && values.None? then None
                  else db.normalize(child, Rewritten(child, key, action, values, base, |key.columns|));
      if !(action == Cascade && values.None?) {
        RewriteStays(db, reference, action, values, base);
      }
      if (action == Cascade && values.None?) || next.Some? {
        after := PutRanked(db, state, own, ranks, way, reference, row, base, next);
      }
    }
  }

  lemma RewriteStays(db: Database, reference: Reference, action: Action, values: Option<seq<Value>>, base: Row)
    requires KeysStay(db.tables) && NormalStays(db) && Rewrites(reference.1)
    requires reference.0 in db.tables && reference.1 in reference.0.foreignKeys
    requires values.Some? ==> |values.value| == |reference.1.columns|
    ensures var (child, key) := reference;
            var next := db.normalize(child, Rewritten(child, key, action, values, base, |key.columns|));
            next.Some? ==> Key(child, next.value) == Key(child, base) && KeepsOthers(db, reference, base, next.value)
  {
    hide KeepsOthers, Rewritten, Key, KeyStays;
    RewriteKeeps(db, reference.0, reference.1, action, values, base);
    RewriteOthers(db, reference, action, values, base);
  }

  function ActionOf(key: ForeignKey, gone: bool): Action {
    if gone then key.onDelete else key.onUpdate
  }

  ghost predicate MayAct(tables: seq<Table>, way: Way, rank: nat, key: ForeignKey, gone: bool) {
    Acting(ActionOf(key, gone)) ==> Hits(tables, way, rank, key, gone && key.onDelete == Cascade)
  }

  lemma {:induction false} RevisitAllRanked(db: Database, state: State, own: nat, ranks: seq<nat>, way: Way,
                                            reference: Reference, values: Option<seq<Value>>, rows: seq<Row>)
    returns (after: seq<nat>)
    requires values.Some? ==> |values.value| == |reference.1.columns|
    requires Sound(db) && KeysStay(db.tables) && NormalStays(db) && !Forked(db.tables)
    requires Steady(db, state, own) && Ranked(db, state, own, ranks, way)
    requires reference.0 in db.tables && reference.1 in reference.0.foreignKeys
    requires forall row :: row in rows ==> row in db.Rows(reference.0.name)
    requires MayAct(db.tables, way, ranks[state.turn], reference.1, values.None?)
    ensures match RevisitAll(db, state, own, reference, ActionOf(reference.1, values.None?), values, rows)
            case None => true
            case Some(next) =>
              Steady(db, next, own) && next.turn == state.turn && Ranked(db, next, own, after, way) && ranks <= after
    decreases |rows|
  {
    hide Sound, KeysStay, NormalStays, Forked, Listed, KeysKept, Ranked, Revisit, Steps, MayAct, ActionOf;
    after := ranks;
    if rows != [] {
      var action := ActionOf(reference.1, values.None?);
      RankedTurn(db, state, own, ranks, way);
      var more := RevisitRanked(db, state, own, ranks, way, reference, values, rows[0]);
      RevisitSteps(db, state, own, reference, action, values, rows[0]);
      var next := Revisit(db, state, own, reference, action, values, rows[0]);
      if next.Some? {
        StepsGrows(db, state, next.value, own);
        after := RevisitAllRanked(db, next.value, own, more, way, reference, values, rows[1..]);
      }
    }
  }

  lemma RankedTurn(db: Database, state: State, own: nat, ranks: seq<nat>, way: Way)
    requires Ranked(db, state, own, ranks, way)
    ensures own <= |ranks| == |state.changed| && state.turn < |ranks|
  {
  }

  /** What the change whose turn it is lets the keys that reference it do. */
  ghost predicate LetsAct(tables: seq<Table>, way: Way, rank: nat, was: Row, now: Option<Row>, key: ForeignKey) {
    match now
    case None => way.gone && Deletes(tables, way.top, rank, key.references)
    case Some(row) => AltersIf(tables, way, rank, key, was, row)
  }

  lemma FollowRanked(db: Database, state: State, own: nat, ranks: seq<nat>, way: Way, parent: Table, was: Row,
                     now: Option<Row>, reference: Reference) returns (after: seq<nat>)
    requires Sound(db) && KeysStay(db.tables) && NormalStays(db) && !Forked(db.tables)
    requires Steady(db, state, own) && Ranked(db, state, own, ranks, way)
    requires Refers(db, reference, parent.name) && |reference.1.columns| == |reference.1.referencedColumns|
    requires LetsAct(db.tables, way, ranks[state.turn], was, now, reference.1)
    ensures match Follow(db, state, own, parent, was, now, reference)
            case None => true
            case Some(next) =>
              Steady(db, next, own) && next.turn == state.turn && Ranked(db, next, own, after, way) && ranks <= after
  {
    hide Sound, KeysStay, NormalStays, Forked, Listed, KeysKept, Ranked, RevisitAll, Deletes, Alters, Survives;
    var (child, key) := reference;
    after := ranks;
    if Values(was, key.referencedColumns).Some? {
      var values := Values(was, key.referencedColumns).value;
      var next := if now.None? then None else Some(Cells(now.value, key.referencedColumns));
      var action := ActionOf(key, now.None?);
      if next != Some(values) &&
         !(action == NoAction && Survives(db, state.changed, parent.name, key.referencedColumns, values)) {
        after := RevisitAllRanked(db, state, own, ranks, way, reference, next,
                                  RowsWhere(db.Rows(child.name), key.columns, values));
      }
    }
  }

  lemma {:induction false} FollowAllRanked(db: Database, state: State, own: nat, ranks: seq<nat>, way: Way,
                                           parent: Table, was: Row, now: Option<Row>, references: seq<Reference>)
    returns (after: seq<nat>)
    requires Sound(db) && KeysStay(db.tables) && NormalStays(db) && !Forked(db.tables)
    requires Steady(db, state, own) && Ranked(db, state, own, ranks, way)
    requires forall r :: r in references ==>
               && Refers(db, r, parent.name) && |r.1.columns| == |r.1.referencedColumns|
               && LetsAct(db.tables, way, ranks[state.turn], was, now, r.1)
    ensures match FollowAll(db, state, own, parent, was, now, references)
            case None => true
            case Some(next) => Steady(db, next, own) && next.turn == state.turn && Ranked(db, next, own, after, way)
    decreases |references|
  {
    hide Sound, KeysStay, NormalStays, Forked, Listed, KeysKept, Ranked, Follow, LetsAct;
    after := ranks;
    if references != [] {
      RankedTurn(db, state, own, ranks, way);
      var more := FollowRanked(db, state, own, ranks, way, parent, was, now, references[0]);
      var next := Follow(db, state, own, parent, was, now, references[0]);
      if next.Some? {
        after := FollowAllRanked(db, next.value, own, more, way, parent, was, now, references[1..]);
      }
    }
  }

  lemma ItemLets(db: Database, state: State, own: nat, ranks: seq<nat>, way: Way)
    requires Steady(db, state, own) && Ranked(db, state, own, ranks, way)
    requires state.turn < |state.changed| && state.changed[state.turn].was.Some?
    ensures state.turn < |ranks|
    ensures var item := state.changed[state.turn];
            forall r :: r in Referencing(db.tables, item.table.name) ==>
              LetsAct(db.tables, way, ranks[state.turn], item.was.value, item.now, r.1)
  {
    hide Ranked, Listed, KeysKept, Deletes, Comes, AltersIf, Touched;
    RankedTurn(db, state, own, ranks, way);
    RankedAt(db, state, own, ranks, way, state.turn);
    var item := state.changed[state.turn];
    forall r | r in Referencing(db.tables, item.table.name)
      ensures LetsAct(db.tables, way, ranks[state.turn], item.was.value, item.now, r.1)
    {
      assert IsReferenced(db, item.table.name);
    }
  }

  lemma {:induction false} WalkForkless(db: Database, state: State, own: nat, position: nat, ranks: seq<nat>, way: Way)
    requires Sound(db) && KeysStay(db.tables) && NormalStays(db) && !Forked(db.tables)
    requires Steady(db, state, own) && position <= |state.changed|
    requires position < |state.changed| ==> Ranked(db, state.(turn := position), own, ranks, way)
    ensures match Walk(db, state, own, position)
            case None => true
            case Some(after) => after.steady
    decreases (ListedBound(db, state.changed, own); own + |Slots(db)| - position)
  {
    hide Sound, KeysStay, NormalStays, Forked, Listed, KeysKept, Ranked, FollowAll, LetsAct, TurnSettled, Steps;
    if position < |state.changed| {
      var item, now := state.changed[position], state.(turn := position);
      var more := ranks;
      TurnSteps(db, state, own, position);
      OneTableAName(db);
      if item.was.Some? {
        ItemLets(db, now, own, ranks, way);
        more := FollowAllRanked(db, now, own, ranks, way, item.table, item.was.value, item.now,
                                Referencing(db.tables, item.table.name));
      }
      var next := Turn(db, state, own, position);
      if next.Some? {
        StepsGrows(db, now, next.value, own);
        ListedBound(db, next.value.changed, own);
        if position + 1 < |next.value.changed| {
          RankedNext(db, next.value, own, more, way);
        }
        WalkForkless(db, next.value, own, position + 1, more, way);
      }
    }
  }

  lemma RankedNext(db: Database, state: State, own: nat, ranks: seq<nat>, way: Way)
    requires Ranked(db, state, own, ranks, way) && state.turn + 1 < |state.changed|
    ensures Ranked(db, state.(turn := state.turn + 1), own, ranks, way)
  {
    hide Reached, Touched;
  }

  lemma OwnRanked(db: Database, own: seq<Changed>)
    requires own != [] && Uniform(own) && forall i :: 0 <= i < |own| ==> own[i].table.name == own[0].table.name
    ensures Ranked(db, State(own, true, 0), |own|, seq(|own|, _ => 0), Way(own[0].now.None?, own[0].table.name))
  {
    hide Referencing;
  }

  /** Without a fork, every statement that is accepted leaves references that all name rows, whatever keys reference,
      and whatever columns they share with one another or, if they give rows no other values, with primary keys. */
  lemma ForklessIntegrity(db: Database, own: seq<Changed>)
    requires Sound(db) && KeysStay(db.tables) && NormalStays(db) && !Forked(db.tables)
    requires Listed(db, own, |own|) && Intact(db, [], 0) && Uniform(own)
    requires forall i :: 0 <= i < |own| ==> own[i].table.name == own[0].table.name
    ensures match Enforced(db, own)
            case None => true
            case Some(state) => Intact(db, state.changed, |own|)
  {
    hide Sound, KeysStay, NormalStays, Forked, Listed, Intact, Walk, Ranked;
    Integrity(db, own);
    if own != [] {
      OwnRanked(db, own);
      WalkForkless(db, State(own, true, 0), |own|, 0, seq(|own|, _ => 0), Way(own[0].now.None?, own[0].table.name));
    }
  }
}
