/** Schemas on which every statement keeps references whole, told from their foreign keys (foreign_key.rs). */
module StraightSchemas {
  import opened Schemas
  import opened ForeignKeys

  predicate Acting(action: Action) {
    action != NoAction && action != Restrict
  }

  /** Whether a key ever changes a row of its own table. */
  predicate Acts(key: ForeignKey) {
    Acting(key.onDelete) || Acting(key.onUpdate)
  }

  /** Whether a key ever gives a row of its own table other values, rather than delete it. */
  predicate Rewrites(key: ForeignKey) {
    key.onDelete == SetNull || key.onDelete == SetDefault || Acting(key.onUpdate)
  }

  /** Whether some key changes rows of a table. */
  ghost predicate ActedOn(tables: seq<Table>, name: Name) {
    exists table, key :: table in tables && table.name == name && key in table.foreignKeys && Acts(key)
  }

  /** At most one of a table's keys acts. */
  ghost predicate Lone(table: Table) {
    forall i, j :: 0 <= i < j < |table.foreignKeys| && Acts(table.foreignKeys[i]) ==> !Acts(table.foreignKeys[j])
  }

  /** Those of a table's keys that act reference tables whose own rows no key changes. */
  ghost predicate Shallow(tables: seq<Table>, table: Table) {
    forall key :: key in table.foreignKeys && Acts(key) ==> !ActedOn(tables, key.references)
  }

  ghost predicate KeyStays(table: Table) {
    forall key, column :: key in table.foreignKeys && Rewrites(key) && column in key.columns ==>
      column !in table.primaryKey
  }

  ghost predicate NormalKeeps(db: Database) {
    forall table, row :: table in db.tables && db.normalize(table, row).Some? ==>
      Key(table, db.normalize(table, row).value) == Key(table, row)
  }

  /** A schema whose actions are always steady: of each table that some key references, one key acts at most, or those
      that act do so only for a statement's own changes; and no key that rewrites rows has columns in its table's
      primary key. Keys that only refuse, as NO ACTION and RESTRICT do, are as many as they may be. */
  ghost predicate Straight(db: Database) {
    && (forall table :: table in db.tables && IsReferenced(db, table.name) ==> Lone(table) || Shallow(db.tables, table))
    && (forall table :: table in db.tables ==> KeyStays(table))
    && NormalKeeps(db)
  }

  lemma {:induction false} RewrittenKey(table: Table, key: ForeignKey, action: Action, values: Option<seq<Value>>,
                                        row: Row, n: nat)
    requires n <= |key.columns| && (values.Some? ==> |values.value| == |key.columns|)
    requires forall column :: column in key.columns ==> column !in table.primaryKey
    ensures Key(table, Rewritten(table, key, action, values, row, n)) == Key(table, row)
  {
    if n > 0 {
      RewrittenKey(table, key, action, values, row, n - 1);
      var before := Rewritten(table, key, action, values, row, n - 1);
      var next := Rewritten(table, key, action, values, row, n);
      assert key.columns[n - 1] in key.columns;
      forall i | 0 <= i < |table.primaryKey|
        ensures Get(next, table.primaryKey[i]) == Get(before, table.primaryKey[i])
      {
        assert table.primaryKey[i] in table.primaryKey;
      }
    }
  }

  lemma RewriteKeeps(db: Database, child: Table, key: ForeignKey, action: Action, values: Option<seq<Value>>, base: Row)
    requires NormalKeeps(db) && KeyStays(child) && child in db.tables && key in child.foreignKeys && Rewrites(key)
    requires values.Some? ==> |values.value| == |key.columns|
    ensures var next := db.normalize(child, Rewritten(child, key, action, values, base, |key.columns|));
            next.Some? ==> Key(child, next.value) == Key(child, base)
  {
    RewrittenKey(child, key, action, values, base, |key.columns|);
  }

  /** No action has listed any of the rows yet. */
  ghost predicate Fresh(changed: seq<Changed>, own: nat, name: Name, rows: seq<Row>) {
    forall i, row :: own <= i < |changed| && row in rows ==> !Replaces(changed[i], name, row)
  }

  /** The changes list no more than changes to `rows`. */
  ghost predicate Lists(before: seq<Changed>, after: seq<Changed>, table: Table, rows: seq<Row>) {
    && |before| <= |after|
    && forall i :: |before| <= i < |after| ==>
         after[i].table == table && after[i].was.Some? && after[i].was.value in rows
  }

  /** Whether an action on rows of `child` comes before any change of that table has its turn. */
  ghost predicate InTime(state: State, own: nat, child: Table) {
    state.turn < own <= |state.changed| &&
    forall q :: 0 <= q <= state.turn ==> state.changed[q].table.name != child.name
  }

  /** What an action may rely on: the row it meets is not listed by an action, or comes in time. */
  ghost predicate Safe(db: Database, state: State, own: nat, child: Table, rows: seq<Row>) {
    IsReferenced(db, child.name) ==> Fresh(state.changed, own, child.name, rows) || InTime(state, own, child)
  }

  lemma RevisitIdle(db: Database, state: State, own: nat, reference: Reference, action: Action,
                    values: Option<seq<Value>>, rows: seq<Row>)
    requires values.Some? ==> |values.value| == |reference.1.columns|
    requires !Acting(action)
    ensures RevisitAll(db, state, own, reference, action, values, rows) in {None, Some(state)}
    decreases |rows|
  {
    if rows != [] {
      RevisitIdle(db, state, own, reference, action, values, rows[1..]);
    }
  }

  lemma RevisitSteady(db: Database, state: State, own: nat, reference: Reference, action: Action,
                      values: Option<seq<Value>>, row: Row)
    requires values.Some? ==> |values.value| == |reference.1.columns|
    requires Sound(db) && NormalKeeps(db) && Listed(db, state.changed, own) && state.steady &&
             KeysKept(state.changed, own)
    requires reference.0 in db.tables && reference.1 in reference.0.foreignKeys && row in db.Rows(reference.0.name)
    requires KeyStays(reference.0) && Acting(action) &&
             action == (if values.Some? then reference.1.onUpdate else reference.1.onDelete)
    requires Safe(db, state, own, reference.0, [row])
    ensures match Revisit(db, state, own, reference, action, values, row)
            case None => true
            case Some(after) => after.steady && Lists(state.changed, after.changed, reference.0, [row])
  {
    var (child, key) := reference;
    hide Listed, Sound, KeysKept, Fresh, Rewritten, Find, Key, Harmless, KeyStays, NormalKeeps, Early;
    var found := Find(state.changed, child.name, row);
    if found.Some? && (found.value < own || state.changed[found.value].now.None?) {
    } else {
      var base := if found.Some? then state.changed[found.value].now.value else row;
      BaseKey(db, state.changed, own, child, row);
      if !(action == Cascade && values.None?) {
        RewriteKeeps(db, child, key, action, values, base);
      }
      AlwaysHarmless(db, child, base);
      if IsReferenced(db, child.name) && found.Some? {
        NotListed(state.changed, own, child.name, row);
        SafeEarly(db, state, own, child, row, base);
      }
    }
  }

  lemma SafeEarly(db: Database, state: State, own: nat, child: Table, row: Row, base: Row)
    requires Find(state.changed, child.name, row).Some? && own <= Find(state.changed, child.name, row).value
    requires InTime(state, own, child)
    ensures Early(db, state, Find(state.changed, child.name, row).value, row, base)
  {
  }

  lemma NotListed(changed: seq<Changed>, own: nat, name: Name, row: Row)
    ensures Fresh(changed, own, name, [row]) && Find(changed, name, row).Some? ==> Find(changed, name, row).value < own
  {
    assert row in [row];
  }

  lemma AlwaysHarmless(db: Database, table: Table, row: Row)
    ensures !IsReferenced(db, table.name) ==> forall next :: Harmless(db, table, row, next)
  {
  }

  lemma BaseKey(db: Database, changed: seq<Changed>, own: nat, table: Table, row: Row)
    requires Sound(db) && Listed(db, changed, own) && KeysKept(changed, own) && table in db.tables
    ensures var found := Find(changed, table.name, row);
            found.Some? && own <= found.value && changed[found.value].now.Some? ==>
              Key(table, changed[found.value].now.value) == Key(table, row)
  {
    var found := Find(changed, table.name, row);
    if found.Some? {
      SameTable(db, changed, own, found.value, table);
    }
  }

  lemma {:induction false} RevisitAllSteady(db: Database, state: State, own: nat, reference: Reference, action: Action,
                                            values: Option<seq<Value>>, rows: seq<Row>)
    requires values.Some? ==> |values.value| == |reference.1.columns|
    requires Sound(db) && NormalKeeps(db) && Listed(db, state.changed, own) && state.steady &&
             KeysKept(state.changed, own)
    requires state.turn < |state.changed|
    requires reference.0 in db.tables && reference.1 in reference.0.foreignKeys && OneRowAKey(reference.0, rows)
    requires KeyStays(reference.0) && Acting(action) &&
             action == (if values.Some? then reference.1.onUpdate else reference.1.onDelete)
    requires forall row :: row in rows ==> row in db.Rows(reference.0.name)
    requires Safe(db, state, own, reference.0, rows)
    ensures match RevisitAll(db, state, own, reference, action, values, rows)
            case None => true
            case Some(after) => after.steady && Lists(state.changed, after.changed, reference.0, rows)
    decreases |rows|
  {
    hide Sound, Listed, KeysKept, Revisit, Steps, NormalKeeps, KeyStays;
    if rows != [] {
      SafeFirst(db, state, own, reference.0, rows);
      RevisitSteady(db, state, own, reference, action, values, rows[0]);
      RevisitSteps(db, state, own, reference, action, values, rows[0]);
      var next := Revisit(db, state, own, reference, action, values, rows[0]);
      if next.Some? {
        StepsGrows(db, state, next.value, own);
        StillSafe(db, state, next.value, own, reference.0, rows);
        RevisitAllSteady(db, next.value, own, reference, action, values, rows[1..]);
        var after := RevisitAll(db, next.value, own, reference, action, values, rows[1..]);
        if after.Some? {
          RevisitAllSteps(db, next.value, own, reference, action, values, rows[1..]);
          StepsGrows(db, next.value, after.value, own);
        }
      }
    }
  }

  lemma SafeFirst(db: Database, state: State, own: nat, child: Table, rows: seq<Row>)
    requires Safe(db, state, own, child, rows) && rows != []
    ensures Safe(db, state, own, child, [rows[0]])
  {
    assert forall row :: row in [rows[0]] ==> row in rows;
  }

  lemma StillSafe(db: Database, before: State, after: State, own: nat, table: Table, rows: seq<Row>)
    requires Grows(before.changed, after.changed, own) && rows != [] && OneRowAKey(table, rows)
    requires Safe(db, before, own, table, rows) && after.turn == before.turn
    requires Lists(before.changed, after.changed, table, [rows[0]])
    ensures Safe(db, after, own, table, rows[1..])
  {
    if IsReferenced(db, table.name) && Fresh(before.changed, own, table.name, rows) {
      StillFresh(before.changed, after.changed, own, table, rows);
    }
  }

  lemma StillFresh(before: seq<Changed>, after: seq<Changed>, own: nat, table: Table, rows: seq<Row>)
    requires Grows(before, after, own) && rows != [] && OneRowAKey(table, rows) && Fresh(before, own, table.name, rows)
    requires Lists(before, after, table, [rows[0]])
    ensures Fresh(after, own, table.name, rows[1..])
  {
    hide Key;
    forall i, row | own <= i < |after| && row in rows[1..] ensures !Replaces(after[i], table.name, row) {
      assert row in rows;
      if i < |before| {
        assert !Replaces(before[i], table.name, row);
      } else {
        assert after[i].was.value in [rows[0]];
        var k :| 0 <= k < |rows[1..]| && rows[1..][k] == row;
        assert rows[k + 1] == row && rows[0] != rows[k + 1];
      }
    }
  }

  /** Whether the row of one change refers to that of another by a key that acts. */
  ghost predicate Linked(changed: seq<Changed>, i: nat, q: nat) {
    && i < |changed| && q < |changed| && changed[i].was.Some? && changed[q].was.Some?
    && exists key :: key in changed[i].table.foreignKeys && Acts(key) && key.references == changed[q].table.name &&
         RefersTo(changed[i].was.value, key, changed[q].was.value)
  }

  ghost predicate LinkedTo(changed: seq<Changed>, i: nat, position: nat) {
    exists q :: 0 <= q < position && Linked(changed, i, q)
  }

  /** A row that an action listed refers to a change whose turn is over, or to the one whose turn it is by a key that is
      no longer pending. */
  ghost predicate LinkedBack(changed: seq<Changed>, own: nat, position: nat, pending: seq<Reference>) {
    forall i :: own <= i < |changed| ==>
      || LinkedTo(changed, i, position)
      || (Linked(changed, i, position) &&
          forall r :: r in pending && Acts(r.1) && Lone(r.0) ==> r.0 != changed[i].table)
  }

  ghost predicate NoRepeat(references: seq<Reference>) {
    forall i, j :: 0 <= i < j < |references| && Lone(references[i].0) && Acts(references[i].1) &&
                   Acts(references[j].1) ==>
      references[i].0 != references[j].0
  }

  lemma FreshRows(db: Database, changed: seq<Changed>, own: nat, position: nat, pending: seq<Reference>, rows: seq<Row>)
    requires Sound(db) && Listed(db, changed, own) && LinkedBack(changed, own, position, pending)
    requires position < |changed| && changed[position].was.Some?
    requires pending != [] && Refers(db, pending[0], changed[position].table.name)
    requires Lone(pending[0].0) && Acts(pending[0].1)
    requires forall row :: row in rows ==>
               row in db.Rows(pending[0].0.name) && RefersTo(row, pending[0].1, changed[position].was.value)
    ensures Fresh(changed, own, pending[0].0.name, rows)
  {
    var (child, key) := pending[0];
    assert pending[0] in pending;
    forall i, row | own <= i < |changed| && row in rows ensures !Replaces(changed[i], child.name, row) {
      if changed[i].table.name == child.name {
        SameTable(db, changed, own, i, child);
        var q :| 0 <= q < position && Linked(changed, i, q);
        LinkedElsewhere(db, changed, own, i, q, position, key);
        RowReplaced(db, changed, own, i, row);
      }
    }
  }

  lemma RowReplaced(db: Database, changed: seq<Changed>, own: nat, i: nat, row: Row)
    requires Sound(db) && Listed(db, changed, own) && i < |changed| && row in db.Rows(changed[i].table.name)
    ensures Replaces(changed[i], changed[i].table.name, row) ==> changed[i].was == Some(row)
  {
    assert OneRowAKey(changed[i].table, db.Rows(changed[i].table.name));
  }

  /** A row that refers to one change by the one key that acts refers to no other by that key. */
  lemma LinkedElsewhere(db: Database, changed: seq<Changed>, own: nat, i: nat, q: nat, position: nat, key: ForeignKey)
    requires Sound(db) && Listed(db, changed, own) && q < position < |changed| && changed[position].was.Some?
    requires Linked(changed, i, q) && Lone(changed[i].table) && key in changed[i].table.foreignKeys && Acts(key)
    requires key.references == changed[position].table.name
    ensures !RefersTo(changed[i].was.value, key, changed[position].was.value)
  {
    OneKey(changed[i].table, key);
    assert changed[q].was != changed[position].was;
    assert OneRowAValue(db.Rows(key.references), key.referencedColumns);
  }

  lemma OneKey(table: Table, key: ForeignKey)
    requires Lone(table) && key in table.foreignKeys && Acts(key)
    ensures forall other :: other in table.foreignKeys && Acts(other) ==> other == key
  {
  }

  lemma LinkedGrows(before: seq<Changed>, after: seq<Changed>, own: nat, position: nat, pending: seq<Reference>,
                    rows: seq<Row>)
    requires pending != [] && NoRepeat(pending)
    requires LinkedBack(before, own, position, pending) && Grows(before, after, own)
    requires rows != [] ==> Acts(pending[0].1)
    requires Lists(before, after, pending[0].0, rows)
    requires position < |before| && before[position].was.Some?
    requires pending[0].1 in pending[0].0.foreignKeys && pending[0].1.references == before[position].table.name
    requires forall row :: row in rows ==> RefersTo(row, pending[0].1, before[position].was.value)
    ensures LinkedBack(after, own, position, pending[1..])
  {
    hide RefersTo, Acts, Lone;
    forall i | own <= i < |after|
      ensures LinkedTo(after, i, position) ||
              (Linked(after, i, position) &&
               forall r :: r in pending[1..] && Acts(r.1) && Lone(r.0) ==> r.0 != after[i].table)
    {
      if i < |before| {
        assert forall r :: r in pending[1..] ==> r in pending;
        if q :| 0 <= q < position && Linked(before, i, q) {
          assert Linked(after, i, q);
        }
      } else {
        assert Linked(after, i, position);
      }
    }
  }

  lemma {:induction false} RowsWhereOnce(table: Table, rows: seq<Row>, columns: seq<Column>, values: seq<Value>)
    requires OneRowAKey(table, rows)
    ensures OneRowAKey(table, RowsWhere(rows, columns, values))
  {
    if rows != [] {
      assert OneRowAKey(table, rows[1..]);
      RowsWhereOnce(table, rows[1..], columns, values);
      var rest := RowsWhere(rows[1..], columns, values);
      assert rows[0] !in rest by {
        assert rows[0] !in rows[1..];
      }
    }
  }

  /** What the walk keeps: every change so far steady, each listed row linked, and the statement's own of one table. */
  ghost predicate Walks(db: Database, state: State, own: nat) {
    && Listed(db, state.changed, own) && state.steady && KeysKept(state.changed, own)
    && forall q :: 0 <= q < own ==> state.changed[q].table.name == state.changed[0].table.name
  }

  lemma ActedOnListed(db: Database, changed: seq<Changed>, own: nat, position: nat, pending: seq<Reference>, i: nat)
    requires Listed(db, changed, own) && LinkedBack(changed, own, position, pending) && own <= i < |changed|
    ensures ActedOn(db.tables, changed[i].table.name)
  {
    assert changed[i].table in db.tables;
  }

  /** A row that an action meets is not listed by another, or the action comes in time. */
  lemma RowsSafe(db: Database, state: State, own: nat, pending: seq<Reference>, rows: seq<Row>)
    requires Sound(db) && Straight(db) && Walks(db, state, own) && LinkedBack(state.changed, own, state.turn, pending)
    requires state.turn < |state.changed| && state.changed[state.turn].was.Some?
    requires pending != [] && Refers(db, pending[0], state.changed[state.turn].table.name) && Acts(pending[0].1)
    requires forall row :: row in rows ==>
               row in db.Rows(pending[0].0.name) && RefersTo(row, pending[0].1, state.changed[state.turn].was.value)
    ensures Safe(db, state, own, pending[0].0, rows)
  {
    hide Sound, KeysKept, RefersTo, LinkedBack;
    var (child, key) := pending[0];
    if IsReferenced(db, child.name) {
      if Lone(child) {
        FreshRows(db, state.changed, own, state.turn, pending, rows);
      } else {
        if state.turn >= own {
          ActedOnListed(db, state.changed, own, state.turn, pending, state.turn);
        }
        assert !ActedOn(db.tables, key.references);
        assert ActedOn(db.tables, child.name);
      }
    }
  }

  lemma FollowSteady(db: Database, state: State, own: nat, was: Row, now: Option<Row>, pending: seq<Reference>)
    requires Sound(db) && Straight(db) && Walks(db, state, own)
    requires state.turn < |state.changed| && state.changed[state.turn].was == Some(was)
    requires pending != [] && NoRepeat(pending) && LinkedBack(state.changed, own, state.turn, pending)
    requires Refers(db, pending[0], state.changed[state.turn].table.name)
    requires |pending[0].1.columns| == |pending[0].1.referencedColumns|
    ensures match Follow(db, state, own, state.changed[state.turn].table, was, now, pending[0])
            case None => true
            case Some(after) => Walks(db, after, own) && LinkedBack(after.changed, own, state.turn, pending[1..])
  {
    hide Listed, KeysKept, RevisitAll, Fresh, Lists, LinkedBack, NoRepeat, Survives, Acts, KeyStays, NormalKeeps, Lone,
         Shallow;
    hide Steps, Safe, Sound;
    var (child, key) := pending[0];
    ListsNone(state.changed, child);
    GrowsNone(db, state.changed, own);
    LinkedGrows(state.changed, state.changed, own, state.turn, pending, []);
    if Values(was, key.referencedColumns).Some? {
      var values := Values(was, key.referencedColumns).value;
      var next := if now.None? then None else Some(Cells(now.value, key.referencedColumns));
      var action := if now.Some? then key.onUpdate else key.onDelete;
      var rows := RowsWhere(db.Rows(child.name), key.columns, values);
      if Acting(action) {
        ActsBy(key, action);
        RowsOnce(db, child, key.columns, values);
        RowsSafe(db, state, own, pending, rows);
        RevisitAllSteady(db, state, own, pending[0], action, next, rows);
        RevisitAllSteps(db, state, own, pending[0], action, next, rows);
        var after := RevisitAll(db, state, own, pending[0], action, next, rows);
        if after.Some? {
          StepsGrows(db, state, after.value, own);
          LinkedGrows(state.changed, after.value.changed, own, state.turn, pending, rows);
        }
      } else {
        RevisitIdle(db, state, own, pending[0], action, next, rows);
      }
    }
  }

  lemma ActsBy(key: ForeignKey, action: Action)
    requires Acting(action) && action in {key.onDelete, key.onUpdate}
    ensures Acts(key)
  {
  }

  lemma RowsOnce(db: Database, table: Table, columns: seq<Column>, values: seq<Value>)
    requires Sound(db) && table in db.tables
    ensures OneRowAKey(table, RowsWhere(db.Rows(table.name), columns, values))
  {
    RowsWhereOnce(table, db.Rows(table.name), columns, values);
  }

  lemma ListsNone(changed: seq<Changed>, table: Table)
    ensures Lists(changed, changed, table, [])
  {
  }

  lemma GrowsNone(db: Database, changed: seq<Changed>, own: nat)
    requires Listed(db, changed, own)
    ensures Grows(changed, changed, own)
  {
  }

  lemma {:induction false} FollowAllSteady(db: Database, state: State, own: nat, was: Row, now: Option<Row>,
                                           pending: seq<Reference>)
    requires Sound(db) && Straight(db) && Walks(db, state, own)
    requires state.turn < |state.changed| && state.changed[state.turn].was == Some(was)
    requires NoRepeat(pending) && LinkedBack(state.changed, own, state.turn, pending)
    requires forall r :: r in pending ==>
               Refers(db, r, state.changed[state.turn].table.name) && |r.1.columns| == |r.1.referencedColumns|
    ensures match FollowAll(db, state, own, state.changed[state.turn].table, was, now, pending)
            case None => true
            case Some(after) => Walks(db, after, own) && LinkedBack(after.changed, own, state.turn, [])
    decreases |pending|
  {
    hide Sound, Listed, KeysKept, Straight, Follow, Refers, LinkedBack, Steps, Walks, Acts, Lone;
    if pending != [] {
      var table := state.changed[state.turn].table;
      FollowSteady(db, state, own, was, now, pending);
      WalksListed(db, state, own);
      FollowSteps(db, state, own, table, was, now, pending[0]);
      var next := Follow(db, state, own, table, was, now, pending[0]);
      if next.Some? {
        StepsGrows(db, state, next.value, own);
        FollowAllSteady(db, next.value, own, was, now, pending[1..]);
      }
    } else {
      assert pending == [];
    }
  }

  lemma WalksListed(db: Database, state: State, own: nat)
    requires Walks(db, state, own)
    ensures Listed(db, state.changed, own) && state.steady
  {
  }

  lemma {:induction false} ReferencingNoRepeat(tables: seq<Table>, name: Name)
    requires forall i, j :: 0 <= i < j < |tables| ==> tables[i].name != tables[j].name
    ensures NoRepeat(Referencing(tables, name))
  {
    hide Lone, Acts;
    if tables != [] {
      var first, rest := ReferencesOf(tables[0], tables[0].foreignKeys, name), Referencing(tables[1..], name);
      ReferencingNoRepeat(tables[1..], name);
      ReferencesOnce(tables[0], 0, name);
      assert tables[0].foreignKeys[0..] == tables[0].foreignKeys;
      forall r | r in rest ensures r.0 != tables[0] {
        assert r.0 in tables[1..];
      }
      assert forall i :: 0 <= i < |first| ==> first[i] in first && first[i].0 == tables[0];
      assert forall i :: 0 <= i < |rest| ==> rest[i] in rest;
    }
  }

  lemma {:induction false} ReferencesOnce(table: Table, n: nat, name: Name)
    requires n <= |table.foreignKeys|
    ensures NoRepeat(ReferencesOf(table, table.foreignKeys[n..], name))
    decreases |table.foreignKeys| - n
  {
    hide Acts;
    if n < |table.foreignKeys| {
      ReferencesOnce(table, n + 1, name);
      var keys := table.foreignKeys;
      assert keys[n..][0] == keys[n] && keys[n..][1..] == keys[n + 1..];
      var rest := ReferencesOf(table, keys[n + 1..], name);
      forall j | 0 <= j < |rest| && Lone(table) && Acts(keys[n]) ensures !Acts(rest[j].1) {
        assert rest[j] in rest;
        var k :| 0 <= k < |keys[n + 1..]| && keys[n + 1..][k] == rest[j].1;
        assert keys[n + 1 + k] == rest[j].1;
      }
    }
  }

  ghost predicate LinkedAll(changed: seq<Changed>, own: nat, position: nat) {
    forall i :: own <= i < |changed| ==> LinkedTo(changed, i, position)
  }

  lemma LinkedStart(changed: seq<Changed>, own: nat, position: nat, pending: seq<Reference>)
    requires LinkedAll(changed, own, position)
    ensures LinkedBack(changed, own, position, pending)
  {
  }

  lemma LinkedNext(changed: seq<Changed>, own: nat, position: nat)
    requires LinkedBack(changed, own, position, [])
    ensures LinkedAll(changed, own, position + 1)
  {
    hide Linked;
    var next := position + 1;
    forall i | own <= i < |changed| ensures LinkedTo(changed, i, next) {
      if LinkedTo(changed, i, position) {
        var q :| 0 <= q < position && Linked(changed, i, q);
        assert 0 <= q < next;
      } else {
        assert Linked(changed, i, position);
      }
    }
  }

  lemma {:induction false} WalkSteady(db: Database, state: State, own: nat, position: nat)
    requires Sound(db) && Straight(db) && Walks(db, state, own)
    requires position <= |state.changed| && LinkedAll(state.changed, own, position)
    ensures match Walk(db, state, own, position)
            case None => true
            case Some(after) => after.steady
    decreases (ListedBound(db, state.changed, own); own + |Slots(db)| - position)
  {
    hide Listed, Steps, FollowAll, LinkedBack, LinkedAll, KeysKept, TurnSettled, Straight, Sound;
    if position < |state.changed| {
      var item, now := state.changed[position], state.(turn := position);
      TurnSteps(db, state, own, position);
      LinkedStart(state.changed, own, position, []);
      if item.was.Some? {
        var references := Referencing(db.tables, item.table.name);
        OneTableAName(db);
        ReferencingNoRepeat(db.tables, item.table.name);
        LinkedStart(state.changed, own, position, references);
        FollowAllSteady(db, now, own, item.was.value, item.now, references);
      }
      var next := Turn(db, state, own, position);
      if next.Some? {
        StepsGrows(db, now, next.value, own);
        ListedBound(db, next.value.changed, own);
        LinkedNext(next.value.changed, own, position);
        WalkSteady(db, next.value, own, position + 1);
      }
    }
  }

  lemma OneTableAName(db: Database)
    requires Sound(db)
    ensures forall i, j :: 0 <= i < j < |db.tables| ==> db.tables[i].name != db.tables[j].name
    ensures forall table, key :: table in db.tables && key in table.foreignKeys ==>
              |key.columns| == |key.referencedColumns|
  {
  }

  /** On a straight schema, every statement that is accepted leaves references that all name rows. */
  lemma StraightIntegrity(db: Database, own: seq<Changed>)
    requires Sound(db) && Straight(db) && Listed(db, own, |own|) && Intact(db, [], 0)
    requires forall i :: 0 <= i < |own| ==> own[i].table.name == own[0].table.name
    ensures match Enforced(db, own)
            case None => true
            case Some(state) => Intact(db, state.changed, |own|)
  {
    Integrity(db, own);
    WalkSteady(db, State(own, true, 0), |own|, 0);
  }
}
