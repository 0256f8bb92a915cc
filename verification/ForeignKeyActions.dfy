/** When foreign keys refuse a statement, and what each key does to the rows that refer to what it changes
    (foreign_key.rs). */
module KeyActions {
  import opened Schemas
  import opened ForeignKeys
  import opened StraightSchemas
  import opened ForkedSchemas
  import opened FewReferrers

  /** The action that a key asks for of a change. */
  function Asked(item: Changed, key: ForeignKey): Action {
    if item.now.Some? then key.onUpdate else key.onDelete
  }

  /** Whether a stored row refers by a key to values that a change gives up. */
  ghost predicate GivesUp(db: Database, item: Changed, r: Reference, row: Row) {
    && item.was.Some? && Refers(db, r, item.table.name) && row in db.Rows(r.0.name)
    && Values(row, r.1.columns).Some? && Values(row, r.1.columns) == Values(item.was.value, r.1.referencedColumns)
    && (item.now.Some? ==>
          Cells(item.now.value, r.1.referencedColumns) != Cells(item.was.value, r.1.referencedColumns))
  }

  /** Whether the statement itself changes a row, or it is deleted. */
  ghost predicate Excused(changed: seq<Changed>, own: nat, name: Name, row: Row) {
    exists i :: 0 <= i < |changed| && Replaces(changed[i], name, row) && (i < own || changed[i].now.None?)
  }

  /** Whether a change still holds, somewhere, what it gave up. */
  ghost predicate KeptFor(changed: seq<Changed>, item: Changed, key: ForeignKey)
    requires item.was.Some? && Values(item.was.value, key.referencedColumns).Some?
  {
    Kept(changed, item.table.name, key.referencedColumns, Values(item.was.value, key.referencedColumns).value)
  }

  /** Why a statement is refused for its action: a row is left that refers, by a key that acts with RESTRICT, to values
      that are given up, or by one that does nothing to values that no changed row holds. */
  ghost predicate Blocked(db: Database, changed: seq<Changed>, own: nat, item: Changed, r: Reference, row: Row) {
    && GivesUp(db, item, r, row) && !Excused(changed, own, r.0.name, row)
    && (Asked(item, r.1) == Restrict || (Asked(item, r.1) == NoAction && !KeptFor(changed, item, r.1)))
  }

  /** The values that a change then holds, if it is not a deletion. */
  function Holds(item: Changed, key: ForeignKey): Option<seq<Value>> {
    if item.now.None? then None else Some(Cells(item.now.value, key.referencedColumns))
  }

  /** The values that an action gives the columns of its key. */
  function Given(r: Reference, action: Action, values: Option<seq<Value>>): seq<Value> {
    match action
    case Cascade => if values.Some? then values.value else []
    case SetDefault => Cells(r.0.defaults, r.1.columns)
    case _ => seq(|r.1.columns|, _ => Null)
  }

  /** Whether a key alone says what its columns hold: no other key that gives rows values shares one, and the storage
      takes them as they are. */
  ghost predicate Sole(db: Database, r: Reference) {
    && (forall i, j :: 0 <= i < j < |r.1.columns| ==> r.1.columns[i] != r.1.columns[j])
    && (forall key :: key in r.0.foreignKeys && key != r.1 && Rewrites(key) ==> !Meet(key.columns, r.1.columns))
    && forall row :: db.normalize(r.0, row).Some? ==>
         Cells(db.normalize(r.0, row).value, r.1.columns) == Cells(row, r.1.columns)
  }

  /** Whether a row is listed with what an action gives it. */
  ghost predicate Met(db: Database, changed: seq<Changed>, own: nat, r: Reference, action: Action,
                      values: Option<seq<Value>>, row: Row) {
    && Acting(action) && !(action == Cascade && values.None?)
    && exists i :: own <= i < |changed| && MetAt(db, changed[i], r, action, values, row)
  }

  ghost predicate MetAt(db: Database, item: Changed, r: Reference, action: Action, values: Option<seq<Value>>,
                        row: Row) {
    && Replaces(item, r.0.name, row) && item.now.Some?
    && (Sole(db, r) ==> Cells(item.now.value, r.1.columns) == Given(r, action, values))
  }

  /** Whether a row that refers to what a change gives up is as the key's action has it: the statement changes it
      itself, or it is deleted; or the action gave it its values, or does nothing and the values are held elsewhere. */
  ghost predicate Answered(db: Database, changed: seq<Changed>, own: nat, steady: bool, item: Changed, r: Reference,
                           row: Row) {
    GivesUp(db, item, r, row) ==>
      || Excused(changed, own, r.0.name, row)
      || (Asked(item, r.1) == NoAction && (steady ==> KeptFor(changed, item, r.1)))
      || Met(db, changed, own, r, Asked(item, r.1), Holds(item, r.1), row)
  }

  /** What is deleted stays so, and what a row holds in the columns of a key is spared. */
  ghost predicate Spares(db: Database, before: seq<Changed>, after: seq<Changed>, own: nat, r: Reference, row: Row) {
    && |before| <= |after|
    && forall i :: 0 <= i < |before| ==>
         && (before[i].now.None? ==> after[i].now.None?)
         && (own <= i && Replaces(before[i], r.0.name, row) ==> SparesAt(db, before[i], after[i], r))
  }

  ghost predicate SparesAt(db: Database, before: Changed, after: Changed, r: Reference) {
    Sole(db, r) && before.now.Some? && after.now.Some? ==>
      Cells(after.now.value, r.1.columns) == Cells(before.now.value, r.1.columns)
  }

  lemma SparesNone(db: Database, changed: seq<Changed>, own: nat, r: Reference, row: Row)
    ensures Spares(db, changed, changed, own, r, row)
  {
  }

  lemma SparesTransitive(db: Database, first: seq<Changed>, second: seq<Changed>, third: seq<Changed>, own: nat,
                         r: Reference, row: Row)
    requires Grows(first, second, own)
    requires Spares(db, first, second, own, r, row) && Spares(db, second, third, own, r, row)
    ensures Spares(db, first, third, own, r, row)
  {
    hide Sole, Cells;
    forall i | 0 <= i < |first| && own <= i && Replaces(first[i], r.0.name, row)
      ensures SparesAt(db, first[i], third[i], r)
    {
      assert Replaces(second[i], r.0.name, row);
    }
  }

  /** An action on another row, or of another key, spares a row's values by a key that alone says what they are. */
  lemma RevisitSpares(db: Database, state: State, own: nat, other: Reference, action: Action,
                      values: Option<seq<Value>>, at: Row, r: Reference, row: Row)
    requires values.Some? ==> |values.value| == |other.1.columns|
    requires Sound(db) && Listed(db, state.changed, own) && other.0 in db.tables && at in db.Rows(other.0.name)
    requires other.1 in other.0.foreignKeys && r.0 in db.tables && row in db.Rows(r.0.name)
    requires Acting(action) && !(action == Cascade && values.None?) ==> Rewrites(other.1)
    requires other != r || at != row
    ensures match Revisit(db, state, own, other, action, values, at)
            case None => true
            case Some(after) => Spares(db, state.changed, after.changed, own, r, row)
  {
    hide Listed, Find, Key, Harmless, Early, Sole, Rewritten, Cells, Sound;
    var (child, key) := other;
    var found := Find(state.changed, child.name, at);
    SparesNone(db, state.changed, own, r, row);
    if found.Some? && own <= found.value && state.changed[found.value].now.Some? {
      var i, base := found.value, state.changed[found.value].now.value;
      var next := db.normalize(child, Rewritten(child, key, action, values, base, |key.columns|));
      if Acting(action) && !(action == Cascade && values.None?) && next.Some? {
        var now := state.changed[i].(now := next);
        if Replaces(state.changed[i], r.0.name, row) {
          SameRow(db, state.changed, own, i, child, at, r, row);
          RewriteSpares(db, other, action, values, base, r);
        }
      }
    }
  }

  lemma SameRow(db: Database, changed: seq<Changed>, own: nat, i: nat, child: Table, at: Row, r: Reference, row: Row)
    requires Sound(db) && Listed(db, changed, own) && i < |changed|
    requires child in db.tables && at in db.Rows(child.name) && r.0 in db.tables && row in db.Rows(r.0.name)
    requires Replaces(changed[i], child.name, at) && Replaces(changed[i], r.0.name, row)
    ensures child == r.0 && at == row
  {
    hide Key, Listed, Sound;
    assert changed[i].table.name == child.name == r.0.name;
    SameTable(db, changed, own, i, child);
    SameTable(db, changed, own, i, r.0);
    OwnRow(db, changed, own, i, child.name, at);
    OwnRow(db, changed, own, i, child.name, row);
  }

  lemma RewriteSpares(db: Database, other: Reference, action: Action, values: Option<seq<Value>>, base: Row,
                      r: Reference)
    requires values.Some? ==> |values.value| == |other.1.columns|
    requires other.0 == r.0 && other.1 in r.0.foreignKeys && other.1 != r.1 && Rewrites(other.1)
    ensures var next := db.normalize(r.0, Rewritten(r.0, other.1, action, values, base, |other.1.columns|));
            Sole(db, r) && next.Some? ==> Cells(next.value, r.1.columns) == Cells(base, r.1.columns)
  {
    hide Rewritten, Cells;
    if Sole(db, r) {
      RewrittenCells(r.0, other.1, action, values, base, r.1.columns);
    }
  }

  lemma {:induction false} RevisitAllSpares(db: Database, state: State, own: nat, other: Reference, action: Action,
                                            values: Option<seq<Value>>, rows: seq<Row>, r: Reference, row: Row)
    requires values.Some? ==> |values.value| == |other.1.columns|
    requires Sound(db) && Listed(db, state.changed, own) && state.turn < |state.changed|
    requires other.0 in db.tables && forall at :: at in rows ==> at in db.Rows(other.0.name)
    requires other.1 in other.0.foreignKeys && r.0 in db.tables && row in db.Rows(r.0.name)
    requires Acting(action) && !(action == Cascade && values.None?) ==> Rewrites(other.1)
    requires other != r || row !in rows
    ensures match RevisitAll(db, state, own, other, action, values, rows)
            case None => true
            case Some(after) => Spares(db, state.changed, after.changed, own, r, row)
    decreases |rows|
  {
    hide Listed, Sound, Revisit, Steps, Spares, Acting, Rewrites;
    if rows == [] {
      SparesNone(db, state.changed, own, r, row);
    } else {
      RevisitSpares(db, state, own, other, action, values, rows[0], r, row);
      RevisitSteps(db, state, own, other, action, values, rows[0]);
      var next := Revisit(db, state, own, other, action, values, rows[0]);
      if next.Some? {
        StepsGrows(db, state, next.value, own);
        RevisitAllSpares(db, next.value, own, other, action, values, rows[1..], r, row);
        var after := RevisitAll(db, next.value, own, other, action, values, rows[1..]);
        if after.Some? {
          SparesTransitive(db, state.changed, next.value.changed, after.value.changed, own, r, row);
        }
      }
    }
  }

  lemma FollowSpares(db: Database, state: State, own: nat, parent: Table, was: Row, now: Option<Row>,
                     other: Reference, r: Reference, row: Row)
    requires Sound(db) && Listed(db, state.changed, own) && state.turn < |state.changed|
    requires Refers(db, other, parent.name) && |other.1.columns| == |other.1.referencedColumns|
    requires r.0 in db.tables && row in db.Rows(r.0.name)
    requires other != r || Values(was, r.1.referencedColumns) != Values(row, r.1.columns)
    ensures match Follow(db, state, own, parent, was, now, other)
            case None => true
            case Some(after) => Spares(db, state.changed, after.changed, own, r, row)
  {
    hide Listed, Sound, RevisitAll, Spares, Survives;
    var (child, key) := other;
    SparesNone(db, state.changed, own, r, row);
    if Values(was, key.referencedColumns).Some? {
      var values := Values(was, key.referencedColumns).value;
      var next := if now.None? then None else Some(Cells(now.value, key.referencedColumns));
      var action := if now.Some? then key.onUpdate else key.onDelete;
      RevisitAllSpares(db, state, own, other, action, next, RowsWhere(db.Rows(child.name), key.columns, values), r,
                       row);
    }
  }

  lemma {:induction false} FollowAllSpares(db: Database, state: State, own: nat, parent: Table, was: Row,
                                           now: Option<Row>, references: seq<Reference>, r: Reference, row: Row)
    requires Sound(db) && Listed(db, state.changed, own) && state.turn < |state.changed|
    requires forall s :: s in references ==> Refers(db, s, parent.name) && |s.1.columns| == |s.1.referencedColumns|
    requires r.0 in db.tables && row in db.Rows(r.0.name)
    requires r !in references || Values(was, r.1.referencedColumns) != Values(row, r.1.columns)
    ensures match FollowAll(db, state, own, parent, was, now, references)
            case None => true
            case Some(after) => Spares(db, state.changed, after.changed, own, r, row)
    decreases |references|
  {
    hide Listed, Sound, Follow, Steps, Spares, Values;
    if references == [] {
      SparesNone(db, state.changed, own, r, row);
    } else {
      var first := references[0];
      FollowSpares(db, state, own, parent, was, now, first, r, row);
      FollowSteps(db, state, own, parent, was, now, first);
      var next := Follow(db, state, own, parent, was, now, first);
      if next.Some? {
        StepsGrows(db, state, next.value, own);
        FollowAllSpares(db, next.value, own, parent, was, now, references[1..], r, row);
        var after := FollowAll(db, next.value, own, parent, was, now, references[1..]);
        if after.Some? {
          SparesTransitive(db, state.changed, next.value.changed, after.value.changed, own, r, row);
        }
      }
    }
  }

  lemma ExcusedSpares(db: Database, before: seq<Changed>, after: seq<Changed>, own: nat, r: Reference, row: Row)
    requires Grows(before, after, own) && Spares(db, before, after, own, r, row)
    ensures Excused(before, own, r.0.name, row) ==> Excused(after, own, r.0.name, row)
  {
    hide Key, SparesAt;
    if Excused(before, own, r.0.name, row) {
      var i :| 0 <= i < |before| && Replaces(before[i], r.0.name, row) && (i < own || before[i].now.None?);
      assert Replaces(after[i], r.0.name, row);
    }
  }

  lemma MetSpares(db: Database, before: seq<Changed>, after: seq<Changed>, own: nat, r: Reference, action: Action,
                  values: Option<seq<Value>>, row: Row)
    requires Grows(before, after, own) && Spares(db, before, after, own, r, row)
    requires Met(db, before, own, r, action, values, row)
    ensures Excused(after, own, r.0.name, row) || Met(db, after, own, r, action, values, row)
  {
    hide Key, Sole, Given, Cells;
    var i :| own <= i < |before| && MetAt(db, before[i], r, action, values, row);
    assert Replaces(after[i], r.0.name, row);
    if after[i].now.Some? {
      assert MetAt(db, after[i], r, action, values, row);
    }
  }

  /** What one action makes of a row. */
  lemma RevisitMeets(db: Database, state: State, own: nat, r: Reference, action: Action, values: Option<seq<Value>>,
                     row: Row)
    requires values.Some? ==> |values.value| == |r.1.columns|
    requires Sound(db) && Listed(db, state.changed, own) && r.0 in db.tables && row in db.Rows(r.0.name)
    ensures match Revisit(db, state, own, r, action, values, row)
            case None => true
            case Some(after) =>
              Excused(after.changed, own, r.0.name, row) || Met(db, after.changed, own, r, action, values, row)
  {
    hide Listed, Find, Key, Harmless, Early, Sole, Rewritten, Cells, Sound, Given;
    var (child, key) := r;
    var found := Find(state.changed, child.name, row);
    if found.Some? && (found.value < own || state.changed[found.value].now.None?) {
      assert Replaces(state.changed[found.value], child.name, row);
    } else if Acting(action) {
      var after := Revisit(db, state, own, r, action, values, row);
      if after.Some? {
        var i := if found.Some? then found.value else |state.changed|;
        assert Replaces(after.value.changed[i], child.name, row);
        assert own <= i by {
          hide *;
          ListedOwn(db, state.changed, own);
        }
        if !(action == Cascade && values.None?) {
          var base := if found.Some? then state.changed[found.value].now.value else row;
          GivenCells(db, r, action, values, base);
          assert MetAt(db, after.value.changed[i], r, action, values, row);
        }
      }
    }
  }

  lemma ListedOwn(db: Database, changed: seq<Changed>, own: nat)
    requires Listed(db, changed, own)
    ensures own <= |changed|
  {
  }

  lemma GivenCells(db: Database, r: Reference, action: Action, values: Option<seq<Value>>, base: Row)
    requires values.Some? ==> |values.value| == |r.1.columns|
    requires Acting(action) && !(action == Cascade && values.None?)
    ensures var next := db.normalize(r.0, Rewritten(r.0, r.1, action, values, base, |r.1.columns|));
            Sole(db, r) && next.Some? ==> Cells(next.value, r.1.columns) == Given(r, action, values)
  {
    if Sole(db, r) {
      var next := Rewritten(r.0, r.1, action, values, base, |r.1.columns|);
      forall j | 0 <= j < |r.1.columns| ensures Cells(next, r.1.columns)[j] == Given(r, action, values)[j] {
        RewrittenColumn(r.0, r.1, action, values, base, |r.1.columns|, j);
      }
      assert Cells(next, r.1.columns) == Given(r, action, values);
    }
  }

  lemma {:induction false} RevisitAllMeets(db: Database, state: State, own: nat, r: Reference, action: Action,
                                           values: Option<seq<Value>>, rows: seq<Row>, row: Row)
    requires values.Some? ==> |values.value| == |r.1.columns|
    requires Sound(db) && Listed(db, state.changed, own) && state.turn < |state.changed| && row in rows
    requires r.0 in db.tables && r.1 in r.0.foreignKeys && forall at :: at in rows ==> at in db.Rows(r.0.name)
    requires Acting(action) && !(action == Cascade && values.None?) ==> Rewrites(r.1)
    ensures match RevisitAll(db, state, own, r, action, values, rows)
            case None => true
            case Some(after) =>
              Excused(after.changed, own, r.0.name, row) || Met(db, after.changed, own, r, action, values, row)
    decreases |rows|
  {
    hide Listed, Sound, Revisit, Steps, Spares, Acting, Rewrites, Excused, Met;
    RevisitSteps(db, state, own, r, action, values, rows[0]);
    var next := Revisit(db, state, own, r, action, values, rows[0]);
    if next.Some? {
      StepsGrows(db, state, next.value, own);
      if row in rows[1..] {
        RevisitAllMeets(db, next.value, own, r, action, values, rows[1..], row);
      } else {
        RevisitMeets(db, state, own, r, action, values, row);
        RevisitAllSpares(db, next.value, own, r, action, values, rows[1..], r, row);
        RevisitAllSteps(db, next.value, own, r, action, values, rows[1..]);
        var after := RevisitAll(db, next.value, own, r, action, values, rows[1..]);
        if after.Some? {
          StepsGrows(db, next.value, after.value, own);
          ExcusedSpares(db, next.value.changed, after.value.changed, own, r, row);
          if Met(db, next.value.changed, own, r, action, values, row) {
            MetSpares(db, next.value.changed, after.value.changed, own, r, action, values, row);
          }
        }
      }
    }
  }

  /** One key's part in a change's turn. */
  lemma FollowAnswers(db: Database, state: State, own: nat, q: nat, item: Changed, r: Reference, row: Row)
    requires Sound(db) && Listed(db, state.changed, own) && state.turn < |state.changed| && q < |state.changed|
    requires item.was.Some? && state.changed[q].table == item.table && state.changed[q].was == item.was
    requires Refers(db, r, item.table.name) && |r.1.columns| == |r.1.referencedColumns|
    ensures match Follow(db, state, own, item.table, item.was.value, item.now, r)
            case None => true
            case Some(after) => Answered(db, after.changed, own, after.steady, item, r, row)
  {
    hide Listed, Sound, RevisitAll, Survives, Excused, Met;
    var (child, key) := r;
    if GivesUp(db, item, r, row) {
      var values := Values(item.was.value, key.referencedColumns).value;
      if Asked(item, key) == NoAction && Survives(db, state.changed, item.table.name, key.referencedColumns, values) {
        SurvivesKept(db, state.changed, own, q, r);
      } else {
        var rows := RowsWhere(db.Rows(child.name), key.columns, values);
        RevisitAllMeets(db, state, own, r, Asked(item, key), Holds(item, key), rows, row);
      }
    }
  }

  /** Whether a change is as another to every key that references its table. */
  ghost predicate Like(db: Database, item: Changed, next: Changed) {
    && item.table == next.table && item.was == next.was
    && (|| item.now == next.now
        || (item.now.Some? && next.now.Some? && Alike(db, item.table.name, item.now.value, next.now.value)))
  }

  /** What is answered stays so. */
  lemma AnsweredSteps(db: Database, before: State, after: State, own: nat, q: nat, item: Changed, next: Changed,
                      r: Reference, row: Row)
    requires Sound(db) && Listed(db, before.changed, own) && Steps(db, before, after, own) && q <= before.turn
    requires before.changed[q].table == item.table && before.changed[q].was == item.was && Like(db, item, next)
    requires Spares(db, before.changed, after.changed, own, r, row)
    requires Answered(db, before.changed, own, before.steady, item, r, row)
    ensures Answered(db, after.changed, own, after.steady, next, r, row)
  {
    hide Listed, Sound, Steps, Spares, Excused, Met;
    StepsGrows(db, before, after, own);
    if GivesUp(db, next, r, row) {
      assert GivesUp(db, item, r, row) && Asked(item, r.1) == Asked(next, r.1) && Holds(item, r.1) == Holds(next, r.1);
      ExcusedSpares(db, before.changed, after.changed, own, r, row);
      if Met(db, before.changed, own, r, Asked(item, r.1), Holds(item, r.1), row) {
        MetSpares(db, before.changed, after.changed, own, r, Asked(item, r.1), Holds(item, r.1), row);
      }
      if after.steady && KeptFor(before.changed, item, r.1) {
        KeptSteps(db, before, after, own, q, r);
      }
    }
  }

  lemma KeptSteps(db: Database, before: State, after: State, own: nat, q: nat, r: Reference)
    requires Sound(db) && Listed(db, before.changed, own) && Steps(db, before, after, own) && after.steady
    requires q <= before.turn && before.changed[q].was.Some? && Refers(db, r, before.changed[q].table.name)
    requires Values(before.changed[q].was.value, r.1.referencedColumns).Some?
    requires KeptFor(before.changed, before.changed[q], r.1)
    ensures KeptFor(after.changed, before.changed[q], r.1)
  {
    hide Listed, KeysKept, Sound;
    var item, columns := before.changed[q], r.1.referencedColumns;
    var values := Values(item.was.value, columns).value;
    var i :| 0 <= i < |before.changed| && Leaves(before.changed[i], item.table.name, columns, values);
    HolderNotFree(db, before.changed, own, before.turn, q, i, r);
    assert KeepsAt(db, before.changed[i], after.changed[i]);
    Referenced(db, r, item.table.name);
    assert Leaves(after.changed[i], item.table.name, columns, values);
  }

  lemma {:induction false} FollowAllAnswers(db: Database, state: State, own: nat, item: Changed,
                                            references: seq<Reference>, r: Reference, row: Row)
    requires Sound(db) && Listed(db, state.changed, own) && state.turn < |state.changed| && r in references
    requires item.was.Some? && row in db.Rows(r.0.name)
    requires state.changed[state.turn].table == item.table && state.changed[state.turn].was == item.was
    requires forall s :: s in references ==> Refers(db, s, item.table.name) && |s.1.columns| == |s.1.referencedColumns|
    ensures match FollowAll(db, state, own, item.table, item.was.value, item.now, references)
            case None => true
            case Some(after) => Answered(db, after.changed, own, after.steady, item, r, row)
    decreases |references|
  {
    hide Listed, Sound, Follow, Steps, Spares, Answered, Values;
    var first := references[0];
    FollowSteps(db, state, own, item.table, item.was.value, item.now, first);
    var next := Follow(db, state, own, item.table, item.was.value, item.now, first);
    if next.Some? {
      StepsGrows(db, state, next.value, own);
      if r in references[1..] {
        FollowAllAnswers(db, next.value, own, item, references[1..], r, row);
      } else {
        FollowAnswers(db, state, own, state.turn, item, r, row);
        FollowAllSpares(db, next.value, own, item.table, item.was.value, item.now, references[1..], r, row);
        FollowAllSteps(db, next.value, own, item.table, item.was.value, item.now, references[1..]);
        var after := FollowAll(db, next.value, own, item.table, item.was.value, item.now, references[1..]);
        if after.Some? {
          AnsweredSteps(db, next.value, after.value, own, state.turn, item, item, r, row);
        }
      }
    }
  }

  /** What is answered of a change whose turn has come. */
  ghost predicate TurnAnswered(db: Database, state: State, own: nat, q: nat) {
    q < |state.changed| && (state.steady || q < own ==>
      forall r: Reference, row: Row :: Answered(db, state.changed, own, state.steady, state.changed[q], r, row))
  }

  lemma TurnAnswers(db: Database, state: State, own: nat, position: nat)
    requires Sound(db) && Listed(db, state.changed, own) && position < |state.changed|
    ensures match Turn(db, state, own, position)
            case None => true
            case Some(after) => TurnAnswered(db, after, own, position)
  {
    hide Listed, Sound, FollowAll, Steps, Answered, StillNow, Like;
    var item, now := state.changed[position], state.(turn := position);
    TurnSteps(db, state, own, position);
    var turn := Turn(db, state, own, position);
    if turn.Some? {
      var after := turn.value;
      StepsGrows(db, now, after, own);
      forall r: Reference, row: Row | after.steady || position < own
        ensures Answered(db, after.changed, own, after.steady, after.changed[position], r, row)
      {
        if GivesUp(db, after.changed[position], r, row) {
          var references := Referencing(db.tables, item.table.name);
          KeyWidths(db);
          FollowAllAnswers(db, now, own, item, references, r, row);
          GoneStays(db, now, own, item, references, r, row);
          TurnLike(db, now, after, own, r);
          LikeAnswered(db, after.changed, own, after.steady, item, after.changed[position], r, row);
        } else {
          NotAnswered(db, after.changed, own, after.steady, after.changed[position], r, row);
        }
      }
    }
  }

  lemma GoneStays(db: Database, state: State, own: nat, item: Changed, references: seq<Reference>, r: Reference,
                  row: Row)
    requires Sound(db) && Listed(db, state.changed, own) && state.turn < |state.changed| && item.was.Some?
    requires forall s :: s in references ==> Refers(db, s, item.table.name) && |s.1.columns| == |s.1.referencedColumns|
    requires r.0 in db.tables && row in db.Rows(r.0.name)
    ensures match FollowAll(db, state, own, item.table, item.was.value, item.now, references)
            case None => true
            case Some(after) =>
              && |state.changed| <= |after.changed|
              && forall i :: 0 <= i < |state.changed| && state.changed[i].now.None? ==> after.changed[i].now.None?
  {
    hide FollowAll, Listed, Sound, SparesAt, Key;
    var elsewhere := (r.0, r.1.(references := item.table.name + 1));
    FollowAllSpares(db, state, own, item.table, item.was.value, item.now, references, elsewhere, row);
  }

  lemma KeyWidths(db: Database)
    requires Sound(db)
    ensures forall r: Reference :: r.0 in db.tables && r.1 in r.0.foreignKeys ==>
              |r.1.columns| == |r.1.referencedColumns|
  {
  }

  lemma NotAnswered(db: Database, changed: seq<Changed>, own: nat, steady: bool, item: Changed, r: Reference, row: Row)
    requires !GivesUp(db, item, r, row)
    ensures Answered(db, changed, own, steady, item, r, row)
  {
  }

  lemma LikeAnswered(db: Database, changed: seq<Changed>, own: nat, steady: bool, item: Changed, next: Changed,
                     r: Reference, row: Row)
    requires Like(db, item, next) && Answered(db, changed, own, steady, item, r, row)
    ensures Answered(db, changed, own, steady, next, r, row)
  {
    hide Excused, Met;
    if GivesUp(db, next, r, row) {
      assert GivesUp(db, item, r, row) && Asked(item, r.1) == Asked(next, r.1) && Holds(item, r.1) == Holds(next, r.1);
    }
  }

  /** In its own turn a change stays as it was, to every key that references it. */
  lemma TurnLike(db: Database, before: State, after: State, own: nat, r: Reference)
    requires Steps(db, before, after, own) && (after.steady || before.turn < own)
    requires Refers(db, r, before.changed[before.turn].table.name)
    requires before.changed[before.turn].now.None? ==> after.changed[before.turn].now.None?
    ensures Like(db, before.changed[before.turn], after.changed[before.turn])
  {
    hide Listed, KeysKept;
    Referenced(db, r, before.changed[before.turn].table.name);
    if before.turn >= own {
      assert KeepsAt(db, before.changed[before.turn], after.changed[before.turn]);
    }
  }

  /** A later turn leaves answered what is. */
  lemma TurnAnsweredSteps(db: Database, state: State, own: nat, position: nat, q: nat)
    requires Sound(db) && Listed(db, state.changed, own) && q < position < |state.changed|
    requires TurnAnswered(db, state, own, q)
    ensures match Turn(db, state, own, position)
            case None => true
            case Some(after) => TurnAnswered(db, after, own, q)
  {
    hide Listed, Sound, FollowAll, Steps, Answered, Like, Spares, TurnSettled;
    var item, now := state.changed[position], state.(turn := position);
    TurnSteps(db, state, own, position);
    var turn := Turn(db, state, own, position);
    if turn.Some? {
      var after := turn.value;
      StepsGrows(db, now, after, own);
      forall r: Reference, row: Row | after.steady || q < own
        ensures Answered(db, after.changed, own, after.steady, after.changed[q], r, row)
      {
        if GivesUp(db, after.changed[q], r, row) {
          TurnSpares(db, state, own, position, q, r, row);
          StaysLike(db, now, after, own, q, r, row);
          AnsweredSteps(db, now, after, own, q, state.changed[q], after.changed[q], r, row);
        } else {
          NotAnswered(db, after.changed, own, after.steady, after.changed[q], r, row);
        }
      }
    }
  }

  /** Rows that refer to one changed row do not refer to another. */
  lemma TurnSpares(db: Database, state: State, own: nat, position: nat, q: nat, r: Reference, row: Row)
    requires Sound(db) && Listed(db, state.changed, own) && q < position < |state.changed|
    requires state.changed[q].was.Some? && Refers(db, r, state.changed[q].table.name) && row in db.Rows(r.0.name)
    requires Values(row, r.1.columns).Some?
    requires Values(row, r.1.columns) == Values(state.changed[q].was.value, r.1.referencedColumns)
    ensures match Turn(db, state, own, position)
            case None => true
            case Some(after) => Spares(db, state.changed, after.changed, own, r, row)
  {
    hide Listed, Sound, FollowAll, Spares, Values;
    var item := state.changed[position];
    SparesNone(db, state.changed, own, r, row);
    if item.was.Some? {
      KeyWidths(db);
      if item.table.name == state.changed[q].table.name {
        OtherRow(db, state.changed, own, q, position, r);
      }
      FollowAllSpares(db, state.(turn := position), own, item.table, item.was.value, item.now,
                      Referencing(db.tables, item.table.name), r, row);
    }
  }

  lemma OtherRow(db: Database, changed: seq<Changed>, own: nat, q: nat, position: nat, r: Reference)
    requires Sound(db) && Listed(db, changed, own) && q < position < |changed| && Refers(db, r, changed[q].table.name)
    requires changed[q].was.Some? && changed[position].was.Some? &&
             changed[q].table.name == changed[position].table.name
    requires Values(changed[q].was.value, r.1.referencedColumns).Some?
    ensures Values(changed[position].was.value, r.1.referencedColumns) !=
            Values(changed[q].was.value, r.1.referencedColumns)
  {
    hide Values, Key;
    assert OneRowAValue(db.Rows(changed[q].table.name), r.1.referencedColumns);
  }

  lemma StaysLike(db: Database, before: State, after: State, own: nat, q: nat, r: Reference, row: Row)
    requires Steps(db, before, after, own) && q <= before.turn && (after.steady || q < own)
    requires Refers(db, r, before.changed[q].table.name) && Spares(db, before.changed, after.changed, own, r, row)
    ensures Like(db, before.changed[q], after.changed[q])
  {
    hide Listed, KeysKept, SparesAt;
    Referenced(db, r, before.changed[q].table.name);
    if q >= own {
      assert KeepsAt(db, before.changed[q], after.changed[q]);
    }
  }

  ghost predicate AllAnswered(db: Database, state: State, own: nat) {
    forall q: nat :: q < |state.changed| ==> TurnAnswered(db, state, own, q)
  }

  lemma {:induction false} WalkAnswers(db: Database, state: State, own: nat, position: nat)
    requires Sound(db) && Listed(db, state.changed, own) && position <= |state.changed|
    requires forall q :: 0 <= q < position ==> TurnAnswered(db, state, own, q)
    ensures match Walk(db, state, own, position)
            case None => true
            case Some(after) => AllAnswered(db, after, own)
    decreases (ListedBound(db, state.changed, own); own + |Slots(db)| - position)
  {
    hide Listed, Sound, Steps, Turn, TurnAnswered, TurnSettled;
    if position < |state.changed| {
      TurnSteps(db, state, own, position);
      TurnAnswers(db, state, own, position);
      var next := Turn(db, state, own, position);
      if next.Some? {
        StepsGrows(db, state.(turn := position), next.value, own);
        ListedBound(db, next.value.changed, own);
        forall q | 0 <= q < position + 1 ensures TurnAnswered(db, next.value, own, q) {
          if q < position {
            TurnAnsweredSteps(db, state, own, position, q);
          }
        }
        WalkAnswers(db, next.value, own, position + 1);
      }
    }
  }

  /** Whether a row is listed, after the statement's own changes, with some values in the columns of a key, if the key
      alone says what they are. */
  ghost predicate GivenTo(db: Database, changed: seq<Changed>, own: nat, r: Reference, row: Row, values: seq<Value>) {
    exists i :: own <= i < |changed| && Replaces(changed[i], r.0.name, row) && changed[i].now.Some? &&
      (Sole(db, r) ==> Cells(changed[i].now.value, r.1.columns) == values)
  }

  lemma EnforcedAnswers(db: Database, own: seq<Changed>)
    requires Sound(db) && Listed(db, own, |own|)
    requires forall i :: 0 <= i < |own| ==> own[i].table.name == own[0].table.name
    ensures match Enforced(db, own)
            case None => true
            case Some(state) => AllAnswered(db, state, |own|)
  {
    hide Listed, Sound, Walk, Answered;
    if own == [] || !Involves(db, own[0].table.name) {
      forall q, r: Reference, row: Row | 0 <= q < |own| ensures Answered(db, own, |own|, true, own[q], r, row) {
        NotAnswered(db, own, |own|, true, own[q], r, row);
      }
    } else {
      WalkAnswers(db, State(own, true, 0), |own|, 0);
    }
  }

  lemma GivesWas(db: Database, item: Changed, r: Reference, row: Row)
    requires GivesUp(db, item, r, row)
    ensures item.was.Some? && Values(item.was.value, r.1.referencedColumns).Some?
  {
  }

  lemma AnsweredAt(db: Database, state: State, own: nat, q: nat, r: Reference, row: Row)
    requires TurnAnswered(db, state, own, q) && (state.steady || q < own)
    ensures Answered(db, state.changed, own, state.steady, state.changed[q], r, row)
  {
    hide Answered;
  }

  /** What an accepted statement leaves of every stored row that refers to what a change gives up. The row is one that
      the statement changes itself or that is deleted; or else the key does not act with RESTRICT, nor by deleting it:
      it does nothing, and a changed row holds the values, or the row is listed with what the key's action gives it.
      This is so of the statement's own changes, and of all changes where the actions were steady. */
  lemma ActionsTaken(db: Database, own: seq<Changed>, q: nat, r: Reference, row: Row)
    requires Sound(db) && Listed(db, own, |own|)
    requires forall i :: 0 <= i < |own| ==> own[i].table.name == own[0].table.name
    ensures match Enforced(db, own)
            case None => true
            case Some(state) =>
              q < |state.changed| && (state.steady || q < |own|) && GivesUp(db, state.changed[q], r, row) ==>
                var (item, key) := (state.changed[q], r.1);
                || Excused(state.changed, |own|, r.0.name, row)
                || match Asked(item, key)
                   case Restrict => false
                   case NoAction => state.steady ==> KeptFor(state.changed, item, key)
                   case Cascade => item.now.Some? && GivenTo(db, state.changed, |own|, r, row, Holds(item, key).value)
                   case SetNull => GivenTo(db, state.changed, |own|, r, row, seq(|key.columns|, _ => Null))
                   case SetDefault => GivenTo(db, state.changed, |own|, r, row, Cells(r.0.defaults, key.columns))
  {
    hide Listed, Sound, Excused, Enforced, Sole, GivesUp, TurnAnswered;
    EnforcedAnswers(db, own);
    match Enforced(db, own)
    case None =>
    case Some(state) =>
      if q < |state.changed| && (state.steady || q < |own|) && GivesUp(db, state.changed[q], r, row) {
        GivesWas(db, state.changed[q], r, row);
        AnsweredAt(db, state, |own|, q, r, row);
        var item := state.changed[q];
        if Met(db, state.changed, |own|, r, Asked(item, r.1), Holds(item, r.1), row) {
          var i :| |own| <= i < |state.changed| &&
                   MetAt(db, state.changed[i], r, Asked(item, r.1), Holds(item, r.1), row);
        }
      }
  }

  /** Keys that only refuse leave the list as it is. */
  lemma FollowIdle(db: Database, state: State, own: nat, item: Changed, r: Reference)
    requires item.was.Some? && |r.1.columns| == |r.1.referencedColumns| && !Acting(Asked(item, r.1))
    ensures Follow(db, state, own, item.table, item.was.value, item.now, r) in {None, Some(state)}
  {
    hide RevisitAll, Survives, Values;
    if Values(item.was.value, r.1.referencedColumns).Some? {
      var rows := RowsWhere(db.Rows(r.0.name), r.1.columns, Values(item.was.value, r.1.referencedColumns).value);
      RevisitIdle(db, state, own, r, Asked(item, r.1), Holds(item, r.1), rows);
    }
  }

  /** Where none of them blocks a statement, none refuses it. */
  lemma FollowFree(db: Database, state: State, item: Changed, r: Reference)
    requires item.was.Some? && |r.1.columns| == |r.1.referencedColumns| && !Acting(Asked(item, r.1))
    requires Refers(db, r, item.table.name)
    requires forall row :: !Blocked(db, state.changed, |state.changed|, item, r, row)
    ensures Follow(db, state, |state.changed|, item.table, item.was.value, item.now, r) == Some(state)
  {
    hide RevisitAll, Survives, Excused;
    if Values(item.was.value, r.1.referencedColumns).Some? {
      var values := Values(item.was.value, r.1.referencedColumns).value;
      var rows := RowsWhere(db.Rows(r.0.name), r.1.columns, values);
      if Holds(item, r.1) != Some(values) {
        if Asked(item, r.1) == NoAction && KeptFor(state.changed, item, r.1) {
          KeptSurvives(db, state.changed, item.table.name, r.1.referencedColumns, values);
        } else {
          forall row | row in rows ensures Excused(state.changed, |state.changed|, r.0.name, row) {
            assert GivesUp(db, item, r, row) && !Blocked(db, state.changed, |state.changed|, item, r, row);
          }
          RevisitAllFree(db, state, r, Asked(item, r.1), Holds(item, r.1), rows);
        }
      }
    }
  }

  lemma KeptSurvives(db: Database, changed: seq<Changed>, name: Name, columns: seq<Column>, values: seq<Value>)
    requires Kept(changed, name, columns, values)
    ensures Survives(db, changed, name, columns, values)
  {
  }

  lemma {:induction false} RevisitAllFree(db: Database, state: State, r: Reference, action: Action,
                                          values: Option<seq<Value>>, rows: seq<Row>)
    requires values.Some? ==> |values.value| == |r.1.columns|
    requires forall row :: row in rows ==> Excused(state.changed, |state.changed|, r.0.name, row)
    ensures RevisitAll(db, state, |state.changed|, r, action, values, rows) == Some(state)
    decreases |rows|
  {
    hide Key;
    if rows != [] {
      assert rows[0] in rows && Find(state.changed, r.0.name, rows[0]).Some?;
      RevisitAllFree(db, state, r, action, values, rows[1..]);
    }
  }

  lemma {:induction false} FollowAllRefusing(db: Database, state: State, item: Changed, references: seq<Reference>)
    requires item.was.Some?
    requires forall r :: r in references ==>
               Refers(db, r, item.table.name) && |r.1.columns| == |r.1.referencedColumns| && !Acting(Asked(item, r.1))
    ensures var next := FollowAll(db, state, |state.changed|, item.table, item.was.value, item.now, references);
            && next in {None, Some(state)}
            && ((forall r, row :: r in references ==> !Blocked(db, state.changed, |state.changed|, item, r, row)) ==>
                  next == Some(state))
    decreases |references|
  {
    hide Follow, Blocked;
    if references != [] {
      FollowIdle(db, state, |state.changed|, item, references[0]);
      if forall r, row :: r in references ==> !Blocked(db, state.changed, |state.changed|, item, r, row) {
        FollowFree(db, state, item, references[0]);
      }
      FollowAllRefusing(db, state, item, references[1..]);
    }
  }

  /** No key acts for a statement's changes: each refuses, or does nothing. */
  ghost predicate OnlyRefuse(db: Database, own: seq<Changed>) {
    forall q: nat, r: Reference :: q < |own| && Refers(db, r, own[q].table.name) ==> !Acting(Asked(own[q], r.1))
  }

  ghost predicate NoneBlocked(db: Database, own: seq<Changed>) {
    forall q: nat, r: Reference, row: Row :: q < |own| ==> !Blocked(db, own, |own|, own[q], r, row)
  }

  lemma {:induction false} WalkRefusing(db: Database, own: seq<Changed>, state: State, position: nat)
    requires Sound(db) && Listed(db, own, |own|) && OnlyRefuse(db, own)
    requires state.changed == own && position <= |own|
    ensures match Walk(db, state, |own|, position)
            case None => !NoneBlocked(db, own)
            case Some(after) => after.changed == own && after.steady == state.steady
    decreases (ListedBound(db, state.changed, |own|); |own| + |Slots(db)| - position)
  {
    hide Listed, Sound, Steps, FollowAll, TurnSettled, Blocked;
    if position < |own| {
      var item, now := own[position], state.(turn := position);
      TurnSteps(db, state, |own|, position);
      if item.was.Some? {
        KeyWidths(db);
        FollowAllRefusing(db, now, item, Referencing(db.tables, item.table.name));
      }
      var next := Turn(db, state, |own|, position);
      if next.Some? {
        StepsGrows(db, now, next.value, |own|);
        ListedBound(db, next.value.changed, |own|);
        WalkRefusing(db, own, next.value, position + 1);
        var after := Walk(db, next.value, |own|, position + 1);
      }
    }
  }

  /** Whether no row that the statement leaves refers by a key that acts with RESTRICT to values that it gives up. */
  ghost predicate RestrictsKept(db: Database, own: seq<Changed>) {
    forall q: nat, r: Reference, row: Row ::
      q < |own| && GivesUp(db, own[q], r, row) && Asked(own[q], r.1) == Restrict ==>
        Excused(own, |own|, r.0.name, row)
  }

  /** Where keys only refuse, a statement is accepted if and only if it leaves references that all name rows, and no row
      that it leaves refers by RESTRICT to values that it gives up, though another row may hold them then. */
  lemma RefusesExactly(db: Database, own: seq<Changed>)
    requires Sound(db) && Listed(db, own, |own|) && Intact(db, [], 0) && OnlyRefuse(db, own)
    requires forall i :: 0 <= i < |own| ==> own[i].table.name == own[0].table.name
    ensures Enforced(db, own).Some? <==> Intact(db, own, |own|) && RestrictsKept(db, own)
    ensures Enforced(db, own).Some? ==> Enforced(db, own).value.changed == own
  {
    hide Listed, Sound, Walk, Intact, Checks, Blocked, OnlyRefuse, GivesUp, Excused;
    if own == [] || !Involves(db, own[0].table.name) {
      UninvolvedIntact(db, own);
      Uninvolved(db, own);
    } else {
      WalkRefusing(db, own, State(own, true, 0), 0);
      if Enforced(db, own).Some? {
        Integrity(db, own);
        forall q: nat, r: Reference, row: Row | q < |own| && GivesUp(db, own[q], r, row) &&
                                                Asked(own[q], r.1) == Restrict
          ensures Excused(own, |own|, r.0.name, row)
        {
          ActionsTaken(db, own, q, r, row);
        }
      }
      if Intact(db, own, |own|) && RestrictsKept(db, own) {
        IntactChecks(db, own);
        forall q: nat, r: Reference, row: Row | q < |own| ensures !Blocked(db, own, |own|, own[q], r, row) {
          NotBlocked(db, own, q, r, row);
        }
      }
    }
  }

  lemma Uninvolved(db: Database, own: seq<Changed>)
    requires forall i :: 0 <= i < |own| ==> own[i].table.name == own[0].table.name
    requires own == [] || !Involves(db, own[0].table.name)
    ensures RestrictsKept(db, own)
  {
    hide Excused;
  }

  lemma NotBlocked(db: Database, own: seq<Changed>, q: nat, r: Reference, row: Row)
    requires Sound(db) && Listed(db, own, |own|) && Intact(db, own, |own|) && RestrictsKept(db, own) && q < |own|
    ensures !Blocked(db, own, |own|, own[q], r, row)
  {
    hide Sound, Listed, Takes, RestrictsKept, Excused;
    if Blocked(db, own, |own|, own[q], r, row) {
      if Asked(own[q], r.1) == NoAction {
        var was := own[q].was.value;
        OwnTaken(db, own, q);
        NotHeld(db, own, |own|, r, was);
        NotExcused(own, r.0.name, row);
      } else {
        RestrictsKeptAt(db, own, q, r, row);
      }
    }
  }

  lemma RestrictsKeptAt(db: Database, own: seq<Changed>, q: nat, r: Reference, row: Row)
    requires RestrictsKept(db, own) && q < |own| && GivesUp(db, own[q], r, row) && Asked(own[q], r.1) == Restrict
    ensures Excused(own, |own|, r.0.name, row)
  {
    hide Excused, GivesUp;
  }

  lemma OwnTaken(db: Database, own: seq<Changed>, q: nat)
    requires Listed(db, own, |own|) && q < |own| && own[q].was.Some?
    ensures own[q].was.value in db.Rows(own[q].table.name)
    ensures Taken(own, |own|, own[q].table.name, own[q].was.value)
  {
    assert Takes(own, |own|, q, own[q].was.value);
  }

  lemma NotExcused(own: seq<Changed>, name: Name, row: Row)
    requires !Excused(own, |own|, name, row)
    ensures forall i :: 0 <= i < |own| && own[i].table.name == name ==> !Takes(own, |own|, i, row)
  {
    forall i | 0 <= i < |own| && own[i].table.name == name ensures !Takes(own, |own|, i, row) {
      assert !Replaces(own[i], name, row);
    }
  }

  /** References that all name rows pass the check. */
  lemma IntactChecks(db: Database, own: seq<Changed>)
    requires Sound(db) && Listed(db, own, |own|) && Intact(db, own, |own|)
    ensures Checks(db, own)
  {
    hide Sound, Listed, Intact, Survives, Takes;
    forall i, key | 0 <= i < |own| && own[i].now.Some? && key in own[i].table.foreignKeys
      ensures ChecksKey(db, own, own[i], key)
    {
      if Values(own[i].now.value, key.columns).Some? {
        IntactSurvives(db, own, i, key);
      }
    }
  }

  lemma IntactSurvives(db: Database, own: seq<Changed>, i: nat, key: ForeignKey)
    requires Sound(db) && Listed(db, own, |own|) && Intact(db, own, |own|)
    requires i < |own| && own[i].now.Some? && key in own[i].table.foreignKeys
    requires Values(own[i].now.value, key.columns).Some?
    ensures Survives(db, own, key.references, key.referencedColumns, Values(own[i].now.value, key.columns).value)
  {
    hide Key;
    var values := Values(own[i].now.value, key.columns).value;
    assert own[i].table in db.tables && Has(db, own, |own|, own[i].table.name, own[i].now.value);
    assert Held(db, own, |own|, key.references, key.referencedColumns, values);
    var parent :| Has(db, own, |own|, key.references, parent) && Values(parent, key.referencedColumns) == Some(values);
    if j :| 0 <= j < |own| && own[j].table.name == key.references && own[j].now == Some(parent) {
      assert Leaves(own[j], key.references, key.referencedColumns, values);
    } else {
      var rows := RowsWhere(db.Rows(key.references), key.referencedColumns, values);
      assert parent in rows && rows[0] in rows;
      assert OneRowAValue(db.Rows(key.references), key.referencedColumns);
      assert rows[0] == parent;
      assert Find(own, key.references, parent).None?;
    }
  }

  /** Whether the row a change replaces refers by a key that acts to the one another change replaces. */
  ghost predicate Led(db: Database, changed: seq<Changed>, i: nat, q: nat, r: Reference) {
    && i < |changed| && q < |changed| && changed[i].was.Some? && changed[q].was.Some? && r.0 == changed[i].table
    && Refers(db, r, changed[q].table.name) && Acts(r.1) && Values(changed[i].was.value, r.1.columns).Some?
    && Values(changed[i].was.value, r.1.columns) == Values(changed[q].was.value, r.1.referencedColumns)
  }

  ghost predicate DeletedBy(db: Database, changed: seq<Changed>, i: nat, q: nat, r: Reference) {
    Led(db, changed, i, q, r) && q != i && r.1.onDelete == Cascade && changed[q].now.None?
  }

  /** Columns that no key gives values to, and that the storage takes as they are. */
  ghost predicate Beyond(db: Database, table: Table, columns: seq<Column>) {
    && (forall key :: key in table.foreignKeys && Rewrites(key) ==> !Meet(key.columns, columns))
    && forall row :: db.normalize(table, row).Some? ==>
         Cells(db.normalize(table, row).value, columns) == Cells(row, columns)
  }

  /** Why a row is listed after the statement's own: it refers, by a key that acts, to one that is listed before it. One
      that is deleted refers by a key that cascades to another that is; one that is left has, beyond the columns of keys
      that give rows values, what it had. */
  ghost predicate ExplainedAt(db: Database, changed: seq<Changed>, i: nat)
    requires i < |changed|
  {
    && (exists q: nat, r: Reference :: q < i && Led(db, changed, i, q, r))
    && (changed[i].now.None? ==> exists q: nat, r: Reference :: DeletedBy(db, changed, i, q, r))
    && (changed[i].now.Some? ==> Left(db, changed[i]))
  }

  ghost predicate Left(db: Database, item: Changed)
    requires item.now.Some?
  {
    item.was.Some? && forall columns: seq<Column> :: Beyond(db, item.table, columns) ==>
      Cells(item.now.value, columns) == Cells(item.was.value, columns)
  }

  ghost predicate Explained(db: Database, changed: seq<Changed>, own: nat) {
    forall i :: own <= i < |changed| ==> ExplainedAt(db, changed, i)
  }

  /** Why a statement is refused for one of its changes, as it stood when its turn came: a row blocks it, or the storage
      refuses a row. */
  ghost predicate Reason(db: Database, own: seq<Changed>, seen: seq<Changed>, q: nat, item: Changed, r: Reference,
                         row: Row) {
    && Listed(db, seen, |own|) && Grows(own, seen, |own|) && Explained(db, seen, |own|)
    && q < |seen| && item.table == seen[q].table && item.was == seen[q].was && (q < |own| ==> item == own[q])
    && GivesUp(db, item, r, row) && !Excused(seen, |own|, r.0.name, row)
    && (Blocked(db, seen, |own|, item, r, row) || exists next :: db.normalize(r.0, next).None?)
  }

  ghost predicate Refused(db: Database, own: seq<Changed>) {
    exists seen, q: nat, item, r, row :: Reason(db, own, seen, q, item, r, row)
  }

  /** A list that comes of a statement, at the turn of one of its changes. */
  ghost predicate Stems(db: Database, own: seq<Changed>, state: State, item: Changed) {
    && Listed(db, state.changed, |own|) && Grows(own, state.changed, |own|) && Explained(db, state.changed, |own|)
    && state.turn < |state.changed|
    && AtTurn(own, state.changed[state.turn], state.turn, item)
  }

  ghost predicate AtTurn(own: seq<Changed>, now: Changed, turn: nat, item: Changed) {
    && item.table == now.table && item.was == now.was && (item.now.None? ==> now.now.None?)
    && (turn < |own| ==> item == own[turn])
  }

  lemma LedGrows(db: Database, before: seq<Changed>, after: seq<Changed>, own: nat, i: nat, q: nat, r: Reference)
    requires Grows(before, after, own) && Led(db, before, i, q, r)
    ensures Led(db, after, i, q, r)
  {
    hide Values, Acts;
  }

  lemma ExplainedGrows(db: Database, before: seq<Changed>, after: seq<Changed>, own: nat, i: nat)
    requires Grows(before, after, own) && i < |before| && ExplainedAt(db, before, i)
    requires after[i].now == before[i].now
    requires forall j :: 0 <= j < |before| && before[j].now.None? ==> after[j].now.None?
    ensures ExplainedAt(db, after, i)
  {
    hide Led, Left;
    var q: nat, r: Reference :| q < i && Led(db, before, i, q, r);
    LedGrows(db, before, after, own, i, q, r);
    if before[i].now.None? {
      var p: nat, s: Reference :| DeletedBy(db, before, i, p, s);
      LedAt(db, before, i, p, s);
      LedGrows(db, before, after, own, i, p, s);
      assert DeletedBy(db, after, i, p, s);
    } else {
      assert Left(db, after[i]) by { LeftSame(db, before[i], after[i]); LedAt(db, before, i, q, r); }
    }
  }

  lemma LedAt(db: Database, changed: seq<Changed>, i: nat, q: nat, r: Reference)
    requires Led(db, changed, i, q, r)
    ensures i < |changed| && q < |changed|
  {
  }

  lemma LeftSame(db: Database, before: Changed, after: Changed)
    requires before.now.Some? && Left(db, before) && before == after
    ensures Left(db, after)
  {
  }

  lemma GrowsOn(first: seq<Changed>, second: seq<Changed>, third: seq<Changed>, own: nat)
    requires Grows(first, second, own) && Grows(second, third, own)
    ensures Grows(first, third, own)
  {
  }

  /** What an action does stems from the change whose turn it is. */
  lemma PutStems(db: Database, own: seq<Changed>, state: State, item: Changed, r: Reference, row: Row, base: Row,
                 next: Option<Row>)
    requires Sound(db) && Stems(db, own, state, item) && GivesUp(db, item, r, row) && Acts(r.1)
    requires match Find(state.changed, r.0.name, row)
             case None => base == row
             case Some(i) => |own| <= i && state.changed[i].now == Some(base)
    requires next.None? ==> r.1.onDelete == Cascade && item.now.None?
    requires next.Some? ==> KeepsBeyond(db, r.0, base, next.value)
    ensures Stems(db, own, Put(db, state, Find(state.changed, r.0.name, row), r.0, row, base, next), item)
  {
    hide Listed, Sound, Harmless, Early, Values, Acts, Beyond, Explained, Key;
    var found := Find(state.changed, r.0.name, row);
    var after := Put(db, state, found, r.0, row, base, next);
    PutSteps(db, state, |own|, r.0, row, base, next);
    StepsGrows(db, state, after, |own|);
    GrowsOn(own, state.changed, after.changed, |own|);
    FoundRow(db, state.changed, |own|, r.0, row);
    var i := if found.Some? then found.value else |state.changed|;
    PutExplains(db, own, state, item, r, row, base, next, after.changed, i);
  }

  ghost predicate KeepsBeyond(db: Database, table: Table, base: Row, next: Row) {
    forall columns: seq<Column> :: Beyond(db, table, columns) ==> Cells(next, columns) == Cells(base, columns)
  }

  lemma PutExplains(db: Database, own: seq<Changed>, state: State, item: Changed, r: Reference, row: Row, base: Row,
                    next: Option<Row>, after: seq<Changed>, i: nat)
    requires Stems(db, own, state, item) && GivesUp(db, item, r, row) && Acts(r.1)
    requires Grows(state.changed, after, |own|) && |own| <= i < |after| && after[i] == Changed(r.0, Some(row), next)
    requires i <= |state.changed| && |after| == if i < |state.changed| then |state.changed| else |state.changed| + 1
    requires i < |state.changed| ==> state.changed[i] == Changed(r.0, Some(row), Some(base))
    requires i == |state.changed| ==> base == row
    requires forall j :: 0 <= j < |state.changed| && j != i ==> after[j] == state.changed[j]
    requires next.None? ==> r.1.onDelete == Cascade && item.now.None?
    requires next.Some? ==> KeepsBeyond(db, r.0, base, next.value)
    ensures Explained(db, after, |own|)
  {
    hide Listed, Values, Acts, Beyond, DeletedBy;
    assert Led(db, after, i, state.turn, r);
    forall j | |own| <= j < |after| ensures ExplainedAt(db, after, j) {
      if j != i {
        hide Led, Left;
        ExplainedGrows(db, state.changed, after, |own|, j);
      } else {
        if i < |state.changed| {
          assert ExplainedAt(db, state.changed, i);
          var q: nat, s: Reference :| q < i && Led(db, state.changed, i, q, s);
          LedGrows(db, state.changed, after, |own|, i, q, s);
        }
        if next.None? {
          DeletedAt(db, after, i, state.turn, r);
        } else {
          assert Left(db, after[i]);
        }
      }
    }
  }

  lemma DeletedAt(db: Database, changed: seq<Changed>, i: nat, q: nat, r: Reference)
    requires Led(db, changed, i, q, r) && q != i && r.1.onDelete == Cascade && changed[q].now.None?
    ensures DeletedBy(db, changed, i, q, r)
  {
  }

  lemma RewriteBeyond(db: Database, r: Reference, action: Action, values: Option<seq<Value>>, base: Row)
    requires values.Some? ==> |values.value| == |r.1.columns|
    requires r.1 in r.0.foreignKeys && Rewrites(r.1)
    ensures var next := db.normalize(r.0, Rewritten(r.0, r.1, action, values, base, |r.1.columns|));
            next.Some? ==> KeepsBeyond(db, r.0, base, next.value)
  {
    hide Rewritten, Cells;
    forall columns: seq<Column> | Beyond(db, r.0, columns)
      ensures Cells(Rewritten(r.0, r.1, action, values, base, |r.1.columns|), columns) == Cells(base, columns)
    {
      RewrittenCells(r.0, r.1, action, values, base, columns);
    }
  }

  /** One row's part: what an action makes of it stems from the change, or there is a reason to refuse. */
  lemma RevisitStems(db: Database, own: seq<Changed>, state: State, item: Changed, r: Reference, row: Row)
    requires Sound(db) && Stems(db, own, state, item) && GivesUp(db, item, r, row)
    requires |r.1.columns| == |r.1.referencedColumns|
    requires Asked(item, r.1) == NoAction ==> !KeptFor(state.changed, item, r.1)
    ensures match Revisit(db, state, |own|, r, Asked(item, r.1), Holds(item, r.1), row)
            case None => Refused(db, own)
            case Some(after) => Stems(db, own, after, item) && (!Acting(Asked(item, r.1)) ==> after == state)
  {
    hide Listed, Sound, Harmless, Early, Values, Explained, Key, Rewritten, Put, KeptFor;
    var (child, key) := r;
    var action, values := Asked(item, key), Holds(item, key);
    var found := Find(state.changed, child.name, row);
    if found.Some? && (found.value < |own| || state.changed[found.value].now.None?) {
    } else {
      NotExcusedFound(db, own, state.changed, child, row);
      if !Acting(action) {
        assert Blocked(db, state.changed, |own|, item, r, row);
        assert Reason(db, own, state.changed, state.turn, item, r, row);
      } else {
        var base := if found.Some? then state.changed[found.value].now.value else row;
        if action == Cascade && values.None? {
          PutStems(db, own, state, item, r, row, base, None);
        } else {
          RewriteBeyond(db, r, action, values, base);
          var rewritten := Rewritten(child, key, action, values, base, |key.columns|);
          var next := db.normalize(child, rewritten);
          if next.Some? {
            PutStems(db, own, state, item, r, row, base, next);
          } else {
            assert Reason(db, own, state.changed, state.turn, item, r, row);
          }
        }
      }
    }
  }

  lemma NotExcusedFound(db: Database, own: seq<Changed>, changed: seq<Changed>, child: Table, row: Row)
    requires Sound(db) && Listed(db, changed, |own|) && child in db.tables && row in db.Rows(child.name)
    requires match Find(changed, child.name, row)
             case None => true
             case Some(i) => |own| <= i && changed[i].now.Some?
    ensures !Excused(changed, |own|, child.name, row)
  {
    hide Key, Sound, Listed;
    if Excused(changed, |own|, child.name, row) {
      var j :| 0 <= j < |changed| && Replaces(changed[j], child.name, row) && (j < |own| || changed[j].now.None?);
      var i := Find(changed, child.name, row).value;
      OneChange(db, changed, |own|, i, j, child.name, row);
    }
  }

  lemma OneChange(db: Database, changed: seq<Changed>, own: nat, i: nat, j: nat, name: Name, row: Row)
    requires Sound(db) && Listed(db, changed, own) && row in db.Rows(name) && i < |changed| && j < |changed|
    requires Replaces(changed[i], name, row) && Replaces(changed[j], name, row)
    ensures i == j
  {
    OwnRow(db, changed, own, i, name, row);
    OwnRow(db, changed, own, j, name, row);
    hide Sound, Key;
    ListedOnce(db, changed, own, i, j);
  }

  lemma ListedOnce(db: Database, changed: seq<Changed>, own: nat, i: nat, j: nat)
    requires Listed(db, changed, own) && i < |changed| && j < |changed| && changed[i].was.Some?
    requires changed[i].table.name == changed[j].table.name && changed[i].was == changed[j].was
    ensures i == j
  {
  }

  lemma {:induction false} RevisitAllStems(db: Database, own: seq<Changed>, state: State, item: Changed, r: Reference,
                                           rows: seq<Row>)
    requires Sound(db) && Stems(db, own, state, item) && forall row :: row in rows ==> GivesUp(db, item, r, row)
    requires item.was.Some? && Values(item.was.value, r.1.referencedColumns).Some?
    requires |r.1.columns| == |r.1.referencedColumns|
    requires Asked(item, r.1) == NoAction ==> !KeptFor(state.changed, item, r.1)
    ensures match RevisitAll(db, state, |own|, r, Asked(item, r.1), Holds(item, r.1), rows)
            case None => Refused(db, own)
            case Some(after) => Stems(db, own, after, item)
    decreases |rows|
  {
    hide Sound, Revisit, Stems, GivesUp, Refused, KeptFor;
    if rows != [] {
      assert rows[0] in rows;
      RevisitStems(db, own, state, item, r, rows[0]);
      var next := Revisit(db, state, |own|, r, Asked(item, r.1), Holds(item, r.1), rows[0]);
      if next.Some? {
        RevisitAllStems(db, own, next.value, item, r, rows[1..]);
      }
    }
  }

  lemma FollowStems(db: Database, own: seq<Changed>, state: State, item: Changed, r: Reference)
    requires Sound(db) && Stems(db, own, state, item) && item.was.Some? && Refers(db, r, item.table.name)
    requires |r.1.columns| == |r.1.referencedColumns|
    ensures match Follow(db, state, |own|, item.table, item.was.value, item.now, r)
            case None => Refused(db, own)
            case Some(after) => Stems(db, own, after, item)
  {
    hide Sound, RevisitAll, Stems, Refused, Survives;
    if Values(item.was.value, r.1.referencedColumns).Some? {
      var values := Values(item.was.value, r.1.referencedColumns).value;
      if Holds(item, r.1) != Some(values) {
        if KeptFor(state.changed, item, r.1) {
          KeptSurvives(db, state.changed, item.table.name, r.1.referencedColumns, values);
        }
        var rows := RowsWhere(db.Rows(r.0.name), r.1.columns, values);
        if !(Asked(item, r.1) == NoAction && KeptFor(state.changed, item, r.1)) {
          RevisitAllStems(db, own, state, item, r, rows);
        }
      }
    }
  }

  lemma {:induction false} FollowAllStems(db: Database, own: seq<Changed>, state: State, item: Changed,
                                          references: seq<Reference>)
    requires Sound(db) && Stems(db, own, state, item) && item.was.Some?
    requires forall r :: r in references ==> Refers(db, r, item.table.name) && |r.1.columns| == |r.1.referencedColumns|
    ensures match FollowAll(db, state, |own|, item.table, item.was.value, item.now, references)
            case None => Refused(db, own)
            case Some(after) => Stems(db, own, after, item)
    decreases |references|
  {
    hide Sound, Follow, Stems, Refused;
    if references != [] {
      FollowStems(db, own, state, item, references[0]);
      var next := Follow(db, state, |own|, item.table, item.was.value, item.now, references[0]);
      if next.Some? {
        FollowAllStems(db, own, next.value, item, references[1..]);
      }
    }
  }

  lemma {:induction false} WalkStems(db: Database, own: seq<Changed>, state: State, position: nat)
    requires Sound(db) && Listed(db, state.changed, |own|) && Grows(own, state.changed, |own|)
    requires Explained(db, state.changed, |own|) && position <= |state.changed|
    ensures match Walk(db, state, |own|, position)
            case None => Refused(db, own)
            case Some(after) => Explained(db, after.changed, |own|) && Grows(own, after.changed, |own|)
    decreases (ListedBound(db, state.changed, |own|); |own| + |Slots(db)| - position)
  {
    hide Listed, Sound, Steps, FollowAll, TurnSettled, Refused, Explained;
    if position < |state.changed| {
      var item, now := state.changed[position], state.(turn := position);
      TurnSteps(db, state, |own|, position);
      if item.was.Some? {
        KeyWidths(db);
        OwnItem(own, state.changed, position);
        FollowAllStems(db, own, now, item, Referencing(db.tables, item.table.name));
      }
      var next := Turn(db, state, |own|, position);
      if next.Some? {
        StepsGrows(db, now, next.value, |own|);
        ListedBound(db, next.value.changed, |own|);
        GrowsOn(own, state.changed, next.value.changed, |own|);
        WalkStems(db, own, next.value, position + 1);
        var after := Walk(db, next.value, |own|, position + 1);
      }
    }
  }

  lemma OwnItem(own: seq<Changed>, changed: seq<Changed>, i: nat)
    requires Grows(own, changed, |own|)
    ensures i < |own| ==> changed[i] == own[i]
  {
  }

  /** A changed row's reference that is checked and names no row: none is left with its values, and every stored row
      that had them is listed. */
  ghost predicate Dangles(db: Database, changed: seq<Changed>, item: Changed, key: ForeignKey) {
    && item in changed && item.now.Some? && key in item.table.foreignKeys && Values(item.now.value, key.columns).Some?
    && var values := Values(item.now.value, key.columns).value;
       && !Kept(changed, key.references, key.referencedColumns, values)
       && (forall row :: row in db.Rows(key.references) && Values(row, key.referencedColumns) == Some(values) ==>
             exists i :: 0 <= i < |changed| && Replaces(changed[i], key.references, row))
       && ((item.was.Some? && Values(item.was.value, key.columns) == Some(values)) ==>
             exists i :: 0 <= i < |changed| && changed[i].table.name == key.references)
  }

  /** A statement is refused only for a reason, whatever its keys do: a row that blocks one of the changes it comes to,
      a row that the storage refuses, or a changed row whose reference names none. What it comes to is explained: each
      row refers, by a key that acts, to one listed before it. */
  lemma RefusedFor(db: Database, own: seq<Changed>)
    requires Sound(db) && Listed(db, own, |own|)
    ensures match Enforced(db, own)
            case Some(state) => Explained(db, state.changed, |own|) && Grows(own, state.changed, |own|)
            case None =>
              || Refused(db, own)
              || exists seen, item, key :: Explained(db, seen, |own|) && Grows(own, seen, |own|) &&
                                           Dangles(db, seen, item, key)
  {
    hide Listed, Sound, Walk, Refused, ExplainedAt, Checks, Dangles;
    if own != [] && Involves(db, own[0].table.name) {
      WalkStems(db, own, State(own, true, 0), 0);
      var walk := Walk(db, State(own, true, 0), |own|, 0);
      WalkSteps(db, State(own, true, 0), |own|, 0);
      if walk.Some? && !Checks(db, walk.value.changed) {
        var item, key := ChecksFail(db, walk.value.changed, |own|);
      }
    }
  }

  lemma ChecksFail(db: Database, changed: seq<Changed>, own: nat) returns (item: Changed, key: ForeignKey)
    requires Sound(db) && Listed(db, changed, own) && !Checks(db, changed)
    ensures Dangles(db, changed, item, key)
  {
    hide Survives, Sound;
    var i :| 0 <= i < |changed| && !ChecksItem(db, changed, changed[i]);
    item := changed[i];
    key :| key in item.table.foreignKeys && !ChecksKey(db, changed, item, key);
    NotSurvives(db, changed, item.table, key, Values(item.now.value, key.columns).value);
  }

  lemma NotSurvives(db: Database, changed: seq<Changed>, table: Table, key: ForeignKey, values: seq<Value>)
    requires Sound(db) && table in db.tables && key in table.foreignKeys
    requires !Survives(db, changed, key.references, key.referencedColumns, values)
    ensures !Kept(changed, key.references, key.referencedColumns, values)
    ensures forall row :: row in db.Rows(key.references) && Values(row, key.referencedColumns) == Some(values) ==>
              exists i :: 0 <= i < |changed| && Replaces(changed[i], key.references, row)
  {
    hide Key;
    assert OneRowAValue(db.Rows(key.references), key.referencedColumns);
    var rows := RowsWhere(db.Rows(key.references), key.referencedColumns, values);
    forall row | row in db.Rows(key.references) && Values(row, key.referencedColumns) == Some(values)
      ensures exists i :: 0 <= i < |changed| && Replaces(changed[i], key.references, row)
    {
      assert row in rows && rows[0] in rows;
      assert row == rows[0];
    }
  }
}
