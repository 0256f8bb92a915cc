/** Tables, rows and what their foreign keys ask of them (foreign_key.rs, model.rs). */
module Schemas {
  /** The names of tables and of columns: only whether two are equal matters. */
  type Name = nat

  type Column = nat

  datatype Option<+T> = None | Some(value: T)

  /** A stored value. What it is beyond NULL does not matter to a foreign key. */
  datatype Value = Null | Of(value: int)

  type Row = map<Column, Value>

  datatype Action = NoAction | Restrict | Cascade | SetNull | SetDefault

  datatype ForeignKey = ForeignKey(
    columns: seq<Column>, references: Name, referencedColumns: seq<Column>, onDelete: Action, onUpdate: Action)

  datatype Table = Table(name: Name, primaryKey: seq<Column>, defaults: map<Column, Value>,
                         foreignKeys: seq<ForeignKey>)

  /** `normalize` is what the storage makes of a row an action rewrote, if it accepts it. */
  datatype Database = Database(tables: seq<Table>, rows: map<Name, seq<Row>>, normalize: (Table, Row) -> Option<Row>)
  {
    function Rows(name: Name): seq<Row> {
      if name in rows then rows[name] else []
    }
  }

  function Get(row: Row, column: Column): Value {
    if column in row then row[column] else Null
  }

  /** The values of `columns`, NULL or not. */
  function Cells(row: Row, columns: seq<Column>): (cells: seq<Value>)
    ensures |cells| == |columns|
  {
    seq(|columns|, i requires 0 <= i < |columns| => Get(row, columns[i]))
  }

  /** The values a row refers by or is referred to by: none if one of them is NULL. */
  function Values(row: Row, columns: seq<Column>): Option<seq<Value>> {
    var cells := Cells(row, columns);
    if Null in cells then None else Some(cells)
  }

  function Key(table: Table, row: Row): seq<Value> {
    Cells(row, table.primaryKey)
  }

  /** A foreign key and the table it belongs to. */
  type Reference = (Table, ForeignKey)

  function ReferencesOf(table: Table, keys: seq<ForeignKey>, name: Name): (result: seq<Reference>)
    ensures forall r :: r in result <==> r.0 == table && r.1 in keys && r.1.references == name
  {
    if keys == [] then []
    else (if keys[0].references == name then [(table, keys[0])] else []) + ReferencesOf(table, keys[1..], name)
  }

  /** The foreign keys that reference a table. */
  function Referencing(tables: seq<Table>, name: Name): (result: seq<Reference>)
    ensures forall r :: r in result <==> r.0 in tables && r.1 in r.0.foreignKeys && r.1.references == name
  {
    if tables == [] then []
    else ReferencesOf(tables[0], tables[0].foreignKeys, name) + Referencing(tables[1..], name)
  }

  /** Whether a foreign key of some table references `name`. */
  ghost predicate Refers(db: Database, reference: Reference, name: Name) {
    reference.0 in db.tables && reference.1 in reference.0.foreignKeys && reference.1.references == name
  }

  /** The rows that hold `values` in `columns`. */
  function RowsWhere(rows: seq<Row>, columns: seq<Column>, values: seq<Value>): (result: seq<Row>)
    ensures forall row :: row in result <==> row in rows && Values(row, columns) == Some(values)
  {
    if rows == [] then []
    else (if Values(rows[0], columns) == Some(values) then [rows[0]] else []) + RowsWhere(rows[1..], columns, values)
  }

  /** What the catalog and the storage guarantee: one table a name, one row a primary key, and no two rows with the same
      values where a foreign key references them. */
  ghost predicate Sound(db: Database) {
    && (forall i, j :: 0 <= i < j < |db.tables| ==> db.tables[i].name != db.tables[j].name)
    && (forall table :: table in db.tables ==> OneRowAKey(table, db.Rows(table.name)))
    && (forall child, key :: child in db.tables && key in child.foreignKeys ==>
          |key.columns| == |key.referencedColumns| && OneRowAValue(db.Rows(key.references), key.referencedColumns))
  }

  ghost predicate OneRowAKey(table: Table, rows: seq<Row>) {
    && (forall a, b :: a in rows && b in rows && Key(table, a) == Key(table, b) ==> a == b)
    && (forall i, j :: 0 <= i < j < |rows| ==> rows[i] != rows[j])
  }

  ghost predicate OneRowAValue(rows: seq<Row>, columns: seq<Column>) {
    forall a, b :: a in rows && b in rows && Values(a, columns).Some? && Values(a, columns) == Values(b, columns) ==>
      a == b
  }
}

/** What a statement does to the rows that refer to the rows it changes (foreign_key.rs). */
module ForeignKeys {
  import opened Schemas

  /** A row a statement changes: the row it replaces and the row it leaves, where there is one. */
  datatype Changed = Changed(table: Table, was: Option<Row>, now: Option<Row>)

  /** Whether the changes leave a row of `name` with `values` in `columns`. */
  ghost predicate Kept(changed: seq<Changed>, name: Name, columns: seq<Column>, values: seq<Value>) {
    exists i :: 0 <= i < |changed| && Leaves(changed[i], name, columns, values)
  }

  predicate Leaves(item: Changed, name: Name, columns: seq<Column>, values: seq<Value>) {
    item.table.name == name && item.now.Some? && Values(item.now.value, columns) == Some(values)
  }

  predicate Replaces(item: Changed, name: Name, row: Row) {
    item.table.name == name && item.was.Some? && Key(item.table, item.was.value) == Key(item.table, row)
  }

  /** Where the row a change replaces is listed. */
  function Find(changed: seq<Changed>, name: Name, row: Row): (found: Option<nat>)
    ensures match found
            case Some(i) => i < |changed| && Replaces(changed[i], name, row)
            case None => forall i :: 0 <= i < |changed| ==> !Replaces(changed[i], name, row)
  {
    if changed == [] then None
    else if Replaces(changed[0], name, row) then Some(0)
    else match Find(changed[1..], name, row)
      case Some(i) => Some(i + 1)
      case None =>
        assert forall i :: 0 < i < |changed| ==> changed[i] == changed[1..][i - 1];
        None
  }

  predicate Survives(db: Database, changed: seq<Changed>, name: Name, columns: seq<Column>, values: seq<Value>) {
    || (exists i :: 0 <= i < |changed| && Leaves(changed[i], name, columns, values))
    || var rows := RowsWhere(db.Rows(name), columns, values);
       rows != [] && Find(changed, name, rows[0]).None?
  }

  /** The changes so far, whether every action so far was steady, and the change whose turn it is. An action is steady
      that leaves its row the primary key, and that, where the row is already listed, neither removes it nor alters what
      some key references there; or it comes early. */
  datatype State = State(changed: seq<Changed>, steady: bool, turn: nat)

  /** A row that an action gives the values its key then holds. */
  function Rewritten(child: Table, key: ForeignKey, action: Action, values: Option<seq<Value>>, row: Row, n: nat): Row
    requires n <= |key.columns|
    requires values.Some? ==> |values.value| == |key.columns|
  {
    if n == 0 then row
    else
      var column := key.columns[n - 1];
      var value := match action
        case Cascade => if values.Some? then values.value[n - 1] else Null
        case SetDefault => Get(child.defaults, column)
        case _ => Null;
      Rewritten(child, key, action, values, row, n - 1)[column := value]
  }

  predicate IsReferenced(db: Database, name: Name) {
    Referencing(db.tables, name) != []
  }

  /** Whether a listed row of `table` may become `next` without a change to what other rows may reference. */
  predicate Harmless(db: Database, table: Table, row: Row, next: Option<Row>) {
    var references := Referencing(db.tables, table.name);
    && (next.None? ==> references == [])
    && (next.Some? ==> forall r :: r in references ==>
          Cells(next.value, r.1.referencedColumns) == Cells(row, r.1.referencedColumns))
  }

  /** Whether a listed row is rewritten early: its turn is still to come, and no change whose turn has come depends on
      it. None does while the row holds what some key references as it was stored, or while none was of its table. */
  predicate Early(db: Database, state: State, i: nat, row: Row, base: Row) {
    && state.turn < i < |state.changed|
    && (|| Harmless(db, state.changed[i].table, row, Some(base))
        || forall q :: 0 <= q <= state.turn ==> state.changed[q].table.name != state.changed[i].table.name)
  }

  /** What an action does to one row of `child` that refers by `key` to a changed row. `values` are those the changed
      row then has, if it is not deleted; the first `own` changes are the statement's. None refuses the statement. */
  function Revisit(db: Database, state: State, own: nat, reference: Reference, action: Action,
                   values: Option<seq<Value>>, row: Row): Option<State>
    requires values.Some? ==> |values.value| == |reference.1.columns|
  {
    var (child, key) := reference;
    var changed := state.changed;
    var found := Find(changed, child.name, row);
    if found.Some? && (found.value < own || changed[found.value].now.None?) then Some(state)
    else if action == NoAction || action == Restrict then None
    else
      var base := if found.Some? then changed[found.value].now.value else row;
      if action == Cascade && values.None? then Some(Put(db, state, found, child, row, base, None))
      else
        match db.normalize(child, Rewritten(child, key, action, values, base, |key.columns|))
        case None => None
        case Some(next) => Some(Put(db, state, found, child, row, base, Some(next)))
  }

  /** Lists what an action makes of a row, in place of what is listed for it. */
  function Put(db: Database, state: State, found: Option<nat>, child: Table, row: Row, base: Row,
               next: Option<Row>): State
    requires found.Some? ==> found.value < |state.changed|
  {
    var keeps := next.Some? ==> Key(child, next.value) == Key(child, row);
    match found
    case None => State(state.changed + [Changed(child, Some(row), next)], state.steady && keeps, state.turn)
    case Some(i) =>
      State(state.changed[i := state.changed[i].(now := next)],
            state.steady && keeps && (Harmless(db, child, base, next) || Early(db, state, i, row, base)), state.turn)
  }

  function RevisitAll(db: Database, state: State, own: nat, reference: Reference, action: Action,
                      values: Option<seq<Value>>, rows: seq<Row>): Option<State>
    requires values.Some? ==> |values.value| == |reference.1.columns|
    decreases |rows|
  {
    if rows == [] then Some(state)
    else match Revisit(db, state, own, reference, action, values, rows[0])
      case None => None
      case Some(next) => RevisitAll(db, next, own, reference, action, values, rows[1..])
  }

  /** What one foreign key makes of a row that becomes `now` where it was `was`. */
  function Follow(db: Database, state: State, own: nat, parent: Table, was: Row, now: Option<Row>,
                  reference: Reference): Option<State>
    requires |reference.1.columns| == |reference.1.referencedColumns|
  {
    var (child, key) := reference;
    match Values(was, key.referencedColumns)
    case None => Some(state)
    case Some(values) =>
      var next := if now.None? then None else Some(Cells(now.value, key.referencedColumns));
      if next == Some(values) then Some(state)
      else
        var action := if now.Some? then key.onUpdate else key.onDelete;
        if action == NoAction &&
           Survives(db, state.changed, parent.name, key.referencedColumns, values) then Some(state)
        else RevisitAll(db, state, own, reference, action, next, RowsWhere(db.Rows(child.name), key.columns, values))
  }

  function FollowAll(db: Database, state: State, own: nat, parent: Table, was: Row, now: Option<Row>,
                     references: seq<Reference>): Option<State>
    requires forall r :: r in references ==> |r.1.columns| == |r.1.referencedColumns|
    decreases |references|
  {
    if references == [] then Some(state)
    else match Follow(db, state, own, parent, was, now, references[0])
      case None => None
      case Some(next) => FollowAll(db, next, own, parent, was, now, references[1..])
  }

  /** Every change replaces a stored row or none, no two replace the same row, and those after the first `own` replace
      one. */
  ghost predicate Listed(db: Database, changed: seq<Changed>, own: nat) {
    && own <= |changed|
    && (forall i :: 0 <= i < |changed| ==> changed[i].table in db.tables)
    && (forall i :: 0 <= i < |changed| && changed[i].was.Some? ==>
          changed[i].was.value in db.Rows(changed[i].table.name))
    && (forall i, j :: 0 <= i < j < |changed| && changed[i].was.Some? &&
                       changed[i].table.name == changed[j].table.name ==>
          changed[i].was != changed[j].was)
    && (forall i :: own <= i < |changed| ==> changed[i].was.Some?)
  }

  /** The changes only grow: a listed one keeps the row it replaces, and the statement's own are not touched. */
  ghost predicate Grows(before: seq<Changed>, after: seq<Changed>, own: nat) {
    && own <= |before| <= |after|
    && (forall i :: 0 <= i < |before| ==> after[i].table == before[i].table && after[i].was == before[i].was)
    && (forall i :: 0 <= i < own ==> after[i].now == before[i].now)
  }

  lemma PushGrows(db: Database, changed: seq<Changed>, own: nat, child: Table, row: Row, next: Option<Row>)
    requires Listed(db, changed, own) && child in db.tables && row in db.Rows(child.name)
    requires forall i :: 0 <= i < |changed| ==> !Replaces(changed[i], child.name, row)
    ensures var after := changed + [Changed(child, Some(row), next)];
            Listed(db, after, own) && Grows(changed, after, own) && Replaces(after[|changed|], child.name, row)
  {
  }

  lemma ReplaceGrows(db: Database, changed: seq<Changed>, own: nat, i: nat, child: Table, row: Row, next: Option<Row>)
    requires Listed(db, changed, own) && own <= i < |changed| && Replaces(changed[i], child.name, row)
    ensures var after := changed[i := changed[i].(now := next)];
            Listed(db, after, own) && Grows(changed, after, own) && Replaces(after[i], child.name, row)
  {
    hide Key;
  }

  /** No foreign key that references `name` can tell one row from the other. */
  ghost predicate Alike(db: Database, name: Name, a: Row, b: Row) {
    forall r: Reference :: Refers(db, r, name) ==> Cells(a, r.1.referencedColumns) == Cells(b, r.1.referencedColumns)
  }

  ghost predicate KeepsAt(db: Database, before: Changed, after: Changed) {
    before.now.Some? && IsReferenced(db, before.table.name) ==>
      after.now.Some? && Alike(db, before.table.name, before.now.value, after.now.value)
  }

  /** Whether no change up to `turn` depends on what a later one holds now. */
  ghost predicate Free(db: Database, changed: seq<Changed>, turn: nat, i: nat) {
    && turn < i < |changed| && changed[i].was.Some? && changed[i].now.Some?
    && (|| Alike(db, changed[i].table.name, changed[i].was.value, changed[i].now.value)
        || forall q :: 0 <= q <= turn ==> changed[q].table.name != changed[i].table.name)
  }

  /** What other rows may reference of a listed row is still there, unless its turn is to come and none depends on it.
      */
  ghost predicate Keeps(db: Database, before: seq<Changed>, after: seq<Changed>, turn: nat) {
    && turn < |before| <= |after|
    && forall i :: 0 <= i < |before| ==> KeepsAt(db, before[i], after[i]) || Free(db, before, turn, i)
  }

  /** Every action left the row it changed its primary key. */
  ghost predicate KeysKept(changed: seq<Changed>, own: nat) {
    forall i :: own <= i < |changed| && changed[i].was.Some? && changed[i].now.Some? ==>
      Key(changed[i].table, changed[i].now.value) == Key(changed[i].table, changed[i].was.value)
  }

  /** What any number of turns keep. */
  ghost predicate Grown(db: Database, before: State, after: State, own: nat) {
    && Listed(db, after.changed, own)
    && Grows(before.changed, after.changed, own)
    && (after.steady ==> before.steady)
    && (after.steady && KeysKept(before.changed, own) ==> KeysKept(after.changed, own))
  }

  /** What any part of one turn keeps. */
  ghost predicate Steps(db: Database, before: State, after: State, own: nat) {
    && Grown(db, before, after, own) && after.turn == before.turn < |before.changed|
    && (after.steady ==> Keeps(db, before.changed, after.changed, before.turn))
  }

  lemma StepsNone(db: Database, state: State, own: nat)
    requires Listed(db, state.changed, own) && state.turn < |state.changed|
    ensures Steps(db, state, state, own)
  {
  }

  lemma GrownNone(db: Database, state: State, own: nat)
    requires Listed(db, state.changed, own)
    ensures Grown(db, state, state, own)
  {
  }

  lemma GrownTransitive(db: Database, first: State, second: State, third: State, own: nat)
    requires Grown(db, first, second, own) && Grown(db, second, third, own)
    ensures Grown(db, first, third, own)
  {
    hide Listed, KeysKept;
  }

  lemma FreeBefore(db: Database, before: seq<Changed>, after: seq<Changed>, turn: nat, i: nat)
    requires i < |before| <= |after| && before[i].now.Some? && IsReferenced(db, before[i].table.name)
    requires forall q :: 0 <= q < |before| ==> after[q].table == before[q].table && after[q].was == before[q].was
    requires KeepsAt(db, before[i], after[i]) && Free(db, after, turn, i)
    ensures Free(db, before, turn, i)
  {
  }

  lemma StepsTransitive(db: Database, first: State, second: State, third: State, own: nat)
    requires Steps(db, first, second, own) && Steps(db, second, third, own)
    ensures Steps(db, first, third, own)
  {
    hide Listed, KeysKept, Cells;
    GrownTransitive(db, first, second, third, own);
    var before, between, after := first.changed, second.changed, third.changed;
    if third.steady {
      forall i | 0 <= i < |before| ensures KeepsAt(db, before[i], after[i]) || Free(db, before, first.turn, i) {
        if KeepsAt(db, before[i], between[i]) && Free(db, between, first.turn, i) {
          if before[i].now.Some? && IsReferenced(db, before[i].table.name) {
            FreeBefore(db, before, between, first.turn, i);
          }
        }
      }
    }
  }

  lemma PutSteps(db: Database, state: State, own: nat, child: Table, row: Row, base: Row, next: Option<Row>)
    requires Sound(db) && Listed(db, state.changed, own) && child in db.tables && row in db.Rows(child.name)
    requires var found := Find(state.changed, child.name, row);
             found.Some? ==> own <= found.value && state.changed[found.value].now == Some(base)
    requires state.turn < |state.changed|
    ensures var after := Put(db, state, Find(state.changed, child.name, row), child, row, base, next);
            Steps(db, state, after, own) && Find(after.changed, child.name, row).Some?
  {
    var found := Find(state.changed, child.name, row);
    hide Listed, Cells, Find, Early, Harmless, Sound;
    match found
    case None =>
      PushGrows(db, state.changed, own, child, row, next);
    case Some(i) =>
      assert state.changed[i].table == child by { SameTable(db, state.changed, own, i, child); }
      OwnRow(db, state.changed, own, i, child.name, row);
      ReplaceSteps(db, state, own, i, row, base, next);
  }

  lemma ReplaceSteps(db: Database, state: State, own: nat, i: nat, row: Row, base: Row, next: Option<Row>)
    requires Listed(db, state.changed, own) && own <= i < |state.changed| && state.turn < |state.changed|
    requires state.changed[i].was == Some(row) && state.changed[i].now == Some(base)
    ensures var after := Put(db, state, Some(i), state.changed[i].table, row, base, next);
            Steps(db, state, after, own) && Replaces(after.changed[i], state.changed[i].table.name, row)
  {
    hide Listed, Cells, Harmless, Early;
    var table := state.changed[i].table;
    var after := Put(db, state, Some(i), table, row, base, next);
    ReplaceGrows(db, state.changed, own, i, table, row, next);
    if after.steady {
      HarmlessKeeps(db, table, base, next);
      if Early(db, state, i, row, base) {
        EarlyFree(db, state, i, row, base);
      }
    }
  }

  lemma HarmlessKeeps(db: Database, table: Table, base: Row, next: Option<Row>)
    ensures Harmless(db, table, base, next) ==>
              KeepsAt(db, Changed(table, Some(base), Some(base)), Changed(table, Some(base), next))
  {
  }

  lemma EarlyFree(db: Database, state: State, i: nat, row: Row, base: Row)
    requires Early(db, state, i, row, base) && state.changed[i].was == Some(row) && state.changed[i].now == Some(base)
    ensures Free(db, state.changed, state.turn, i)
  {
  }

  lemma SameTable(db: Database, changed: seq<Changed>, own: nat, i: nat, table: Table)
    requires Sound(db) && Listed(db, changed, own) && i < |changed| && table in db.tables
    requires changed[i].table.name == table.name
    ensures changed[i].table == table
  {
  }

  lemma RevisitSteps(db: Database, state: State, own: nat, reference: Reference, action: Action,
                     values: Option<seq<Value>>, row: Row)
    requires values.Some? ==> |values.value| == |reference.1.columns|
    requires Sound(db) && Listed(db, state.changed, own) && state.turn < |state.changed|
    requires reference.0 in db.tables && row in db.Rows(reference.0.name)
    ensures match Revisit(db, state, own, reference, action, values, row)
            case None => true
            case Some(after) => Steps(db, state, after, own) && Find(after.changed, reference.0.name, row).Some?
  {
    hide Listed, Find, Key, Harmless, Rewritten, Put, Steps, Sound;
    var (child, key) := reference;
    var found := Find(state.changed, child.name, row);
    if found.Some? && (found.value < own || state.changed[found.value].now.None?) {
      StepsNone(db, state, own);
    } else {
      var base := if found.Some? then state.changed[found.value].now.value else row;
      PutSteps(db, state, own, child, row, base, None);
      var next := db.normalize(child, Rewritten(child, key, action, values, base, |key.columns|));
      PutSteps(db, state, own, child, row, base, next);
    }
  }

  /** Every row that refers to the values is listed. */
  ghost predicate AllListed(db: Database, changed: seq<Changed>, child: Table, columns: seq<Column>,
                            values: seq<Value>) {
    forall row :: row in db.Rows(child.name) && Values(row, columns) == Some(values) ==>
      Find(changed, child.name, row).Some?
  }

  lemma FindGrows(before: seq<Changed>, after: seq<Changed>, own: nat, name: Name, row: Row)
    requires Grows(before, after, own) && Find(before, name, row).Some?
    ensures Find(after, name, row).Some?
  {
    var i := Find(before, name, row).value;
    assert Replaces(after[i], name, row);
  }

  lemma {:induction false} RevisitAllSteps(db: Database, state: State, own: nat, reference: Reference, action: Action,
                                           values: Option<seq<Value>>, rows: seq<Row>)
    requires values.Some? ==> |values.value| == |reference.1.columns|
    requires Sound(db) && Listed(db, state.changed, own) && state.turn < |state.changed|
    requires reference.0 in db.tables && forall row :: row in rows ==> row in db.Rows(reference.0.name)
    ensures match RevisitAll(db, state, own, reference, action, values, rows)
            case None => true
            case Some(after) =>
              Steps(db, state, after, own) &&
              forall row :: row in rows ==> Find(after.changed, reference.0.name, row).Some?
    decreases |rows|
  {
    hide Listed, Find, Sound, Revisit, Steps;
    if rows == [] {
      StepsNone(db, state, own);
    } else {
      RevisitSteps(db, state, own, reference, action, values, rows[0]);
      var next := Revisit(db, state, own, reference, action, values, rows[0]);
      if next.Some? {
        StepsGrows(db, state, next.value, own);
        RevisitAllSteps(db, next.value, own, reference, action, values, rows[1..]);
        var after := RevisitAll(db, next.value, own, reference, action, values, rows[1..]);
        if after.Some? {
          StepsTransitive(db, state, next.value, after.value, own);
          StepsGrows(db, next.value, after.value, own);
          FindGrows(next.value.changed, after.value.changed, own, reference.0.name, rows[0]);
          forall row | row in rows ensures Find(after.value.changed, reference.0.name, row).Some? {
            assert row == rows[0] || row in rows[1..];
          }
        }
      }
    }
  }

  lemma StepsGrows(db: Database, before: State, after: State, own: nat)
    requires Steps(db, before, after, own)
    ensures Grown(db, before, after, own) && after.turn == before.turn &&
            before.turn < |before.changed| <= |after.changed|
    ensures Listed(db, after.changed, own) && Grows(before.changed, after.changed, own)
    ensures after.steady ==> before.steady && Keeps(db, before.changed, after.changed, before.turn)
    ensures after.steady && KeysKept(before.changed, own) ==> KeysKept(after.changed, own)
  {
  }

  lemma FollowSteps(db: Database, state: State, own: nat, parent: Table, was: Row, now: Option<Row>,
                    reference: Reference)
    requires Sound(db) && Listed(db, state.changed, own) && state.turn < |state.changed|
    requires Refers(db, reference, parent.name)
    requires |reference.1.columns| == |reference.1.referencedColumns|
    ensures match Follow(db, state, own, parent, was, now, reference)
            case None => true
            case Some(after) => Steps(db, state, after, own)
  {
    hide Listed, Sound, RevisitAll, Steps, Survives;
    var (child, key) := reference;
    StepsNone(db, state, own);
    if Values(was, key.referencedColumns).Some? {
      var values := Values(was, key.referencedColumns).value;
      var next := if now.None? then None else Some(Cells(now.value, key.referencedColumns));
      var action := if now.Some? then key.onUpdate else key.onDelete;
      RevisitAllSteps(db, state, own, reference, action, next, RowsWhere(db.Rows(child.name), key.columns, values));
    }
  }

  /** Whether a change to `was` is settled for one key: a changed row holds the values it had, or every row that refers
      to them is changed too. */
  ghost predicate Settled(db: Database, changed: seq<Changed>, parent: Table, was: Row, reference: Reference) {
    match Values(was, reference.1.referencedColumns)
    case None => true
    case Some(values) =>
      || Kept(changed, parent.name, reference.1.referencedColumns, values)
      || AllListed(db, changed, reference.0, reference.1.columns, values)
  }

  /** The entry at `q`, as it was when its turn came, is as good as it is. */
  ghost predicate StillNow(db: Database, changed: seq<Changed>, q: nat, parent: Table, was: Row, now: Option<Row>) {
    && q < |changed| && changed[q].table == parent && changed[q].was == Some(was)
    && (now.Some? ==>
          changed[q].now.Some? && Alike(db, parent.name, now.value, changed[q].now.value))
  }

  lemma StillNowSteps(db: Database, before: State, after: State, own: nat, parent: Table, was: Row, now: Option<Row>)
    requires Steps(db, before, after, own) && after.steady &&
             StillNow(db, before.changed, before.turn, parent, was, now)
    requires IsReferenced(db, parent.name)
    ensures StillNow(db, after.changed, before.turn, parent, was, now)
  {
    hide Listed, KeysKept;
    assert KeepsAt(db, before.changed[before.turn], after.changed[before.turn]);
  }

  /** A change whose turn has come stays settled. */
  lemma SettledSteps(db: Database, before: State, after: State, own: nat, q: nat, reference: Reference)
    requires Sound(db) && Listed(db, before.changed, own) && Steps(db, before, after, own) && after.steady
    requires q <= before.turn && before.changed[q].was.Some?
    requires Settled(db, before.changed, before.changed[q].table, before.changed[q].was.value, reference)
    requires Refers(db, reference, before.changed[q].table.name)
    ensures Settled(db, after.changed, before.changed[q].table, before.changed[q].was.value, reference)
  {
    hide Listed, KeysKept, Sound;
    var parent, was, columns := before.changed[q].table, before.changed[q].was.value, reference.1.referencedColumns;
    if Values(was, columns).Some? {
      var values := Values(was, columns).value;
      if Kept(before.changed, parent.name, columns, values) {
        var i :| 0 <= i < |before.changed| && Leaves(before.changed[i], parent.name, columns, values);
        HolderNotFree(db, before.changed, own, before.turn, q, i, reference);
        assert KeepsAt(db, before.changed[i], after.changed[i]);
        Referenced(db, reference, parent.name);
        assert Leaves(after.changed[i], parent.name, columns, values);
      } else {
        forall row | row in db.Rows(reference.0.name) && Values(row, reference.1.columns) == Some(values)
          ensures Find(after.changed, reference.0.name, row).Some?
        {
          FindGrows(before.changed, after.changed, own, reference.0.name, row);
        }
      }
    }
  }

  /** The values of a change whose turn has come are held by no change that is free: it would be the same change. */
  lemma HolderNotFree(db: Database, changed: seq<Changed>, own: nat, turn: nat, q: nat, i: nat, reference: Reference)
    requires Sound(db) && Listed(db, changed, own) && q <= turn < |changed| && i < |changed| && changed[q].was.Some?
    requires Refers(db, reference, changed[q].table.name)
    requires var columns := reference.1.referencedColumns;
             && Values(changed[q].was.value, columns).Some?
             && Leaves(changed[i], changed[q].table.name, columns, Values(changed[q].was.value, columns).value)
    ensures !Free(db, changed, turn, i)
  {
    assert OneRowAValue(db.Rows(changed[q].table.name), reference.1.referencedColumns);
    if changed[i].was.Some? && Alike(db, changed[i].table.name, changed[i].was.value, changed[i].now.value) {
      assert Values(changed[i].was.value, reference.1.referencedColumns) ==
             Values(changed[q].was.value, reference.1.referencedColumns);
      assert changed[i].was == changed[q].was;
    }
  }

  /** NO ACTION lets the values survive only in a row the statement leaves them in: they were in one stored row, and
      that one is changed. */
  lemma SurvivesKept(db: Database, changed: seq<Changed>, own: nat, q: nat, reference: Reference)
    requires Sound(db) && Listed(db, changed, own) && q < |changed| && changed[q].was.Some?
    requires Refers(db, reference, changed[q].table.name)
    requires var columns := reference.1.referencedColumns;
             && Values(changed[q].was.value, columns).Some?
             && Survives(db, changed, changed[q].table.name, columns, Values(changed[q].was.value, columns).value)
    ensures var columns := reference.1.referencedColumns;
            Kept(changed, changed[q].table.name, columns, Values(changed[q].was.value, columns).value)
  {
    var table, columns := changed[q].table, reference.1.referencedColumns;
    var values := Values(changed[q].was.value, columns).value;
    var rows := RowsWhere(db.Rows(table.name), columns, values);
    if rows != [] {
      assert rows[0] == changed[q].was.value by {
        assert rows[0] in rows;
        assert OneRowAValue(db.Rows(table.name), columns);
      }
      assert Replaces(changed[q], table.name, rows[0]);
    }
  }

  lemma FollowSettles(db: Database, state: State, own: nat, parent: Table, was: Row, now: Option<Row>,
                      reference: Reference)
    requires Sound(db) && Listed(db, state.changed, own) && Refers(db, reference, parent.name)
    requires StillNow(db, state.changed, state.turn, parent, was, now)
    requires |reference.1.columns| == |reference.1.referencedColumns|
    ensures match Follow(db, state, own, parent, was, now, reference)
            case None => true
            case Some(after) => Settled(db, after.changed, parent, was, reference)
  {
    hide Listed, Sound, RevisitAll, Steps, Survives;
    var (child, key) := reference;
    if Values(was, key.referencedColumns).Some? {
      var values := Values(was, key.referencedColumns).value;
      var next := if now.None? then None else Some(Cells(now.value, key.referencedColumns));
      var action := if now.Some? then key.onUpdate else key.onDelete;
      if next == Some(values) {
        assert Leaves(state.changed[state.turn], parent.name, key.referencedColumns, values);
      } else if action == NoAction && Survives(db, state.changed, parent.name, key.referencedColumns, values) {
        SurvivesKept(db, state.changed, own, state.turn, reference);
      } else {
        RevisitAllSteps(db, state, own, reference, action, next, RowsWhere(db.Rows(child.name), key.columns, values));
      }
    }
  }

  lemma {:induction false} FollowAllSteps(db: Database, state: State, own: nat, parent: Table, was: Row,
                                          now: Option<Row>, references: seq<Reference>)
    requires Sound(db) && Listed(db, state.changed, own) && state.turn < |state.changed|
    requires forall r :: r in references ==> Refers(db, r, parent.name) && |r.1.columns| == |r.1.referencedColumns|
    ensures match FollowAll(db, state, own, parent, was, now, references)
            case None => true
            case Some(after) =>
              && Steps(db, state, after, own)
              && (after.steady && StillNow(db, state.changed, state.turn, parent, was, now) ==>
                    forall r :: r in references ==> Settled(db, after.changed, parent, was, r))
    decreases |references|
  {
    hide Listed, Sound, Follow, Steps, Settled, StillNow;
    if references == [] {
      StepsNone(db, state, own);
    } else {
      var first := references[0];
      FollowSteps(db, state, own, parent, was, now, first);
      var next := Follow(db, state, own, parent, was, now, first);
      if next.Some? {
        StepsGrows(db, state, next.value, own);
        FollowAllSteps(db, next.value, own, parent, was, now, references[1..]);
        var after := FollowAll(db, next.value, own, parent, was, now, references[1..]);
        if after.Some? {
          StepsTransitive(db, state, next.value, after.value, own);
          StepsGrows(db, next.value, after.value, own);
          if after.value.steady && StillNow(db, state.changed, state.turn, parent, was, now) {
            Referenced(db, first, parent.name);
            FollowSettles(db, state, own, parent, was, now, first);
            StillNowSteps(db, state, next.value, own, parent, was, now);
            StillNowIs(db, next.value.changed, state.turn, parent, was, now);
            SettledSteps(db, next.value, after.value, own, state.turn, first);
          }
        }
      }
    }
  }

  lemma StillNowIs(db: Database, changed: seq<Changed>, q: nat, parent: Table, was: Row, now: Option<Row>)
    requires StillNow(db, changed, q, parent, was, now)
    ensures q < |changed| && changed[q].table == parent && changed[q].was == Some(was)
  {
  }

  lemma Referenced(db: Database, reference: Reference, name: Name)
    requires Refers(db, reference, name)
    ensures IsReferenced(db, name)
  {
    assert reference in Referencing(db.tables, name);
  }

  /** The rows a change could list. */
  ghost function Slots(db: Database): set<(Name, Row)> {
    set table, row | table in db.tables && row in db.Rows(table.name) :: (table.name, row)
  }

  /** Each stored row is listed once at most, so the changes cannot grow forever. */
  lemma {:induction false} ListedSlots(db: Database, changed: seq<Changed>, own: nat, n: nat)
    returns (slots: set<(Name, Row)>)
    requires Listed(db, changed, own) && own <= n <= |changed|
    ensures slots <= Slots(db) && n == own + |slots| <= own + |Slots(db)|
    ensures forall slot :: slot in slots ==>
              exists i :: own <= i < n && changed[i].table.name == slot.0 && changed[i].was == Some(slot.1)
    decreases n
  {
    slots := {};
    if n > own {
      var last := n - 1;
      slots := ListedSlots(db, changed, own, last);
      var slot := (changed[last].table.name, changed[last].was.value);
      assert slot !in slots;
      slots := slots + {slot};
    }
    Within(slots, Slots(db));
  }

  lemma ListedBound(db: Database, changed: seq<Changed>, own: nat)
    requires Listed(db, changed, own)
    ensures |changed| <= own + |Slots(db)|
  {
    var slots := ListedSlots(db, changed, own, |changed|);
  }

  lemma {:induction false} Within<T>(part: set<T>, whole: set<T>)
    requires part <= whole
    ensures |part| <= |whole|
  {
    if part != {} {
      var x :| x in part;
      Within(part - {x}, whole - {x});
    }
  }

  /** One change's turn: what each foreign key that references its table makes of it. */
  function Turn(db: Database, state: State, own: nat, position: nat): Option<State>
    requires Sound(db) && position < |state.changed|
  {
    var item := state.changed[position];
    if item.was.None? then Some(state.(turn := position))
    else
      FollowAll(db, state.(turn := position), own, item.table, item.was.value, item.now,
                Referencing(db.tables, item.table.name))
  }

  ghost predicate TurnSettled(db: Database, changed: seq<Changed>, q: nat) {
    q < |changed| && (changed[q].was.Some? ==>
      forall r: Reference :: Refers(db, r, changed[q].table.name) ==>
        Settled(db, changed, changed[q].table, changed[q].was.value, r))
  }

  lemma TurnSteps(db: Database, state: State, own: nat, position: nat)
    requires Sound(db) && Listed(db, state.changed, own) && position < |state.changed|
    ensures match Turn(db, state, own, position)
            case None => true
            case Some(after) =>
              && Steps(db, state.(turn := position), after, own)
              && (after.steady ==> TurnSettled(db, after.changed, position))
  {
    hide Listed, Settled, FollowAll;
    var item := state.changed[position];
    if item.was.None? {
      StepsNone(db, state.(turn := position), own);
    } else {
      FollowAllSteps(db, state.(turn := position), own, item.table, item.was.value, item.now,
                     Referencing(db.tables, item.table.name));
    }
  }

  lemma TurnSettledSteps(db: Database, before: State, after: State, own: nat, q: nat)
    requires Sound(db) && Listed(db, before.changed, own) && Steps(db, before, after, own) && after.steady
    requires q <= before.turn && TurnSettled(db, before.changed, q)
    ensures TurnSettled(db, after.changed, q)
  {
    hide Listed, Settled, Sound;
    if before.changed[q].was.Some? {
      forall r: Reference | Refers(db, r, before.changed[q].table.name)
        ensures Settled(db, after.changed, before.changed[q].table, before.changed[q].was.value, r)
      {
        SettledSteps(db, before, after, own, q, r);
      }
    }
  }

  /** The changes' turns from `position` on, those the turns themselves list included. Every cycle of foreign keys ends:
      each stored row is listed once at most. */
  function Walk(db: Database, state: State, own: nat, position: nat): Option<State>
    requires Sound(db) && Listed(db, state.changed, own) && position <= |state.changed|
    decreases (ListedBound(db, state.changed, own); own + |Slots(db)| - position)
  {
    if position == |state.changed| then Some(state)
    else
      TurnSteps(db, state, own, position);
      match Turn(db, state, own, position)
      case None => None
      case Some(next) =>
        StepsGrows(db, state.(turn := position), next, own);
        ListedBound(db, next.changed, own);
        Walk(db, next, own, position + 1)
  }

  lemma {:induction false} WalkSteps(db: Database, state: State, own: nat, position: nat)
    requires Sound(db) && Listed(db, state.changed, own) && position <= |state.changed|
    ensures match Walk(db, state, own, position)
            case None => true
            case Some(after) =>
              && Grown(db, state, after, own)
              && (after.steady && (forall q :: 0 <= q < position ==> TurnSettled(db, state.changed, q)) ==>
                    forall q :: 0 <= q < |after.changed| ==> TurnSettled(db, after.changed, q))
    decreases (ListedBound(db, state.changed, own); own + |Slots(db)| - position)
  {
    hide Listed, Steps, TurnSettled, Turn, Keeps, KeysKept, Sound;
    if position == |state.changed| {
      GrownNone(db, state, own);
    } else {
      TurnSteps(db, state, own, position);
      var turn := Turn(db, state, own, position);
      if turn.Some? {
        var next := turn.value;
        StepsGrows(db, state.(turn := position), next, own);
        ListedBound(db, next.changed, own);
        WalkSteps(db, next, own, position + 1);
        var after := Walk(db, next, own, position + 1);
        if after.Some? {
          GrownTransitive(db, state, next, after.value, own);
          if after.value.steady && forall q :: 0 <= q < position ==> TurnSettled(db, state.changed, q) {
            forall q | 0 <= q < position + 1 ensures TurnSettled(db, next.changed, q) {
              if q < position {
                TurnSettledSteps(db, state.(turn := position), next, own, q);
              }
            }
          }
        }
      }
    }
  }

  /** Whether a foreign key is of `name` or references it. */
  predicate Involves(db: Database, name: Name) {
    exists table :: table in db.tables && table.foreignKeys != [] &&
      (table.name == name || exists key :: key in table.foreignKeys && key.references == name)
  }

  predicate ChecksKey(db: Database, changed: seq<Changed>, item: Changed, key: ForeignKey)
    requires item.now.Some?
  {
    match Values(item.now.value, key.columns)
    case None => true
    case Some(values) =>
      // An unchanged reference is checked again only if the statement changes the table it references.
      || ((item.was.Some? && Values(item.was.value, key.columns) == Some(values)) &&
          forall i :: 0 <= i < |changed| ==> changed[i].table.name != key.references)
      || Survives(db, changed, key.references, key.referencedColumns, values)
  }

  predicate ChecksItem(db: Database, changed: seq<Changed>, item: Changed) {
    item.now.Some? ==> forall key :: key in item.table.foreignKeys ==> ChecksKey(db, changed, item, key)
  }

  predicate Checks(db: Database, changed: seq<Changed>) {
    forall i :: 0 <= i < |changed| ==> ChecksItem(db, changed, changed[i])
  }

  /** Every change a statement makes with those its foreign keys add, or None where they refuse it. */
  function Enforced(db: Database, own: seq<Changed>): Option<State>
    requires Sound(db) && Listed(db, own, |own|)
  {
    if own == [] || !Involves(db, own[0].table.name) then Some(State(own, true, 0))
    else match Walk(db, State(own, true, 0), |own|, 0)
      case None => None
      case Some(state) => if Checks(db, state.changed) then Some(state) else None
  }

  /** Whether a change takes away the row stored under a key. A statement's own change takes the row it replaces. What
      an action adds is planned as a delete under the key the row had, or as an upsert under the key it then has. */
  ghost predicate Takes(changed: seq<Changed>, own: nat, i: nat, row: Row)
    requires i < |changed|
  {
    var item := changed[i];
    if own <= i && item.now.Some? then Key(item.table, row) == Key(item.table, item.now.value)
    else item.was.Some? && Key(item.table, row) == Key(item.table, item.was.value)
  }

  /** The rows of a table once the changes are made. */
  ghost predicate Has(db: Database, changed: seq<Changed>, own: nat, name: Name, row: Row) {
    || (exists i :: 0 <= i < |changed| && changed[i].table.name == name && changed[i].now == Some(row))
    || (row in db.Rows(name) &&
        forall i :: 0 <= i < |changed| && changed[i].table.name == name ==> !Takes(changed, own, i, row))
  }

  ghost predicate Held(db: Database, changed: seq<Changed>, own: nat, name: Name, columns: seq<Column>,
                       values: seq<Value>) {
    exists row :: Has(db, changed, own, name, row) && Values(row, columns) == Some(values)
  }

  /** Every row's references name a row. */
  ghost predicate Intact(db: Database, changed: seq<Changed>, own: nat) {
    forall table, key, row ::
      (table in db.tables && key in table.foreignKeys && Has(db, changed, own, table.name, row) &&
       Values(row, key.columns).Some?) ==>
        Held(db, changed, own, key.references, key.referencedColumns, Values(row, key.columns).value)
  }

  lemma StoredHas(db: Database, name: Name, row: Row)
    ensures Has(db, [], 0, name, row) <==> row in db.Rows(name)
  {
  }

  /** With every key kept, a change takes the row it replaces, and no other. */
  lemma TakesReplaced(db: Database, changed: seq<Changed>, own: nat, i: nat, row: Row)
    requires Listed(db, changed, own) && KeysKept(changed, own) && i < |changed|
    ensures Takes(changed, own, i, row) <==> Replaces(changed[i], changed[i].table.name, row)
  {
  }

  lemma HasUntouched(db: Database, changed: seq<Changed>, own: nat, name: Name, row: Row)
    requires Listed(db, changed, own) && KeysKept(changed, own) && row in db.Rows(name)
    requires Find(changed, name, row).None?
    ensures Has(db, changed, own, name, row)
  {
    forall i | 0 <= i < |changed| && changed[i].table.name == name ensures !Takes(changed, own, i, row) {
      TakesReplaced(db, changed, own, i, row);
    }
  }

  lemma SurvivesHas(db: Database, changed: seq<Changed>, own: nat, name: Name, columns: seq<Column>, values: seq<Value>)
    requires Listed(db, changed, own) && KeysKept(changed, own) && Survives(db, changed, name, columns, values)
    ensures Held(db, changed, own, name, columns, values)
  {
    if i :| 0 <= i < |changed| && Leaves(changed[i], name, columns, values) {
      assert Has(db, changed, own, name, changed[i].now.value);
    } else {
      var rows := RowsWhere(db.Rows(name), columns, values);
      assert rows[0] in rows;
      HasUntouched(db, changed, own, name, rows[0]);
    }
  }

  /** A row the statement leaves as it is. */
  lemma UntouchedIntact(db: Database, changed: seq<Changed>, own: nat, table: Table, key: ForeignKey, row: Row)
    requires Sound(db) && Listed(db, changed, own) && KeysKept(changed, own) && Intact(db, [], 0)
    requires forall q :: 0 <= q < |changed| ==> TurnSettled(db, changed, q)
    requires table in db.tables && key in table.foreignKeys && row in db.Rows(table.name)
    requires Find(changed, table.name, row).None? && Values(row, key.columns).Some?
    ensures Held(db, changed, own, key.references, key.referencedColumns, Values(row, key.columns).value)
  {
    hide Listed, KeysKept, Sound;
    var values := Values(row, key.columns).value;
    StoredHas(db, table.name, row);
    assert Held(db, [], 0, key.references, key.referencedColumns, values);
    var parent :| Has(db, [], 0, key.references, parent) && Values(parent, key.referencedColumns) == Some(values);
    StoredHas(db, key.references, parent);
    match Find(changed, key.references, parent)
    case None => HasUntouched(db, changed, own, key.references, parent);
    case Some(q) =>
      var reference := (table, key);
      OwnRow(db, changed, own, q, key.references, parent);
      assert Refers(db, reference, changed[q].table.name);
      assert TurnSettled(db, changed, q);
      assert Settled(db, changed, changed[q].table, parent, reference);
      assert !AllListed(db, changed, table, key.columns, values);
      var i :| 0 <= i < |changed| && Leaves(changed[i], key.references, key.referencedColumns, values);
      assert Has(db, changed, own, key.references, changed[i].now.value);
  }

  lemma OwnRow(db: Database, changed: seq<Changed>, own: nat, q: nat, name: Name, row: Row)
    requires Sound(db) && Listed(db, changed, own) && q < |changed| && Replaces(changed[q], name, row) &&
             row in db.Rows(name)
    ensures changed[q].was == Some(row)
  {
    assert OneRowAKey(changed[q].table, db.Rows(name));
  }

  /** A row the statement leaves changed. */
  lemma ChangedIntact(db: Database, changed: seq<Changed>, own: nat, i: nat, key: ForeignKey)
    requires Sound(db) && Listed(db, changed, own) && KeysKept(changed, own) && Intact(db, [], 0) && Checks(db, changed)
    requires i < |changed| && changed[i].now.Some? && key in changed[i].table.foreignKeys
    requires Values(changed[i].now.value, key.columns).Some?
    ensures Held(db, changed, own, key.references, key.referencedColumns,
                 Values(changed[i].now.value, key.columns).value)
  {
    var item := changed[i];
    var values := Values(item.now.value, key.columns).value;
    assert ChecksItem(db, changed, item) && ChecksKey(db, changed, item, key);
    if forall i :: 0 <= i < |changed| ==> changed[i].table.name != key.references {
      if item.was.Some? && Values(item.was.value, key.columns) == Some(values) {
        StoredHas(db, item.table.name, item.was.value);
        assert Held(db, [], 0, key.references, key.referencedColumns, values);
        var parent :| Has(db, [], 0, key.references, parent) && Values(parent, key.referencedColumns) == Some(values);
        StoredHas(db, key.references, parent);
        assert parent in RowsWhere(db.Rows(key.references), key.referencedColumns, values);
      }
    }
    SurvivesHas(db, changed, own, key.references, key.referencedColumns, values);
  }

  lemma ReplacedFound(db: Database, changed: seq<Changed>, own: nat, name: Name, row: Row)
    requires Sound(db) && Listed(db, changed, own) && KeysKept(changed, own)
    requires row in db.Rows(name) && Find(changed, name, row).Some?
    ensures exists i :: 0 <= i < |changed| && changed[i].table.name == name && Takes(changed, own, i, row)
  {
    TakesReplaced(db, changed, own, Find(changed, name, row).value, row);
  }

  /** The main result: where a statement is accepted and its actions were steady, a database whose references all named
      rows is left with references that all name rows. */
  lemma Integrity(db: Database, own: seq<Changed>)
    requires Sound(db) && Listed(db, own, |own|) && Intact(db, [], 0)
    requires forall i :: 0 <= i < |own| ==> own[i].table.name == own[0].table.name
    ensures match Enforced(db, own)
            case None => true
            case Some(state) => state.steady ==> Intact(db, state.changed, |own|)
  {
    match Enforced(db, own)
    case None =>
    case Some(state) =>
      if state.steady {
        if own == [] || !Involves(db, own[0].table.name) {
          UninvolvedIntact(db, own);
        } else {
          WalkSteps(db, State(own, true, 0), |own|, 0);
          WalkedIntact(db, state.changed, |own|);
        }
      }
  }

  lemma WalkedIntact(db: Database, changed: seq<Changed>, own: nat)
    requires Sound(db) && Listed(db, changed, own) && KeysKept(changed, own) && Intact(db, [], 0) && Checks(db, changed)
    requires forall q :: 0 <= q < |changed| ==> TurnSettled(db, changed, q)
    ensures Intact(db, changed, own)
  {
    hide Sound, Listed, KeysKept, Checks, TurnSettled, Takes;
    forall table, key, row | table in db.tables && key in table.foreignKeys && Has(db, changed, own, table.name, row) &&
                             Values(row, key.columns).Some?
      ensures Held(db, changed, own, key.references, key.referencedColumns, Values(row, key.columns).value)
    {
      if i :| 0 <= i < |changed| && changed[i].table.name == table.name && changed[i].now == Some(row) {
        SameTable(db, changed, own, i, table);
        ChangedIntact(db, changed, own, i, key);
      } else {
        assert Find(changed, table.name, row).None? by {
          if Find(changed, table.name, row).Some? {
            ReplacedFound(db, changed, own, table.name, row);
          }
        }
        UntouchedIntact(db, changed, own, table, key, row);
      }
    }
  }

  lemma UninvolvedIntact(db: Database, own: seq<Changed>)
    requires Sound(db) && Listed(db, own, |own|) && Intact(db, [], 0)
    requires forall i :: 0 <= i < |own| ==> own[i].table.name == own[0].table.name
    requires own == [] || !Involves(db, own[0].table.name)
    ensures Intact(db, own, |own|)
  {
    forall table, key, row | table in db.tables && key in table.foreignKeys && Has(db, own, |own|, table.name, row) &&
                             Values(row, key.columns).Some?
      ensures Held(db, own, |own|, key.references, key.referencedColumns, Values(row, key.columns).value)
    {
      StoredHas(db, table.name, row);
      assert Held(db, [], 0, key.references, key.referencedColumns, Values(row, key.columns).value);
      var parent :| Has(db, [], 0, key.references, parent) &&
                    Values(parent, key.referencedColumns) == Some(Values(row, key.columns).value);
      StoredHas(db, key.references, parent);
      assert Has(db, own, |own|, key.references, parent);
    }
  }

  lemma IntactSettled(db: Database, changed: seq<Changed>, own: nat, q: nat, reference: Reference)
    requires Sound(db) && Listed(db, changed, own) && KeysKept(changed, own) && Intact(db, changed, own)
    requires q < |changed| && changed[q].was.Some? && Refers(db, reference, changed[q].table.name)
    ensures Settled(db, changed, changed[q].table, changed[q].was.value, reference)
  {
    var (child, key) := reference;
    var name, was := changed[q].table.name, changed[q].was.value;
    if Values(was, key.referencedColumns).Some? {
      var values := Values(was, key.referencedColumns).value;
      if !AllListed(db, changed, child, key.columns, values) {
        var row :| row in db.Rows(child.name) && Values(row, key.columns) == Some(values) &&
                   Find(changed, child.name, row).None?;
        HasUntouched(db, changed, own, child.name, row);
        assert Held(db, changed, own, name, key.referencedColumns, values);
        var parent :| Has(db, changed, own, name, parent) && Values(parent, key.referencedColumns) == Some(values);
        if i :| 0 <= i < |changed| && changed[i].table.name == name && changed[i].now == Some(parent) {
          assert Leaves(changed[i], name, key.referencedColumns, values);
        } else {
          assert OneRowAValue(db.Rows(name), key.referencedColumns);
          TakesReplaced(db, changed, own, q, parent);
        }
      }
    }
  }

  /** Exactly when an accepted statement whose actions kept every primary key leaves references that all name rows:
      when, of each row it replaces, what others referenced there is left in a changed row, or every row that referred
      to it is changed too. Steady actions always leave it so. */
  lemma IntegrityKept(db: Database, own: seq<Changed>)
    requires Sound(db) && Listed(db, own, |own|) && Intact(db, [], 0) && own != [] && Involves(db, own[0].table.name)
    ensures match Enforced(db, own)
            case None => true
            case Some(state) =>
              KeysKept(state.changed, |own|) ==>
                (Intact(db, state.changed, |own|) <==>
                 forall q :: 0 <= q < |state.changed| ==> TurnSettled(db, state.changed, q))
  {
    WalkSteps(db, State(own, true, 0), |own|, 0);
    match Enforced(db, own)
    case None =>
    case Some(state) =>
      if KeysKept(state.changed, |own|) {
        hide Sound, Listed, KeysKept, Settled, Intact, Checks;
        if Intact(db, state.changed, |own|) {
          forall q, r: Reference | 0 <= q < |state.changed| && state.changed[q].was.Some? &&
                                   Refers(db, r, state.changed[q].table.name)
            ensures Settled(db, state.changed, state.changed[q].table, state.changed[q].was.value, r)
          {
            IntactSettled(db, state.changed, |own|, q, r);
          }
        }
        if forall q :: 0 <= q < |state.changed| ==> TurnSettled(db, state.changed, q) {
          WalkedIntact(db, state.changed, |own|);
        }
      }
  }

  /** Whether the changes take a row, the one they replace or one that stood where they put another. */
  ghost predicate Taken(changed: seq<Changed>, own: nat, name: Name, row: Row) {
    exists i :: 0 <= i < |changed| && changed[i].table.name == name && Takes(changed, own, i, row)
  }

  /** Whether nothing is left that refers to some values. */
  ghost predicate Unasked(db: Database, changed: seq<Changed>, own: nat, reference: Reference, values: seq<Value>) {
    && (forall row :: row in db.Rows(reference.0.name) && Values(row, reference.1.columns) == Some(values) ==>
          Taken(changed, own, reference.0.name, row))
    && forall i :: 0 <= i < |changed| ==> !Leaves(changed[i], reference.0.name, reference.1.columns, values)
  }

  /** Whether, of each stored row that is taken, what a key references there is left in a changed row, or nothing is
      left that refers to it. */
  ghost predicate Covered(db: Database, changed: seq<Changed>, own: nat) {
    forall r: Reference, row: Row ::
      (&& Refers(db, r, r.1.references) && row in db.Rows(r.1.references) && Taken(changed, own, r.1.references, row)
       && Values(row, r.1.referencedColumns).Some?) ==>
        var values := Values(row, r.1.referencedColumns).value;
        Kept(changed, r.1.references, r.1.referencedColumns, values) || Unasked(db, changed, own, r, values)
  }

  /** Exactly when an accepted statement leaves references that all name rows, whatever its actions did to primary keys:
      what it took away is covered. */
  lemma IntegrityExactly(db: Database, own: seq<Changed>)
    requires Sound(db) && Listed(db, own, |own|) && Intact(db, [], 0)
    requires forall i :: 0 <= i < |own| ==> own[i].table.name == own[0].table.name
    ensures match Enforced(db, own)
            case None => true
            case Some(state) => Intact(db, state.changed, |own|) <==> Covered(db, state.changed, |own|)
  {
    match Enforced(db, own)
    case None =>
    case Some(state) =>
      if own == [] || !Involves(db, own[0].table.name) {
        UninvolvedIntact(db, own);
        IntactCovered(db, own, |own|);
      } else {
        WalkSteps(db, State(own, true, 0), |own|, 0);
        if Intact(db, state.changed, |own|) {
          IntactCovered(db, state.changed, |own|);
        }
        if Covered(db, state.changed, |own|) {
          CoveredIntact(db, state.changed, |own|);
        }
      }
  }

  lemma IntactCovered(db: Database, changed: seq<Changed>, own: nat)
    requires Sound(db) && Listed(db, changed, own) && Intact(db, changed, own)
    ensures Covered(db, changed, own)
  {
    hide Listed, Takes;
    forall r: Reference, row: Row |
      && Refers(db, r, r.1.references) && row in db.Rows(r.1.references) && Taken(changed, own, r.1.references, row)
      && Values(row, r.1.referencedColumns).Some?
      && !Kept(changed, r.1.references, r.1.referencedColumns, Values(row, r.1.referencedColumns).value)
      ensures Unasked(db, changed, own, r, Values(row, r.1.referencedColumns).value)
    {
      var values := Values(row, r.1.referencedColumns).value;
      NotHeld(db, changed, own, r, row);
      forall other | Has(db, changed, own, r.0.name, other) ensures Values(other, r.1.columns) != Some(values) {
      }
      forall i | 0 <= i < |changed| ensures !Leaves(changed[i], r.0.name, r.1.columns, values) {
        if changed[i].table.name == r.0.name && changed[i].now.Some? {
          assert Has(db, changed, own, r.0.name, changed[i].now.value);
        }
      }
    }
  }

  /** The values of a row that is taken, and that no changed row holds, are held no more: no other stored row held them.
      */
  lemma NotHeld(db: Database, changed: seq<Changed>, own: nat, r: Reference, row: Row)
    requires Sound(db) && Refers(db, r, r.1.references) && row in db.Rows(r.1.references)
    requires Taken(changed, own, r.1.references, row) && Values(row, r.1.referencedColumns).Some?
    requires !Kept(changed, r.1.references, r.1.referencedColumns, Values(row, r.1.referencedColumns).value)
    ensures !Held(db, changed, own, r.1.references, r.1.referencedColumns, Values(row, r.1.referencedColumns).value)
  {
    var values := Values(row, r.1.referencedColumns).value;
    assert OneRowAValue(db.Rows(r.1.references), r.1.referencedColumns);
    forall other | Has(db, changed, own, r.1.references, other)
      ensures Values(other, r.1.referencedColumns) != Some(values)
    {
      if i :| 0 <= i < |changed| && changed[i].table.name == r.1.references && changed[i].now == Some(other) {
        assert !Leaves(changed[i], r.1.references, r.1.referencedColumns, values);
      }
    }
  }

  lemma CoveredIntact(db: Database, changed: seq<Changed>, own: nat)
    requires Sound(db) && Listed(db, changed, own) && Intact(db, [], 0) && Checks(db, changed) &&
             Covered(db, changed, own)
    ensures Intact(db, changed, own)
  {
    hide Sound, Listed, Checks, Takes, Covered;
    forall table, key, row | table in db.tables && key in table.foreignKeys && Has(db, changed, own, table.name, row) &&
                             Values(row, key.columns).Some?
      ensures Held(db, changed, own, key.references, key.referencedColumns, Values(row, key.columns).value)
    {
      if i :| 0 <= i < |changed| && changed[i].table.name == table.name && changed[i].now == Some(row) {
        SameTable(db, changed, own, i, table);
        ChangedCovered(db, changed, own, i, (table, key));
      } else {
        StoredHas(db, table.name, row);
        assert Held(db, [], 0, key.references, key.referencedColumns, Values(row, key.columns).value);
        var parent :| Has(db, [], 0, key.references, parent) &&
                      Values(parent, key.referencedColumns) == Values(row, key.columns);
        StoredHas(db, key.references, parent);
        assert !Unasked(db, changed, own, (table, key), Values(row, key.columns).value);
        CoveredHeld(db, changed, own, (table, key), parent);
      }
    }
  }

  lemma ChangedCovered(db: Database, changed: seq<Changed>, own: nat, i: nat, r: Reference)
    requires Sound(db) && Listed(db, changed, own) && Intact(db, [], 0) && Checks(db, changed) &&
             Covered(db, changed, own)
    requires i < |changed| && changed[i].table == r.0 && changed[i].now.Some? && r.1 in r.0.foreignKeys
    requires Values(changed[i].now.value, r.1.columns).Some?
    ensures Held(db, changed, own, r.1.references, r.1.referencedColumns,
                 Values(changed[i].now.value, r.1.columns).value)
  {
    hide Covered, Takes, Sound;
    var (table, key) := r;
    var item := changed[i];
    var values := Values(item.now.value, key.columns).value;
    assert ChecksItem(db, changed, item) && ChecksKey(db, changed, item, key);
    assert Leaves(item, table.name, key.columns, values);
    if Kept(changed, key.references, key.referencedColumns, values) {
      var j :| 0 <= j < |changed| && Leaves(changed[j], key.references, key.referencedColumns, values);
      assert Has(db, changed, own, key.references, changed[j].now.value);
    } else if Survives(db, changed, key.references, key.referencedColumns, values) {
      var rows := RowsWhere(db.Rows(key.references), key.referencedColumns, values);
      assert rows[0] in rows;
      CoveredHeld(db, changed, own, r, rows[0]);
    } else {
      StoredHas(db, table.name, item.was.value);
      assert Held(db, [], 0, key.references, key.referencedColumns, values);
      var parent :| Has(db, [], 0, key.references, parent) && Values(parent, key.referencedColumns) == Some(values);
      StoredHas(db, key.references, parent);
      assert Has(db, changed, own, key.references, parent);
    }
  }

  /** A stored row that is still asked for is there, or what it held is. */
  lemma CoveredHeld(db: Database, changed: seq<Changed>, own: nat, r: Reference, parent: Row)
    requires Covered(db, changed, own) && Refers(db, r, r.1.references) && parent in db.Rows(r.1.references)
    requires Values(parent, r.1.referencedColumns).Some?
    requires !Unasked(db, changed, own, r, Values(parent, r.1.referencedColumns).value)
    ensures Held(db, changed, own, r.1.references, r.1.referencedColumns, Values(parent, r.1.referencedColumns).value)
  {
    hide Takes, Unasked;
    var values := Values(parent, r.1.referencedColumns).value;
    if Taken(changed, own, r.1.references, parent) {
      var j :| 0 <= j < |changed| && Leaves(changed[j], r.1.references, r.1.referencedColumns, values);
      assert Has(db, changed, own, r.1.references, changed[j].now.value);
    } else {
      assert Has(db, changed, own, r.1.references, parent);
    }
  }

  /** Rows, closed under the deletes that cascade. */
  ghost predicate CascadeClosed(db: Database, rows: set<(Name, Row)>) {
    forall reference: Reference, parent: Row, row: Row ::
      (&& Refers(db, reference, reference.1.references) && reference.1.onDelete == Cascade
       && (reference.1.references, parent) in rows && row in db.Rows(reference.0.name)
       && RefersTo(row, reference.1, parent)) ==>
        (reference.0.name, row) in rows
  }

  ghost predicate RefersTo(row: Row, key: ForeignKey, parent: Row) {
    Values(row, key.columns).Some? && Values(row, key.columns) == Values(parent, key.referencedColumns)
  }

  /** No key's action on a delete rewrites a row. */
  ghost predicate DeletesOnly(db: Database) {
    forall table, key :: table in db.tables && key in table.foreignKeys ==>
      key.onDelete in {NoAction, Restrict, Cascade}
  }

  /** Only deletes, of rows in `rows`. */
  ghost predicate DeletesIn(state: State, rows: set<(Name, Row)>) {
    && state.steady
    && forall i :: 0 <= i < |state.changed| ==>
         && state.changed[i].now.None? && state.changed[i].was.Some?
         && (state.changed[i].table.name, state.changed[i].was.value) in rows
  }

  lemma {:induction false} RevisitAllDeletes(db: Database, state: State, own: nat, reference: Reference, action: Action,
                                             rows: seq<Row>, all: set<(Name, Row)>)
    requires DeletesIn(state, all) && action in {NoAction, Restrict, Cascade}
    requires action == Cascade ==> forall row :: row in rows ==> (reference.0.name, row) in all
    ensures match RevisitAll(db, state, own, reference, action, None, rows)
            case None => true
            case Some(after) => DeletesIn(after, all)
    decreases |rows|
  {
    if rows != [] {
      var next := Revisit(db, state, own, reference, action, None, rows[0]);
      if next.Some? {
        RevisitAllDeletes(db, next.value, own, reference, action, rows[1..], all);
      }
    }
  }

  lemma {:induction false} FollowAllDeletes(db: Database, state: State, own: nat, parent: Table, was: Row,
                                            references: seq<Reference>, all: set<(Name, Row)>)
    requires DeletesIn(state, all) && DeletesOnly(db) && CascadeClosed(db, all) && (parent.name, was) in all
    requires forall r :: r in references ==> Refers(db, r, parent.name) && |r.1.columns| == |r.1.referencedColumns|
    ensures match FollowAll(db, state, own, parent, was, None, references)
            case None => true
            case Some(after) => DeletesIn(after, all)
    decreases |references|
  {
    if references != [] {
      var (child, key) := references[0];
      assert Refers(db, references[0], parent.name);
      if Values(was, key.referencedColumns).Some? {
        var values := Values(was, key.referencedColumns).value;
        var rows := RowsWhere(db.Rows(child.name), key.columns, values);
        forall row | row in rows && key.onDelete == Cascade ensures (child.name, row) in all {
          assert RefersTo(row, key, was);
        }
        RevisitAllDeletes(db, state, own, references[0], key.onDelete, rows, all);
      }
      var next := Follow(db, state, own, parent, was, None, references[0]);
      if next.Some? {
        FollowAllDeletes(db, next.value, own, parent, was, references[1..], all);
      }
    }
  }

  lemma {:induction false} WalkDeletes(db: Database, state: State, own: nat, position: nat, all: set<(Name, Row)>)
    requires Sound(db) && Listed(db, state.changed, own) && position <= |state.changed|
    requires DeletesIn(state, all) && DeletesOnly(db) && CascadeClosed(db, all)
    ensures match Walk(db, state, own, position)
            case None => true
            case Some(after) => DeletesIn(after, all)
    decreases (ListedBound(db, state.changed, own); own + |Slots(db)| - position)
  {
    hide Listed, Steps, FollowAll;
    if position < |state.changed| {
      var item := state.changed[position];
      FollowAllDeletes(db, state.(turn := position), own, item.table, item.was.value,
                       Referencing(db.tables, item.table.name), all);
      TurnSteps(db, state, own, position);
      var next := Turn(db, state, own, position);
      if next.Some? {
        StepsGrows(db, state.(turn := position), next.value, own);
        ListedBound(db, next.value.changed, own);
        WalkDeletes(db, next.value, own, position + 1, all);
      }
    }
  }

  /** The stored rows the changes take. */
  ghost function Removed(changed: seq<Changed>): set<(Name, Row)> {
    set i | 0 <= i < |changed| && changed[i].was.Some? :: (changed[i].table.name, changed[i].was.value)
  }

  /** An accepted DELETE removes exactly the least set of rows that holds its own and is closed under the keys that
      cascade, and leaves every other row as it was. */
  lemma DeleteRemovesLeast(db: Database, own: seq<Changed>)
    requires Sound(db) && Listed(db, own, |own|) && DeletesOnly(db)
    requires forall i :: 0 <= i < |own| ==>
               own[i].now.None? && own[i].was.Some? && own[i].table.name == own[0].table.name
    ensures match Enforced(db, own)
            case None => true
            case Some(state) =>
              && state.steady && (forall i :: 0 <= i < |state.changed| ==> state.changed[i].now.None?)
              && Removed(own) <= Removed(state.changed) && CascadeClosed(db, Removed(state.changed))
              && (forall rows :: Removed(own) <= rows && CascadeClosed(db, rows) ==> Removed(state.changed) <= rows)
  {
    match Enforced(db, own)
    case None =>
    case Some(state) =>
      if own == [] || !Involves(db, own[0].table.name) {
      } else {
        EverythingClosed(db, own);
        WalkSteps(db, State(own, true, 0), |own|, 0);
        forall rows: set<(Name, Row)> | Removed(own) <= rows && CascadeClosed(db, rows)
          ensures DeletesIn(state, rows)
        {
          OwnRemoved(own, rows);
          WalkDeletes(db, State(own, true, 0), |own|, 0, rows);
        }
        assert DeletesIn(state, Removed(own) + Slots(db));
        RemovedClosed(db, state.changed, |own|);
        RemovedGrows(own, state.changed, |own|);
      }
  }

  lemma OwnRemoved(own: seq<Changed>, rows: set<(Name, Row)>)
    requires Removed(own) <= rows && forall i :: 0 <= i < |own| ==> own[i].now.None? && own[i].was.Some?
    ensures DeletesIn(State(own, true, 0), rows)
  {
    forall i | 0 <= i < |own| ensures (own[i].table.name, own[i].was.value) in rows {
      assert (own[i].table.name, own[i].was.value) in Removed(own);
    }
  }

  lemma RemovedGrows(own: seq<Changed>, changed: seq<Changed>, n: nat)
    requires Grows(own, changed, n)
    ensures Removed(own) <= Removed(changed)
  {
    forall slot | slot in Removed(own) ensures slot in Removed(changed) {
      var i :| 0 <= i < |own| && own[i].was.Some? && (own[i].table.name, own[i].was.value) == slot;
      assert changed[i].was == own[i].was;
    }
  }

  lemma EverythingClosed(db: Database, own: seq<Changed>)
    ensures CascadeClosed(db, Removed(own) + Slots(db))
  {
  }

  lemma RemovedClosed(db: Database, changed: seq<Changed>, own: nat)
    requires Sound(db) && Listed(db, changed, own)
    requires forall q :: 0 <= q < |changed| ==> TurnSettled(db, changed, q) && changed[q].now.None?
    ensures CascadeClosed(db, Removed(changed))
  {
    forall reference: Reference, parent: Row, row: Row |
      && Refers(db, reference, reference.1.references) && reference.1.onDelete == Cascade
      && (reference.1.references, parent) in Removed(changed) && row in db.Rows(reference.0.name)
      && RefersTo(row, reference.1, parent)
      ensures (reference.0.name, row) in Removed(changed)
    {
      var q :| 0 <= q < |changed| && changed[q].was.Some? &&
               (changed[q].table.name, changed[q].was.value) == (reference.1.references, parent);
      assert TurnSettled(db, changed, q);
      assert Settled(db, changed, changed[q].table, parent, reference);
      var i := Find(changed, reference.0.name, row).value;
      OwnRow(db, changed, own, i, reference.0.name, row);
    }
  }

  /** What an action does to one row. */
  method RevisitRow(db: Database, changed: seq<Changed>, ghost steady: bool, ghost turn: nat, own: nat,
                    reference: Reference, action: Action, values: Option<seq<Value>>, row: Row)
    returns (ok: bool, after: seq<Changed>, ghost still: bool)
    requires values.Some? ==> |values.value| == |reference.1.columns|
    ensures var result := Revisit(db, State(changed, steady, turn), own, reference, action, values, row);
            ok == result.Some? && (ok ==> after == result.value.changed)
    ensures ok ==> Revisit(db, State(changed, steady, turn), own, reference, action, values, row) ==
                   Some(State(after, still, turn))
  {
    var (child, key) := reference;
    ok, after, still := true, changed, steady;
    var found := Find(changed, child.name, row);
    // A row the statement changes itself is checked as it leaves it.
    if found.Some? && found.value < own {
      return;
    }
    var base := row;
    if found.Some? {
      if changed[found.value].now.None? {
        return;
      }
      base := changed[found.value].now.value;
    }
    if action == NoAction || action == Restrict {
      return false, after, still;
    }
    var next: Option<Row> := None;
    if !(action == Cascade && values.None?) {
      var rewritten := Rewrite(child, key, action, values, base);
      next := db.normalize(child, rewritten);
      if next.None? {
        return false, after, still;
      }
    }
    still := Put(db, State(changed, steady, turn), found, child, row, base, next).steady;
    if found.Some? {
      after := changed[found.value := changed[found.value].(now := next)];
    } else {
      after := changed + [Changed(child, Some(row), next)];
    }
  }

  /** One foreign key's pass over the rows that refer to a changed row. */
  method RevisitRows(db: Database, changed: seq<Changed>, ghost steady: bool, ghost turn: nat, own: nat,
                     reference: Reference, action: Action, values: Option<seq<Value>>, rows: seq<Row>)
    returns (ok: bool, after: seq<Changed>, ghost still: bool)
    requires values.Some? ==> |values.value| == |reference.1.columns|
    ensures var result := RevisitAll(db, State(changed, steady, turn), own, reference, action, values, rows);
            ok == result.Some? && (ok ==> after == result.value.changed)
    ensures ok ==> RevisitAll(db, State(changed, steady, turn), own, reference, action, values, rows) ==
                   Some(State(after, still, turn))
  {
    hide Revisit;
    ok, after, still := true, changed, steady;
    for k := 0 to |rows|
      invariant ok
      invariant RevisitAll(db, State(changed, steady, turn), own, reference, action, values, rows) ==
                RevisitAll(db, State(after, still, turn), own, reference, action, values, rows[k..])
    {
      assert rows[k..][0] == rows[k] && rows[k..][1..] == rows[k + 1..];
      ok, after, still := RevisitRow(db, after, still, turn, own, reference, action, values, rows[k]);
      if !ok {
        return;
      }
    }
  }

  method Rewrite(child: Table, key: ForeignKey, action: Action, values: Option<seq<Value>>, base: Row)
    returns (next: Row)
    requires values.Some? ==> |values.value| == |key.columns|
    ensures next == Rewritten(child, key, action, values, base, |key.columns|)
  {
    next := base;
    for n := 0 to |key.columns|
      invariant next == Rewritten(child, key, action, values, base, n)
    {
      var value := match action
        case Cascade => if values.Some? then values.value[n] else Null
        case SetDefault => Get(child.defaults, key.columns[n])
        case _ => Null;
      next := next[key.columns[n] := value];
    }
  }

  /** Adds to a statement's changes what the foreign keys make of them, or refuses it. */
  method Enforce(db: Database, own: seq<Changed>) returns (ok: bool, changed: seq<Changed>, ghost steady: bool)
    requires Sound(db) && Listed(db, own, |own|)
    ensures ok == Enforced(db, own).Some? && (ok ==> changed == Enforced(db, own).value.changed)
    ensures ok ==> Enforced(db, own).value.steady == steady
  {
    hide Listed, Sound, Steps, FollowAll, Slots, TurnSettled;
    changed, steady := own, true;
    if own == [] || !Involves(db, own[0].table.name) {
      return true, changed, steady;
    }
    var position := 0;
    ghost var turn: nat := 0;
    while position < |changed|
      invariant Listed(db, changed, |own|) && position <= |changed|
      invariant Walk(db, State(own, true, 0), |own|, 0) == Walk(db, State(changed, steady, turn), |own|, position)
      decreases |own| + |Slots(db)| - position
    {
      ListedBound(db, changed, |own|);
      var item := changed[position];
      ghost var before := State(changed, steady, turn);
      turn := position;
      if item.was.None? {
        position := position + 1;
        continue;
      }
      TurnSteps(db, before, |own|, position);
      ok, changed, steady := FollowReferences(db, changed, steady, position, |own|, item);
      if !ok {
        return;
      }
      StepsGrows(db, before.(turn := turn), State(changed, steady, turn), |own|);
      ListedBound(db, changed, |own|);
      position := position + 1;
    }
    ok := Checks(db, changed);
  }

  /** One change's turn. */
  method FollowReferences(db: Database, changed: seq<Changed>, ghost steady: bool, ghost turn: nat, own: nat,
                          item: Changed)
    returns (ok: bool, after: seq<Changed>, ghost still: bool)
    requires Sound(db) && item.was.Some?
    ensures var result := FollowAll(db, State(changed, steady, turn), own, item.table, item.was.value, item.now,
                                    Referencing(db.tables, item.table.name));
            ok == result.Some? && (ok ==> after == result.value.changed)
    ensures ok ==> FollowAll(db, State(changed, steady, turn), own, item.table, item.was.value, item.now,
                             Referencing(db.tables, item.table.name)) == Some(State(after, still, turn))
  {
    var was, references := item.was.value, Referencing(db.tables, item.table.name);
    ok, after, still := true, changed, steady;
    for k := 0 to |references|
      invariant ok
      invariant FollowAll(db, State(changed, steady, turn), own, item.table, was, item.now, references) ==
                FollowAll(db, State(after, still, turn), own, item.table, was, item.now, references[k..])
    {
      assert references[k..][0] == references[k] && references[k..][1..] == references[k + 1..];
      var (child, key) := references[k];
      var values := Values(was, key.referencedColumns);
      if values.None? {
        continue;
      }
      var next := if item.now.None? then None else Some(Cells(item.now.value, key.referencedColumns));
      if next == values {
        continue;
      }
      var action := if item.now.Some? then key.onUpdate else key.onDelete;
      // NO ACTION lets the values survive in a row the statement leaves them in.
      if action == NoAction && Survives(db, after, item.table.name, key.referencedColumns, values.value) {
        continue;
      }
      var rows := RowsWhere(db.Rows(child.name), key.columns, values.value);
      ok, after, still := RevisitRows(db, after, still, turn, own, references[k], action, next, rows);
      if !ok {
        return;
      }
    }
  }
}
