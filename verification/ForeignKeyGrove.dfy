/** What turns come to where few rows refer to the one that changes (foreign_key.rs). */
module FewReferrers {
  import opened Schemas
  import opened ForeignKeys

  /** No stored row refers by a key to what it references of a row. */
  ghost predicate Unreferenced(db: Database, was: Row, reference: Reference) {
    match Values(was, reference.1.referencedColumns)
    case None => true
    case Some(values) => RowsWhere(db.Rows(reference.0.name), reference.1.columns, values) == []
  }

  /** What `FollowAll` comes to where no row refers to the one that changes. */
  lemma {:induction false} FollowNone(db: Database, state: State, own: nat, parent: Table, was: Row, now: Option<Row>,
                                      references: seq<Reference>)
    requires forall r :: r in references ==> |r.1.columns| == |r.1.referencedColumns| && Unreferenced(db, was, r)
    ensures FollowAll(db, state, own, parent, was, now, references) == Some(state)
    decreases |references|
  {
    hide RowsWhere, Survives, Values;
    if references != [] {
      FollowNone(db, state, own, parent, was, now, references[1..]);
    }
  }

  /** What it comes to where rows do by one key alone. */
  lemma {:induction false} FollowOne(db: Database, state: State, own: nat, parent: Table, was: Row, now: Option<Row>,
                                     references: seq<Reference>, k: nat, next: State)
    requires k < |references| && forall r :: r in references ==> |r.1.columns| == |r.1.referencedColumns|
    requires forall j :: 0 <= j < |references| && j != k ==> Unreferenced(db, was, references[j])
    requires Follow(db, state, own, parent, was, now, references[k]) == Some(next)
    ensures FollowAll(db, state, own, parent, was, now, references) == Some(next)
    decreases |references|
  {
    hide RowsWhere, Survives, Values;
    if k == 0 {
      hide Follow, Unreferenced;
      forall r | r in references[1..] ensures Unreferenced(db, was, r) {
        var j :| 0 <= j < |references[1..]| && references[1..][j] == r;
        assert references[j + 1] == r;
      }
      FollowNone(db, next, own, parent, was, now, references[1..]);
    } else {
      assert Unreferenced(db, was, references[0]);
      assert Follow(db, state, own, parent, was, now, references[0]) == Some(state);
      hide Follow, Unreferenced;
      forall j | 0 <= j < |references[1..]| ensures references[1..][j] == references[j + 1] {
      }
      FollowOne(db, state, own, parent, was, now, references[1..], k - 1, next);
    }
  }

  lemma FollowOnly(db: Database, state: State, own: nat, parent: Table, was: Row, now: Option<Row>,
                   reference: Reference, next: State)
    requires Once(db.tables) && Refers(db, reference, parent.name)
    requires forall r :: r in Referencing(db.tables, parent.name) ==> |r.1.columns| == |r.1.referencedColumns|
    requires forall r :: r in Referencing(db.tables, parent.name) && r != reference ==> Unreferenced(db, was, r)
    requires Follow(db, state, own, parent, was, now, reference) == Some(next)
    ensures FollowAll(db, state, own, parent, was, now, Referencing(db.tables, parent.name)) == Some(next)
  {
    hide Follow, FollowAll, Unreferenced, Once;
    var references := Referencing(db.tables, parent.name);
    ReferencingOnce(db.tables, parent.name);
    var k :| 0 <= k < |references| && references[k] == reference;
    forall j | 0 <= j < |references| && j != k ensures Unreferenced(db, was, references[j]) {
      assert references[j] in references;
    }
    FollowOne(db, state, own, parent, was, now, references, k, next);
  }

  lemma RevisitOne(db: Database, state: State, own: nat, reference: Reference, action: Action,
                   values: Option<seq<Value>>, row: Row)
    requires values.Some? ==> |values.value| == |reference.1.columns|
    ensures RevisitAll(db, state, own, reference, action, values, [row]) ==
            Revisit(db, state, own, reference, action, values, row)
  {
    hide Revisit;
    assert [row][1..] == [];
  }

  /** What an acting key makes of a row, if the storage takes each row as it is. */
  function Acted(r: Reference, action: Action, values: Option<seq<Value>>, base: Row): Option<Row>
    requires values.Some? ==> |values.value| == |r.1.columns|
  {
    if action == Cascade && values.None? then None
    else Some(Rewritten(r.0, r.1, action, values, base, |r.1.columns|))
  }

  lemma RevisitFirst(db: Database, state: State, own: nat, r: Reference, action: Action, values: Option<seq<Value>>,
                     row: Row)
    requires values.Some? ==> |values.value| == |r.1.columns|
    requires action != NoAction && action != Restrict && Find(state.changed, r.0.name, row) == None
    requires forall next :: db.normalize(r.0, next) == Some(next)
    ensures var next := Revisit(db, state, own, r, action, values, row);
            && next.Some?
            && next.value.changed == state.changed + [Changed(r.0, Some(row), Acted(r, action, values, row))]
  {
    hide Rewritten, Find, Harmless, Key;
  }

  lemma RevisitAgain(db: Database, state: State, own: nat, r: Reference, action: Action, values: Option<seq<Value>>,
                     row: Row, i: nat)
    requires values.Some? ==> |values.value| == |r.1.columns|
    requires action != NoAction && action != Restrict && Find(state.changed, r.0.name, row) == Some(i)
    requires own <= i < |state.changed| && state.changed[i].now.Some?
    requires forall next :: db.normalize(r.0, next) == Some(next)
    ensures var next := Revisit(db, state, own, r, action, values, row);
            var now := Acted(r, action, values, state.changed[i].now.value);
            next.Some? && next.value.changed == state.changed[i := state.changed[i].(now := now)]
  {
    hide Rewritten, Find, Harmless, Key;
  }

  lemma {:induction false} RewrittenColumn(table: Table, key: ForeignKey, action: Action, values: Option<seq<Value>>,
                                           row: Row, n: nat, j: nat)
    requires j < n <= |key.columns| && (values.Some? ==> |values.value| == |key.columns|)
    requires forall i, k :: 0 <= i < k < |key.columns| ==> key.columns[i] != key.columns[k]
    ensures Get(Rewritten(table, key, action, values, row, n), key.columns[j]) ==
            match action
            case Cascade => if values.Some? then values.value[j] else Null
            case SetDefault => Get(table.defaults, key.columns[j])
            case _ => Null
  {
    if j < n - 1 {
      RewrittenColumn(table, key, action, values, row, n - 1, j);
      assert key.columns[j] != key.columns[n - 1];
    }
  }

  lemma CascadeCells(table: Table, key: ForeignKey, values: seq<Value>, row: Row)
    requires |values| == |key.columns|
    requires forall i, k :: 0 <= i < k < |key.columns| ==> key.columns[i] != key.columns[k]
    ensures Cells(Rewritten(table, key, Cascade, Some(values), row, |key.columns|), key.columns) == values
  {
    forall j | 0 <= j < |key.columns|
      ensures Get(Rewritten(table, key, Cascade, Some(values), row, |key.columns|), key.columns[j]) == values[j]
    {
      RewrittenColumn(table, key, Cascade, Some(values), row, |key.columns|, j);
    }
  }

  lemma SameValues(a: Row, b: Row, columns: seq<Column>, other: seq<Column>)
    requires Cells(a, columns) == Cells(b, other)
    ensures match Values(b, other)
            case None => Values(a, columns) == None
            case Some(values) => Values(a, columns) == Some(values)
  {
  }

  /** One table a name, and no key of a table twice. */
  ghost predicate Once(tables: seq<Table>) {
    && (forall i, j :: 0 <= i < j < |tables| ==> tables[i].name != tables[j].name)
    && forall table, i, j :: table in tables && 0 <= i < j < |table.foreignKeys| ==>
         table.foreignKeys[i] != table.foreignKeys[j]
  }

  ghost predicate Apart(references: seq<Reference>) {
    forall i, j :: 0 <= i < j < |references| ==> references[i] != references[j]
  }

  lemma ApartBoth(first: seq<Reference>, rest: seq<Reference>)
    requires Apart(first) && Apart(rest) && forall r :: r in first ==> r !in rest
    ensures Apart(first + rest)
  {
    var both := first + rest;
    forall i, j | 0 <= i < j < |both| ensures both[i] != both[j] {
      if i < |first| <= j {
        assert both[i] in first && both[j] in rest;
      }
    }
  }

  lemma {:induction false} ReferencingOnce(tables: seq<Table>, name: Name)
    requires Once(tables)
    ensures Apart(Referencing(tables, name))
  {
    if tables != [] {
      var first, rest := ReferencesOf(tables[0], tables[0].foreignKeys, name), Referencing(tables[1..], name);
      ReferencingOnce(tables[1..], name);
      assert tables[0].foreignKeys[0..] == tables[0].foreignKeys;
      KeysOnce(tables[0], 0, name);
      forall r | r in rest ensures r.0 != tables[0] {
        assert r.0 in tables[1..];
      }
      ApartBoth(first, rest);
    }
  }

  lemma {:induction false} KeysOnce(table: Table, n: nat, name: Name)
    requires n <= |table.foreignKeys|
    requires forall i, j :: 0 <= i < j < |table.foreignKeys| ==> table.foreignKeys[i] != table.foreignKeys[j]
    ensures Apart(ReferencesOf(table, table.foreignKeys[n..], name))
    decreases |table.foreignKeys| - n
  {
    if n < |table.foreignKeys| {
      KeysOnce(table, n + 1, name);
      var keys := table.foreignKeys;
      assert keys[n..][0] == keys[n] && keys[n..][1..] == keys[n + 1..];
      var rest := ReferencesOf(table, keys[n + 1..], name);
      forall r | r in rest ensures r.1 != keys[n] {
        var k :| 0 <= k < |keys[n + 1..]| && keys[n + 1..][k] == r.1;
        assert keys[n + 1 + k] == r.1;
      }
      ApartBoth(if keys[n].references == name then [(table, keys[n])] else [], rest);
    }
  }
}

/** Databases made to order: rows that refer to one another as they are told to, on schemas that have room for them. */
module Groves {
  import opened Schemas
  import opened ForeignKeys
  import opened FewReferrers
  import opened StraightSchemas
  import opened ForkedSchemas

  /** How a schema has room. A fixed column holds the same value in every row, as one that names a tenant may; and keys
      with columns that must hold a value of their own lead from higher tables to lower ones. */
  datatype Shape = Shape(fixed: set<(Name, Column)>, height: Name -> nat)

  /** Whether other rows reference a column, or its row is known by it, so that it must hold a value, and one of its
      own. */
  ghost predicate Vital(tables: seq<Table>, shape: Shape, table: Table, column: Column) {
    && (table.name, column) !in shape.fixed
    && (|| column in table.primaryKey
        || exists s :: s in Referencing(tables, table.name) && column in s.1.referencedColumns)
  }

  ghost predicate VitalKey(tables: seq<Table>, shape: Shape, r: Reference) {
    exists column :: column in r.1.columns && Vital(tables, shape, r.0, column)
  }

  ghost predicate Varies(shape: Shape, table: Table, columns: seq<Column>) {
    exists column :: column in columns && (table.name, column) !in shape.fixed
  }

  /** A schema with room. Keys of a table share fixed columns alone. A vital key leads to a lower table, and sets no
      values to NULL or to a default. A key that gives rows other values has no fixed columns, and one that follows
      UPDATEs has, of what another key references in its table, all that varies or nothing. */
  ghost predicate Roomy(tables: seq<Table>, shape: Shape) {
    && (forall i, j :: 0 <= i < j < |tables| ==> tables[i].name != tables[j].name)
    && (forall table :: table in tables ==> Varies(shape, table, table.primaryKey) && Disjoint(shape, table))
    && forall r: Reference :: r.0 in tables && r.1 in r.0.foreignKeys ==>
         KeyLeads(tables, shape, r) && KeyFits(tables, shape, r)
  }

  ghost predicate Disjoint(shape: Shape, table: Table) {
    forall i, j, column :: 0 <= i < j < |table.foreignKeys| && column in table.foreignKeys[i].columns &&
                           column in table.foreignKeys[j].columns ==>
      (table.name, column) in shape.fixed
  }

  ghost predicate KeyLeads(tables: seq<Table>, shape: Shape, r: Reference) {
    var (table, key) := r;
    && |key.columns| == |key.referencedColumns| && Varies(shape, table, key.columns)
    && (exists parent :: parent in tables && parent.name == key.references)
    && (forall i, j :: 0 <= i < j < |key.columns| ==> key.columns[i] != key.columns[j])
    && forall j :: 0 <= j < |key.columns| ==>
         ((table.name, key.columns[j]) in shape.fixed <==> (key.references, key.referencedColumns[j]) in shape.fixed)
  }

  ghost predicate KeyFits(tables: seq<Table>, shape: Shape, r: Reference) {
    var (table, key) := r;
    && (VitalKey(tables, shape, r) ==>
          && shape.height(key.references) < shape.height(table.name)
          && !Unlinks(key) && key.onUpdate in {NoAction, Restrict, Cascade})
    && (Rewrites(key) ==> forall column :: column in key.columns ==> (table.name, column) !in shape.fixed)
    && (Acting(key.onUpdate) ==> forall s :: s in Referencing(tables, table.name) ==> Aligned(shape, r, s.1))
    && (key.onUpdate == SetDefault ==> exists column :: column in key.columns && Get(table.defaults, column) == Null)
  }

  ghost predicate Aligned(shape: Shape, r: Reference, key: ForeignKey) {
    Meet(r.1.columns, key.referencedColumns) ==>
      forall column :: column in key.referencedColumns && (r.0.name, column) !in shape.fixed ==> column in r.1.columns
  }

  function Position(columns: seq<Column>, column: Column): (position: nat)
    requires column in columns
    ensures position < |columns| && columns[position] == column
  {
    if columns[0] == column then 0 else Position(columns[1..], column) + 1
  }

  /** A row's key leads to the row of another node. */
  datatype Link = Link(key: ForeignKey, up: nat)

  /** A row of a table, where it is stored. One that is not has the numbers that its row would. */
  datatype Node = Node(table: Table, links: seq<Link>, stored: bool)

  /** Where a column's value comes from, if it is of a key that leads to another row. */
  function Through(links: seq<Link>, column: Column): Option<(nat, Column)> {
    if links == [] then None
    else
      var key := links[0].key;
      if column in key.columns && Position(key.columns, column) < |key.referencedColumns| then
        Some((links[0].up, key.referencedColumns[Position(key.columns, column)]))
      else Through(links[1..], column)
  }

  /** A database that holds each node's row and, in each table lower than the node's, a row of its number to which its
      other keys lead. */
  datatype Grove = Grove(tables: seq<Table>, shape: Shape, nodes: seq<Node>)
  {
    ghost predicate Good() {
      && Roomy(tables, shape)
      && (forall i :: 0 <= i < |nodes| ==> nodes[i].table in tables && (!nodes[i].stored ==> nodes[i].links == []))
      && (forall i, l :: 0 <= i < |nodes| && 0 <= l < |nodes[i].links| ==> LinkGood(i, l))
      && (forall i, j, l, k :: 0 <= i < |nodes| && 0 <= j < |nodes| && 0 <= l < |nodes[i].links| &&
                               0 <= k < |nodes[j].links| && nodes[i].links[l].up == nodes[j].links[k].up ==>
            i == j && l == k)
      && forall i, l, k :: 0 <= i < |nodes| && 0 <= l < k < |nodes[i].links| ==>
           nodes[i].links[l].key != nodes[i].links[k].key
    }

    ghost predicate LinkGood(i: nat, l: nat)
      requires i < |nodes| && l < |nodes[i].links|
    {
      var link := nodes[i].links[l];
      && link.key in nodes[i].table.foreignKeys && link.up < |nodes| && nodes[link.up].stored
      && link.key.references == nodes[link.up].table.name
    }

    function Comes(table: Table, i: nat, column: Column): Option<(nat, Column)>
      requires i < |nodes|
    {
      if table == nodes[i].table then Through(nodes[i].links, column) else None
    }

    /** The number in a vital column of a row: its node's, or the one that it comes from. */
    ghost function Number(table: Table, i: nat, column: Column): nat
      requires i < |nodes|
      decreases shape.height(table.name)
    {
      match Comes(table, i, column)
      case None => i + 1
      case Some((up, from)) =>
        if up < |nodes| && shape.height(nodes[up].table.name) < shape.height(table.name) then
          Number(nodes[up].table, up, from)
        else i + 1
    }

    ghost function Cell(table: Table, i: nat, column: Column): Value
      requires i < |nodes|
    {
      if (table.name, column) in shape.fixed then Of(0)
      else match Comes(table, i, column)
        case Some((up, from)) => if up < |nodes| then Of(Number(nodes[up].table, up, from)) else Null
        case None => if Keyed(table, column) && !Vital(tables, shape, table, column) then Null else Of(i + 1)
    }

    ghost function RowAt(table: Table, i: nat): Row
      requires i < |nodes|
    {
      map column | column in ColumnsOf(tables, table) :: Cell(table, i, column)
    }

    ghost predicate Fits(table: Table, i: nat) {
      && i < |nodes| && table in tables
      && (table == nodes[i].table || shape.height(table.name) < shape.height(nodes[i].table.name))
    }

    ghost predicate Stands(table: Table, i: nat) {
      Fits(table, i) && (table == nodes[i].table ==> nodes[i].stored)
    }

    /** A table's rows among those of the first `n` numbers. */
    ghost function RowsOf(table: Table, n: nat): seq<Row>
      requires n <= |nodes|
    {
      if n == 0 then [] else RowsOf(table, n - 1) + if Stands(table, n - 1) then [RowAt(table, n - 1)] else []
    }

    ghost function Stored(): Database {
      var names := set table | table in tables :: table.name;
      Database(tables, map name | name in names :: Named(this, tables, name), (table, row) => Some(row))
    }
  }

  ghost function Named(g: Grove, tables: seq<Table>, name: Name): seq<Row> {
    if tables == [] then []
    else if tables[0].name == name then g.RowsOf(tables[0], |g.nodes|) else Named(g, tables[1..], name)
  }

  predicate Keyed(table: Table, column: Column) {
    exists key :: key in table.foreignKeys && column in key.columns
  }

  ghost function ColumnsOf(tables: seq<Table>, table: Table): set<Column> {
    (set column | column in table.primaryKey) +
    (set key, column | key in table.foreignKeys && column in key.columns :: column) +
    set s, column | s in Referencing(tables, table.name) && column in s.1.referencedColumns :: column
  }

  lemma OneTable(g: Grove, a: Table, b: Table)
    requires g.Good() && a in g.tables && b in g.tables && a.name == b.name
    ensures a == b
  {
  }

  lemma KeyRoom(g: Grove, r: Reference)
    requires g.Good() && r.0 in g.tables && r.1 in r.0.foreignKeys
    ensures KeyLeads(g.tables, g.shape, r) && KeyFits(g.tables, g.shape, r)
  {
  }

  lemma TableRoom(g: Grove, table: Table)
    requires g.Good() && table in g.tables
    ensures Varies(g.shape, table, table.primaryKey) && Disjoint(g.shape, table)
  {
  }

  /** Two keys with a column that varies are one. */
  lemma SharedKey(g: Grove, table: Table, a: ForeignKey, b: ForeignKey, column: Column)
    requires g.Good() && table in g.tables && a in table.foreignKeys && b in table.foreignKeys
    requires column in a.columns && column in b.columns && (table.name, column) !in g.shape.fixed
    ensures a == b
  {
    hide Roomy;
    TableRoom(g, table);
    var i :| 0 <= i < |table.foreignKeys| && table.foreignKeys[i] == a;
    var j :| 0 <= j < |table.foreignKeys| && table.foreignKeys[j] == b;
  }

  lemma NodeTable(g: Grove, i: nat)
    requires g.Good() && i < |g.nodes|
    ensures g.nodes[i].table in g.tables
    ensures forall l :: 0 <= l < |g.nodes[i].links| ==> g.LinkGood(i, l)
  {
    hide Roomy;
  }

  lemma {:induction false} ThroughAt(links: seq<Link>, l: nat, column: Column)
    requires l < |links| && column in links[l].key.columns
    requires |links[l].key.columns| == |links[l].key.referencedColumns|
    requires forall k :: 0 <= k < l ==> column !in links[k].key.columns
    ensures var key := links[l].key;
            Through(links, column) == Some((links[l].up, key.referencedColumns[Position(key.columns, column)]))
  {
    if l > 0 {
      ThroughAt(links[1..], l - 1, column);
    }
  }

  lemma {:induction false} ThroughSome(links: seq<Link>, column: Column) returns (l: nat)
    ensures match Through(links, column)
            case None => true
            case Some((up, from)) =>
              && l < |links| && links[l].up == up && column in links[l].key.columns
              && var key := links[l].key;
                 var j := Position(key.columns, column);
                 j < |key.referencedColumns| && key.referencedColumns[j] == from
  {
    l := 0;
    if links != [] {
      var key := links[0].key;
      if !(column in key.columns && Position(key.columns, column) < |key.referencedColumns|) {
        var k := ThroughSome(links[1..], column);
        l := k + 1;
      }
    }
  }

  lemma {:induction false} PositionIs(columns: seq<Column>, j: nat)
    requires j < |columns| && forall i, k :: 0 <= i < k < |columns| ==> columns[i] != columns[k]
    ensures columns[j] in columns && Position(columns, columns[j]) == j
  {
    if j > 0 {
      assert columns[1..][j - 1] == columns[j];
      PositionIs(columns[1..], j - 1);
    }
  }

  /** A column that varies, of a key that leads to another row, comes from there. */
  lemma LinkComes(g: Grove, i: nat, l: nat, j: nat)
    requires g.Good() && i < |g.nodes| && l < |g.nodes[i].links| && j < |g.nodes[i].links[l].key.columns|
    requires (g.nodes[i].table.name, g.nodes[i].links[l].key.columns[j]) !in g.shape.fixed
    ensures var link := g.nodes[i].links[l];
            && |link.key.columns| == |link.key.referencedColumns|
            && g.Comes(g.nodes[i].table, i, link.key.columns[j]) == Some((link.up, link.key.referencedColumns[j]))
  {
    hide Roomy;
    NodeTable(g, i);
    var links := g.nodes[i].links;
    assert g.LinkGood(i, l);
    var key, column := links[l].key, links[l].key.columns[j];
    KeyRoom(g, (g.nodes[i].table, key));
    forall k | 0 <= k < l ensures column !in links[k].key.columns {
      assert g.LinkGood(i, k);
      if column in links[k].key.columns {
        SharedKey(g, g.nodes[i].table, key, links[k].key, column);
      }
    }
    ThroughAt(links, l, column);
    PositionIs(key.columns, j);
  }

  /** What a column that comes from elsewhere comes from. */
  lemma ComesFrom(g: Grove, table: Table, i: nat, column: Column) returns (l: nat, j: nat)
    requires g.Good() && i < |g.nodes| && g.Comes(table, i, column).Some?
    ensures table == g.nodes[i].table && l < |g.nodes[i].links| && g.LinkGood(i, l)
    ensures var link := g.nodes[i].links[l];
            && j < |link.key.columns| == |link.key.referencedColumns| && link.key.columns[j] == column
            && g.Comes(table, i, column) == Some((link.up, link.key.referencedColumns[j]))
  {
    hide Roomy;
    NodeTable(g, i);
    l := ThroughSome(g.nodes[i].links, column);
    assert g.LinkGood(i, l);
    KeyRoom(g, (table, g.nodes[i].links[l].key));
    j := Position(g.nodes[i].links[l].key.columns, column);
  }

  /** What a varying column of a key references is vital, and where the column is, it is lower. */
  lemma FromVital(g: Grove, table: Table, key: ForeignKey, parent: Table, j: nat)
    requires g.Good() && table in g.tables && key in table.foreignKeys && j < |key.columns|
    requires parent in g.tables && parent.name == key.references
    requires (table.name, key.columns[j]) !in g.shape.fixed
    ensures |key.columns| == |key.referencedColumns| && Vital(g.tables, g.shape, parent, key.referencedColumns[j])
    ensures Vital(g.tables, g.shape, table, key.columns[j]) ==>
              g.shape.height(parent.name) < g.shape.height(table.name)
  {
    hide Roomy;
    KeyRoom(g, (table, key));
    assert (table, key) in Referencing(g.tables, parent.name);
    assert key.columns[j] in key.columns && key.referencedColumns[j] in key.referencedColumns;
  }

  /** A vital column holds its number. */
  lemma CellVital(g: Grove, table: Table, i: nat, column: Column)
    requires g.Good() && g.Fits(table, i) && Vital(g.tables, g.shape, table, column)
    ensures g.Cell(table, i, column) == Of(g.Number(table, i, column))
  {
    hide Roomy, Vital;
    VaryingVital(g, table, column);
    if g.Comes(table, i, column).Some? {
      var l, j := ComesFrom(g, table, i, column);
      var link := g.nodes[i].links[l];
      NodeTable(g, link.up);
      FromVital(g, table, link.key, g.nodes[link.up].table, j);
    }
  }

  lemma VaryingVital(g: Grove, table: Table, column: Column)
    requires Vital(g.tables, g.shape, table, column)
    ensures (table.name, column) !in g.shape.fixed && column in ColumnsOf(g.tables, table)
  {
  }

  lemma VitalGet(g: Grove, table: Table, i: nat, column: Column)
    requires g.Good() && g.Fits(table, i) && Vital(g.tables, g.shape, table, column)
    ensures Get(g.RowAt(table, i), column) == Of(g.Number(table, i, column))
  {
    hide Roomy, Vital, Grove.Cell, Grove.Number;
    VaryingVital(g, table, column);
    CellVital(g, table, i, column);
  }

  lemma NumberPlain(g: Grove, table: Table, i: nat, column: Column)
    requires i < |g.nodes| && (table != g.nodes[i].table || g.nodes[i].links == [])
    ensures g.Number(table, i, column) == i + 1
  {
  }

  /** No two rows of a table have one number in a vital column. */
  lemma {:induction false} NumberOnce(g: Grove, table: Table, i: nat, j: nat, column: Column)
    requires g.Good() && g.Fits(table, i) && g.Fits(table, j) && Vital(g.tables, g.shape, table, column)
    requires g.Number(table, i, column) == g.Number(table, j, column)
    ensures i == j
    decreases g.shape.height(table.name)
  {
    hide Roomy, Vital;
    var a, b := g.Comes(table, i, column), g.Comes(table, j, column);
    if a.Some? && b.Some? {
      NumberLinked(g, table, i, j, column);
    } else if a.Some? {
      NumberApart(g, table, i, j, column);
    } else if b.Some? {
      NumberApart(g, table, j, i, column);
    }
  }

  lemma {:induction false} NumberLinked(g: Grove, table: Table, i: nat, j: nat, column: Column)
    requires g.Good() && g.Fits(table, i) && g.Fits(table, j) && Vital(g.tables, g.shape, table, column)
    requires g.Number(table, i, column) == g.Number(table, j, column)
    requires g.Comes(table, i, column).Some? && g.Comes(table, j, column).Some?
    ensures i == j
    decreases g.shape.height(table.name), 0
  {
    hide Roomy, Vital;
    VaryingVital(g, table, column);
    var l, p := ComesFrom(g, table, i, column);
    var k, q := ComesFrom(g, table, j, column);
    var a, b := g.nodes[i].links[l], g.nodes[j].links[k];
    SharedKey(g, table, a.key, b.key, column);
    KeyRoom(g, (table, a.key));
    NodeTable(g, a.up);
    NodeTable(g, b.up);
    OneTable(g, g.nodes[a.up].table, g.nodes[b.up].table);
    FromVital(g, table, a.key, g.nodes[a.up].table, p);
    NumberOnce(g, g.nodes[a.up].table, a.up, b.up, a.key.referencedColumns[p]);
  }

  /** A row whose key leads to another has no number of one whose key leads to a row of its own number. */
  lemma {:induction false} NumberApart(g: Grove, table: Table, i: nat, j: nat, column: Column)
    requires g.Good() && g.Fits(table, i) && g.Fits(table, j) && Vital(g.tables, g.shape, table, column)
    requires g.Comes(table, i, column).Some? && g.Comes(table, j, column).None?
    ensures g.Number(table, i, column) != g.Number(table, j, column)
    decreases g.shape.height(table.name), 0
  {
    hide Roomy, Vital;
    VaryingVital(g, table, column);
    var l, p := ComesFrom(g, table, i, column);
    var link := g.nodes[i].links[l];
    var parent, from := g.nodes[link.up].table, link.key.referencedColumns[p];
    NodeTable(g, link.up);
    FromVital(g, table, link.key, parent, p);
    assert g.Number(parent, j, from) == j + 1;
    if g.Number(parent, link.up, from) == g.Number(parent, j, from) {
      NumberOnce(g, parent, link.up, j, from);
    }
  }

  /** The columns that rows of a table are known by: its primary key, or what some key references. */
  ghost predicate Knows(g: Grove, table: Table, columns: seq<Column>) {
    || columns == table.primaryKey
    || exists s :: s in Referencing(g.tables, table.name) && s.1.referencedColumns == columns
  }

  lemma KnownColumns(g: Grove, table: Table, columns: seq<Column>)
    requires g.Good() && table in g.tables && Knows(g, table, columns)
    ensures forall column :: column in columns ==> column in ColumnsOf(g.tables, table)
    ensures forall column :: column in columns && (table.name, column) !in g.shape.fixed ==>
              Vital(g.tables, g.shape, table, column)
    ensures Varies(g.shape, table, columns)
  {
    hide Roomy;
    TableRoom(g, table);
    if columns != table.primaryKey {
      var s :| s in Referencing(g.tables, table.name) && s.1.referencedColumns == columns;
      KeyRoom(g, s);
      var column :| column in s.1.columns && (s.0.name, column) !in g.shape.fixed;
      var j :| 0 <= j < |s.1.columns| && s.1.columns[j] == column;
      assert s.1.referencedColumns[j] in columns;
    }
  }

  lemma KnownCell(g: Grove, table: Table, i: nat, columns: seq<Column>, k: nat)
    requires g.Good() && g.Fits(table, i) && Knows(g, table, columns) && k < |columns|
    ensures Get(g.RowAt(table, i), columns[k]) == g.Cell(table, i, columns[k]) != Null
    ensures (table.name, columns[k]) !in g.shape.fixed ==>
              g.Cell(table, i, columns[k]) == Of(g.Number(table, i, columns[k]))
  {
    hide Roomy, Vital;
    KnownColumns(g, table, columns);
    assert columns[k] in columns;
    if (table.name, columns[k]) !in g.shape.fixed {
      CellVital(g, table, i, columns[k]);
    }
  }

  /** No two rows of a table are the same where rows are known by. */
  lemma TupleOnce(g: Grove, table: Table, i: nat, j: nat, columns: seq<Column>)
    requires g.Good() && g.Fits(table, i) && g.Fits(table, j) && Knows(g, table, columns)
    requires Cells(g.RowAt(table, i), columns) == Cells(g.RowAt(table, j), columns)
    ensures i == j
  {
    hide Roomy, Vital, Grove.RowAt, Grove.Cell, Knows;
    KnownColumns(g, table, columns);
    var column :| column in columns && (table.name, column) !in g.shape.fixed;
    var k :| 0 <= k < |columns| && columns[k] == column;
    KnownCell(g, table, i, columns, k);
    KnownCell(g, table, j, columns, k);
    assert Cells(g.RowAt(table, i), columns)[k] == Cells(g.RowAt(table, j), columns)[k];
    NumberOnce(g, table, i, j, column);
  }

  lemma KnownValues(g: Grove, table: Table, i: nat, columns: seq<Column>)
    requires g.Good() && g.Fits(table, i) && Knows(g, table, columns)
    ensures Values(g.RowAt(table, i), columns) == Some(Cells(g.RowAt(table, i), columns))
  {
    hide Roomy, Vital, Grove.RowAt, Grove.Cell, Knows;
    forall k | 0 <= k < |columns| ensures Cells(g.RowAt(table, i), columns)[k] != Null {
      KnownCell(g, table, i, columns, k);
    }
  }

  lemma KeyColumn(g: Grove, table: Table, key: ForeignKey, i: nat, j: nat)
    requires g.Good() && table in g.tables && key in table.foreignKeys && i < |g.nodes| && j < |key.columns|
    ensures Get(g.RowAt(table, i), key.columns[j]) == g.Cell(table, i, key.columns[j])
    ensures Keyed(table, key.columns[j])
  {
    hide Grove.Cell, Grove.Good;
    assert key.columns[j] in key.columns && key.columns[j] in ColumnsOf(g.tables, table);
  }

  lemma References(g: Grove, table: Table, key: ForeignKey, parent: Table)
    requires g.Good() && table in g.tables && key in table.foreignKeys && parent.name == key.references
    ensures Knows(g, parent, key.referencedColumns) && |key.columns| == |key.referencedColumns|
  {
    hide Roomy;
    KeyRoom(g, (table, key));
    assert (table, key) in Referencing(g.tables, parent.name);
  }

  /** A key that leads to another row holds what that row is known by there. */
  lemma LinkedCells(g: Grove, i: nat, l: nat)
    requires g.Good() && i < |g.nodes| && l < |g.nodes[i].links|
    ensures var link := g.nodes[i].links[l];
            && link.up < |g.nodes| && |link.key.columns| == |link.key.referencedColumns|
            && Cells(g.RowAt(g.nodes[i].table, i), link.key.columns) ==
               Cells(g.RowAt(g.nodes[link.up].table, link.up), link.key.referencedColumns)
  {
    hide Roomy, Vital, Grove.RowAt, Grove.Cell, Knows;
    NodeTable(g, i);
    assert g.LinkGood(i, l);
    var link := g.nodes[i].links[l];
    var table, key, parent := g.nodes[i].table, link.key, g.nodes[link.up].table;
    NodeTable(g, link.up);
    References(g, table, key, parent);
    forall j | 0 <= j < |key.columns|
      ensures Get(g.RowAt(table, i), key.columns[j]) == Get(g.RowAt(parent, link.up), key.referencedColumns[j])
    {
      KeyColumn(g, table, key, i, j);
      KnownCell(g, parent, link.up, key.referencedColumns, j);
      LinkedCell(g, i, l, j);
    }
  }

  lemma LinkedCell(g: Grove, i: nat, l: nat, j: nat)
    requires g.Good() && i < |g.nodes| && l < |g.nodes[i].links| && j < |g.nodes[i].links[l].key.columns|
    ensures var link := g.nodes[i].links[l];
            && link.up < |g.nodes| && |link.key.columns| == |link.key.referencedColumns|
            && g.Cell(g.nodes[i].table, i, link.key.columns[j]) ==
               g.Cell(g.nodes[link.up].table, link.up, link.key.referencedColumns[j])
  {
    hide Roomy, Vital;
    NodeTable(g, i);
    assert g.LinkGood(i, l);
    var link := g.nodes[i].links[l];
    var table, key, parent := g.nodes[i].table, link.key, g.nodes[link.up].table;
    KeyRoom(g, (table, key));
    NodeTable(g, link.up);
    if (table.name, key.columns[j]) !in g.shape.fixed {
      LinkComes(g, i, l, j);
      FromVital(g, table, key, parent, j);
      CellVital(g, parent, link.up, key.referencedColumns[j]);
    }
  }

  ghost predicate Bound(g: Grove, table: Table, i: nat, key: ForeignKey) {
    i < |g.nodes| && table == g.nodes[i].table &&
    exists l :: 0 <= l < |g.nodes[i].links| && g.nodes[i].links[l].key == key
  }

  /** Any other key of a row holds NULL, or leads to a lower table's row of the row's own number. */
  lemma OtherCells(g: Grove, table: Table, i: nat, key: ForeignKey, parent: Table)
    requires g.Good() && g.Fits(table, i) && key in table.foreignKeys && !Bound(g, table, i, key)
    requires parent in g.tables && parent.name == key.references
    ensures |key.columns| == |key.referencedColumns|
    ensures Values(g.RowAt(table, i), key.columns).Some? ==>
              && g.shape.height(parent.name) < g.shape.height(table.name) && g.Stands(parent, i)
              && Cells(g.RowAt(table, i), key.columns) == Cells(g.RowAt(parent, i), key.referencedColumns)
  {
    hide Roomy, Vital, Grove.RowAt, Grove.Cell, Knows;
    KeyRoom(g, (table, key));
    References(g, table, key, parent);
    var column :| column in key.columns && (table.name, column) !in g.shape.fixed;
    var k :| 0 <= k < |key.columns| && key.columns[k] == column;
    if Values(g.RowAt(table, i), key.columns).Some? {
      assert Cells(g.RowAt(table, i), key.columns)[k] != Null;
      OtherCell(g, table, i, key, parent, k);
      forall j | 0 <= j < |key.columns|
        ensures Get(g.RowAt(table, i), key.columns[j]) == Get(g.RowAt(parent, i), key.referencedColumns[j])
      {
        assert Cells(g.RowAt(table, i), key.columns)[j] != Null;
        OtherCell(g, table, i, key, parent, j);
        KnownCell(g, parent, i, key.referencedColumns, j);
      }
    }
  }

  lemma OtherCell(g: Grove, table: Table, i: nat, key: ForeignKey, parent: Table, j: nat)
    requires g.Good() && g.Fits(table, i) && key in table.foreignKeys && !Bound(g, table, i, key)
    requires parent in g.tables && parent.name == key.references
    requires j < |key.columns| == |key.referencedColumns| && Get(g.RowAt(table, i), key.columns[j]) != Null
    ensures (table.name, key.columns[j]) !in g.shape.fixed ==>
              g.shape.height(parent.name) < g.shape.height(table.name) && g.Stands(parent, i)
    ensures g.shape.height(parent.name) < g.shape.height(table.name) ==>
              Get(g.RowAt(table, i), key.columns[j]) == g.Cell(parent, i, key.referencedColumns[j])
  {
    hide Roomy, Vital, Grove.RowAt;
    KeyRoom(g, (table, key));
    KeyColumn(g, table, key, i, j);
    if (table.name, key.columns[j]) !in g.shape.fixed {
      OtherFree(g, table, i, key, key.columns[j]);
      FromVital(g, table, key, parent, j);
    }
  }

  lemma OtherFree(g: Grove, table: Table, i: nat, key: ForeignKey, column: Column)
    requires g.Good() && g.Fits(table, i) && key in table.foreignKeys && !Bound(g, table, i, key)
    requires column in key.columns && (table.name, column) !in g.shape.fixed
    ensures g.Comes(table, i, column) == None
  {
    hide Roomy;
    if g.Comes(table, i, column).Some? {
      var l, j := ComesFrom(g, table, i, column);
      SharedKey(g, table, key, g.nodes[i].links[l].key, column);
    }
  }

  lemma {:induction false} NamedIs(g: Grove, tables: seq<Table>, table: Table)
    requires table in tables && forall i, j :: 0 <= i < j < |tables| ==> tables[i].name != tables[j].name
    ensures Named(g, tables, table.name) == g.RowsOf(table, |g.nodes|)
  {
    hide Grove.RowsOf;
    if tables[0].name != table.name {
      NamedIs(g, tables[1..], table);
    } else {
      var i :| 0 <= i < |tables| && tables[i] == table;
    }
  }

  lemma StoredIs(g: Grove, table: Table)
    requires g.Good() && table in g.tables
    ensures g.Stored().Rows(table.name) == g.RowsOf(table, |g.nodes|)
  {
    hide Named, Grove.RowsOf;
    NamedIs(g, g.tables, table);
  }

  lemma StoredTables(g: Grove)
    ensures g.Stored().tables == g.tables
    ensures forall table, row :: g.Stored().normalize(table, row) == Some(row)
  {
  }

  lemma {:induction false} RowsOfHas(g: Grove, table: Table, n: nat)
    requires n <= |g.nodes|
    ensures forall i :: 0 <= i < n && g.Stands(table, i) ==> g.RowAt(table, i) in g.RowsOf(table, n)
    ensures forall row :: row in g.RowsOf(table, n) ==>
              exists i :: 0 <= i < n && g.Stands(table, i) && g.RowAt(table, i) == row
  {
    hide Grove.RowAt, Grove.Stands;
    if n > 0 {
      RowsOfHas(g, table, n - 1);
    }
  }

  lemma {:induction false} RowsOfOnce(g: Grove, table: Table, n: nat)
    requires g.Good() && table in g.tables && n <= |g.nodes|
    ensures OneRowAKey(table, g.RowsOf(table, n))
  {
    hide Grove.RowAt, Key, Roomy;
    if n > 0 {
      RowsOfOnce(g, table, n - 1);
      if g.Stands(table, n - 1) {
        NewRow(g, table, n - 1);
        hide OneRowAKey;
        MoreOnce(table, g.RowsOf(table, n - 1), g.RowAt(table, n - 1));
      }
    }
  }

  lemma NewRow(g: Grove, table: Table, n: nat)
    requires g.Good() && table in g.tables && n < |g.nodes| && g.Stands(table, n)
    ensures forall row :: row in g.RowsOf(table, n) ==> Key(table, row) != Key(table, g.RowAt(table, n))
  {
    hide Grove.RowAt, Roomy;
    RowsOfHas(g, table, n);
    forall row | row in g.RowsOf(table, n) ensures Key(table, row) != Key(table, g.RowAt(table, n)) {
      var i :| 0 <= i < n && g.Stands(table, i) && g.RowAt(table, i) == row;
      if Key(table, row) == Key(table, g.RowAt(table, n)) {
        TupleOnce(g, table, i, n, table.primaryKey);
      }
    }
  }

  lemma MoreOnce(table: Table, rows: seq<Row>, row: Row)
    requires OneRowAKey(table, rows) && forall other :: other in rows ==> Key(table, other) != Key(table, row)
    ensures OneRowAKey(table, rows + [row])
  {
    hide Key;
    assert forall k :: 0 <= k < |rows| ==> rows[k] in rows && (rows + [row])[k] == rows[k];
  }

  /** A stored row is the row of some number. */
  lemma StoredRow(g: Grove, table: Table, row: Row) returns (i: nat)
    requires g.Good() && table in g.tables && row in g.Stored().Rows(table.name)
    ensures g.Stands(table, i) && g.RowAt(table, i) == row
  {
    hide Grove.RowAt, Grove.Stored, Roomy;
    StoredIs(g, table);
    RowsOfHas(g, table, |g.nodes|);
    i :| 0 <= i < |g.nodes| && g.Stands(table, i) && g.RowAt(table, i) == row;
  }

  lemma StandsStored(g: Grove, table: Table, i: nat)
    requires g.Good() && g.Stands(table, i)
    ensures g.RowAt(table, i) in g.Stored().Rows(table.name)
  {
    hide Grove.RowAt, Grove.Stored, Roomy;
    StoredIs(g, table);
    RowsOfHas(g, table, |g.nodes|);
  }

  lemma ParentOf(g: Grove, r: Reference) returns (parent: Table)
    requires g.Good() && r.0 in g.tables && r.1 in r.0.foreignKeys
    ensures parent in g.tables && parent.name == r.1.references
    ensures Knows(g, parent, r.1.referencedColumns) && |r.1.columns| == |r.1.referencedColumns|
  {
    hide Roomy;
    KeyRoom(g, r);
    parent :| parent in g.tables && parent.name == r.1.references;
    References(g, r.0, r.1, parent);
  }

  lemma StoredSound(g: Grove)
    requires g.Good()
    ensures Sound(g.Stored()) && NormalStays(g.Stored())
  {
    hide OneRowAKey, OneRowAValue, Key, Values, Grove.RowAt, Knows;
    StoredTables(g);
    var db := g.Stored();
    forall table | table in db.tables ensures OneRowAKey(table, db.Rows(table.name)) {
      RowsOfOnce(g, table, |g.nodes|);
      StoredIs(g, table);
    }
    forall child, key | child in db.tables && key in child.foreignKeys
      ensures |key.columns| == |key.referencedColumns| && OneRowAValue(db.Rows(key.references), key.referencedColumns)
    {
      var parent := ParentOf(g, (child, key));
      ValuesOnce(g, parent, key.referencedColumns);
    }
  }

  lemma ValuesOnce(g: Grove, table: Table, columns: seq<Column>)
    requires g.Good() && table in g.tables && Knows(g, table, columns)
    ensures OneRowAValue(g.Stored().Rows(table.name), columns)
  {
    hide Grove.RowAt, Grove.Stored, Roomy, Knows;
    var rows := g.Stored().Rows(table.name);
    forall a, b | a in rows && b in rows && Values(a, columns).Some? && Values(a, columns) == Values(b, columns)
      ensures a == b
    {
      var i := StoredRow(g, table, a);
      var j := StoredRow(g, table, b);
      TupleOnce(g, table, i, j, columns);
    }
  }

  lemma StoredIntact(g: Grove)
    requires g.Good()
    ensures Intact(g.Stored(), [], 0)
  {
    hide Values, Grove.RowAt, Grove.Stored, Roomy, Has, Held;
    StoredTables(g);
    var db := g.Stored();
    forall table, key, row | table in db.tables && key in table.foreignKeys && Has(db, [], 0, table.name, row) &&
                             Values(row, key.columns).Some?
      ensures Held(db, [], 0, key.references, key.referencedColumns, Values(row, key.columns).value)
    {
      StoredHas(db, table.name, row);
      var i := StoredRow(g, table, row);
      var parent := ParentOf(g, (table, key));
      KeyHeld(g, table, i, key, parent);
    }
  }

  lemma KeyHeld(g: Grove, table: Table, i: nat, key: ForeignKey, parent: Table)
    requires g.Good() && g.Stands(table, i) && key in table.foreignKeys
    requires parent in g.tables && parent.name == key.references && Knows(g, parent, key.referencedColumns)
    requires Values(g.RowAt(table, i), key.columns).Some?
    ensures Held(g.Stored(), [], 0, key.references, key.referencedColumns, Values(g.RowAt(table, i), key.columns).value)
  {
    hide Grove.RowAt, Grove.Stored, Roomy, Has, Knows;
    if Bound(g, table, i, key) {
      var l :| 0 <= l < |g.nodes[i].links| && g.nodes[i].links[l].key == key;
      NodeTable(g, i);
      assert g.LinkGood(i, l);
      LinkedCells(g, i, l);
      var up := g.nodes[i].links[l].up;
      NodeTable(g, up);
      OneTable(g, parent, g.nodes[up].table);
      RowHeld(g, parent, up, key.referencedColumns);
    } else {
      OtherCells(g, table, i, key, parent);
      RowHeld(g, parent, i, key.referencedColumns);
    }
  }

  lemma RowHeld(g: Grove, table: Table, i: nat, columns: seq<Column>)
    requires g.Good() && g.Stands(table, i) && Knows(g, table, columns)
    ensures Held(g.Stored(), [], 0, table.name, columns, Cells(g.RowAt(table, i), columns))
  {
    hide Grove.RowAt, Grove.Stored, Roomy, Has, Knows;
    StandsStored(g, table, i);
    StoredHas(g.Stored(), table.name, g.RowAt(table, i));
    KnownValues(g, table, i, columns);
  }

  /** A stored row that refers to a node's row is linked to it. */
  lemma Referrer(g: Grove, p: nat, r: Reference, row: Row) returns (i: nat)
    requires g.Good() && p < |g.nodes| && r in Referencing(g.tables, g.nodes[p].table.name)
    requires row in g.Stored().Rows(r.0.name)
    requires Values(row, r.1.columns) == Some(Cells(g.RowAt(g.nodes[p].table, p), r.1.referencedColumns))
    ensures i < |g.nodes| && g.nodes[i].table == r.0 && g.nodes[i].stored && g.RowAt(r.0, i) == row
    ensures Link(r.1, p) in g.nodes[i].links
  {
    hide Grove.RowAt, Grove.Stored, Roomy, Knows;
    i := StoredRow(g, r.0, row);
    NodeTable(g, p);
    var parent := g.nodes[p].table;
    References(g, r.0, r.1, parent);
    if Bound(g, r.0, i, r.1) {
      var l :| 0 <= l < |g.nodes[i].links| && g.nodes[i].links[l].key == r.1;
      NodeTable(g, i);
      assert g.LinkGood(i, l);
      LinkedCells(g, i, l);
      var up := g.nodes[i].links[l].up;
      NodeTable(g, up);
      OneTable(g, parent, g.nodes[up].table);
      TupleOnce(g, parent, up, p, r.1.referencedColumns);
    } else {
      OtherCells(g, r.0, i, r.1, parent);
      TupleOnce(g, parent, i, p, r.1.referencedColumns);
    }
  }

  lemma NoLinkAlone(g: Grove, p: nat, r: Reference)
    requires g.Good() && p < |g.nodes| && r in Referencing(g.tables, g.nodes[p].table.name)
    requires forall i :: 0 <= i < |g.nodes| && g.nodes[i].table == r.0 ==> Link(r.1, p) !in g.nodes[i].links
    ensures Unreferenced(g.Stored(), g.RowAt(g.nodes[p].table, p), r)
  {
    hide Grove.RowAt, Grove.Stored, Roomy, Values;
    var was := g.RowAt(g.nodes[p].table, p);
    var values := Values(was, r.1.referencedColumns);
    if values.Some? && RowsWhere(g.Stored().Rows(r.0.name), r.1.columns, values.value) != [] {
      var row := RowsWhere(g.Stored().Rows(r.0.name), r.1.columns, values.value)[0];
      CellsOf(was, r.1.referencedColumns);
      var i := Referrer(g, p, r, row);
    }
  }

  lemma CellsOf(row: Row, columns: seq<Column>)
    ensures Values(row, columns) in {None, Some(Cells(row, columns))}
  {
  }

  /** The one row that refers by a key to a node's row. */
  lemma LinkRows(g: Grove, p: nat, r: Reference, i: nat)
    requires g.Good() && p < |g.nodes| && r in Referencing(g.tables, g.nodes[p].table.name)
    requires i < |g.nodes| && g.nodes[i].table == r.0 && Link(r.1, p) in g.nodes[i].links
    ensures |r.1.columns| == |r.1.referencedColumns|
    ensures var values := Cells(g.RowAt(g.nodes[p].table, p), r.1.referencedColumns);
            && Values(g.RowAt(g.nodes[p].table, p), r.1.referencedColumns) == Some(values)
            && RowsWhere(g.Stored().Rows(r.0.name), r.1.columns, values) == [g.RowAt(r.0, i)]
  {
    hide Grove.RowAt, Grove.Stored, Roomy, Values, OneRowAKey, Knows;
    var parent := g.nodes[p].table;
    var values := Cells(g.RowAt(parent, p), r.1.referencedColumns);
    NodeTable(g, p);
    NodeTable(g, i);
    References(g, r.0, r.1, parent);
    KnownValues(g, parent, p, r.1.referencedColumns);
    var rows := RowsWhere(g.Stored().Rows(r.0.name), r.1.columns, values);
    LinkRow(g, p, r, i);
    forall row | row in rows ensures row == g.RowAt(r.0, i) {
      var j := Referrer(g, p, r, row);
      OneLink(g, i, j, Link(r.1, p));
    }
    StoredIs(g, r.0);
    RowsOfOnce(g, r.0, |g.nodes|);
    RowsWhereOnce(r.0, g.Stored().Rows(r.0.name), r.1.columns, values);
    OneLong(r.0, rows, g.RowAt(r.0, i));
  }

  lemma LinkRow(g: Grove, p: nat, r: Reference, i: nat)
    requires g.Good() && p < |g.nodes| && r in Referencing(g.tables, g.nodes[p].table.name)
    requires i < |g.nodes| && g.nodes[i].table == r.0 && Link(r.1, p) in g.nodes[i].links
    ensures g.RowAt(r.0, i) in g.Stored().Rows(r.0.name) && |r.1.columns| == |r.1.referencedColumns|
    ensures Values(g.RowAt(r.0, i), r.1.columns) == Some(Cells(g.RowAt(g.nodes[p].table, p), r.1.referencedColumns))
  {
    hide Grove.RowAt, Grove.Stored, Roomy, Knows;
    NodeTable(g, p);
    NodeTable(g, i);
    var l :| 0 <= l < |g.nodes[i].links| && g.nodes[i].links[l] == Link(r.1, p);
    LinkedCells(g, i, l);
    StandsStored(g, r.0, i);
    References(g, r.0, r.1, g.nodes[p].table);
    KnownValues(g, g.nodes[p].table, p, r.1.referencedColumns);
  }

  lemma OneLink(g: Grove, i: nat, j: nat, link: Link)
    requires g.Good() && i < |g.nodes| && j < |g.nodes| && link in g.nodes[i].links && link in g.nodes[j].links
    ensures i == j
  {
    hide Roomy;
    var l :| 0 <= l < |g.nodes[i].links| && g.nodes[i].links[l] == link;
    var k :| 0 <= k < |g.nodes[j].links| && g.nodes[j].links[k] == link;
    assert g.nodes[i].links[l].up == g.nodes[j].links[k].up;
  }

  lemma OneLong(table: Table, rows: seq<Row>, row: Row)
    requires OneRowAKey(table, rows) && row in rows && forall other :: other in rows ==> other == row
    ensures rows == [row]
  {
    TwoRows(rows);
  }

  lemma TwoRows(rows: seq<Row>)
    requires forall i, j :: 0 <= i < j < |rows| ==> rows[i] != rows[j]
    ensures |rows| > 1 ==> exists a, b :: a in rows && b in rows && a != b
  {
    if |rows| > 1 {
      assert rows[0] in rows && rows[1] in rows;
    }
  }

  /** Changes of the first nodes' rows. */
  ghost predicate Changes(g: Grove, changed: seq<Changed>) {
    && |changed| <= |g.nodes|
    && forall q :: 0 <= q < |changed| ==>
         && g.nodes[q].stored && changed[q].table == g.nodes[q].table
         && changed[q].was == Some(g.RowAt(g.nodes[q].table, q))
  }

  lemma FindNode(g: Grove, changed: seq<Changed>, table: Table, j: nat)
    requires g.Good() && Changes(g, changed) && g.Fits(table, j)
    ensures Find(changed, table.name, g.RowAt(table, j)) ==
            if j < |changed| && table == g.nodes[j].table then Some(j) else None
  {
    hide Grove.RowAt, Roomy, Key;
    var found := Find(changed, table.name, g.RowAt(table, j));
    forall q | 0 <= q < |changed| && Replaces(changed[q], table.name, g.RowAt(table, j))
      ensures q == j && table == g.nodes[j].table
    {
      NodeTable(g, q);
      OneTable(g, table, g.nodes[q].table);
      KeyOnce(g, table, q, j);
    }
    if j < |changed| && table == g.nodes[j].table {
      assert Replaces(changed[j], table.name, g.RowAt(table, j));
    }
  }

  lemma KeyOnce(g: Grove, table: Table, i: nat, j: nat)
    requires g.Good() && g.Fits(table, i) && g.Fits(table, j)
    requires Key(table, g.RowAt(table, i)) == Key(table, g.RowAt(table, j))
    ensures i == j
  {
    hide Roomy, Grove.RowAt;
    TupleOnce(g, table, i, j, table.primaryKey);
  }

  /** A stored row that is not among those changed survives. */
  lemma OtherSurvives(g: Grove, changed: seq<Changed>, table: Table, j: nat, columns: seq<Column>)
    requires g.Good() && Changes(g, changed) && g.Stands(table, j) && Knows(g, table, columns)
    requires !(j < |changed| && table == g.nodes[j].table)
    ensures Survives(g.Stored(), changed, table.name, columns, Cells(g.RowAt(table, j), columns))
  {
    hide Grove.RowAt, Grove.Stored, Roomy, Knows, Find, Changes;
    StandsStored(g, table, j);
    KnownValues(g, table, j, columns);
    var rows := RowsWhere(g.Stored().Rows(table.name), columns, Cells(g.RowAt(table, j), columns));
    assert rows[0] in rows;
    var i := StoredRow(g, table, rows[0]);
    TupleOnce(g, table, i, j, columns);
    FindNode(g, changed, table, j);
  }

  lemma ReferencingLengths(g: Grove, name: Name)
    requires g.Good()
    ensures forall r :: r in Referencing(g.tables, name) ==> |r.1.columns| == |r.1.referencedColumns|
    ensures Once(g.tables)
  {
    hide Disjoint, KeyFits;
    forall r | r in Referencing(g.tables, name) ensures |r.1.columns| == |r.1.referencedColumns| {
      KeyRoom(g, r);
    }
    forall table, i, j | table in g.tables && 0 <= i < j < |table.foreignKeys|
      ensures table.foreignKeys[i] != table.foreignKeys[j]
    {
      KeysApart(g, table, i, j);
    }
  }

  lemma KeysApart(g: Grove, table: Table, i: nat, j: nat)
    requires g.Good() && table in g.tables && i < j < |table.foreignKeys|
    ensures table.foreignKeys[i] != table.foreignKeys[j]
  {
    hide Roomy;
    TableRoom(g, table);
    KeyRoom(g, (table, table.foreignKeys[i]));
    var column :| column in table.foreignKeys[i].columns && (table.name, column) !in g.shape.fixed;
  }
}
