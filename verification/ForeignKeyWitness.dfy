/** On a schema with a fork, a database and a statement that is accepted and leaves a reference that names no row
    (foreign_key.rs). */
module ForkWitness {
  import opened Schemas
  import opened ForeignKeys
  import opened StraightSchemas
  import opened ForkedSchemas
  import opened FewReferrers
  import opened Groves

  /** A row of `table` that refers by `key` to the row of an earlier branch. The first two refer to none. */
  datatype Branch = Branch(table: Table, up: nat, key: ForeignKey)

  /** Rows in the order in which deleting the first two, or giving them other values, lists them. The row at `cut` also
      refers by `over` to the last, and one row more refers by `outer` to the row at `cut`. */
  datatype Tree = Tree(tables: seq<Table>, shape: Shape, gone: bool, branches: seq<Branch>, cut: nat, over: ForeignKey,
                       outer: Reference)
  {
    function TableAt(i: nat): Table
      requires i <= |branches|
    {
      if i == |branches| then outer.0 else branches[i].table
    }

    function UpAt(i: nat): nat
      requires i <= |branches|
    {
      if i == |branches| then cut else branches[i].up
    }

    function KeyAt(i: nat): ForeignKey
      requires i <= |branches|
    {
      if i == |branches| then outer.1 else branches[i].key
    }

    function LinksAt(i: nat): seq<Link>
      requires i <= |branches| && |branches| > 0
    {
      if i < 2 then []
      else [Link(KeyAt(i), UpAt(i))] + if i == cut then [Link(over, |branches| - 1)] else []
    }

    function NodeAt(i: nat): Node
      requires |branches| > 0
    {
      if i <= |branches| then Node(TableAt(i), LinksAt(i), true) else Node(TableAt(0), [], false)
    }

    /** The rows, and after them two numbers for the values that the first two are given. */
    function Planted(): Grove
      requires |branches| > 0
    {
      Grove(tables, shape, seq(|branches| + 3, i requires 0 <= i < |branches| + 3 => NodeAt(i)))
    }

    ghost predicate Good() {
      && Roomy(tables, shape) && KeysStay(tables) && 2 <= cut && cut + 1 < |branches|
      && (forall i :: 0 <= i <= |branches| ==> TableAt(i) in tables)
      && branches[0].table == branches[1].table
      && (forall i :: 2 <= i <= |branches| ==> Joined(i, KeyAt(i), UpAt(i)) && UpAt(i) < i)
      && (forall i, j :: 2 <= i < j < |branches| ==> UpAt(i) < UpAt(j))
      && (forall i :: 2 <= i < |branches| ==> UpAt(i) != cut && Passes(i, KeyAt(i), UpAt(i)))
      && Joined(cut, over, |branches| - 1) && over != KeyAt(cut)
      && Passes(|branches|, over, |branches| - 1)
      && (!gone ==> Meet(over.columns, outer.1.referencedColumns))
    }

    predicate Joined(i: nat, key: ForeignKey, up: nat)
      requires i <= |branches|
    {
      up <= |branches| && key in TableAt(i).foreignKeys && key.references == TableAt(up).name
    }

    /** Whether a change of row `up` changes the row that refers to it by `key`: at the cut, by giving it other values.
        */
    predicate Passes(i: nat, key: ForeignKey, up: nat)
      requires up <= |branches|
    {
      if gone then (if i == cut then Unlinks(key) else key.onDelete == Cascade)
      else (if i == cut then Acting(key.onUpdate) else key.onUpdate == Cascade) &&
           (2 <= up ==> Meet(KeyAt(up).columns, key.referencedColumns))
    }

    ghost function RowAt(i: nat): Row
      requires i <= |branches| && |branches| > 0
    {
      Planted().RowAt(TableAt(i), i)
    }

    ghost function Stored(): Database
      requires |branches| > 0
    {
      Planted().Stored()
    }

    /** What a row is given for its own or its key's values, if it is not deleted. */
    ghost function New(i: nat): Row
      requires i < |branches|
    {
      var table, key, n := TableAt(i), KeyAt(i), |KeyAt(i).columns|;
      if i < 2 && !gone then Planted().RowAt(table, |branches| + 1 + i)
      else if gone then Rewritten(table, key, key.onDelete, None, RowAt(i), n)
      else if UpAt(i) < i && |key.referencedColumns| == n then
        Rewritten(table, key, key.onUpdate, Some(Cells(New(UpAt(i)), key.referencedColumns)), RowAt(i), n)
      else RowAt(i)
    }

    /** What the row at the cut is given at last. */
    ghost function Last(): Option<Row>
      requires cut < |branches|
    {
      if gone || |over.columns| != |over.referencedColumns| then None
      else Some(Rewritten(TableAt(cut), over, Cascade,
                          Some(Cells(New(|branches| - 1), over.referencedColumns)), New(cut), |over.columns|))
    }

    ghost function Item(i: nat): Changed
      requires i < |branches|
    {
      Changed(TableAt(i), Some(RowAt(i)), if gone && i != cut then None else Some(New(i)))
    }

    ghost function Listing(m: nat): seq<Changed>
      requires m <= |branches|
    {
      seq(m, i requires 0 <= i < m => Item(i))
    }

    ghost function Final(): seq<Changed>
      requires cut < |branches|
    {
      Listing(|branches|)[cut := Item(cut).(now := Last())]
    }
  }

  lemma TreeParts(t: Tree)
    requires t.Good()
    ensures |t.branches| > 2 && 2 <= t.cut < |t.branches| - 1 && KeysStay(t.tables) && Roomy(t.tables, t.shape)
    ensures forall i :: 0 <= i <= |t.branches| ==> t.TableAt(i) in t.tables
    ensures t.TableAt(0) == t.TableAt(1)
    ensures forall i :: 2 <= i <= |t.branches| ==> t.Joined(i, t.KeyAt(i), t.UpAt(i)) && t.UpAt(i) < i
    ensures forall i :: 2 <= i < |t.branches| ==> t.UpAt(i) != t.cut && t.Passes(i, t.KeyAt(i), t.UpAt(i))
    ensures t.Joined(t.cut, t.over, |t.branches| - 1) && t.over != t.KeyAt(t.cut)
    ensures t.Passes(|t.branches|, t.over, |t.branches| - 1)
    ensures !t.gone ==> Meet(t.over.columns, t.outer.1.referencedColumns)
  {
    hide Roomy;
  }

  lemma Rises(t: Tree, i: nat, j: nat)
    requires t.Good() && 2 <= i < j < |t.branches|
    ensures t.UpAt(i) < t.UpAt(j)
  {
    hide Roomy;
  }

  lemma LinkIs(t: Tree, i: nat, l: nat)
    requires t.Good() && i <= |t.branches| && l < |t.LinksAt(i)|
    ensures 2 <= i && var link := t.LinksAt(i)[l];
            && t.Joined(i, link.key, link.up) && link.up < |t.branches|
            && if l == 0 then link == Link(t.KeyAt(i), t.UpAt(i))
               else i == t.cut && link == Link(t.over, |t.branches| - 1)
    ensures l < 2
  {
    hide Tree.Good, Tree.Joined, Tree.Passes, Roomy;
    TreeParts(t);
  }

  /** A row is referred to by one row at most. */
  lemma LinkOnce(t: Tree, i: nat, l: nat, j: nat, k: nat)
    requires t.Good() && i <= |t.branches| && j <= |t.branches| && l < |t.LinksAt(i)| && k < |t.LinksAt(j)|
    requires t.LinksAt(i)[l].up == t.LinksAt(j)[k].up
    ensures i == j && l == k
  {
    hide Tree.Good, Tree.LinksAt;
    TreeParts(t);
    LinkIs(t, i, l);
    LinkIs(t, j, k);
    if i < j < |t.branches| {
      Rises(t, i, j);
    } else if j < i < |t.branches| {
      Rises(t, j, i);
    }
  }

  lemma PlantedGood(t: Tree)
    requires t.Good()
    ensures t.Planted().Good() && |t.Planted().nodes| == |t.branches| + 3
  {
    hide Tree.Good, Tree.LinksAt, Tree.NodeAt, Roomy;
    TreeParts(t);
    var g := t.Planted();
    forall i | 0 <= i < |g.nodes|
      ensures g.nodes[i].table in g.tables && (!g.nodes[i].stored ==> g.nodes[i].links == [])
    {
      NodePlain(t, i);
    }
    forall i, l | 0 <= i < |g.nodes| && 0 <= l < |g.nodes[i].links| ensures g.LinkGood(i, l) {
      NodePlain(t, i);
      LinkIs(t, i, l);
      NodePlain(t, t.LinksAt(i)[l].up);
    }
    forall i, j, l, k | 0 <= i < |g.nodes| && 0 <= j < |g.nodes| && 0 <= l < |g.nodes[i].links| &&
                        0 <= k < |g.nodes[j].links| && g.nodes[i].links[l].up == g.nodes[j].links[k].up
      ensures i == j && l == k
    {
      NodePlain(t, i);
      NodePlain(t, j);
      LinkOnce(t, i, l, j, k);
    }
    forall i, l, k | 0 <= i < |g.nodes| && 0 <= l < k < |g.nodes[i].links|
      ensures g.nodes[i].links[l].key != g.nodes[i].links[k].key
    {
      NodePlain(t, i);
      LinkIs(t, i, l);
      LinkIs(t, i, k);
    }
  }

  lemma NodePlain(t: Tree, i: nat)
    requires t.Good() && i < |t.branches| + 3
    ensures |t.branches| > 0 && |t.Planted().nodes| == |t.branches| + 3
    ensures var node := t.Planted().nodes[i];
            && node.table in t.tables && (node.stored <==> i <= |t.branches|)
            && node.table == (if i <= |t.branches| then t.TableAt(i) else t.TableAt(0))
            && (i <= |t.branches| ==> node.links == t.LinksAt(i)) && (!node.stored ==> node.links == [])
  {
    TreeParts(t);
    hide Tree.Good;
  }

  lemma Planting(t: Tree, i: nat)
    requires t.Good() && i < |t.branches| + 3
    ensures |t.branches| > 2 && t.Planted().Good() && |t.Planted().nodes| == |t.branches| + 3
    ensures t.Planted().tables == t.tables && t.Planted().shape == t.shape
    ensures t.Planted().nodes[i].table == (if i <= |t.branches| then t.TableAt(i) else t.TableAt(0))
    ensures t.Planted().nodes[i].table in t.tables
    ensures t.Planted().nodes[i].links == (if i <= |t.branches| then t.LinksAt(i) else [])
    ensures t.Planted().nodes[i].stored <==> i <= |t.branches|
  {
    hide Tree.Good, Tree.LinksAt, Tree.NodeAt, Roomy;
    TreeParts(t);
    NodePlain(t, i);
    PlantedGood(t);
  }

  /** Whether row `i` refers by `key` to row `p`. */
  predicate Leads(t: Tree, i: nat, key: ForeignKey, p: nat) {
    |t.branches| > 0 && i <= |t.branches| && Link(key, p) in t.LinksAt(i)
  }

  lemma LeadsTo(t: Tree, i: nat, key: ForeignKey, p: nat)
    requires t.Good() && Leads(t, i, key, p)
    ensures 2 <= i <= |t.branches| && p < |t.branches| && t.Joined(i, key, p) && key in t.TableAt(i).foreignKeys
    ensures (key == t.KeyAt(i) && p == t.UpAt(i) < i) || (i == t.cut && key == t.over && p == |t.branches| - 1)
    ensures t.TableAt(i) in t.tables && (t.TableAt(i), key) in Referencing(t.tables, t.TableAt(p).name)
  {
    hide Tree.Good, Tree.LinksAt;
    TreeParts(t);
    var l :| 0 <= l < |t.LinksAt(i)| && t.LinksAt(i)[l] == Link(key, p);
    LinkIs(t, i, l);
  }

  lemma LeadsOnce(t: Tree, i: nat, key: ForeignKey, j: nat, other: ForeignKey, p: nat)
    requires t.Good() && Leads(t, i, key, p) && Leads(t, j, other, p)
    ensures i == j && key == other
  {
    hide Tree.Good, Tree.LinksAt;
    var l :| 0 <= l < |t.LinksAt(i)| && t.LinksAt(i)[l] == Link(key, p);
    var k :| 0 <= k < |t.LinksAt(j)| && t.LinksAt(j)[k] == Link(other, p);
    LinkOnce(t, i, l, j, k);
  }

  lemma KeyLeads(t: Tree, i: nat)
    requires t.Good() && 2 <= i <= |t.branches|
    ensures Leads(t, i, t.KeyAt(i), t.UpAt(i))
    ensures i == t.cut ==> Leads(t, i, t.over, |t.branches| - 1)
  {
    hide Tree.Good;
    TreeParts(t);
    assert t.LinksAt(i)[0] == Link(t.KeyAt(i), t.UpAt(i));
    if i == t.cut {
      assert t.LinksAt(i)[1] == Link(t.over, |t.branches| - 1);
    }
  }

  /** A value that no row held. */
  predicate IsFresh(t: Tree, value: Value) {
    value.Of? && value.value > |t.branches| + 1
  }

  ghost predicate AllFresh(t: Tree, row: Row, columns: seq<Column>) {
    forall column :: column in columns ==> IsFresh(t, Get(row, column))
  }

  lemma {:induction false} OldNumber(t: Tree, table: Table, i: nat, column: Column)
    requires t.Good() && i <= |t.branches|
    ensures |t.branches| > 0 && i < |t.Planted().nodes|
    ensures t.Planted().Number(table, i, column) <= |t.branches| + 1
    decreases t.shape.height(table.name)
  {
    hide Tree.Good, Tree.LinksAt, Tree.Planted, Roomy;
    Planting(t, i);
    var g := t.Planted();
    if g.Comes(table, i, column).Some? {
      var l, j := ComesFrom(g, table, i, column);
      LinkIs(t, i, l);
      var link := g.nodes[i].links[l];
      Planting(t, link.up);
      if t.shape.height(g.nodes[link.up].table.name) < t.shape.height(table.name) {
        OldNumber(t, g.nodes[link.up].table, link.up, link.key.referencedColumns[j]);
      }
    }
  }

  lemma OldCell(t: Tree, i: nat, column: Column)
    requires t.Good() && i <= |t.branches|
    ensures |t.branches| > 0 && !IsFresh(t, Get(t.RowAt(i), column))
  {
    hide Tree.Good, Tree.LinksAt, Tree.Planted, Roomy, Vital;
    Planting(t, i);
    var g := t.Planted();
    if g.Comes(t.TableAt(i), i, column).Some? {
      var l, j := ComesFrom(g, t.TableAt(i), i, column);
      LinkIs(t, i, l);
      var link := g.nodes[i].links[l];
      Planting(t, link.up);
      OldNumber(t, g.nodes[link.up].table, link.up, link.key.referencedColumns[j]);
    }
  }

  lemma OwnNew(t: Tree, i: nat)
    requires t.Good() && !t.gone && i < 2
    ensures |t.branches| > 2 && t.New(i) == t.Planted().RowAt(t.TableAt(0), |t.branches| + 1 + i)
  {
    hide Tree.Good, Grove.RowAt, Tree.Planted, Tree.Joined, Tree.Passes, Roomy;
    TreeParts(t);
  }

  lemma OwnFresh(t: Tree, i: nat, column: Column)
    requires t.Good() && !t.gone && i < 2 && Vital(t.tables, t.shape, t.TableAt(i), column)
    ensures i < |t.branches| && IsFresh(t, Get(t.New(i), column))
  {
    hide Tree.Good, Tree.New, Tree.Planted, Vital, Grove.RowAt, Grove.Number, Grove.Good;
    TreeParts(t);
    OwnNew(t, i);
    Planting(t, |t.branches| + 1 + i);
    VitalGet(t.Planted(), t.TableAt(0), |t.branches| + 1 + i, column);
    NumberPlain(t.Planted(), t.TableAt(0), |t.branches| + 1 + i, column);
  }

  lemma KeyOf(t: Tree, r: Reference)
    requires t.Good() && r.0 in t.tables && r.1 in r.0.foreignKeys
    ensures Groves.KeyLeads(t.tables, t.shape, r) && KeyFits(t.tables, t.shape, r)
  {
    hide Groves.KeyLeads, KeyFits;
    TreeParts(t);
    hide Tree.Good;
  }

  /** A key whose rows follow those it references takes values that no row held. */
  lemma {:induction false} UpFresh(t: Tree, r: Reference, up: nat)
    requires t.Good() && !t.gone && r.0 in t.tables && r.1 in r.0.foreignKeys && Acting(r.1.onUpdate)
    requires up < |t.branches| && up != t.cut && r.1.references == t.TableAt(up).name
    requires 2 <= up ==> Meet(t.KeyAt(up).columns, r.1.referencedColumns)
    ensures AllFresh(t, t.New(up), r.1.referencedColumns)
    decreases up, 1
  {
    hide Tree.Good, Tree.LinksAt, Tree.Planted, Tree.New, Roomy, Vital, KeyFits;
    TreeParts(t);
    forall column | column in r.1.referencedColumns ensures IsFresh(t, Get(t.New(up), column)) {
      UpVital(t, r, t.TableAt(up), column);
      if up < 2 {
        OwnFresh(t, up, column);
      } else {
        MeetsWhole(t, (t.TableAt(up), t.KeyAt(up)), r, column);
        NewFresh(t, up, column);
      }
    }
  }

  lemma UpVital(t: Tree, r: Reference, parent: Table, column: Column)
    requires t.Good() && r.0 in t.tables && r.1 in r.0.foreignKeys && Rewrites(r.1)
    requires parent in t.tables && r.1.references == parent.name && column in r.1.referencedColumns
    ensures Vital(t.tables, t.shape, parent, column) && (parent.name, column) !in t.shape.fixed
  {
    hide Tree.Good;
    KeyOf(t, r);
    var j :| 0 <= j < |r.1.referencedColumns| && r.1.referencedColumns[j] == column;
    assert r.1.columns[j] in r.1.columns;
    assert r in Referencing(t.tables, parent.name);
  }

  /** A key that follows UPDATEs, and has a column that another references, has all that it references and varies. */
  lemma MeetsWhole(t: Tree, r: Reference, s: Reference, column: Column)
    requires t.Good() && r.0 in t.tables && r.1 in r.0.foreignKeys && Acting(r.1.onUpdate)
    requires s in Referencing(t.tables, r.0.name) && Meet(r.1.columns, s.1.referencedColumns)
    requires column in s.1.referencedColumns && (r.0.name, column) !in t.shape.fixed
    ensures column in r.1.columns
  {
    hide Tree.Good;
    KeyOf(t, r);
    assert Aligned(t.shape, r, s.1);
  }

  lemma {:induction false} NewFresh(t: Tree, i: nat, column: Column)
    requires t.Good() && !t.gone && 2 <= i < |t.branches| && i != t.cut && column in t.KeyAt(i).columns
    ensures IsFresh(t, Get(t.New(i), column))
    decreases i, 0
  {
    hide Tree.Good, Tree.LinksAt, Tree.Planted, Roomy, KeyFits, Rewritten;
    TreeParts(t);
    var r, up := (t.TableAt(i), t.KeyAt(i)), t.UpAt(i);
    KeyOf(t, r);
    UpFresh(t, r, up);
    var j :| 0 <= j < |r.1.columns| && r.1.columns[j] == column;
    assert r.1.referencedColumns[j] in r.1.referencedColumns;
    RewrittenColumn(r.0, r.1, Cascade, Some(Cells(t.New(up), r.1.referencedColumns)), t.RowAt(i), |r.1.columns|, j);
  }

  /** What a row's key makes of a change: the action, and the values the row referred to then has. */
  ghost function NextOf(t: Tree, p: nat, key: ForeignKey): Option<seq<Value>>
    requires p < |t.branches|
  {
    if t.gone then None else Some(Cells(t.New(p), key.referencedColumns))
  }

  /** A row that a change passes to. */
  ghost predicate Passed(t: Tree, i: nat, key: ForeignKey, p: nat) {
    && Leads(t, i, key, p) && p < |t.branches| && p != t.cut && Acting(ActionOf(key, t.gone))
    && (!t.gone && 2 <= p ==> Meet(t.KeyAt(p).columns, key.referencedColumns))
  }

  lemma Differs(t: Tree, i: nat, key: ForeignKey, p: nat)
    requires t.Good() && !t.gone && Passed(t, i, key, p)
    ensures Cells(t.New(p), key.referencedColumns) != Cells(t.RowAt(p), key.referencedColumns)
    ensures AllFresh(t, t.New(p), key.referencedColumns)
  {
    hide Tree.Good, Tree.LinksAt, Tree.RowAt, Tree.New, Roomy, KeyFits;
    LeadsTo(t, i, key, p);
    UpFresh(t, (t.TableAt(i), key), p);
    KeyOf(t, (t.TableAt(i), key));
    var column := key.referencedColumns[0];
    assert column in key.referencedColumns;
    OldCell(t, p, column);
    assert Cells(t.New(p), key.referencedColumns)[0] != Cells(t.RowAt(p), key.referencedColumns)[0];
  }

  /** The one row that refers by a key to one that changes. */
  lemma FollowLinked(t: Tree, state: State, p: nat, i: nat, key: ForeignKey)
    requires t.Good() && Passed(t, i, key, p)
    ensures |key.columns| == |key.referencedColumns|
    ensures Follow(t.Stored(), state, 2, t.TableAt(p), t.RowAt(p), t.Item(p).now, (t.TableAt(i), key)) ==
            Revisit(t.Stored(), state, 2, (t.TableAt(i), key), ActionOf(key, t.gone), NextOf(t, p, key), t.RowAt(i))
  {
    hide Tree.Good, Tree.LinksAt, Tree.New, Tree.Planted, Roomy, Values, RowsWhere, Revisit, Grove.RowAt, Grove.Stored;
    LeadsTo(t, i, key, p);
    Planting(t, p);
    Planting(t, i);
    var g, r := t.Planted(), (t.TableAt(i), key);
    LinkRows(g, p, r, i);
    if !t.gone {
      Differs(t, i, key, p);
    }
    RevisitOne(t.Stored(), state, 2, r, ActionOf(key, t.gone), NextOf(t, p, key), t.RowAt(i));
  }

  lemma ListingChanges(t: Tree, m: nat)
    requires t.Good() && m <= |t.branches|
    ensures |t.branches| > 2 && Changes(t.Planted(), t.Listing(m)) && Changes(t.Planted(), t.Final())
  {
    hide Tree.Good, Tree.Planted, Roomy, Tree.Last, Grove.RowAt, Tree.Item;
    TreeParts(t);
    Planting(t, 0);
    forall q | 0 <= q < |t.branches|
      ensures var g := t.Planted();
              && g.nodes[q].stored && t.Item(q).table == g.nodes[q].table
              && t.Item(q).was == Some(g.RowAt(g.nodes[q].table, q))
    {
      ItemIs(t, q);
    }
  }

  ghost predicate ItemPlanted(t: Tree, q: nat)
    requires q < |t.branches|
  {
    var g := t.Planted();
    && q < |g.nodes| && g.nodes[q].stored && t.Item(q).table == g.nodes[q].table
    && t.Item(q).was == Some(g.RowAt(g.nodes[q].table, q))
  }

  lemma ItemIs(t: Tree, q: nat)
    requires t.Good() && q < |t.branches|
    ensures ItemPlanted(t, q)
  {
    hide Tree.Good, Tree.Planted, Roomy, Tree.New, Grove.RowAt;
    Planting(t, q);
  }

  lemma FindListed(t: Tree, m: nat, i: nat)
    requires t.Good() && m <= |t.branches| && i < |t.branches|
    ensures Find(t.Listing(m), t.TableAt(i).name, t.RowAt(i)) == if i < m then Some(i) else None
  {
    hide Tree.Good, Tree.LinksAt, Tree.New, Tree.Planted, Roomy, Tree.Last, Grove.RowAt, Changes, Tree.Item;
    ListingChanges(t, m);
    Planting(t, i);
    FindNode(t.Planted(), t.Listing(m), t.TableAt(i), i);
  }

  lemma RevisitPush(t: Tree, state: State, m: nat)
    requires t.Good() && 2 <= m < |t.branches| && state.changed == t.Listing(m)
    ensures t.UpAt(m) < m && |t.KeyAt(m).columns| == |t.KeyAt(m).referencedColumns|
    ensures var key := t.KeyAt(m);
            var next := Revisit(t.Stored(), state, 2, (t.TableAt(m), key), ActionOf(key, t.gone),
                                NextOf(t, t.UpAt(m), key), t.RowAt(m));
            next.Some? && next.value.changed == t.Listing(m + 1)
  {
    hide Tree.Good, Tree.LinksAt, Tree.RowAt, Tree.Planted, Roomy, Rewritten, Find, Revisit, Tree.Stored, KeyFits;
    TreeParts(t);
    FindListed(t, m, m);
    StoredPlain(t);
    var r := (t.TableAt(m), t.KeyAt(m));
    KeyOf(t, r);
    RevisitFirst(t.Stored(), state, 2, r, ActionOf(r.1, t.gone), NextOf(t, t.UpAt(m), r.1), t.RowAt(m));
    assert t.Listing(m) + [t.Item(m)] == t.Listing(m + 1);
  }

  lemma StoredPlain(t: Tree)
    requires t.Good()
    ensures |t.branches| > 0 && t.Stored().tables == t.tables
    ensures forall table, row :: t.Stored().normalize(table, row) == Some(row)
  {
    TreeParts(t);
    StoredTables(t.Planted());
  }

  lemma RevisitOver(t: Tree, state: State)
    requires t.Good() && state.changed == t.Listing(|t.branches|)
    ensures t.cut < |t.branches| - 1 && |t.over.columns| == |t.over.referencedColumns|
    ensures var next := Revisit(t.Stored(), state, 2, (t.TableAt(t.cut), t.over), ActionOf(t.over, t.gone),
                                NextOf(t, |t.branches| - 1, t.over), t.RowAt(t.cut));
            next.Some? && next.value.changed == t.Final()
  {
    hide Tree.Good, Tree.LinksAt, Tree.RowAt, Tree.Planted, Roomy, Rewritten, Find, Revisit, Tree.Stored, Tree.New;
    TreeParts(t);
    FindListed(t, |t.branches|, t.cut);
    StoredPlain(t);
    var r := (t.TableAt(t.cut), t.over);
    KeyOf(t, r);
    RevisitAgain(t.Stored(), state, 2, r, ActionOf(t.over, t.gone), NextOf(t, |t.branches| - 1, t.over), t.RowAt(t.cut),
                 t.cut);
  }

  lemma ChildPassed(t: Tree, i: nat)
    requires t.Good() && 2 <= i < |t.branches|
    ensures Passed(t, i, t.KeyAt(i), t.UpAt(i)) && t.UpAt(i) < i
  {
    hide Tree.Good, Tree.LinksAt, Roomy, Leads, Tree.Joined;
    TreeParts(t);
    KeyLeads(t, i);
    LeadsTo(t, i, t.KeyAt(i), t.UpAt(i));
  }

  lemma OverPassed(t: Tree)
    requires t.Good()
    ensures Passed(t, t.cut, t.over, |t.branches| - 1) && t.cut < |t.branches| - 1
  {
    hide Tree.Good, Tree.LinksAt, Roomy, Leads, Tree.Joined;
    TreeParts(t);
    KeyLeads(t, t.cut);
  }

  /** A row is referred to by no key but the one that leads to it. */
  lemma OthersAlone(t: Tree, p: nat, r: Reference)
    requires t.Good() && p < |t.branches| && r in Referencing(t.tables, t.TableAt(p).name)
    requires forall i :: 0 <= i <= |t.branches| && t.TableAt(i) == r.0 ==> !Leads(t, i, r.1, p)
    ensures Unreferenced(t.Stored(), t.RowAt(p), r)
  {
    hide Tree.Good, Tree.LinksAt, Tree.Planted, Roomy, Grove.RowAt, Grove.Stored, Unreferenced;
    Planting(t, p);
    var g := t.Planted();
    forall i | 0 <= i < |g.nodes| && g.nodes[i].table == r.0 ensures Link(r.1, p) !in g.nodes[i].links {
      Planting(t, i);
    }
    NoLinkAlone(g, p, r);
  }

  lemma Lengths(t: Tree, name: Name)
    requires t.Good()
    ensures Once(t.tables) && forall r :: r in Referencing(t.tables, name) ==> |r.1.columns| == |r.1.referencedColumns|
  {
    hide Tree.Good, Tree.LinksAt, Tree.Planted, Roomy, Once;
    Planting(t, 0);
    ReferencingLengths(t.Planted(), name);
  }

  /** A changed row's turn, where row `i` refers to it, and to it alone. */
  lemma TurnOne(t: Tree, state: State, p: nat, i: nat, key: ForeignKey, next: State)
    requires t.Good() && Leads(t, i, key, p) && p < |t.branches| && Sound(t.Stored())
    requires p < |state.changed| && state.changed[p] == t.Item(p) && |key.columns| == |key.referencedColumns|
    requires Follow(t.Stored(), state.(turn := p), 2, t.TableAt(p), t.RowAt(p), t.Item(p).now, (t.TableAt(i), key)) ==
             Some(next)
    ensures Turn(t.Stored(), state, 2, p) == Some(next)
  {
    hide Tree.Good, Tree.LinksAt, Tree.RowAt, Tree.New, Follow, FollowAll, Roomy, Unreferenced, Once, Leads,
         Tree.Stored;
    StoredPlain(t);
    LeadsTo(t, i, key, p);
    Lengths(t, t.TableAt(p).name);
    forall r | r in Referencing(t.tables, t.TableAt(p).name) && r != (t.TableAt(i), key)
      ensures Unreferenced(t.Stored(), t.RowAt(p), r)
    {
      forall j | 0 <= j <= |t.branches| && t.TableAt(j) == r.0 ensures !Leads(t, j, r.1, p) {
        if Leads(t, j, r.1, p) {
          LeadsOnce(t, i, key, j, r.1, p);
        }
      }
      OthersAlone(t, p, r);
    }
    FollowOnly(t.Stored(), state.(turn := p), 2, t.TableAt(p), t.RowAt(p), t.Item(p).now, (t.TableAt(i), key), next);
  }

  lemma TurnNone(t: Tree, state: State, p: nat)
    requires t.Good() && p < |t.branches| && Sound(t.Stored())
    requires forall i, key :: 0 <= i <= |t.branches| ==> !Leads(t, i, key, p)
    requires p < |state.changed| && state.changed[p] == t.Item(p)
    ensures Turn(t.Stored(), state, 2, p) == Some(state.(turn := p))
  {
    hide Tree.Good, Tree.LinksAt, Tree.RowAt, Tree.New, Follow, FollowAll, Roomy, Unreferenced, Once, Leads,
         Tree.Stored;
    StoredPlain(t);
    Lengths(t, t.TableAt(p).name);
    var references := Referencing(t.tables, t.TableAt(p).name);
    forall r | r in references ensures Unreferenced(t.Stored(), t.RowAt(p), r) {
      OthersAlone(t, p, r);
    }
    FollowNone(t.Stored(), state.(turn := p), 2, t.TableAt(p), t.RowAt(p), t.Item(p).now, references);
  }

  /** The next row is listed. */
  lemma TurnPush(t: Tree, state: State, p: nat, m: nat)
    requires t.Good() && p < m < |t.branches| && 2 <= m && t.UpAt(m) == p && Sound(t.Stored())
    requires state.changed == t.Listing(m)
    ensures Turn(t.Stored(), state, 2, p).Some? && Turn(t.Stored(), state, 2, p).value.changed == t.Listing(m + 1)
  {
    hide Tree.Good, Tree.LinksAt, Tree.RowAt, Tree.New, Tree.Stored, Follow, Turn, Revisit, Roomy, Sound, Leads;
    var key, turn := t.KeyAt(m), state.(turn := p);
    ChildPassed(t, m);
    FollowLinked(t, turn, p, m, key);
    RevisitPush(t, turn, m);
    var next := Revisit(t.Stored(), turn, 2, (t.TableAt(m), key), ActionOf(key, t.gone), NextOf(t, p, key), t.RowAt(m));
    TurnOne(t, state, p, m, key, next.value);
  }

  /** The last row's change takes the row at the cut, whose turn is over. */
  lemma TurnOver(t: Tree, state: State)
    requires t.Good() && Sound(t.Stored()) && state.changed == t.Listing(|t.branches|)
    ensures t.cut < |t.branches|
    ensures var turn := Turn(t.Stored(), state, 2, |t.branches| - 1); turn.Some? && turn.value.changed == t.Final()
  {
    hide Tree.Good, Tree.LinksAt, Tree.RowAt, Tree.New, Tree.Stored, Follow, Turn, Revisit, Roomy, Sound, Leads,
         Tree.Final;
    OverPassed(t);
    var p := |t.branches| - 1;
    var turn := state.(turn := p);
    FollowLinked(t, turn, p, t.cut, t.over);
    RevisitOver(t, turn);
    var next := Revisit(t.Stored(), turn, 2, (t.TableAt(t.cut), t.over), ActionOf(t.over, t.gone), NextOf(t, p, t.over),
                        t.RowAt(t.cut));
    TurnOne(t, state, p, t.cut, t.over, next.value);
  }

  /** What the row outside references at the cut is not of the cut's first key. */
  lemma CutApart(t: Tree)
    requires t.Good()
    ensures t.cut < |t.branches| && !Meet(t.KeyAt(t.cut).columns, t.outer.1.referencedColumns)
    ensures Rewrites(t.KeyAt(t.cut))
  {
    hide Tree.Good, Tree.LinksAt, Roomy, Groves.KeyLeads;
    TreeParts(t);
    KeyLeads(t, t.cut);
    var table, key := t.TableAt(t.cut), t.KeyAt(t.cut);
    var outside := (t.outer.0, t.outer.1);
    OuterRefers(t);
    KeyOf(t, (table, key));
    forall column | column in key.columns ensures column !in t.outer.1.referencedColumns {
      if column in t.outer.1.referencedColumns {
        CutColumn(t, column);
      }
    }
  }

  lemma OuterRefers(t: Tree)
    requires t.Good()
    ensures t.cut < |t.branches| && t.outer in Referencing(t.tables, t.TableAt(t.cut).name)
    ensures t.outer.0 in t.tables && t.outer.1 in t.outer.0.foreignKeys && Leads(t, |t.branches|, t.outer.1, t.cut)
  {
    hide Tree.Good, Tree.LinksAt, Roomy, Leads;
    TreeParts(t);
    KeyLeads(t, |t.branches|);
    LeadsTo(t, |t.branches|, t.outer.1, t.cut);
  }

  lemma CutColumn(t: Tree, column: Column)
    requires t.Good() && column in t.outer.1.referencedColumns
    ensures t.cut < |t.branches| && column !in t.KeyAt(t.cut).columns
  {
    hide Tree.Good, Tree.LinksAt, Roomy, Groves.KeyLeads;
    TreeParts(t);
    KeyLeads(t, t.cut);
    OuterRefers(t);
    var table, key := t.TableAt(t.cut), t.KeyAt(t.cut);
    KeyOf(t, (table, key));
    if column in key.columns {
      assert (table.name, column) !in t.shape.fixed;
      assert Vital(t.tables, t.shape, table, column);
      if !t.gone {
        Planting(t, 0);
        MeetsWhole(t, (table, t.over), t.outer, column);
        SharedKey(t.Planted(), table, key, t.over, column);
      }
    }
  }

  lemma NewCut(t: Tree)
    requires t.Good()
    ensures t.cut < |t.branches| && Cells(t.New(t.cut), t.outer.1.referencedColumns) ==
                                    Cells(t.RowAt(t.cut), t.outer.1.referencedColumns)
  {
    hide Tree.Good, Tree.LinksAt, Roomy, Tree.RowAt, Rewritten, KeyFits;
    TreeParts(t);
    CutApart(t);
    var table, key, up := t.TableAt(t.cut), t.KeyAt(t.cut), t.UpAt(t.cut);
    KeyOf(t, (table, key));
    RewrittenCells(table, key, ActionOf(key, t.gone), NextOf(t, up, key), t.RowAt(t.cut), t.outer.1.referencedColumns);
  }

  /** The turn of the row at the cut: what the row outside references there is as it was. */
  lemma TurnCut(t: Tree, state: State)
    requires t.Good() && Sound(t.Stored()) && t.cut < |state.changed|
    requires t.cut < |t.branches| && state.changed[t.cut] == t.Item(t.cut)
    ensures Turn(t.Stored(), state, 2, t.cut) == Some(state.(turn := t.cut))
  {
    hide Tree.Good, Tree.LinksAt, Tree.RowAt, Tree.New, Tree.Stored, Turn, RevisitAll, Roomy, Sound, Leads;
    NewCut(t);
    OuterRefers(t);
    Lengths(t, t.TableAt(t.cut).name);
    CutValues(t);
    TurnOne(t, state, t.cut, |t.branches|, t.outer.1, state.(turn := t.cut));
  }

  lemma CutValues(t: Tree)
    requires t.Good()
    ensures t.cut < |t.branches|
    ensures Values(t.RowAt(t.cut), t.outer.1.referencedColumns) ==
            Some(Cells(t.RowAt(t.cut), t.outer.1.referencedColumns))
  {
    hide Tree.Good, Tree.LinksAt, Tree.Planted, Roomy, Grove.RowAt, Knows, Values;
    TreeParts(t);
    OuterRefers(t);
    Planting(t, t.cut);
    References(t.Planted(), t.outer.0, t.outer.1, t.TableAt(t.cut));
    KnownValues(t.Planted(), t.TableAt(t.cut), t.cut, t.outer.1.referencedColumns);
  }

  /** How far the listing is when the turn of row `p` comes: the rows that refer to earlier ones are listed, and no
      others. */
  predicate Frontier(t: Tree, p: nat, m: nat) {
    && 2 <= m <= |t.branches| && p < m
    && (forall i :: 2 <= i < m ==> t.UpAt(i) < p)
    && forall i :: m <= i < |t.branches| ==> p <= t.UpAt(i)
  }

  lemma {:induction false} WalkTree(t: Tree, state: State, p: nat, m: nat)
    requires t.Good() && Sound(t.Stored()) && Listed(t.Stored(), state.changed, 2)
    requires Frontier(t, p, m) && state.changed == t.Listing(m)
    ensures t.cut < |t.branches|
    ensures Walk(t.Stored(), state, 2, p).Some? && Walk(t.Stored(), state, 2, p).value.changed == t.Final()
    decreases |t.branches| - p
  {
    hide Tree.Good, Tree.RowAt, Tree.New, Tree.Stored, Tree.Final, Sound, Listed, Turn, Steps, Key, TurnSettled, Leads,
         Frontier, Roomy;
    LastListed(t, p, m);
    TurnSteps(t.Stored(), state, 2, p);
    var turn := Turn(t.Stored(), state, 2, p);
    if p + 1 == |t.branches| {
      FinalIs(t);
      TurnOver(t, state);
      StepsGrows(t.Stored(), state.(turn := p), turn.value, 2);
      assert Walk(t.Stored(), turn.value, 2, p + 1) == Some(turn.value);
    } else {
      var more := if m < |t.branches| && t.UpAt(m) == p then m + 1 else m;
      if p == t.cut {
        TurnCut(t, state);
      } else if more == m + 1 {
        TurnPush(t, state, p, m);
      } else {
        NoLeads(t, p, m);
        TurnNone(t, state, p);
      }
      StepsGrows(t.Stored(), state.(turn := p), turn.value, 2);
      FrontierNext(t, p, m, more);
      WalkTree(t, turn.value, p + 1, more);
    }
  }

  lemma LastListed(t: Tree, p: nat, m: nat)
    requires t.Good() && Frontier(t, p, m)
    ensures 2 <= m <= |t.branches| && p < m && (p + 1 == |t.branches| ==> m == |t.branches|)
    ensures m < |t.branches| ==> t.UpAt(m) != t.cut && t.UpAt(m) < m
    ensures t.cut < |t.branches|
  {
    hide Tree.Good, Roomy;
    TreeParts(t);
  }

  lemma NoLeads(t: Tree, p: nat, m: nat)
    requires t.Good() && Frontier(t, p, m) && p != t.cut && p + 1 < |t.branches|
    requires !(m < |t.branches| && t.UpAt(m) == p)
    ensures forall i, key :: 0 <= i <= |t.branches| ==> !Leads(t, i, key, p)
  {
    hide Tree.Good, Leads;
    forall i, key | 0 <= i <= |t.branches| ensures !Leads(t, i, key, p) {
      if Leads(t, i, key, p) {
        LeadsTo(t, i, key, p);
        if m < i < |t.branches| {
          Rises(t, m, i);
        }
      }
    }
  }

  lemma FrontierNext(t: Tree, p: nat, m: nat, more: nat)
    requires t.Good() && Frontier(t, p, m) && p + 1 < |t.branches|
    requires more == if m < |t.branches| && t.UpAt(m) == p then m + 1 else m
    ensures Frontier(t, p + 1, more)
  {
    hide Tree.Good;
    LastListed(t, p, m);
    forall i | m < i < |t.branches| ensures t.UpAt(m) < t.UpAt(i) {
      Rises(t, m, i);
    }
  }

  lemma FinalIs(t: Tree)
    requires t.Good()
    ensures t.cut < |t.branches| == |t.Final()|
    ensures forall i :: 0 <= i < |t.branches| ==>
              t.Final()[i] == if i == t.cut then t.Item(i).(now := t.Last()) else t.Item(i)
  {
    hide Tree.Good, Tree.RowAt, Tree.New, Tree.Last, Roomy;
    TreeParts(t);
  }

  lemma {:induction false} NewKey(t: Tree, i: nat)
    requires t.Good() && 2 <= i < |t.branches| && (t.gone ==> i == t.cut)
    ensures Key(t.TableAt(i), t.New(i)) == Key(t.TableAt(i), t.RowAt(i))
  {
    hide Tree.Good, Tree.RowAt, Roomy, Rewritten, Key, Leads;
    TreeParts(t);
    var table, key, up := t.TableAt(i), t.KeyAt(i), t.UpAt(i);
    ChildPassed(t, i);
    LeadsTo(t, i, key, up);
    KeyOf(t, (table, key));
    StaysKey(t, table, key, ActionOf(key, t.gone), NextOf(t, up, key), t.RowAt(i));
  }

  lemma StaysKey(t: Tree, table: Table, key: ForeignKey, action: Action, values: Option<seq<Value>>, row: Row)
    requires t.Good() && table in t.tables && key in table.foreignKeys && Rewrites(key)
    requires values.Some? ==> |values.value| == |key.columns|
    ensures Key(table, Rewritten(table, key, action, values, row, |key.columns|)) == Key(table, row)
  {
    hide Tree.Good, Roomy, Rewritten;
    TreeParts(t);
    RewrittenKey(table, key, action, values, row, |key.columns|);
  }

  /** What the row at the cut has at last: its first key's values, and the last row's by the other. */
  lemma LastIs(t: Tree)
    requires t.Good() && !t.gone
    ensures t.cut < |t.branches| && |t.over.columns| == |t.over.referencedColumns| && t.Last().Some?
    ensures Key(t.TableAt(t.cut), t.Last().value) == Key(t.TableAt(t.cut), t.RowAt(t.cut))
    ensures Cells(t.Last().value, t.over.columns) == Cells(t.New(|t.branches| - 1), t.over.referencedColumns)
    ensures forall columns :: !Meet(t.over.columns, columns) ==>
              Cells(t.Last().value, columns) == Cells(t.New(t.cut), columns)
  {
    hide Tree.Good, Tree.RowAt, Tree.New, Roomy, Rewritten, Key, Leads, KeyFits;
    TreeParts(t);
    OverPassed(t);
    LeadsTo(t, t.cut, t.over, |t.branches| - 1);
    var table := t.TableAt(t.cut);
    KeyOf(t, (table, t.over));
    NewKey(t, t.cut);
    var values := Some(Cells(t.New(|t.branches| - 1), t.over.referencedColumns));
    StaysKey(t, table, t.over, Cascade, values, t.New(t.cut));
    CascadeCells(table, t.over, values.value, t.New(t.cut));
    forall columns | !Meet(t.over.columns, columns)
      ensures Cells(t.Last().value, columns) == Cells(t.New(t.cut), columns)
    {
      RewrittenCells(table, t.over, Cascade, values, t.New(t.cut), columns);
    }
  }

  /** Values that no row held are whole. */
  lemma FreshValues(t: Tree, row: Row, columns: seq<Column>)
    requires AllFresh(t, row, columns)
    ensures Values(row, columns) == Some(Cells(row, columns))
  {
    forall k | 0 <= k < |columns| ensures Cells(row, columns)[k] != Null {
      assert columns[k] in columns;
    }
  }

  /** The values that a changed row took from another are left in that one. */
  lemma FollowedSurvives(t: Tree, i: nat, key: ForeignKey, p: nat)
    requires t.Good() && !t.gone && Passed(t, i, key, p)
    ensures t.cut < |t.branches|
    ensures Survives(t.Stored(), t.Final(), key.references, key.referencedColumns,
                     Cells(t.New(p), key.referencedColumns))
  {
    hide Tree.Good, Tree.RowAt, Tree.New, Roomy, Leads, Tree.Stored, Tree.Final, Values;
    LeadsTo(t, i, key, p);
    Differs(t, i, key, p);
    FinalIs(t);
    FreshValues(t, t.New(p), key.referencedColumns);
    assert Leaves(t.Final()[p], key.references, key.referencedColumns, Cells(t.New(p), key.referencedColumns));
  }

  /** A row's other keys lead to rows that are stored and stay. */
  lemma OtherKey(t: Tree, n: nat, table: Table, key: ForeignKey)
    requires t.Good() && n < |t.branches| + 3 && key in table.foreignKeys
    requires table == (if n <= |t.branches| then t.TableAt(n) else t.TableAt(0))
    requires forall p :: !Leads(t, n, key, p)
    ensures |t.branches| > 0 && t.cut < |t.branches|
    ensures var values := Values(t.Planted().RowAt(table, n), key.columns);
            values.Some? ==> Survives(t.Stored(), t.Final(), key.references, key.referencedColumns, values.value)
  {
    hide Tree.Good, Tree.LinksAt, Tree.RowAt, Tree.Planted, Roomy, Grove.RowAt, Grove.Stored, Tree.Final, Changes,
         Survives, Knows, Grove.Stands;
    TreeParts(t);
    Planting(t, n);
    var g := t.Planted();
    NotLinked(t, n, table, key);
    var parent := ParentOf(g, (table, key));
    OtherCells(g, table, n, key, parent);
    if Values(g.RowAt(table, n), key.columns).Some? {
      ListingChanges(t, 0);
      FinalIs(t);
      CellsOf(g.RowAt(table, n), key.columns);
      OtherSurvives(g, t.Final(), parent, n, key.referencedColumns);
    }
  }

  lemma NotLinked(t: Tree, n: nat, table: Table, key: ForeignKey)
    requires t.Good() && n < |t.branches| + 3 && forall p :: !Leads(t, n, key, p)
    ensures |t.branches| > 0 && !Bound(t.Planted(), table, n, key)
  {
    hide Tree.Good, Tree.LinksAt, Tree.Planted, Roomy;
    Planting(t, n);
    var g := t.Planted();
    forall l | 0 <= l < |g.nodes[n].links| ensures g.nodes[n].links[l].key != key {
      assert g.nodes[n].links[l] in g.nodes[n].links;
      assert !Leads(t, n, key, g.nodes[n].links[l].up);
    }
  }

  lemma OwnChecks(t: Tree, i: nat, key: ForeignKey)
    requires t.Good() && !t.gone && i < 2 && key in t.TableAt(0).foreignKeys
    ensures i < |t.Final()| && t.Final()[i].now.Some? && ChecksKey(t.Stored(), t.Final(), t.Final()[i], key)
  {
    hide Tree.Good, Tree.LinksAt, Tree.RowAt, Tree.New, Tree.Planted, Roomy, Grove.RowAt, Tree.Stored, Tree.Final,
         Survives, Values;
    TreeParts(t);
    FinalIs(t);
    OwnNew(t, i);
    OtherKey(t, |t.branches| + 1 + i, t.TableAt(0), key);
  }

  lemma KeysMeet(t: Tree, table: Table, a: ForeignKey, b: ForeignKey)
    requires t.Good() && table in t.tables && a in table.foreignKeys && b in table.foreignKeys && a != b && Rewrites(a)
    ensures !Meet(a.columns, b.columns)
  {
    hide Tree.Good, Tree.LinksAt, Roomy, Groves.KeyLeads;
    KeyOf(t, (table, a));
    Planting(t, 0);
    forall column | column in a.columns ensures column !in b.columns {
      if column in b.columns {
        SharedKey(t.Planted(), table, a, b, column);
      }
    }
  }

  /** The values of a key that followed a change. */
  lemma FollowedCells(t: Tree, i: nat)
    requires t.Good() && !t.gone && 2 <= i < |t.branches| && t.KeyAt(i).onUpdate == Cascade
    ensures t.UpAt(i) < i
    ensures var key := t.KeyAt(i);
            Values(t.New(i), key.columns) == Some(Cells(t.New(t.UpAt(i)), key.referencedColumns))
  {
    hide Tree.Good, Tree.LinksAt, Tree.RowAt, Roomy, Rewritten, KeyFits, Leads;
    var table, key, up := t.TableAt(i), t.KeyAt(i), t.UpAt(i);
    TreeParts(t);
    ChildPassed(t, i);
    LeadsTo(t, i, key, up);
    KeyOf(t, (table, key));
    Differs(t, i, key, up);
    FreshValues(t, t.New(up), key.referencedColumns);
    CascadeCells(table, key, Cells(t.New(up), key.referencedColumns), t.RowAt(i));
  }

  lemma NewElsewhere(t: Tree, i: nat, columns: seq<Column>)
    requires t.Good() && 2 <= i < |t.branches| && (t.gone ==> i == t.cut) && !Meet(t.KeyAt(i).columns, columns)
    ensures Cells(t.New(i), columns) == Cells(t.RowAt(i), columns)
  {
    hide Tree.Good, Tree.RowAt, Roomy, Rewritten, Leads, KeyFits;
    TreeParts(t);
    var table, key, up := t.TableAt(i), t.KeyAt(i), t.UpAt(i);
    ChildPassed(t, i);
    LeadsTo(t, i, key, up);
    KeyOf(t, (table, key));
    RewrittenCells(table, key, ActionOf(key, t.gone), NextOf(t, up, key), t.RowAt(i), columns);
  }

  lemma NodeChecks(t: Tree, i: nat, key: ForeignKey)
    requires t.Good() && !t.gone && 2 <= i < |t.branches| && i != t.cut && key in t.TableAt(i).foreignKeys
    ensures i < |t.Final()| && t.Final()[i].now.Some? && ChecksKey(t.Stored(), t.Final(), t.Final()[i], key)
  {
    hide Tree.Good, Tree.LinksAt, Tree.RowAt, Tree.New, Tree.Planted, Roomy, Grove.RowAt, Tree.Stored, Tree.Final,
         Survives, Values, Leads;
    TreeParts(t);
    FinalIs(t);
    ChildPassed(t, i);
    LeadsTo(t, i, t.KeyAt(i), t.UpAt(i));
    if key == t.KeyAt(i) {
      FollowedCells(t, i);
      FollowedSurvives(t, i, key, t.UpAt(i));
    } else {
      OtherLeads(t, i, key);
      KeysMeet(t, t.TableAt(i), t.KeyAt(i), key);
      NewElsewhere(t, i, key.columns);
      SameValues(t.New(i), t.RowAt(i), key.columns, key.columns);
      OtherKeyAt(t, i, key);
    }
  }

  lemma OtherLeads(t: Tree, i: nat, key: ForeignKey)
    requires t.Good() && i <= |t.branches| && key != t.KeyAt(i) && (i == t.cut ==> key != t.over)
    ensures forall p :: !Leads(t, i, key, p)
  {
    hide Tree.Good, Leads;
    forall p ensures !Leads(t, i, key, p) {
      if Leads(t, i, key, p) {
        LeadsTo(t, i, key, p);
      }
    }
  }

  lemma OtherKeyAt(t: Tree, i: nat, key: ForeignKey)
    requires t.Good() && i < |t.branches| && key in t.TableAt(i).foreignKeys && forall p :: !Leads(t, i, key, p)
    ensures t.cut < |t.branches|
    ensures var values := Values(t.RowAt(i), key.columns);
            values.Some? ==> Survives(t.Stored(), t.Final(), key.references, key.referencedColumns, values.value)
  {
    hide Tree.Good, Tree.Planted, Grove.RowAt, Tree.Stored, Tree.Final, Survives, Values, Leads;
    OtherKey(t, i, t.TableAt(i), key);
  }

  /** The cut's first key leads where it did, follows what it led to, or is NULL. */
  lemma CutKey(t: Tree)
    requires t.Good() && !t.gone
    ensures t.cut < |t.branches|
    ensures var key := t.KeyAt(t.cut);
            var values := Values(t.New(t.cut), key.columns);
            values.Some? ==> Survives(t.Stored(), t.Final(), key.references, key.referencedColumns, values.value)
  {
    hide Tree.Good, Tree.LinksAt, Tree.RowAt, Roomy, Tree.Stored, Tree.Final, Survives, Rewritten, Leads;
    TreeParts(t);
    var i := t.cut;
    var table, key, up := t.TableAt(i), t.KeyAt(i), t.UpAt(i);
    ChildPassed(t, i);
    LeadsTo(t, i, key, up);
    KeyOf(t, (table, key));
    if key.onUpdate == Cascade {
      FollowedCells(t, i);
      FollowedSurvives(t, i, key, up);
    } else {
      var column :| column in key.columns && (key.onUpdate == SetDefault ==> Get(table.defaults, column) == Null);
      var j :| 0 <= j < |key.columns| && key.columns[j] == column;
      RewrittenColumn(table, key, key.onUpdate, NextOf(t, up, key), t.RowAt(i), |key.columns|, j);
      assert Cells(t.New(i), key.columns)[j] == Null;
    }
  }

  lemma CutChecks(t: Tree, key: ForeignKey)
    requires t.Good() && !t.gone && t.cut <= |t.branches| && key in t.TableAt(t.cut).foreignKeys
    ensures t.cut < |t.Final()| && t.Final()[t.cut].now.Some?
    ensures ChecksKey(t.Stored(), t.Final(), t.Final()[t.cut], key)
  {
    hide Tree.Good, Tree.LinksAt, Tree.RowAt, Tree.New, Tree.Planted, Roomy, Grove.RowAt, Tree.Stored, Tree.Final,
         Survives, Values, Leads, Tree.Last;
    TreeParts(t);
    FinalIs(t);
    LastIs(t);
    OverPassed(t);
    LeadsTo(t, t.cut, t.over, |t.branches| - 1);
    var last := t.Last().value;
    if key == t.over {
      Differs(t, t.cut, key, |t.branches| - 1);
      FreshValues(t, t.New(|t.branches| - 1), key.referencedColumns);
      SameValues(last, t.New(|t.branches| - 1), key.columns, key.referencedColumns);
      FollowedSurvives(t, t.cut, key, |t.branches| - 1);
    } else {
      KeysMeet(t, t.TableAt(t.cut), t.over, key);
      SameValues(last, t.New(t.cut), key.columns, key.columns);
      if key == t.KeyAt(t.cut) {
        CutKey(t);
      } else {
        CutApart(t);
        OtherLeads(t, t.cut, key);
        KeysMeet(t, t.TableAt(t.cut), t.KeyAt(t.cut), key);
        NewElsewhere(t, t.cut, key.columns);
        SameValues(t.New(t.cut), t.RowAt(t.cut), key.columns, key.columns);
        OtherKeyAt(t, t.cut, key);
      }
    }
  }

  lemma LastNone(t: Tree)
    requires t.Good() && t.cut < |t.branches|
    ensures t.gone ==> t.Last() == None
  {
  }

  lemma FinalChecks(t: Tree)
    requires t.Good()
    ensures t.cut < |t.branches| && Checks(t.Stored(), t.Final())
  {
    hide Tree.Good, Tree.LinksAt, Tree.RowAt, Tree.New, Tree.Planted, Roomy, Tree.Stored, Tree.Final, ChecksKey,
         Tree.Last;
    TreeParts(t);
    FinalIs(t);
    LastNone(t);
    if !t.gone {
      LastIs(t);
    }
    forall i | 0 <= i < |t.branches| ensures ChecksItem(t.Stored(), t.Final(), t.Final()[i]) {
      if !t.gone {
        forall key | key in t.TableAt(i).foreignKeys ensures ChecksKey(t.Stored(), t.Final(), t.Final()[i], key) {
          if i < 2 {
            OwnChecks(t, i, key);
          } else if i == t.cut {
            CutChecks(t, key);
          } else {
            NodeChecks(t, i, key);
          }
        }
      }
    }
  }

  /** A change of a row takes it, and no other. */
  lemma TakesItself(t: Tree, i: nat, row: Row)
    requires t.Good() && i < |t.branches|
    ensures i < |t.Final()|
    ensures Takes(t.Final(), 2, i, row) <==> Key(t.TableAt(i), row) == Key(t.TableAt(i), t.RowAt(i))
  {
    hide Tree.Good, Tree.LinksAt, Tree.RowAt, Tree.New, Roomy, Tree.Final, Key, Tree.Last;
    TreeParts(t);
    FinalIs(t);
    LastNone(t);
    if i == t.cut {
      if !t.gone {
        LastIs(t);
      }
    } else if 2 <= i && !t.gone {
      NewKey(t, i);
    }
  }

  /** The row outside stays as it is. */
  lemma OuterStays(t: Tree)
    requires t.Good()
    ensures |t.branches| > 0 && t.cut < |t.branches|
    ensures Has(t.Stored(), t.Final(), 2, t.outer.0.name, t.RowAt(|t.branches|))
  {
    hide Tree.Good, Tree.LinksAt, Tree.Planted, Roomy, Grove.RowAt, Tree.Final, Key, Grove.Stored, Takes;
    var n := |t.branches|;
    TreeParts(t);
    FinalIs(t);
    Planting(t, n);
    StandsStored(t.Planted(), t.outer.0, n);
    forall i | 0 <= i < n && t.Final()[i].table.name == t.outer.0.name
      ensures !Takes(t.Final(), 2, i, t.RowAt(n))
    {
      TakesItself(t, i, t.RowAt(n));
      OuterApart(t, i);
    }
  }

  lemma OuterApart(t: Tree, i: nat)
    requires t.Good() && i < |t.branches| && t.TableAt(i).name == t.outer.0.name
    ensures Key(t.TableAt(i), t.RowAt(|t.branches|)) != Key(t.TableAt(i), t.RowAt(i))
  {
    hide Tree.Good, Tree.LinksAt, Tree.Planted, Roomy, Grove.RowAt, Key;
    Planting(t, i);
    Planting(t, |t.branches|);
    OneTable(t.Planted(), t.TableAt(i), t.outer.0);
    if Key(t.TableAt(i), t.RowAt(|t.branches|)) == Key(t.TableAt(i), t.RowAt(i)) {
      KeyOnce(t.Planted(), t.TableAt(i), |t.branches|, i);
    }
  }

  /** What the row outside references. */
  ghost function Lost(t: Tree): seq<Value>
    requires t.cut < |t.branches|
  {
    Cells(t.RowAt(t.cut), t.outer.1.referencedColumns)
  }

  lemma RowApart(t: Tree, table: Table, i: nat)
    requires t.Good() && t.cut < |t.branches| && table == t.TableAt(t.cut) && i != t.cut
    requires |t.branches| > 0 && t.Planted().Fits(table, i)
    ensures Cells(t.Planted().RowAt(table, i), t.outer.1.referencedColumns) != Lost(t)
  {
    hide Tree.Good, Tree.LinksAt, Tree.Planted, Roomy, Grove.RowAt, Knows;
    OuterRefers(t);
    Planting(t, t.cut);
    References(t.Planted(), t.outer.0, t.outer.1, table);
    if Cells(t.Planted().RowAt(table, i), t.outer.1.referencedColumns) == Lost(t) {
      TupleOnce(t.Planted(), table, i, t.cut, t.outer.1.referencedColumns);
    }
  }

  lemma FreshApart(t: Tree, row: Row, column: Column)
    requires t.Good() && t.cut < |t.branches| && column in t.outer.1.referencedColumns && IsFresh(t, Get(row, column))
    ensures Cells(row, t.outer.1.referencedColumns) != Lost(t)
  {
    hide Tree.Good, Tree.LinksAt, Tree.RowAt, Roomy;
    OldCell(t, t.cut, column);
    var k :| 0 <= k < |t.outer.1.referencedColumns| && t.outer.1.referencedColumns[k] == column;
    assert Cells(row, t.outer.1.referencedColumns)[k] != Lost(t)[k];
  }

  /** No changed row has what the row outside references. */
  lemma NewApart(t: Tree, i: nat)
    requires t.Good() && !t.gone && i < |t.branches| && i != t.cut
    ensures t.cut < |t.branches|
    ensures t.TableAt(i) == t.TableAt(t.cut) ==> Cells(t.New(i), t.outer.1.referencedColumns) != Lost(t)
  {
    hide Tree.Good, Tree.LinksAt, Tree.RowAt, Tree.New, Tree.Planted, Roomy, Grove.RowAt;
    TreeParts(t);
    if t.TableAt(i) == t.TableAt(t.cut) {
      if i < 2 {
        OwnNew(t, i);
        Planting(t, |t.branches| + 1 + i);
        RowApart(t, t.TableAt(i), |t.branches| + 1 + i);
      } else if Meet(t.KeyAt(i).columns, t.outer.1.referencedColumns) {
        var column :| column in t.KeyAt(i).columns && column in t.outer.1.referencedColumns;
        NewFresh(t, i, column);
        FreshApart(t, t.New(i), column);
      } else {
        NewElsewhere(t, i, t.outer.1.referencedColumns);
        OldApart(t, i);
      }
    }
  }

  lemma OldApart(t: Tree, i: nat)
    requires t.Good() && i <= |t.branches| && i != t.cut
    ensures t.cut < |t.branches|
    ensures t.TableAt(i) == t.TableAt(t.cut) ==> Cells(t.RowAt(i), t.outer.1.referencedColumns) != Lost(t)
  {
    hide Tree.Good, Tree.LinksAt, Tree.Planted, Roomy, Grove.RowAt;
    TreeParts(t);
    Planting(t, i);
    if t.TableAt(i) == t.TableAt(t.cut) {
      RowApart(t, t.TableAt(i), i);
    }
  }

  lemma LastApart(t: Tree)
    requires t.Good() && !t.gone
    ensures t.cut < |t.branches| && t.Last().Some? && Cells(t.Last().value, t.outer.1.referencedColumns) != Lost(t)
  {
    hide Tree.Good, Tree.LinksAt, Tree.RowAt, Tree.New, Roomy, Tree.Last, Key, Leads, KeyFits;
    TreeParts(t);
    LastIs(t);
    OverPassed(t);
    LeadsTo(t, t.cut, t.over, |t.branches| - 1);
    Differs(t, t.cut, t.over, |t.branches| - 1);
    var column :| column in t.over.columns && column in t.outer.1.referencedColumns;
    var j :| 0 <= j < |t.over.columns| && t.over.columns[j] == column;
    assert Cells(t.Last().value, t.over.columns)[j] ==
           Cells(t.New(|t.branches| - 1), t.over.referencedColumns)[j];
    assert t.over.referencedColumns[j] in t.over.referencedColumns;
    FreshApart(t, t.Last().value, column);
  }

  /** What the row outside references is gone. */
  lemma CutGone(t: Tree)
    requires t.Good()
    ensures t.cut < |t.branches|
    ensures !Held(t.Stored(), t.Final(), 2, t.outer.1.references, t.outer.1.referencedColumns, Lost(t))
  {
    hide Tree.Good, Tree.LinksAt, Tree.RowAt, Tree.New, Roomy, Tree.Final, Has, Lost, Tree.Stored;
    TreeParts(t);
    forall row | Has(t.Stored(), t.Final(), 2, t.outer.1.references, row)
      ensures Values(row, t.outer.1.referencedColumns) != Some(Lost(t))
    {
      CellsOf(row, t.outer.1.referencedColumns);
      LeftApart(t, row);
    }
  }

  lemma LeftApart(t: Tree, row: Row)
    requires t.Good() && t.cut < |t.branches| && Has(t.Stored(), t.Final(), 2, t.outer.1.references, row)
    ensures Cells(row, t.outer.1.referencedColumns) != Lost(t)
  {
    hide Tree.Good, Tree.LinksAt, Tree.RowAt, Tree.New, Roomy, Lost, Tree.Planted, Tree.Final, Grove.Stored, Key, Takes,
         Tree.Last, Tree.Stored;
    TreeParts(t);
    FinalIs(t);
    var name := t.outer.1.references;
    if i :| 0 <= i < |t.branches| && t.Final()[i].table.name == name && t.Final()[i].now == Some(row) {
      ListedApart(t, i, row);
    } else {
      StoredApart(t, row);
    }
  }

  lemma ListedApart(t: Tree, i: nat, row: Row)
    requires t.Good() && t.cut < |t.branches| == |t.Final()| && i < |t.branches|
    requires t.Final()[i].table.name == t.outer.1.references && t.Final()[i].now == Some(row)
    ensures Cells(row, t.outer.1.referencedColumns) != Lost(t)
  {
    hide Tree.Good, Tree.LinksAt, Tree.RowAt, Tree.New, Roomy, Lost, Tree.Planted, Tree.Final, Tree.Last;
    TreeParts(t);
    FinalIs(t);
    LastNone(t);
    OuterRefers(t);
    Planting(t, i);
    OneTable(t.Planted(), t.TableAt(i), t.TableAt(t.cut));
    if !t.gone {
      if i == t.cut {
        LastApart(t);
      } else {
        NewApart(t, i);
      }
    }
  }

  lemma StoredApart(t: Tree, row: Row)
    requires t.Good() && |t.branches| > 0 && t.cut < |t.branches| == |t.Final()|
    requires row in t.Stored().Rows(t.outer.1.references)
    requires forall i :: 0 <= i < |t.branches| && t.Final()[i].table.name == t.outer.1.references ==>
               !Takes(t.Final(), 2, i, row)
    ensures Cells(row, t.outer.1.referencedColumns) != Lost(t)
  {
    hide Tree.Good, Tree.LinksAt, Roomy, Lost, Tree.Planted, Tree.Final, Grove.Stored, Takes, Grove.RowAt, Key;
    TreeParts(t);
    FinalIs(t);
    OuterRefers(t);
    Planting(t, t.cut);
    var table := t.TableAt(t.cut);
    var j := StoredRow(t.Planted(), table, row);
    if j == t.cut {
      TakesItself(t, t.cut, row);
    } else {
      RowApart(t, table, j);
    }
  }

  lemma OuterDangles(t: Tree)
    requires t.Good()
    ensures t.cut < |t.branches| && !Intact(t.Stored(), t.Final(), 2)
  {
    hide Tree.Good, Tree.LinksAt, Roomy, Tree.RowAt, Tree.Final, Has, Held, Lost, Tree.Stored, Leads, Values;
    TreeParts(t);
    StoredPlain(t);
    OuterRefers(t);
    OuterValues(t);
    OuterStays(t);
    CutGone(t);
  }

  lemma OuterValues(t: Tree)
    requires t.Good()
    ensures t.cut < |t.branches| && Values(t.RowAt(|t.branches|), t.outer.1.columns) == Some(Lost(t))
  {
    hide Tree.Good, Tree.LinksAt, Roomy, Tree.Planted, Values, Grove.RowAt, Grove.Stored, Leads;
    TreeParts(t);
    OuterRefers(t);
    Planting(t, t.cut);
    Planting(t, |t.branches|);
    LeadsLink(t);
    LinkRow(t.Planted(), t.cut, t.outer, |t.branches|);
  }

  lemma LeadsLink(t: Tree)
    requires t.Good()
    ensures |t.branches| > 0 && Link(t.outer.1, t.cut) in t.LinksAt(|t.branches|)
  {
    OuterRefers(t);
  }

  /** The statement on the first two rows is accepted, and the row outside refers to one that is gone. */
  lemma TreeBreaks(t: Tree)
    requires t.Good()
    ensures |t.branches| > 2 && Broken(t.Stored(), t.Listing(2))
  {
    hide Tree.Good, Tree.RowAt, Tree.New, Sound, Intact, Enforced, Tree.Stored, Tree.Final, Listed, NormalStays;
    TreeParts(t);
    PlantedSound(t);
    OwnListed(t);
    OwnUniform(t);
    OwnAccepted(t);
    OuterDangles(t);
  }

  lemma PlantedSound(t: Tree)
    requires t.Good()
    ensures |t.branches| > 0 && Sound(t.Stored()) && NormalStays(t.Stored()) && Intact(t.Stored(), [], 0)
  {
    hide Tree.Good, Sound, Intact, Grove.Stored, NormalStays, Tree.Planted;
    Planting(t, 0);
    StoredSound(t.Planted());
    StoredIntact(t.Planted());
  }

  lemma OwnUniform(t: Tree)
    requires t.Good()
    ensures |t.branches| > 2 && Uniform(t.Listing(2)) && |t.Listing(2)| == 2
    ensures forall i :: 0 <= i < 2 ==> t.Listing(2)[i].table.name == t.Listing(2)[0].table.name
  {
    hide Tree.Good, Tree.RowAt, Tree.New;
    TreeParts(t);
  }

  lemma OwnAccepted(t: Tree)
    requires t.Good() && |t.branches| > 2 && Sound(t.Stored()) && Listed(t.Stored(), t.Listing(2), 2)
    ensures t.cut < |t.branches| && Enforced(t.Stored(), t.Listing(2)).Some?
    ensures Enforced(t.Stored(), t.Listing(2)).value.changed == t.Final()
  {
    hide Tree.Good, Tree.RowAt, Tree.New, Sound, Walk, Tree.Stored, Tree.Final, Involves, Listed, Checks;
    OwnListed(t);
    WalkTree(t, State(t.Listing(2), true, 0), 0, 2);
    OwnInvolved(t);
    FinalChecks(t);
  }

  lemma OwnListed(t: Tree)
    requires t.Good()
    ensures |t.branches| > 2 && Listed(t.Stored(), t.Listing(2), 2) && Frontier(t, 0, 2)
  {
    hide Tree.Good, Tree.RowAt, Tree.Stored, Tree.New, Listed, Frontier, Tree.Item;
    TreeParts(t);
    StoredPlain(t);
    OwnRows(t);
    OwnItems(t);
    TwoListed(t.Stored(), t.Item(0), t.Item(1));
    assert t.Listing(2) == [t.Item(0), t.Item(1)];
    FirstFrontier(t);
  }

  lemma OwnItems(t: Tree)
    requires t.Good()
    ensures |t.branches| > 2 && t.Item(0).table == t.Item(1).table == t.TableAt(0) && t.TableAt(0) in t.tables
    ensures t.Item(0).was == Some(t.RowAt(0)) && t.Item(1).was == Some(t.RowAt(1))
  {
    hide Tree.Good, Tree.RowAt, Tree.New;
    TreeParts(t);
  }

  lemma TwoListed(db: Database, a: Changed, b: Changed)
    requires a.table == b.table && a.table in db.tables && a.was.Some? && b.was.Some? && a.was != b.was
    requires a.was.value in db.Rows(a.table.name) && b.was.value in db.Rows(a.table.name)
    ensures Listed(db, [a, b], 2)
  {
  }

  lemma FirstFrontier(t: Tree)
    requires t.Good()
    ensures Frontier(t, 0, 2)
  {
    hide Tree.Good;
    TreeParts(t);
  }

  lemma OwnRows(t: Tree)
    requires t.Good()
    ensures |t.branches| > 2 && t.RowAt(0) != t.RowAt(1)
    ensures t.RowAt(0) in t.Stored().Rows(t.TableAt(0).name) && t.RowAt(1) in t.Stored().Rows(t.TableAt(0).name)
  {
    hide Tree.Good, Tree.LinksAt, Tree.Planted, Roomy, Grove.RowAt, Grove.Stored, Key;
    TreeParts(t);
    Planting(t, 0);
    Planting(t, 1);
    StandsStored(t.Planted(), t.TableAt(0), 0);
    StandsStored(t.Planted(), t.TableAt(0), 1);
    if t.RowAt(0) == t.RowAt(1) {
      KeyOnce(t.Planted(), t.TableAt(0), 0, 1);
    }
  }

  lemma OwnInvolved(t: Tree)
    requires t.Good()
    ensures |t.branches| > 2 && Involves(t.Stored(), t.TableAt(0).name)
  {
    hide Tree.Good, Tree.LinksAt, Roomy, Tree.Stored, Tree.Passes;
    TreeParts(t);
    StoredPlain(t);
    assert t.Joined(2, t.KeyAt(2), t.UpAt(2));
  }
}
