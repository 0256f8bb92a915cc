/** Exactly the schemas, of those that have room, on which a statement that is accepted can leave a reference that names
    no row (foreign_key.rs). */
module ExactSchemas {
  import opened Schemas
  import opened ForeignKeys
  import opened StraightSchemas
  import opened ForkedSchemas
  import opened Groves
  import opened ForkWitness
  import opened MovedSchemas

  ghost predicate IsKey(tables: seq<Table>, r: Reference) {
    r.0 in tables && r.1 in r.0.foreignKeys
  }

  lemma RoomOf(tables: seq<Table>, shape: Shape, r: Reference)
    requires Roomy(tables, shape) && IsKey(tables, r)
    ensures Groves.KeyLeads(tables, shape, r) && KeyFits(tables, shape, r)
  {
  }

  /** A key that gives rows other values in what another key references is vital. */
  lemma MeetVital(tables: seq<Table>, shape: Shape, r: Reference, s: Reference)
    requires Roomy(tables, shape) && IsKey(tables, r) && IsKey(tables, s) && s.1.references == r.0.name
    requires Rewrites(r.1) && Meet(r.1.columns, s.1.referencedColumns)
    ensures shape.height(r.1.references) < shape.height(r.0.name)
    ensures !Unlinks(r.1) && (Acting(r.1.onUpdate) ==> r.1.onUpdate == Cascade)
  {
    hide Roomy, Groves.KeyLeads;
    RoomOf(tables, shape, r);
    var column :| column in r.1.columns && column in s.1.referencedColumns;
    assert s in Referencing(tables, r.0.name);
    assert Vital(tables, shape, r.0, column);
  }

  /** A DELETE alters nothing that keys reference in the rows that it leaves. */
  lemma {:induction false} NoAlters(tables: seq<Table>, shape: Shape, top: Name, n: nat, s: Reference)
    requires Roomy(tables, shape) && IsKey(tables, s)
    ensures !Alters(tables, Way(true, top), n, s.1)
  {
    hide Roomy;
    if n > 0 {
      forall r: Reference | IsKey(tables, r) && r.0.name == s.1.references && Meet(r.1.columns, s.1.referencedColumns)
        ensures !Follows(tables, Way(true, top), n - 1, r.1)
      {
        NoAlters(tables, shape, top, n - 1, r);
        if Unlinks(r.1) {
          MeetVital(tables, shape, r, s);
        }
      }
    }
  }

  /** The key by which what a key references is altered. */
  lemma AltersBy(tables: seq<Table>, shape: Shape, top: Name, n: nat, s: Reference) returns (r: Reference)
    requires Roomy(tables, shape) && IsKey(tables, s) && n > 0 && Alters(tables, Way(false, top), n, s.1)
    ensures IsKey(tables, r) && r.0.name == s.1.references && Meet(r.1.columns, s.1.referencedColumns)
    ensures r.1.onUpdate == Cascade && Alters(tables, Way(false, top), n - 1, r.1)
    ensures shape.height(r.1.references) < shape.height(s.1.references)
  {
    hide Roomy;
    r :| r.0 in tables && r.0.name == s.1.references && r.1 in r.0.foreignKeys &&
      Meet(r.1.columns, s.1.referencedColumns) && Follows(tables, Way(false, top), n - 1, r.1);
    MeetVital(tables, shape, r, s);
  }

  /** An UPDATE alters what is higher than its own table alone. */
  lemma {:induction false} Heights(tables: seq<Table>, shape: Shape, top: Name, n: nat, s: Reference)
    requires Roomy(tables, shape) && IsKey(tables, s) && Alters(tables, Way(false, top), n, s.1)
    ensures shape.height(top) <= shape.height(s.1.references)
    ensures n > 0 ==> shape.height(top) < shape.height(s.1.references)
  {
    hide Roomy, Follows;
    if n > 0 {
      var r := AltersBy(tables, shape, top, n, s);
      Heights(tables, shape, top, n - 1, r);
    }
  }

  /** Keys that follow UPDATEs in one set of referenced columns are one. */
  lemma OneFollows(tables: seq<Table>, shape: Shape, a: Reference, b: Reference, s: Reference)
    requires Roomy(tables, shape) && IsKey(tables, a) && IsKey(tables, b) && IsKey(tables, s)
    requires a.0.name == b.0.name == s.1.references
    requires Meet(a.1.columns, s.1.referencedColumns) && Meet(b.1.columns, s.1.referencedColumns)
    requires Acting(a.1.onUpdate) && Acting(b.1.onUpdate)
    ensures a == b
  {
    hide Roomy;
    var column := VariesAt(tables, shape, s);
    SameTable(tables, shape, a.0, b.0);
    HasWhole(tables, shape, a, s, column);
    HasWhole(tables, shape, b, s, column);
    SharedKey(Grove(tables, shape, []), a.0, a.1, b.1, column);
  }

  lemma VariesAt(tables: seq<Table>, shape: Shape, s: Reference) returns (column: Column)
    requires Roomy(tables, shape) && IsKey(tables, s)
    ensures column in s.1.referencedColumns && (s.1.references, column) !in shape.fixed
  {
    hide Roomy, KeyFits;
    RoomOf(tables, shape, s);
    var c :| c in s.1.columns && (s.0.name, c) !in shape.fixed;
    var j :| 0 <= j < |s.1.columns| && s.1.columns[j] == c;
    column := s.1.referencedColumns[j];
  }

  lemma HasWhole(tables: seq<Table>, shape: Shape, r: Reference, s: Reference, column: Column)
    requires Roomy(tables, shape) && IsKey(tables, r) && IsKey(tables, s) && r.0.name == s.1.references
    requires Meet(r.1.columns, s.1.referencedColumns) && Acting(r.1.onUpdate)
    requires column in s.1.referencedColumns && (s.1.references, column) !in shape.fixed
    ensures column in r.1.columns
  {
    hide Roomy, Groves.KeyLeads, VitalKey;
    RoomOf(tables, shape, r);
    assert s in Referencing(tables, r.0.name) && Aligned(shape, r, s.1);
  }

  /** What a key references is altered at one distance alone. */
  lemma {:induction false} OneLevel(tables: seq<Table>, shape: Shape, top: Name, m: nat, n: nat, s: Reference)
    requires Roomy(tables, shape) && IsKey(tables, s)
    requires Alters(tables, Way(false, top), m, s.1) && Alters(tables, Way(false, top), n, s.1)
    ensures m == n
    decreases m + n
  {
    hide Roomy, Follows, Alters;
    if m > 0 && n > 0 {
      var a := AltersBy(tables, shape, top, m, s);
      var b := AltersBy(tables, shape, top, n, s);
      OneFollows(tables, shape, a, b, s);
      OneLevel(tables, shape, top, m - 1, n - 1, a);
    } else {
      Heights(tables, shape, top, m, s);
      Heights(tables, shape, top, n, s);
      AltersNone(tables, top, s.1);
    }
  }

  lemma AltersNone(tables: seq<Table>, top: Name, key: ForeignKey)
    ensures Alters(tables, Way(false, top), 0, key) <==> key.references == top
  {
  }

  /** The name at a place of a path of keys. */
  function Along(top: Name, path: seq<Reference>, i: nat): Name
    requires i <= |path|
  {
    if i == 0 then top else path[i - 1].0.name
  }

  /** Keys that pass a change on, each to the next. */
  ghost predicate IsPath(tables: seq<Table>, way: Way, path: seq<Reference>) {
    forall i :: 0 <= i < |path| ==>
      && IsKey(tables, path[i]) && path[i].1.references == Along(way.top, path, i)
      && PathPasses(way, path, i)
  }

  predicate PathPasses(way: Way, path: seq<Reference>, i: nat)
    requires i < |path|
  {
    if way.gone then path[i].1.onDelete == Cascade
    else path[i].1.onUpdate == Cascade && (i > 0 ==> Meet(path[i - 1].1.columns, path[i].1.referencedColumns))
  }

  predicate EndMeets(way: Way, path: seq<Reference>, key: ForeignKey) {
    !way.gone && path != [] ==> Meet(path[|path| - 1].1.columns, key.referencedColumns)
  }

  lemma PathOn(tables: seq<Table>, way: Way, path: seq<Reference>, r: Reference)
    requires IsPath(tables, way, path) && IsKey(tables, r) && r.1.references == Along(way.top, path, |path|)
    requires if way.gone then r.1.onDelete == Cascade else r.1.onUpdate == Cascade && EndMeets(way, path, r.1)
    ensures IsPath(tables, way, path + [r])
  {
    var more := path + [r];
    forall i | 0 <= i < |more|
      ensures IsKey(tables, more[i]) && more[i].1.references == Along(way.top, more, i) && PathPasses(way, more, i)
    {
      assert i > 0 ==> more[i - 1] == path[i - 1];
      if i < |path| {
        assert more[i] == path[i] && PathPasses(way, path, i);
      }
    }
  }

  lemma {:induction false} DeletePath(tables: seq<Table>, top: Name, n: nat, name: Name) returns (path: seq<Reference>)
    requires Deletes(tables, top, n, name)
    ensures |path| == n && IsPath(tables, Way(true, top), path) && Along(top, path, n) == name
  {
    path := [];
    if n > 0 {
      var r: Reference :| r.0 in tables && r.0.name == name && r.1 in r.0.foreignKeys && r.1.onDelete == Cascade &&
        Deletes(tables, top, n - 1, r.1.references);
      var rest := DeletePath(tables, top, n - 1, r.1.references);
      hide Deletes;
      PathOn(tables, Way(true, top), rest, r);
      path := rest + [r];
    }
  }

  lemma {:induction false} UpdatePath(tables: seq<Table>, shape: Shape, top: Name, n: nat, s: Reference)
    returns (path: seq<Reference>)
    requires Roomy(tables, shape) && IsKey(tables, s) && Alters(tables, Way(false, top), n, s.1)
    ensures |path| == n && IsPath(tables, Way(false, top), path) && Along(top, path, n) == s.1.references
    ensures EndMeets(Way(false, top), path, s.1)
  {
    hide Roomy, Follows;
    path := [];
    if n > 0 {
      var r := AltersBy(tables, shape, top, n, s);
      var rest := UpdatePath(tables, shape, top, n - 1, r);
      hide Alters;
      PathOn(tables, Way(false, top), rest, r);
      path := rest + [r];
    }
  }

  /** A fork's two ways from the top, row by row in the order of their distance, with the shorter way's last row at the
      cut, which the longer way's last key takes. */
  datatype Fork = Fork(way: Way, top: Table, short: seq<Reference>, long: seq<Reference>, table: Table, key: ForeignKey,
                       over: ForeignKey, outer: Reference)
  {
    function BranchAt(i: nat): Branch
      requires |short| < |long| && i < |short| + |long| + 3
    {
      var a := |short|;
      if i < 2 then Branch(top, 0, key)
      else if i < 2 * a + 2 then
        var r := if i % 2 == 0 then short[i / 2 - 1] else long[i / 2 - 1];
        Branch(r.0, i - 2, r.1)
      else if i == 2 * a + 2 then Branch(table, 2 * a, key)
      else
        var r := long[i - a - 3];
        Branch(r.0, if i == 2 * a + 3 then 2 * a + 1 else i - 1, r.1)
    }

    function Branches(): seq<Branch>
      requires |short| < |long|
    {
      seq(|short| + |long| + 3, i requires 0 <= i < |short| + |long| + 3 => BranchAt(i))
    }

    function Tree(tables: seq<Table>, shape: Shape): ForkWitness.Tree
      requires |short| < |long|
    {
      ForkWitness.Tree(tables, shape, way.gone, Branches(), 2 * |short| + 2, over, outer)
    }

    ghost predicate Sound(tables: seq<Table>) {
      && top in tables && top.name == way.top && |short| < |long|
      && IsPath(tables, way, short) && IsPath(tables, way, long)
      && IsKey(tables, (table, key)) && key.references == Along(way.top, short, |short|) && EndMeets(way, short, key)
      && IsKey(tables, (table, over)) && over.references == Along(way.top, long, |long|) && EndMeets(way, long, over)
      && key != over && IsKey(tables, outer) && outer.1.references == table.name
      && if way.gone then Unlinks(key) && over.onDelete == Cascade
         else Acting(key.onUpdate) && over.onUpdate == Cascade && Meet(over.columns, outer.1.referencedColumns)
    }
  }

  /** Whether a branch refers to an earlier one, and a change passes to it from there. */
  ghost predicate BranchGood(tables: seq<Table>, f: Fork, i: nat)
    requires |f.short| < |f.long| && i < |f.short| + |f.long| + 3
  {
    var branch := f.BranchAt(i);
    && branch.table in tables
    && (2 <= i ==>
          && branch.up < i && branch.up != 2 * |f.short| + 2 && branch.key in branch.table.foreignKeys
          && branch.key.references == f.BranchAt(branch.up).table.name
          && (!f.way.gone && 2 <= branch.up ==>
                Meet(f.BranchAt(branch.up).key.columns, branch.key.referencedColumns))
          && if i == 2 * |f.short| + 2 then if f.way.gone then Unlinks(branch.key) else Acting(branch.key.onUpdate)
             else if f.way.gone then branch.key.onDelete == Cascade else branch.key.onUpdate == Cascade)
  }

  lemma BranchLinked(tables: seq<Table>, f: Fork, i: nat)
    requires f.Sound(tables) && i < |f.short| + |f.long| + 3
    ensures BranchGood(tables, f, i)
  {
    hide IsPath, BranchGood, Fork.BranchAt;
    var a := |f.short|;
    if 2 <= i < 2 * a + 2 {
      NearLinked(tables, f, i / 2 - 1, i % 2);
    } else if 2 * a + 3 <= i {
      FarLinked(tables, f, i - a - 3);
    } else {
      EndLinked(tables, f, i);
    }
  }

  lemma NearAt(f: Fork, j: nat, side: nat)
    requires |f.short| < |f.long| && j < |f.short| && side < 2
    ensures var r := if side == 0 then f.short[j] else f.long[j];
            f.BranchAt(2 * j + 2 + side) == Branch(r.0, 2 * j + side, r.1)
  {
  }

  lemma FarAt(f: Fork, j: nat)
    requires |f.short| <= j < |f.long|
    ensures var a := |f.short|;
            f.BranchAt(a + 3 + j) == Branch(f.long[j].0, if j == a then 2 * a + 1 else a + 2 + j, f.long[j].1)
  {
  }

  lemma EndAt(f: Fork)
    requires |f.short| < |f.long|
    ensures f.BranchAt(0).table == f.BranchAt(1).table == f.top
    ensures f.BranchAt(2 * |f.short| + 2) == Branch(f.table, 2 * |f.short|, f.key)
  {
  }

  lemma StepOf(tables: seq<Table>, way: Way, path: seq<Reference>, j: nat)
    requires IsPath(tables, way, path) && j < |path|
    ensures IsKey(tables, path[j]) && path[j].1.references == Along(way.top, path, j) && PathPasses(way, path, j)
  {
  }

  lemma NearLinked(tables: seq<Table>, f: Fork, j: nat, side: nat)
    requires f.Sound(tables) && j < |f.short| && side < 2
    ensures BranchGood(tables, f, 2 * j + 2 + side)
  {
    hide Fork.BranchAt, IsPath;
    var path := if side == 0 then f.short else f.long;
    NearAt(f, j, side);
    StepOf(tables, f.way, path, j);
    if j > 0 {
      NearAt(f, j - 1, side);
    }
    EndAt(f);
  }

  lemma FarLinked(tables: seq<Table>, f: Fork, j: nat)
    requires f.Sound(tables) && |f.short| <= j < |f.long|
    ensures BranchGood(tables, f, |f.short| + 3 + j)
  {
    hide Fork.BranchAt, IsPath;
    var a := |f.short|;
    FarAt(f, j);
    StepOf(tables, f.way, f.long, j);
    EndAt(f);
    if j > a {
      FarAt(f, j - 1);
    } else if a > 0 {
      NearAt(f, a - 1, 1);
    }
  }

  lemma EndLinked(tables: seq<Table>, f: Fork, i: nat)
    requires f.Sound(tables) && (i < 2 || i == 2 * |f.short| + 2)
    ensures BranchGood(tables, f, i)
  {
    hide Fork.BranchAt, IsPath;
    EndAt(f);
    if |f.short| > 0 {
      NearAt(f, |f.short| - 1, 0);
      StepOf(tables, f.way, f.short, |f.short| - 1);
    }
  }

  lemma UpsRise(f: Fork, i: nat, j: nat)
    requires |f.short| < |f.long| && 2 <= i < j < |f.short| + |f.long| + 3
    ensures f.BranchAt(i).up < f.BranchAt(j).up
  {
  }

  lemma Ends(f: Fork)
    requires |f.short| < |f.long|
    ensures f.BranchAt(0).table == f.BranchAt(1).table && f.BranchAt(2 * |f.short| + 2).table == f.table
    ensures f.BranchAt(2 * |f.short| + 2).key == f.key
    ensures var last := f.BranchAt(|f.short| + |f.long| + 2);
            last.table.name == Along(f.way.top, f.long, |f.long|) && last.key == f.long[|f.long| - 1].1
  {
    EndAt(f);
    FarAt(f, |f.long| - 1);
  }

  lemma ForkGrows(tables: seq<Table>, shape: Shape, f: Fork)
    requires f.Sound(tables) && Roomy(tables, shape) && KeysStay(tables)
    ensures |f.short| < |f.long| && f.Tree(tables, shape).Good()
  {
    hide Fork.Sound, Fork.BranchAt, Roomy, KeysStay, ForkWitness.Tree.Joined, ForkWitness.Tree.Passes;
    ForkLengths(tables, f);
    var t := f.Tree(tables, shape);
    EndGrows(tables, shape, f);
    forall i | 0 <= i < |t.branches| ensures t.branches[i].table in tables {
      BranchGrows(tables, shape, f, i);
    }
    forall i | 2 <= i < |t.branches|
      ensures t.Joined(i, t.KeyAt(i), t.UpAt(i)) && t.UpAt(i) < i
      ensures t.UpAt(i) != t.cut && t.Passes(i, t.KeyAt(i), t.UpAt(i))
    {
      BranchGrows(tables, shape, f, i);
    }
    forall i, j | 2 <= i < j < |t.branches| ensures t.UpAt(i) < t.UpAt(j) {
      UpsRise(f, i, j);
    }
  }

  lemma ForkLengths(tables: seq<Table>, f: Fork)
    requires f.Sound(tables)
    ensures |f.short| < |f.long|
  {
    hide IsPath;
  }

  lemma BranchGrows(tables: seq<Table>, shape: Shape, f: Fork, i: nat)
    requires f.Sound(tables) && |f.short| < |f.long| && i < |f.short| + |f.long| + 3
    ensures var t := f.Tree(tables, shape);
            && t.branches[i].table in tables
            && (2 <= i ==>
                  && t.Joined(i, t.KeyAt(i), t.UpAt(i)) && t.UpAt(i) < i
                  && t.UpAt(i) != t.cut && t.Passes(i, t.KeyAt(i), t.UpAt(i)))
  {
    hide Fork.Sound, Fork.BranchAt;
    BranchLinked(tables, f, i);
  }

  lemma EndGrows(tables: seq<Table>, shape: Shape, f: Fork)
    requires f.Sound(tables) && |f.short| < |f.long|
    ensures var t := f.Tree(tables, shape);
            var n := |t.branches|;
            && t.branches[0].table == t.branches[1].table && t.outer.0 in tables
            && t.Joined(n, t.outer.1, t.cut) && t.Joined(t.cut, t.over, n - 1) && t.over != t.KeyAt(t.cut)
            && t.Passes(n, t.over, n - 1) && (!t.gone ==> Meet(t.over.columns, t.outer.1.referencedColumns))
  {
    hide Fork.BranchAt, IsPath;
    Ends(f);
  }

  lemma NamedTable(tables: seq<Table>, shape: Shape, r: Reference) returns (table: Table)
    requires Roomy(tables, shape) && IsKey(tables, r)
    ensures table in tables && table.name == r.1.references
  {
    RoomOf(tables, shape, r);
    table :| table in tables && table.name == r.1.references;
  }

  lemma TopOf(tables: seq<Table>, shape: Shape, way: Way, path: seq<Reference>, key: Reference) returns (top: Table)
    requires Roomy(tables, shape) && IsPath(tables, way, path) && IsKey(tables, key)
    requires key.1.references == Along(way.top, path, |path|)
    ensures top in tables && top.name == way.top
  {
    hide Roomy, IsPath;
    if path == [] {
      top := NamedTable(tables, shape, key);
    } else {
      StepOf(tables, way, path, 0);
      top := NamedTable(tables, shape, path[0]);
    }
  }

  lemma SameTable(tables: seq<Table>, shape: Shape, a: Table, b: Table)
    requires Roomy(tables, shape) && a in tables && b in tables && a.name == b.name
    ensures a == b
  {
  }

  lemma DeleteFork(tables: seq<Table>, shape: Shape, top: Name, m: nat, n: nat, name: Name) returns (f: Fork)
    requires Roomy(tables, shape) && m < n && Referencing(tables, name) != []
    requires Touched(tables, Way(true, top), m, name) && Deletes(tables, top, n, name)
    ensures f.Sound(tables)
  {
    hide Roomy, IsPath, Alters, Deletes, Touched, Referencing;
    var r := TouchedBy(tables, shape, top, m, name);
    var last := DeletesBy(tables, top, n, name);
    SameTable(tables, shape, r.0, last.0);
    var short := DeletePath(tables, top, m - 1, r.1.references);
    var long := DeletePath(tables, top, n - 1, last.1.references);
    var root := TopOf(tables, shape, Way(true, top), short, r);
    var outer := OuterOf(tables, name);
    f := Fork(Way(true, top), root, short, long, r.0, r.1, last.1, outer);
  }

  lemma TouchedBy(tables: seq<Table>, shape: Shape, top: Name, m: nat, name: Name) returns (r: Reference)
    requires Roomy(tables, shape) && Touched(tables, Way(true, top), m, name)
    ensures m > 0 && IsKey(tables, r) && r.0.name == name && Unlinks(r.1) && Deletes(tables, top, m - 1, r.1.references)
  {
    hide Roomy, Alters, Deletes;
    r :| r.0 in tables && r.0.name == name && r.1 in r.0.foreignKeys && Follows(tables, Way(true, top), m - 1, r.1);
    NoAlters(tables, shape, top, m - 1, r);
  }

  lemma DeletesBy(tables: seq<Table>, top: Name, n: nat, name: Name) returns (r: Reference)
    requires n > 0 && Deletes(tables, top, n, name)
    ensures IsKey(tables, r) && r.0.name == name && r.1.onDelete == Cascade &&
            Deletes(tables, top, n - 1, r.1.references)
  {
    r :| r.0 in tables && r.0.name == name && r.1 in r.0.foreignKeys && r.1.onDelete == Cascade &&
      Deletes(tables, top, n - 1, r.1.references);
  }

  lemma OuterOf(tables: seq<Table>, name: Name) returns (outer: Reference)
    requires Referencing(tables, name) != []
    ensures IsKey(tables, outer) && outer.1.references == name
  {
    outer := Referencing(tables, name)[0];
    assert outer in Referencing(tables, name);
  }

  lemma UpdateFork(tables: seq<Table>, shape: Shape, top: Name, m: nat, n: nat, name: Name) returns (f: Fork)
    requires Roomy(tables, shape) && m < n
    requires Comes(tables, Way(false, top), m, name) && AltersSome(tables, Way(false, top), n, name)
    ensures f.Sound(tables)
  {
    hide Roomy, IsPath, Alters;
    var way := Way(false, top);
    var s :| s in Referencing(tables, name) && Alters(tables, way, n, s.1);
    Heights(tables, shape, top, n, s);
    var last := AltersBy(tables, shape, top, n, s);
    var r: Reference :| r.0 in tables && r.0.name == name && r.1 in r.0.foreignKeys && Follows(tables, way, m - 1, r.1);
    SameTable(tables, shape, r.0, last.0);
    if r == last {
      OneLevel(tables, shape, top, m - 1, n - 1, r);
    }
    var short := UpdatePath(tables, shape, top, m - 1, r);
    var long := UpdatePath(tables, shape, top, n - 1, last);
    var root := TopOf(tables, shape, way, short, r);
    f := Fork(way, root, short, long, r.0, r.1, last.1, s);
  }

  lemma ForkOf(tables: seq<Table>, shape: Shape) returns (f: Fork)
    requires Roomy(tables, shape) && Forked(tables)
    ensures f.Sound(tables)
  {
    hide Roomy, Fork.Sound, Deletes, Alters, Touched, Referencing;
    var way: Way, m: nat, n: nat, name: Name :| IsFork(tables, way, m, n, name);
    if way.gone {
      forall s | s in Referencing(tables, name) ensures !Alters(tables, way, n, s.1) {
        NoAlters(tables, shape, way.top, n, s);
      }
      f := DeleteFork(tables, shape, way.top, m, n, name);
    } else {
      f := UpdateFork(tables, shape, way.top, m, n, name);
    }
  }

  /** A schema with room and a fork has a database on which an accepted statement leaves a reference that names no
      row. */
  lemma ForkBreaks(tables: seq<Table>, shape: Shape) returns (db: Database, own: seq<Changed>)
    requires Roomy(tables, shape) && KeysStay(tables) && Forked(tables)
    ensures db.tables == tables && Broken(db, own)
  {
    hide Roomy, KeysStay, Forked, Fork.Sound, Broken, Tree.Good;
    var f := ForkOf(tables, shape);
    ForkGrows(tables, shape, f);
    var t := f.Tree(tables, shape);
    TreeBreaks(t);
    ForkWitness.StoredPlain(t);
    db, own := t.Stored(), t.Listing(2);
  }

  /** A key that gives rows other values in their own primary key follows UPDATEs, and so leads to such a database. */
  lemma MoveOf(tables: seq<Table>, shape: Shape) returns (m: Move)
    requires Roomy(tables, shape) && !KeysStay(tables)
    ensures m.tables == tables && m.Good()
  {
    hide Roomy;
    var table :| table in tables && !KeyStays(table);
    var key, column :| key in table.foreignKeys && Rewrites(key) && column in key.columns && column in table.primaryKey;
    RoomOf(tables, shape, (table, key));
    assert Vital(tables, shape, table, column);
    var parent := NamedTable(tables, shape, (table, key));
    m := Move(tables, shape, table, key, parent);
  }

  /** Exactly the schemas with a fork, or with a key that gives rows other values in their own primary key, lose
      references: some statement that is accepted, on some database whose references all name rows, leaves one that does
      not. */
  lemma BrokenExactly(tables: seq<Table>, shape: Shape)
    requires Roomy(tables, shape)
    ensures Forked(tables) || !KeysStay(tables) <==>
            exists db: Database, own: seq<Changed> :: db.tables == tables && Broken(db, own)
  {
    hide Roomy, KeysStay, Forked, Broken, Move.Good;
    if !KeysStay(tables) {
      var m := MoveOf(tables, shape);
      MoveBreaks(m);
    } else if Forked(tables) {
      var db, own := ForkBreaks(tables, shape);
    }
    forall db: Database, own: seq<Changed> | db.tables == tables && Broken(db, own)
      ensures Forked(tables) || !KeysStay(tables)
    {
      NotBroken(db, own);
    }
  }

  lemma NotBroken(db: Database, own: seq<Changed>)
    ensures KeysStay(db.tables) && !Forked(db.tables) ==> !Broken(db, own)
  {
    hide KeysStay, Forked, Sound, Intact, Enforced, Listed, NormalStays;
    if KeysStay(db.tables) && !Forked(db.tables) && Broken(db, own) {
      ForklessIntegrity(db, own);
    }
  }
}
