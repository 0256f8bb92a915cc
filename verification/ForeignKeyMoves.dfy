/** On a schema in which a key gives rows other values in their own primary key, a database and an UPDATE that is
    accepted and leaves a reference that names no row (foreign_key.rs). */
module MovedSchemas {
  import opened Schemas
  import opened ForeignKeys
  import opened StraightSchemas
  import opened ForkedSchemas
  import opened FewReferrers
  import opened Groves

  /** A row of `child` refers by `key` to a row of `parent`, which is given a new primary key, and other values wherever
      rows may refer to it. */
  datatype Move = Move(tables: seq<Table>, shape: Shape, child: Table, key: ForeignKey, parent: Table)
  {
    ghost predicate Good() {
      && Roomy(tables, shape) && child in tables && parent in tables && key in child.foreignKeys
      && key.references == parent.name && key.onUpdate == Cascade && Meet(key.columns, child.primaryKey)
    }

    /** The last number is for the values that the parent's row is given. */
    function Planted(): Grove {
      Grove(tables, shape, [Node(parent, [], true), Node(child, [Link(key, 0)], true), Node(parent, [], false)])
    }

    ghost function Stored(): Database {
      Planted().Stored()
    }

    ghost function Was(): Row {
      Planted().RowAt(parent, 0)
    }

    ghost function Now(): Row {
      Planted().RowAt(parent, 2)
    }

    ghost function Referring(): Row {
      Planted().RowAt(child, 1)
    }

    ghost function Own(): seq<Changed> {
      [Changed(parent, Some(Was()), Some(Now()))]
    }

    ghost function Moved(): Row
      requires |key.columns| == |key.referencedColumns|
    {
      Rewritten(child, key, Cascade, Some(Cells(Now(), key.referencedColumns)), Referring(), |key.columns|)
    }

    ghost function Left(): seq<Changed>
      requires |key.columns| == |key.referencedColumns|
    {
      Own() + [Changed(child, Some(Referring()), Some(Moved()))]
    }
  }

  lemma Parts(m: Move)
    requires m.Good()
    ensures Groves.KeyLeads(m.tables, m.shape, (m.child, m.key)) && KeyFits(m.tables, m.shape, (m.child, m.key))
    ensures m.child in m.tables && m.parent in m.tables && m.key in m.child.foreignKeys
    ensures m.key.references == m.parent.name && m.key.onUpdate == Cascade
    ensures (m.child, m.key) in Referencing(m.tables, m.parent.name)
    ensures |m.key.columns| == |m.key.referencedColumns| > 0
    ensures m.shape.height(m.parent.name) < m.shape.height(m.child.name) && m.parent.name != m.child.name
  {
    var column :| column in m.key.columns && column in m.child.primaryKey;
    assert Groves.KeyLeads(m.tables, m.shape, (m.child, m.key)) && KeyFits(m.tables, m.shape, (m.child, m.key));
    assert Vital(m.tables, m.shape, m.child, column);
  }

  lemma PlantedGood(m: Move)
    requires m.Good()
    ensures m.Planted().Good()
  {
    var g := m.Planted();
    assert g.nodes[1].links == [Link(m.key, 0)] && g.nodes[0].links == [] && g.nodes[2].links == [];
    hide Roomy;
    forall i, l | 0 <= i < |g.nodes| && 0 <= l < |g.nodes[i].links| ensures g.LinkGood(i, l) {
      assert i == 1 && l == 0;
    }
  }

  lemma Fit(m: Move)
    requires m.Good()
    ensures m.Planted().Good() && m.Planted().tables == m.tables && m.Planted().shape == m.shape
    ensures m.Planted().Stands(m.parent, 0) && m.Planted().Stands(m.child, 1) && m.Planted().Fits(m.parent, 2)
    ensures Knows(m.Planted(), m.parent, m.key.referencedColumns)
  {
    hide Roomy, Knows;
    PlantedGood(m);
    References(m.Planted(), m.child, m.key, m.parent);
  }

  lemma StoredPlain(m: Move)
    ensures m.Stored().tables == m.tables && forall table, row :: m.Stored().normalize(table, row) == Some(row)
  {
    StoredTables(m.Planted());
  }

  /** No row but the one of `child` refers to the one that changes, and none to that. */
  lemma OthersAlone(m: Move, r: Reference)
    requires m.Good()
    ensures r in Referencing(m.tables, m.parent.name) && r != (m.child, m.key) ==> Unreferenced(m.Stored(), m.Was(), r)
    ensures r in Referencing(m.tables, m.child.name) ==> Unreferenced(m.Stored(), m.Referring(), r)
  {
    hide Roomy, Grove.RowAt, Grove.Stored, Unreferenced, Move.Good;
    Fit(m);
    var g := m.Planted();
    assert forall i, link :: 0 <= i < 3 && link in g.nodes[i].links ==> i == 1 && link == Link(m.key, 0);
    if r in Referencing(m.tables, m.parent.name) && r != (m.child, m.key) {
      NoLinkAlone(g, 0, r);
    }
    if r in Referencing(m.tables, m.child.name) {
      NoLinkAlone(g, 1, r);
    }
  }

  /** What the row of `child` refers to. */
  lemma ReferringCells(m: Move)
    requires m.Good()
    ensures |m.key.columns| == |m.key.referencedColumns|
    ensures Cells(m.Referring(), m.key.columns) == Cells(m.Was(), m.key.referencedColumns)
    ensures Values(m.Referring(), m.key.columns) == Some(Cells(m.Was(), m.key.referencedColumns))
    ensures Values(m.Was(), m.key.referencedColumns) == Some(Cells(m.Was(), m.key.referencedColumns))
    ensures Values(m.Now(), m.key.referencedColumns) == Some(Cells(m.Now(), m.key.referencedColumns))
    ensures Cells(m.Was(), m.key.referencedColumns) != Cells(m.Now(), m.key.referencedColumns)
    ensures RowsWhere(m.Stored().Rows(m.child.name), m.key.columns, Cells(m.Was(), m.key.referencedColumns)) ==
            [m.Referring()]
  {
    hide Roomy, Grove.RowAt, Grove.Stored, Knows, Values, Move.Good;
    Parts(m);
    Fit(m);
    var g := m.Planted();
    assert g.nodes[1].links[0] == Link(m.key, 0);
    LinkedCells(g, 1, 0);
    LinkRows(g, 0, (m.child, m.key), 1);
    LinkRow(g, 0, (m.child, m.key), 1);
    KnownValues(g, m.parent, 2, m.key.referencedColumns);
    if Cells(m.Was(), m.key.referencedColumns) == Cells(m.Now(), m.key.referencedColumns) {
      TupleOnce(g, m.parent, 0, 2, m.key.referencedColumns);
    }
  }

  lemma MovedCells(m: Move)
    requires m.Good()
    ensures |m.key.columns| == |m.key.referencedColumns|
    ensures Cells(m.Moved(), m.key.columns) == Cells(m.Now(), m.key.referencedColumns)
    ensures Values(m.Moved(), m.key.columns) == Some(Cells(m.Now(), m.key.referencedColumns))
    ensures forall columns :: !Meet(m.key.columns, columns) ==>
              Cells(m.Moved(), columns) == Cells(m.Referring(), columns)
  {
    hide Roomy, Grove.RowAt, Move.Good, Rewritten, KeyFits;
    Parts(m);
    ReferringCells(m);
    var values := Cells(m.Now(), m.key.referencedColumns);
    CascadeCells(m.child, m.key, values, m.Referring());
    forall columns | !Meet(m.key.columns, columns) ensures Cells(m.Moved(), columns) == Cells(m.Referring(), columns) {
      RewrittenCells(m.child, m.key, Cascade, Some(values), m.Referring(), columns);
    }
  }

  /** The row of `child` has another primary key. */
  lemma MovedKey(m: Move)
    requires m.Good()
    ensures |m.key.columns| == |m.key.referencedColumns|
    ensures Key(m.child, m.Moved()) != Key(m.child, m.Referring())
  {
    hide Roomy, Grove.RowAt, Move.Planted, Move.Moved, Grove.Number;
    var column :| column in m.key.columns && column in m.child.primaryKey;
    hide Move.Good;
    Parts(m);
    var j :| 0 <= j < |m.key.columns| && m.key.columns[j] == column;
    MovedCells(m);
    ReferringCells(m);
    ParentApart(m, j);
    var i :| 0 <= i < |m.child.primaryKey| && m.child.primaryKey[i] == column;
    assert Cells(m.Moved(), m.key.columns)[j] != Cells(m.Referring(), m.key.columns)[j];
    assert Key(m.child, m.Moved())[i] != Key(m.child, m.Referring())[i];
  }

  lemma ParentApart(m: Move, j: nat)
    requires m.Good() && j < |m.key.referencedColumns|
    ensures Cells(m.Was(), m.key.referencedColumns)[j] != Cells(m.Now(), m.key.referencedColumns)[j]
  {
    hide Roomy, Grove.RowAt, Move.Good, Grove.Number, Vital, Knows, Groves.KeyLeads;
    Parts(m);
    Fit(m);
    var g, column := m.Planted(), m.key.referencedColumns[j];
    KeyRoom(g, (m.child, m.key));
    assert m.key.columns[j] in m.key.columns;
    FromVital(g, m.child, m.key, m.parent, j);
    VitalGet(g, m.parent, 0, column);
    VitalGet(g, m.parent, 2, column);
    NumberPlain(g, m.parent, 0, column);
    NumberPlain(g, m.parent, 2, column);
  }

  lemma OwnListed(m: Move)
    requires m.Good()
    ensures Listed(m.Stored(), m.Own(), 1) && Involves(m.Stored(), m.parent.name)
  {
    hide Roomy, Grove.RowAt, Grove.Stored, Move.Good, Knows;
    Parts(m);
    Fit(m);
    StoredTables(m.Planted());
    StandsStored(m.Planted(), m.parent, 0);
  }

  lemma LeftChanges(m: Move)
    requires m.Good()
    ensures |m.key.columns| == |m.key.referencedColumns|
    ensures Changes(m.Planted(), m.Own()) && Changes(m.Planted(), m.Left())
  {
    hide Roomy, Grove.RowAt, Move.Moved, Move.Good;
    Parts(m);
  }

  lemma FollowMoves(m: Move)
    requires m.Good()
    ensures |m.key.columns| == |m.key.referencedColumns|
    ensures var next := Follow(m.Stored(), State(m.Own(), true, 0), 1, m.parent, m.Was(), Some(m.Now()),
                               (m.child, m.key));
            next.Some? && next.value.changed == m.Left() && next.value.turn == 0
  {
    hide Roomy, Move.Good, Move.Was, Move.Now, Move.Referring, Move.Stored, Values, RowsWhere, Revisit, Rewritten,
         Changes;
    Parts(m);
    ReferringCells(m);
    StoredPlain(m);
    OwnFind(m);
    var state, values := State(m.Own(), true, 0), Some(Cells(m.Now(), m.key.referencedColumns));
    RevisitOne(m.Stored(), state, 1, (m.child, m.key), Cascade, values, m.Referring());
    RevisitFirst(m.Stored(), state, 1, (m.child, m.key), Cascade, values, m.Referring());
    RevisitTurn(m.Stored(), state, 1, (m.child, m.key), Cascade, values, m.Referring());
  }

  lemma RevisitTurn(db: Database, state: State, own: nat, r: Reference, action: Action, values: Option<seq<Value>>,
                    row: Row)
    requires values.Some? ==> |values.value| == |r.1.columns|
    ensures match Revisit(db, state, own, r, action, values, row)
            case None => true
            case Some(next) => next.turn == state.turn
  {
    hide Rewritten, Find, Harmless, Key;
  }

  lemma OwnFind(m: Move)
    requires m.Good()
    ensures Find(m.Own(), m.child.name, m.Referring()) == None
  {
    hide Roomy, Grove.RowAt, Move.Good;
    Parts(m);
  }

  lemma FirstTurn(m: Move)
    requires m.Good() && Sound(m.Stored())
    ensures |m.key.columns| == |m.key.referencedColumns|
    ensures var next := Turn(m.Stored(), State(m.Own(), true, 0), 1, 0);
            next.Some? && next.value.changed == m.Left() && next.value.turn == 0
  {
    hide Roomy, Move.Good, Move.Was, Move.Now, Move.Left, Move.Referring, Move.Stored, Unreferenced, Follow, FollowAll,
         Once, Sound;
    Parts(m);
    Fit(m);
    StoredPlain(m);
    ReferencingLengths(m.Planted(), m.parent.name);
    FollowMoves(m);
    forall r | r in Referencing(m.tables, m.parent.name) && r != (m.child, m.key)
      ensures Unreferenced(m.Stored(), m.Was(), r)
    {
      OthersAlone(m, r);
    }
    var state := State(m.Own(), true, 0);
    var next := Follow(m.Stored(), state, 1, m.parent, m.Was(), Some(m.Now()), (m.child, m.key));
    FollowOnly(m.Stored(), state, 1, m.parent, m.Was(), Some(m.Now()), (m.child, m.key), next.value);
  }

  lemma SecondTurn(m: Move, state: State)
    requires m.Good() && Sound(m.Stored()) && |m.key.columns| == |m.key.referencedColumns| && state.changed == m.Left()
    ensures Turn(m.Stored(), state, 1, 1) == Some(state.(turn := 1))
  {
    hide Roomy, Move.Good, Move.Was, Move.Now, Move.Referring, Move.Stored, Move.Moved, Unreferenced, FollowAll, Sound;
    Fit(m);
    StoredPlain(m);
    ReferencingLengths(m.Planted(), m.child.name);
    forall r | r in Referencing(m.tables, m.child.name) ensures Unreferenced(m.Stored(), m.Referring(), r) {
      OthersAlone(m, r);
    }
    FollowNone(m.Stored(), state.(turn := 1), 1, m.child, m.Referring(), Some(m.Moved()),
               Referencing(m.tables, m.child.name));
  }

  lemma WalkMoves(m: Move)
    requires m.Good() && Sound(m.Stored()) && Listed(m.Stored(), m.Own(), 1)
    ensures |m.key.columns| == |m.key.referencedColumns|
    ensures var walk := Walk(m.Stored(), State(m.Own(), true, 0), 1, 0); walk.Some? && walk.value.changed == m.Left()
  {
    hide Roomy, Move.Good, Move.Was, Move.Now, Move.Referring, Move.Stored, Move.Moved, Turn, Steps, Listed, Sound;
    var start := State(m.Own(), true, 0);
    FirstTurn(m);
    TurnSteps(m.Stored(), start, 1, 0);
    var first := Turn(m.Stored(), start, 1, 0).value;
    StepsGrows(m.Stored(), start, first, 1);
    SecondTurn(m, first);
    TurnSteps(m.Stored(), first, 1, 1);
    var second := first.(turn := 1);
    StepsGrows(m.Stored(), second, second, 1);
    assert Walk(m.Stored(), second, 1, 2) == Some(second);
    assert Walk(m.Stored(), first, 1, 1) == Some(second);
  }

  /** A key of a row other than the one that leads to the parent's names a row that is stored and stays. */
  lemma OtherKey(m: Move, table: Table, i: nat, key: ForeignKey)
    requires m.Good() && ((i == 2 && table == m.parent) || (i == 1 && table == m.child && key != m.key))
    requires key in table.foreignKeys
    ensures |m.key.columns| == |m.key.referencedColumns|
    ensures var values := Values(m.Planted().RowAt(table, i), key.columns);
            values.Some? ==> Survives(m.Stored(), m.Left(), key.references, key.referencedColumns, values.value)
  {
    hide Roomy, Move.Good, Move.Moved, Grove.RowAt, Grove.Stored, Knows, Survives, Changes;
    Parts(m);
    Fit(m);
    LeftChanges(m);
    var g := m.Planted();
    assert g.nodes[1].links == [Link(m.key, 0)] && g.nodes[2].links == [];
    var parent := ParentOf(g, (table, key));
    OtherCells(g, table, i, key, parent);
    CellsOf(g.RowAt(table, i), key.columns);
    if Values(g.RowAt(table, i), key.columns).Some? {
      OtherSurvives(g, m.Left(), parent, i, key.referencedColumns);
    }
  }

  lemma LeftChecks(m: Move)
    requires m.Good()
    ensures |m.key.columns| == |m.key.referencedColumns| && Checks(m.Stored(), m.Left())
  {
    hide Roomy, Move.Good, Move.Moved, Move.Planted, Grove.RowAt, Move.Stored, Survives, Values, KeyFits;
    Parts(m);
    forall key | key in m.parent.foreignKeys ensures ChecksKey(m.Stored(), m.Left(), m.Left()[0], key) {
      OtherKey(m, m.parent, 2, key);
    }
    forall key | key in m.child.foreignKeys ensures ChecksKey(m.Stored(), m.Left(), m.Left()[1], key) {
      MovedCells(m);
      if key == m.key {
        NewSurvives(m);
      } else {
        KeysMeet(m, key);
        SameValues(m.Moved(), m.Referring(), key.columns, key.columns);
        OtherKey(m, m.child, 1, key);
      }
    }
  }

  lemma KeysMeet(m: Move, key: ForeignKey)
    requires m.Good() && key in m.child.foreignKeys && key != m.key
    ensures !Meet(m.key.columns, key.columns)
  {
    hide Roomy, Move.Good, Groves.KeyLeads;
    Parts(m);
    Fit(m);
    forall column | column in m.key.columns ensures column !in key.columns {
      if column in key.columns {
        SharedKey(m.Planted(), m.child, m.key, key, column);
      }
    }
  }

  lemma NewSurvives(m: Move)
    requires m.Good()
    ensures |m.key.columns| == |m.key.referencedColumns|
    ensures Survives(m.Stored(), m.Left(), m.key.references, m.key.referencedColumns,
                     Cells(m.Now(), m.key.referencedColumns))
  {
    hide Roomy, Move.Good, Move.Moved, Move.Now, Move.Was, Move.Stored, Values;
    Parts(m);
    ReferringCells(m);
    assert Leaves(m.Left()[0], m.parent.name, m.key.referencedColumns, Cells(m.Now(), m.key.referencedColumns));
  }

  /** The row of `child` stays under the primary key it had, and refers to a row that is gone. */
  lemma OldRowDangles(m: Move)
    requires m.Good()
    ensures |m.key.columns| == |m.key.referencedColumns| && !Intact(m.Stored(), m.Left(), 1)
  {
    hide Roomy, Move.Good, Move.Moved, Move.Now, Move.Was, Move.Stored, Values, Has, Held, Move.Referring, Move.Left;
    Parts(m);
    StoredPlain(m);
    ReferringCells(m);
    OldStays(m);
    ParentGone(m);
  }

  lemma OldStays(m: Move)
    requires m.Good()
    ensures |m.key.columns| == |m.key.referencedColumns|
    ensures Has(m.Stored(), m.Left(), 1, m.child.name, m.Referring())
  {
    hide Roomy, Move.Good, Move.Moved, Grove.RowAt, Grove.Stored, Key, Knows;
    Parts(m);
    Fit(m);
    StandsStored(m.Planted(), m.child, 1);
    MovedKey(m);
  }

  lemma ParentGone(m: Move)
    requires m.Good()
    ensures |m.key.columns| == |m.key.referencedColumns|
    ensures !Held(m.Stored(), m.Left(), 1, m.key.references, m.key.referencedColumns,
                  Cells(m.Was(), m.key.referencedColumns))
  {
    hide Roomy, Move.Good, Move.Moved, Move.Now, Move.Was, Move.Stored, Values, Has, Move.Referring, Move.Left;
    Parts(m);
    forall row | Has(m.Stored(), m.Left(), 1, m.parent.name, row)
      ensures Values(row, m.key.referencedColumns) != Some(Cells(m.Was(), m.key.referencedColumns))
    {
      CellsOf(row, m.key.referencedColumns);
      LeftApart(m, row);
    }
  }

  lemma LeftRows(m: Move, row: Row)
    requires m.Good() && |m.key.columns| == |m.key.referencedColumns|
    requires Has(m.Stored(), m.Left(), 1, m.parent.name, row)
    ensures row == m.Now() || (row in m.Stored().Rows(m.parent.name) && row != m.Was())
  {
    hide Roomy, Move.Good, Move.Moved, Move.Now, Move.Was, Move.Stored, Key;
    Parts(m);
    assert row == m.Was() ==> Takes(m.Left(), 1, 0, row);
  }

  lemma LeftApart(m: Move, row: Row)
    requires m.Good() && |m.key.columns| == |m.key.referencedColumns|
    requires Has(m.Stored(), m.Left(), 1, m.parent.name, row)
    ensures Cells(row, m.key.referencedColumns) != Cells(m.Was(), m.key.referencedColumns)
  {
    hide Roomy, Move.Good, Move.Moved, Move.Left, Grove.RowAt, Grove.Stored, Key, Knows, Has;
    Parts(m);
    Fit(m);
    ReferringCells(m);
    LeftRows(m, row);
    if row != m.Now() && Cells(row, m.key.referencedColumns) == Cells(m.Was(), m.key.referencedColumns) {
      var j := StoredRow(m.Planted(), m.parent, row);
      TupleOnce(m.Planted(), m.parent, j, 0, m.key.referencedColumns);
    }
  }

  /** For every key that cascades an UPDATE into its own table's primary key there are such a database and UPDATE. */
  lemma MoveBreaks(m: Move)
    requires m.Good()
    ensures Broken(m.Stored(), m.Own()) && m.Stored().tables == m.tables
  {
    hide Roomy, Move.Good, Move.Moved, Move.Now, Move.Was, Sound, Intact, Walk, Listed, Checks, NormalStays, Involves,
         Grove.Stored;
    Fit(m);
    StoredPlain(m);
    StoredSound(m.Planted());
    StoredIntact(m.Planted());
    OwnListed(m);
    WalkMoves(m);
    LeftChecks(m);
    OldRowDangles(m);
  }
}
