/** A statement that `ForeignKeys.Enforced` accepts and that leaves a row whose reference names none: an action deletes
    a row whose turn is over, and the rows that refer to it are not visited again. */
module Dangling {
  import opened Schemas
  import opened ForeignKeys

  // Rows have their key in column 0 and refer to one another by columns 1 and 2.
  const TO_NULL := ForeignKey([1], 1, [0], SetNull, NoAction)
  const TO_DELETE := ForeignKey([2], 1, [0], Cascade, NoAction)
  const NODE := Table(1, [0], map[], [TO_NULL, TO_DELETE])

  const ROOT: Row := map[0 := Of(1)]
  const BOTH: Row := map[0 := Of(2), 1 := Of(1), 2 := Of(3)]
  const BRANCH: Row := map[0 := Of(3), 2 := Of(1)]
  const LEAF: Row := map[0 := Of(4), 2 := Of(2)]
  const CUT: Row := map[0 := Of(2), 1 := Null, 2 := Of(3)]

  const ROWS := [ROOT, BOTH, BRANCH, LEAF]
  const DB := Database([NODE], map[1 := ROWS], (table, row) => Some(row))
  const OWN := [Changed(NODE, Some(ROOT), None)]

  lemma OneCell(row: Row, column: Column)
    ensures Cells(row, [column]) == [Get(row, column)]
    ensures Values(row, [column]) == if Get(row, column) == Null then None else Some([Get(row, column)])
  {
    assert Cells(row, [column]) == [Get(row, column)];
  }

  lemma NodeKey(row: Row)
    ensures Key(NODE, row) == [Get(row, 0)]
  {
    OneCell(row, 0);
  }

  lemma RowNumbers(i: nat)
    requires i < |ROWS|
    ensures Get(ROWS[i], 0) == Of(i + 1)
  {
  }

  lemma OneRowEach()
    ensures OneRowAKey(NODE, ROWS) && OneRowAValue(ROWS, [0])
  {
    hide Get, Cells, Key, Values;
    forall i, j | 0 <= i < |ROWS| && 0 <= j < |ROWS| && i != j
      ensures ROWS[i] != ROWS[j] && Key(NODE, ROWS[i]) != Key(NODE, ROWS[j]) &&
              Values(ROWS[i], [0]) != Values(ROWS[j], [0])
    {
      NodeKey(ROWS[i]);
      NodeKey(ROWS[j]);
      OneCell(ROWS[i], 0);
      OneCell(ROWS[j], 0);
      RowNumbers(i);
      RowNumbers(j);
      assert Key(NODE, ROWS[i])[0] != Key(NODE, ROWS[j])[0];
      assert [Get(ROWS[i], 0)][0] != [Get(ROWS[j], 0)][0];
    }
  }

  lemma DbSound()
    ensures Sound(DB) && Listed(DB, OWN, 1)
  {
    OneRowEach();
    hide OneRowAKey, OneRowAValue;
    assert NODE.foreignKeys[0] == TO_NULL && NODE.foreignKeys[1] == TO_DELETE;
  }

  lemma DbIntact()
    ensures Intact(DB, [], 0)
  {
    forall row: Row, column: Column ensures Cells(row, [column]) == [Get(row, column)] {
      OneCell(row, column);
    }
    forall row | row in ROWS ensures Has(DB, [], 0, 1, row) {
    }
    forall table, key, row | table in DB.tables && key in table.foreignKeys && Has(DB, [], 0, table.name, row) &&
                             Values(row, key.columns).Some?
      ensures Held(DB, [], 0, key.references, key.referencedColumns, Values(row, key.columns).value)
    {
      StoredHas(DB, 1, row);
      var parent := if row == BOTH && key == TO_DELETE then BRANCH else if row == LEAF then BOTH else ROOT;
      assert Has(DB, [], 0, 1, parent) && Values(parent, [0]) == Values(row, key.columns);
    }
  }

  const REFERENCES: seq<Reference> := [(NODE, TO_NULL), (NODE, TO_DELETE)]
  const LISTED := [Changed(NODE, Some(ROOT), None), Changed(NODE, Some(BOTH), Some(CUT)),
                   Changed(NODE, Some(BRANCH), None)]
  const LEFT := [Changed(NODE, Some(ROOT), None), Changed(NODE, Some(BOTH), None), Changed(NODE, Some(BRANCH), None)]

  lemma NodeReferences()
    ensures Referencing([NODE], 1) == REFERENCES
  {
    assert NODE.foreignKeys[1..] == [TO_DELETE] && [TO_DELETE][1..] == [] && [NODE][1..] == [];
    assert ReferencesOf(NODE, [TO_DELETE], 1) == [(NODE, TO_DELETE)];
    assert ReferencesOf(NODE, NODE.foreignKeys, 1) == REFERENCES;
  }

  lemma FirstRow(rows: seq<Row>, column: Column, n: int)
    requires rows != []
    ensures RowsWhere(rows, [column], [Of(n)]) ==
            (if Get(rows[0], column) == Of(n) then [rows[0]] else []) + RowsWhere(rows[1..], [column], [Of(n)])
  {
    OneCell(rows[0], column);
  }

  /** The rows that hold a value in a column, one by one. */
  lemma NodeRows(column: Column, n: int)
    ensures RowsWhere(ROWS, [column], [Of(n)]) ==
            (if Get(ROOT, column) == Of(n) then [ROOT] else []) + (if Get(BOTH, column) == Of(n) then [BOTH] else []) +
            (if Get(BRANCH, column) == Of(n) then [BRANCH] else []) +
            (if Get(LEAF, column) == Of(n) then [LEAF] else [])
  {
    assert ROWS[1..] == [BOTH, BRANCH, LEAF] && [BOTH, BRANCH, LEAF][1..] == [BRANCH, LEAF];
    assert [BRANCH, LEAF][1..] == [LEAF] && [LEAF][1..] == [];
    hide Get;
    FirstRow(ROWS, column, n);
    FirstRow([BOTH, BRANCH, LEAF], column, n);
    FirstRow([BRANCH, LEAF], column, n);
    FirstRow([LEAF], column, n);
  }

  const NULLED := State([Changed(NODE, Some(ROOT), None), Changed(NODE, Some(BOTH), Some(CUT))], true, 0)

  lemma CutRow()
    ensures Rewritten(NODE, TO_NULL, SetNull, None, BOTH, 1) == CUT && Key(NODE, CUT) == Key(NODE, BOTH)
  {
    OneCell(BOTH, 0);
    OneCell(CUT, 0);
    assert Rewritten(NODE, TO_NULL, SetNull, None, BOTH, 0) == BOTH;
    assert BOTH[1 := Null] == CUT;
  }

  lemma OneRow(state: State, key: ForeignKey, action: Action, row: Row)
    ensures RevisitAll(DB, state, 1, (NODE, key), action, None, [row]) ==
            Revisit(DB, state, 1, (NODE, key), action, None, row)
  {
    assert [row][1..] == [];
  }

  lemma RootNulls()
    ensures Follow(DB, State(OWN, true, 0), 1, NODE, ROOT, None, (NODE, TO_NULL)) == Some(NULLED)
  {
    OneCell(ROOT, 0);
    assert Revisit(DB, State(OWN, true, 0), 1, (NODE, TO_NULL), SetNull, None, BOTH) == Some(NULLED) by {
      NodeKey(ROOT);
      NodeKey(BOTH);
      CutRow();
      hide Rewritten, Key;
      assert Find(OWN, 1, BOTH) == None;
      assert OWN + [Changed(NODE, Some(BOTH), Some(CUT))] == NULLED.changed;
    }
    NodeRows(1, 1);
    OneRow(State(OWN, true, 0), TO_NULL, SetNull, BOTH);
    hide RowsWhere, RevisitAll, Revisit;
    assert RowsWhere(ROWS, [1], [Of(1)]) == [BOTH];
  }

  lemma RootDeletes()
    ensures Follow(DB, NULLED, 1, NODE, ROOT, None, (NODE, TO_DELETE)) == Some(State(LISTED, true, 0))
  {
    OneCell(ROOT, 0);
    assert Revisit(DB, NULLED, 1, (NODE, TO_DELETE), Cascade, None, BRANCH) == Some(State(LISTED, true, 0)) by {
      NodeKey(ROOT);
      NodeKey(BOTH);
      NodeKey(BRANCH);
      hide Key;
      assert Find(NULLED.changed, 1, BRANCH) == None;
      assert NULLED.changed + [Changed(NODE, Some(BRANCH), None)] == LISTED;
    }
    NodeRows(2, 1);
    OneRow(NULLED, TO_DELETE, Cascade, BRANCH);
    hide RowsWhere, RevisitAll, Revisit;
    assert RowsWhere(ROWS, [2], [Of(1)]) == [BRANCH];
  }

  lemma RootTurn()
    requires Sound(DB)
    ensures Turn(DB, State(OWN, true, 0), 1, 0) == Some(State(LISTED, true, 0))
  {
    NodeReferences();
    RootNulls();
    RootDeletes();
    hide Follow, Referencing;
    assert REFERENCES[1..][1..] == [];
    assert FollowAll(DB, NULLED, 1, NODE, ROOT, None, REFERENCES[1..]) == Some(State(LISTED, true, 0));
  }

  lemma BothTurn()
    requires Sound(DB)
    ensures Turn(DB, State(LISTED, true, 0), 1, 1) == Some(State(LISTED, true, 1))
  {
    NodeReferences();
    OneCell(BOTH, 0);
    OneCell(CUT, 0);
    assert REFERENCES[1..][1..] == [];
    assert FollowAll(DB, State(LISTED, true, 1), 1, NODE, BOTH, Some(CUT), REFERENCES[1..]) ==
           Some(State(LISTED, true, 1));
  }

  lemma BranchNulls()
    ensures Follow(DB, State(LISTED, true, 2), 1, NODE, BRANCH, None, (NODE, TO_NULL)) == Some(State(LISTED, true, 2))
  {
    NodeRows(1, 3);
    OneCell(BRANCH, 0);
    hide RowsWhere;
  }

  lemma BothFound()
    ensures Find(LISTED, 1, BOTH) == Some(1)
  {
    NodeKey(ROOT);
    NodeKey(BOTH);
    NodeKey(BRANCH);
    hide Key;
    assert !Replaces(LISTED[0], 1, BOTH) && !Replaces(LISTED[2], 1, BOTH) && Replaces(LISTED[1], 1, BOTH);
  }

  lemma BothDeleted()
    ensures Revisit(DB, State(LISTED, true, 2), 1, (NODE, TO_DELETE), Cascade, None, BOTH) ==
            Some(State(LEFT, false, 2))
  {
    BothFound();
    NodeKey(BOTH);
    NodeReferences();
    hide Key, Referencing, Find;
    assert LISTED[1 := Changed(NODE, Some(BOTH), None)] == LEFT;
  }

  lemma BranchDeletes()
    ensures Follow(DB, State(LISTED, true, 2), 1, NODE, BRANCH, None, (NODE, TO_DELETE)) == Some(State(LEFT, false, 2))
  {
    OneCell(BRANCH, 0);
    BothDeleted();
    NodeRows(2, 3);
    OneRow(State(LISTED, true, 2), TO_DELETE, Cascade, BOTH);
    hide RowsWhere, RevisitAll, Revisit;
    assert RowsWhere(ROWS, [2], [Of(3)]) == [BOTH];
  }

  lemma BranchTurn()
    requires Sound(DB)
    ensures Turn(DB, State(LISTED, true, 1), 1, 2) == Some(State(LEFT, false, 2))
  {
    NodeReferences();
    BranchNulls();
    BranchDeletes();
    hide Follow, Referencing;
    assert REFERENCES[1..][1..] == [];
    assert FollowAll(DB, State(LISTED, true, 2), 1, NODE, BRANCH, None, REFERENCES[1..]) == Some(State(LEFT, false, 2));
  }

  /** One turn of the walk. */
  lemma Step(state: State, next: State, position: nat)
    requires Sound(DB) && Listed(DB, state.changed, 1) && position < |state.changed|
    requires Turn(DB, state, 1, position) == Some(next)
    ensures Listed(DB, next.changed, 1) && position + 1 <= |next.changed|
    ensures Walk(DB, state, 1, position) == Walk(DB, next, 1, position + 1)
  {
    hide Turn, Steps, Listed, Sound;
    TurnSteps(DB, state, 1, position);
    StepsGrows(DB, state.(turn := position), next, 1);
  }

  lemma Walks()
    requires Sound(DB) && Listed(DB, OWN, 1)
    ensures Walk(DB, State(OWN, true, 0), 1, 0) == Some(State(LEFT, false, 2))
  {
    hide Turn, Steps, Listed, Sound;
    RootTurn();
    BothTurn();
    BranchTurn();
    Step(State(OWN, true, 0), State(LISTED, true, 0), 0);
    Step(State(LISTED, true, 0), State(LISTED, true, 1), 1);
    Step(State(LISTED, true, 1), State(LEFT, false, 2), 2);
    assert Walk(DB, State(LEFT, false, 2), 1, 3) == Some(State(LEFT, false, 2));
  }

  /** The statement is accepted, on a database whose references all name rows, and leaves one that names none. */
  lemma AcceptedAndBroken()
    ensures Sound(DB) && Listed(DB, OWN, |OWN|) && Intact(DB, [], 0)
    ensures Enforced(DB, OWN) == Some(State(LEFT, false, 2)) && !Intact(DB, LEFT, |OWN|)
  {
    hide Listed, Sound, Checks, Intact, Walk, Involves;
    DbSound();
    DbIntact();
    Walks();
    LeftChecks();
    LeafDangles();
    Involved();
  }

  lemma LeftChecks()
    ensures Checks(DB, LEFT)
  {
  }

  lemma Involved()
    ensures Involves(DB, 1)
  {
  }

  lemma LeafDangles()
    ensures !Intact(DB, LEFT, 1)
  {
    OneCell(LEAF, 2);
    forall row: Row ensures Cells(row, [0]) == [Get(row, 0)] {
      OneCell(row, 0);
    }
    assert Has(DB, LEFT, 1, 1, LEAF) by {
      assert LEAF in DB.Rows(1);
    }
    assert !Held(DB, LEFT, 1, 1, [0], [Of(2)]) by {
      assert Takes(LEFT, 1, 1, BOTH);
    }
    assert TO_DELETE in NODE.foreignKeys && NODE in DB.tables;
  }
}

/** A statement that `ForeignKeys.Enforced` accepts and that leaves a row whose reference names none: an action changes
    a row's primary key, and the row is planned as an upsert under its new key, so the one under its old key stays. */
module MovedKey {
  import opened Schemas
  import opened ForeignKeys

  const TO_PARENT := ForeignKey([0], 1, [0], NoAction, Cascade)
  const PARENT := Table(1, [0], map[], [])
  const CHILD := Table(2, [0], map[], [TO_PARENT])
  const BEFORE: Row := map[0 := Of(1)]
  const AFTER: Row := map[0 := Of(2)]
  const DB := Database([PARENT, CHILD], map[1 := [BEFORE], 2 := [BEFORE]], (table, row) => Some(row))
  const OWN := [Changed(PARENT, Some(BEFORE), Some(AFTER))]
  const LEFT := [Changed(PARENT, Some(BEFORE), Some(AFTER)), Changed(CHILD, Some(BEFORE), Some(AFTER))]

  lemma OneCell(row: Row)
    ensures Cells(row, [0]) == [Get(row, 0)]
    ensures Values(row, [0]) == if Get(row, 0) == Null then None else Some([Get(row, 0)])
  {
    assert Cells(row, [0]) == [Get(row, 0)];
  }

  lemma ParentReferences()
    ensures Referencing([PARENT, CHILD], 1) == [(CHILD, TO_PARENT)] && Referencing([PARENT, CHILD], 2) == []
  {
    assert [PARENT, CHILD][1..] == [CHILD] && [CHILD][1..] == [] && [TO_PARENT][1..] == [];
    forall name: Name ensures ReferencesOf(CHILD, [TO_PARENT], name) == if name == 1 then [(CHILD, TO_PARENT)] else [] {
      assert ReferencesOf(CHILD, [TO_PARENT][1..], name) == [];
    }
    forall name: Name ensures Referencing([CHILD], name) == ReferencesOf(CHILD, [TO_PARENT], name) {
      assert Referencing([CHILD][1..], name) == [];
    }
  }

  lemma Cascades()
    ensures Follow(DB, State(OWN, true, 0), 1, PARENT, BEFORE, Some(AFTER), (CHILD, TO_PARENT)) ==
            Some(State(LEFT, false, 0))
  {
    OneCell(BEFORE);
    OneCell(AFTER);
    assert Cells(AFTER, [0])[0] != Cells(BEFORE, [0])[0];
    assert [BEFORE][1..] == [];
    assert RowsWhere([BEFORE], [0], [Of(1)]) == [BEFORE];
    assert Rewritten(CHILD, TO_PARENT, Cascade, Some([Of(2)]), BEFORE, 1) == AFTER by {
      assert Rewritten(CHILD, TO_PARENT, Cascade, Some([Of(2)]), BEFORE, 0) == BEFORE;
      assert BEFORE[0 := Of(2)] == AFTER;
    }
    assert Find(OWN, 2, BEFORE) == None;
    assert OWN + [Changed(CHILD, Some(BEFORE), Some(AFTER))] == LEFT;
    assert Revisit(DB, State(OWN, true, 0), 1, (CHILD, TO_PARENT), Cascade, Some([Of(2)]), BEFORE) ==
           Some(State(LEFT, false, 0));
    hide Revisit;
    assert RevisitAll(DB, State(OWN, true, 0), 1, (CHILD, TO_PARENT), Cascade, Some([Of(2)]), [BEFORE]) ==
           Some(State(LEFT, false, 0));
    assert Cells(AFTER, [0]) == [Of(2)] && Values(BEFORE, [0]) == Some([Of(1)]);
    assert DB.Rows(2) == [BEFORE];
  }

  lemma AcceptedAndBroken()
    ensures Sound(DB) && Listed(DB, OWN, |OWN|) && Intact(DB, [], 0)
    ensures Enforced(DB, OWN) == Some(State(LEFT, false, 1)) && !Intact(DB, LEFT, |OWN|)
  {
    StoredIntact();
    ParentReferences();
    Cascades();
    OneCell(AFTER);
    hide Follow, Referencing;
    assert [(CHILD, TO_PARENT)][1..] == [];
    assert FollowAll(DB, State(OWN, true, 0), 1, PARENT, BEFORE, Some(AFTER), [(CHILD, TO_PARENT)]) ==
           Some(State(LEFT, false, 0)) by {
      assert FollowAll(DB, State(LEFT, false, 0), 1, PARENT, BEFORE, Some(AFTER), []) == Some(State(LEFT, false, 0));
    }
    assert Turn(DB, State(OWN, true, 0), 1, 0) == Some(State(LEFT, false, 0));
    assert Turn(DB, State(LEFT, false, 0), 1, 1) == Some(State(LEFT, false, 1));
    TurnSteps(DB, State(OWN, true, 0), 1, 0);
    StepsGrows(DB, State(OWN, true, 0), State(LEFT, false, 0), 1);
    TurnSteps(DB, State(LEFT, false, 0), 1, 1);
    StepsGrows(DB, State(LEFT, false, 1), State(LEFT, false, 1), 1);
    assert Walk(DB, State(LEFT, false, 1), 1, 2) == Some(State(LEFT, false, 1));
    assert Walk(DB, State(LEFT, false, 0), 1, 1) == Some(State(LEFT, false, 1));
    assert Leaves(LEFT[0], 1, [0], [Of(2)]);
    assert ChecksKey(DB, LEFT, LEFT[1], TO_PARENT);
    assert Checks(DB, LEFT);
    assert TO_PARENT in CHILD.foreignKeys && CHILD in DB.tables;
    OldRowDangles();
  }

  lemma StoredIntact()
    ensures Sound(DB) && Listed(DB, OWN, |OWN|) && Intact(DB, [], 0)
  {
    OneCell(BEFORE);
    assert Has(DB, [], 0, 1, BEFORE);
  }

  lemma OldRowDangles()
    ensures !Intact(DB, LEFT, |OWN|)
  {
    forall row ensures Cells(row, [0]) == [Get(row, 0)] {
      OneCell(row);
    }
    assert Has(DB, LEFT, 1, 2, BEFORE) by {
      assert [Of(1)][0] != [Of(2)][0];
    }
    assert !Held(DB, LEFT, 1, 1, [0], [Of(1)]) by {
      assert Takes(LEFT, 1, 0, BEFORE);
      assert [Of(1)][0] != [Of(2)][0];
    }
    assert TO_PARENT in CHILD.foreignKeys && CHILD in DB.tables;
  }
}

/** A statement that `ForeignKeys.Enforced` accepts and that leaves a row whose reference names none: of two keys that
    follow an UPDATE into one row, the second, which others reference, comes by a longer way, after the row's turn. */
module LateValue {
  import opened Schemas
  import opened ForeignKeys

  // Rows have their key in column 0. Those of B and D refer to A by column 1, those of B to D's column 1 by column 2,
  // and those of C to B's column 2 by column 1.
  const B_TO_A := ForeignKey([1], 1, [0], NoAction, Cascade)
  const B_TO_D := ForeignKey([2], 4, [1], NoAction, Cascade)
  const C_TO_B := ForeignKey([1], 2, [2], NoAction, NoAction)
  const D_TO_A := ForeignKey([1], 1, [0], NoAction, Cascade)
  const A := Table(1, [0], map[], [])
  const B := Table(2, [0], map[], [B_TO_A, B_TO_D])
  const C := Table(3, [0], map[], [C_TO_B])
  const D := Table(4, [0], map[], [D_TO_A])

  const A_WAS: Row := map[0 := Of(1)]
  const A_NOW: Row := map[0 := Of(9)]
  const B_WAS: Row := map[0 := Of(5), 1 := Of(1), 2 := Of(1)]
  const B_THEN: Row := map[0 := Of(5), 1 := Of(9), 2 := Of(1)]
  const B_NOW: Row := map[0 := Of(5), 1 := Of(9), 2 := Of(9)]
  const C_ROW: Row := map[0 := Of(6), 1 := Of(1)]
  const D_WAS: Row := map[0 := Of(7), 1 := Of(1)]
  const D_NOW: Row := map[0 := Of(7), 1 := Of(9)]

  const TABLES := [A, B, C, D]
  const DB := Database(TABLES, map[1 := [A_WAS], 2 := [B_WAS], 3 := [C_ROW], 4 := [D_WAS]], (table, row) => Some(row))
  const OWN := [Changed(A, Some(A_WAS), Some(A_NOW))]
  const HALF := OWN + [Changed(B, Some(B_WAS), Some(B_THEN))]
  const LISTED := HALF + [Changed(D, Some(D_WAS), Some(D_NOW))]
  const LEFT := LISTED[1 := Changed(B, Some(B_WAS), Some(B_NOW))]

  lemma OneCell(row: Row, column: Column)
    ensures Cells(row, [column]) == [Get(row, column)]
    ensures Values(row, [column]) == if Get(row, column) == Null then None else Some([Get(row, column)])
  {
    assert Cells(row, [column]) == [Get(row, column)];
  }

  function ByKey(table: Table, key: ForeignKey, name: Name): seq<Reference> {
    if key.references == name then [(table, key)] else []
  }

  lemma NoKey(table: Table, rest: seq<Table>, name: Name)
    requires table.foreignKeys == []
    ensures Referencing([table] + rest, name) == Referencing(rest, name)
  {
    assert ([table] + rest)[1..] == rest;
  }

  lemma FirstKey(table: Table, key: ForeignKey, rest: seq<Table>, name: Name)
    requires table.foreignKeys == [key]
    ensures Referencing([table] + rest, name) == ByKey(table, key, name) + Referencing(rest, name)
  {
    assert ([table] + rest)[1..] == rest && [key][1..] == [];
    assert ReferencesOf(table, [key][1..], name) == [];
  }

  lemma TwoKeys(table: Table, a: ForeignKey, b: ForeignKey, rest: seq<Table>, name: Name)
    requires table.foreignKeys == [a, b]
    ensures Referencing([table] + rest, name) == ByKey(table, a, name) + ByKey(table, b, name) + Referencing(rest, name)
  {
    assert ([table] + rest)[1..] == rest && [a, b][1..] == [b] && [b][1..] == [];
    assert ReferencesOf(table, [b], name) == ByKey(table, b, name);
  }

  lemma ReferencingEach(name: Name)
    ensures Referencing(TABLES, name) ==
            ByKey(B, B_TO_A, name) + ByKey(B, B_TO_D, name) + ByKey(C, C_TO_B, name) + ByKey(D, D_TO_A, name)
  {
    assert TABLES == [A] + ([B] + ([C] + ([D] + [])));
    hide ByKey;
    NoKey(A, [B] + ([C] + ([D] + [])), name);
    TwoKeys(B, B_TO_A, B_TO_D, [C] + ([D] + []), name);
    FirstKey(C, C_TO_B, [D] + [], name);
    FirstKey(D, D_TO_A, [], name);
  }

  /** A key that follows its row's one parent from 1 to 9. */
  lemma Follows(state: State, reference: Reference, parent: Table, was: Row, now: Row, row: Row, next: State)
    requires |reference.1.columns| == |reference.1.referencedColumns| == 1 && reference.1.onUpdate == Cascade
    requires DB.Rows(reference.0.name) == [row] && Get(row, reference.1.columns[0]) == Of(1)
    requires Get(was, reference.1.referencedColumns[0]) == Of(1) && Get(now, reference.1.referencedColumns[0]) == Of(9)
    requires Revisit(DB, state, 1, reference, Cascade, Some([Of(9)]), row) == Some(next)
    ensures Follow(DB, state, 1, parent, was, Some(now), reference) == Some(next)
  {
    var key := reference.1;
    assert key.columns == [key.columns[0]] && key.referencedColumns == [key.referencedColumns[0]];
    OneCell(row, key.columns[0]);
    OneCell(was, key.referencedColumns[0]);
    OneCell(now, key.referencedColumns[0]);
    assert [Of(1)][0] != [Of(9)][0];
    assert [row][1..] == [];
    assert RowsWhere([row], key.columns, [Of(1)]) == [row];
    hide Revisit;
    assert RevisitAll(DB, state, 1, reference, Cascade, Some([Of(9)]), [row]) == Some(next);
  }

  /** The row that the key then leaves. */
  lemma Rewrites(reference: Reference, row: Row)
    requires |reference.1.columns| == 1
    ensures Rewritten(reference.0, reference.1, Cascade, Some([Of(9)]), row, 1) == row[reference.1.columns[0] := Of(9)]
  {
    assert Rewritten(reference.0, reference.1, Cascade, Some([Of(9)]), row, 0) == row;
  }

  lemma FirstFollows()
    ensures Follow(DB, State(OWN, true, 0), 1, A, A_WAS, Some(A_NOW), (B, B_TO_A)) == Some(State(HALF, true, 0))
    ensures Follow(DB, State(HALF, true, 0), 1, A, A_WAS, Some(A_NOW), (D, D_TO_A)) == Some(State(LISTED, true, 0))
  {
    forall row: Row ensures Key(B, row) == [Get(row, 0)] && Key(D, row) == [Get(row, 0)] {
      OneCell(row, 0);
    }
    Rewrites((B, B_TO_A), B_WAS);
    Rewrites((D, D_TO_A), D_WAS);
    assert B_WAS[1 := Of(9)] == B_THEN && D_WAS[1 := Of(9)] == D_NOW;
    hide Rewritten, Key;
    assert Find(OWN, 2, B_WAS) == None && Find(HALF, 4, D_WAS) == None;
    Follows(State(OWN, true, 0), (B, B_TO_A), A, A_WAS, A_NOW, B_WAS, State(HALF, true, 0));
    Follows(State(HALF, true, 0), (D, D_TO_A), A, A_WAS, A_NOW, D_WAS, State(LISTED, true, 0));
  }

  lemma FollowFirst(state: State, parent: Table, was: Row, now: Row, r: Reference, rest: seq<Reference>, next: State)
    requires forall s :: s in [r] + rest ==> |s.1.columns| == |s.1.referencedColumns|
    requires Follow(DB, state, 1, parent, was, Some(now), r) == Some(next)
    ensures forall s :: s in rest ==> |s.1.columns| == |s.1.referencedColumns|
    ensures FollowAll(DB, state, 1, parent, was, Some(now), [r] + rest) ==
            FollowAll(DB, next, 1, parent, was, Some(now), rest)
  {
    hide Follow;
    assert ([r] + rest)[1..] == rest;
    assert forall s :: s in rest ==> s in [r] + rest;
  }

  lemma FollowEnds(state: State, parent: Table, was: Row, now: Row)
    ensures FollowAll(DB, state, 1, parent, was, Some(now), []) == Some(state)
  {
  }

  lemma FirstTurn()
    requires Sound(DB)
    ensures Turn(DB, State(OWN, true, 0), 1, 0) == Some(State(LISTED, true, 0))
  {
    hide Follow, FollowAll, Referencing, Sound;
    ReferencingEach(1);
    FirstFollows();
    FollowFirst(State(OWN, true, 0), A, A_WAS, A_NOW, (B, B_TO_A), [(D, D_TO_A)], State(HALF, true, 0));
    FollowFirst(State(HALF, true, 0), A, A_WAS, A_NOW, (D, D_TO_A), [], State(LISTED, true, 0));
    FollowEnds(State(LISTED, true, 0), A, A_WAS, A_NOW);
    assert Referencing(TABLES, 1) == [(B, B_TO_A)] + [(D, D_TO_A)] && [(D, D_TO_A)] == [(D, D_TO_A)] + [];
  }

  /** In its turn the row of B has what C references as it was. */
  lemma SecondTurn()
    requires Sound(DB)
    ensures Turn(DB, State(LISTED, true, 0), 1, 1) == Some(State(LISTED, true, 1))
  {
    hide FollowAll, Referencing, Sound, RevisitAll;
    ReferencingEach(2);
    OneCell(B_WAS, 2);
    OneCell(B_THEN, 2);
    FollowFirst(State(LISTED, true, 1), B, B_WAS, B_THEN, (C, C_TO_B), [], State(LISTED, true, 1));
    FollowEnds(State(LISTED, true, 1), B, B_WAS, B_THEN);
    assert Referencing(TABLES, 2) == [(C, C_TO_B)] + [];
  }

  /** In D's, the row of B is given another value there. */
  lemma ThirdTurn()
    requires Sound(DB)
    ensures Turn(DB, State(LISTED, true, 1), 1, 2) == Some(State(LEFT, false, 2))
  {
    hide Follow, FollowAll, Referencing, Sound, Revisit;
    ReferencingEach(4);
    ThirdRevisit();
    Follows(State(LISTED, true, 2), (B, B_TO_D), D, D_WAS, D_NOW, B_WAS, State(LEFT, false, 2));
    FollowFirst(State(LISTED, true, 2), D, D_WAS, D_NOW, (B, B_TO_D), [], State(LEFT, false, 2));
    FollowEnds(State(LEFT, false, 2), D, D_WAS, D_NOW);
    assert Referencing(TABLES, 4) == [(B, B_TO_D)] + [];
  }

  lemma ThirdRevisit()
    ensures Revisit(DB, State(LISTED, true, 2), 1, (B, B_TO_D), Cascade, Some([Of(9)]), B_WAS) ==
            Some(State(LEFT, false, 2))
  {
    hide Rewritten, Key, Referencing, Find, Harmless, Early;
    ThirdFinds();
    Rewrites((B, B_TO_D), B_THEN);
    assert B_THEN[2 := Of(9)] == B_NOW;
    Harms();
    assert !Early(DB, State(LISTED, true, 2), 1, B_WAS, B_THEN) by {
      Late();
    }
  }

  lemma Late()
    ensures !Early(DB, State(LISTED, true, 2), 1, B_WAS, B_THEN)
  {
    hide Harmless;
  }

  lemma ThirdFinds()
    ensures Find(LISTED, 2, B_WAS) == Some(1)
  {
    hide Key;
    assert !Replaces(LISTED[0], 2, B_WAS) && !Replaces(LISTED[2], 2, B_WAS) && Replaces(LISTED[1], 2, B_WAS);
  }

  lemma Harms()
    ensures !Harmless(DB, B, B_THEN, Some(B_NOW))
  {
    hide Referencing;
    OneCell(B_THEN, 2);
    OneCell(B_NOW, 2);
    assert [Of(1)][0] != [Of(9)][0];
    assert (C, C_TO_B) in Referencing(DB.tables, 2);
  }

  lemma Step(state: State, next: State, position: nat)
    requires Sound(DB) && Listed(DB, state.changed, 1) && position < |state.changed|
    requires Turn(DB, state, 1, position) == Some(next)
    ensures Listed(DB, next.changed, 1) && position + 1 <= |next.changed|
    ensures Walk(DB, state, 1, position) == Walk(DB, next, 1, position + 1)
  {
    hide Turn, Steps, Listed, Sound;
    TurnSteps(DB, state, 1, position);
    StepsGrows(DB, state.(turn := position), next, 1);
  }

  lemma Walks()
    requires Sound(DB) && Listed(DB, OWN, 1)
    ensures Walk(DB, State(OWN, true, 0), 1, 0) == Some(State(LEFT, false, 2))
  {
    hide Turn, Steps, Listed, Sound;
    FirstTurn();
    SecondTurn();
    ThirdTurn();
    Step(State(OWN, true, 0), State(LISTED, true, 0), 0);
    Step(State(LISTED, true, 0), State(LISTED, true, 1), 1);
    Step(State(LISTED, true, 1), State(LEFT, false, 2), 2);
    assert Walk(DB, State(LEFT, false, 2), 1, 3) == Some(State(LEFT, false, 2));
  }

  /** The statement is accepted, on a database whose references all name rows, and leaves one that names none. */
  lemma AcceptedAndBroken()
    ensures Sound(DB) && Listed(DB, OWN, |OWN|) && Intact(DB, [], 0)
    ensures Enforced(DB, OWN) == Some(State(LEFT, false, 2)) && !Intact(DB, LEFT, |OWN|)
  {
    hide Listed, Sound, Checks, Intact, Walk, Involves;
    DbSound();
    DbIntact();
    Walks();
    LeftChecks();
    RowDangles();
    Involved();
  }

  lemma Involved()
    ensures Involves(DB, 1)
  {
    assert B_TO_A in B.foreignKeys && B in TABLES;
  }

  lemma Single(table: Table, row: Row, columns: seq<Column>)
    ensures OneRowAKey(table, [row]) && OneRowAValue([row], columns)
  {
  }

  lemma RowsEach(name: Name) returns (row: Row)
    requires name in {1, 2, 3, 4}
    ensures DB.Rows(name) == [row]
  {
    row := if name == 1 then A_WAS else if name == 2 then B_WAS else if name == 3 then C_ROW else D_WAS;
  }

  lemma KeysEach(child: Table, key: ForeignKey)
    requires child in TABLES && key in child.foreignKeys
    ensures |key.columns| == |key.referencedColumns| && key.references in {1, 2, 4}
  {
    if child == B {
      assert B.foreignKeys[0] == B_TO_A && B.foreignKeys[1] == B_TO_D;
    }
  }

  lemma DbSound()
    ensures Sound(DB) && Listed(DB, OWN, 1)
  {
    hide OneRowAKey, OneRowAValue;
    forall table | table in TABLES ensures OneRowAKey(table, DB.Rows(table.name)) {
      var row := RowsEach(table.name);
      Single(table, row, []);
    }
    forall child, key | child in TABLES && key in child.foreignKeys
      ensures |key.columns| == |key.referencedColumns| && OneRowAValue(DB.Rows(key.references), key.referencedColumns)
    {
      KeysEach(child, key);
      var row := RowsEach(key.references);
      Single(child, row, key.referencedColumns);
    }
  }

  lemma DbIntact()
    ensures Intact(DB, [], 0)
  {
    forall row: Row, column: Column ensures Cells(row, [column]) == [Get(row, column)] {
      OneCell(row, column);
    }
    assert Has(DB, [], 0, 1, A_WAS) && Has(DB, [], 0, 2, B_WAS) && Has(DB, [], 0, 4, D_WAS);
    forall table, key, row | table in DB.tables && key in table.foreignKeys && Has(DB, [], 0, table.name, row) &&
                             Values(row, key.columns).Some?
      ensures Held(DB, [], 0, key.references, key.referencedColumns, Values(row, key.columns).value)
    {
      StoredHas(DB, table.name, row);
      var parent := if key.references == 1 then A_WAS else if key.references == 2 then B_WAS else D_WAS;
      assert Has(DB, [], 0, key.references, parent) &&
             Values(parent, key.referencedColumns) == Values(row, key.columns);
    }
  }

  lemma LeftChecks()
    ensures Checks(DB, LEFT)
  {
    OneCell(A_NOW, 0);
    OneCell(B_NOW, 1);
    OneCell(B_NOW, 2);
    OneCell(D_NOW, 1);
    assert Leaves(LEFT[0], 1, [0], [Of(9)]) && Leaves(LEFT[2], 4, [1], [Of(9)]);
    assert ChecksKey(DB, LEFT, LEFT[1], B_TO_A) && ChecksKey(DB, LEFT, LEFT[1], B_TO_D);
    assert ChecksKey(DB, LEFT, LEFT[2], D_TO_A);
  }

  lemma RowDangles()
    ensures !Intact(DB, LEFT, 1)
  {
    forall row: Row, column: Column ensures Cells(row, [column]) == [Get(row, column)] {
      OneCell(row, column);
    }
    assert Has(DB, LEFT, 1, 3, C_ROW) by {
      assert C_ROW in DB.Rows(3);
    }
    assert !Held(DB, LEFT, 1, 2, [2], [Of(1)]) by {
      assert Takes(LEFT, 1, 1, B_WAS);
      assert [Of(1)][0] != [Of(9)][0];
    }
    assert C_TO_B in C.foreignKeys && C in DB.tables;
  }
}
