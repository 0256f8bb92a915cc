/** The changed keys that outcomes report, table by table (common.ts). */
module KeyReports {
  type Table(==, !new)

  /** A row's primary key, by its JSON text. */
  type Key(==, !new)

  datatype Option<+T> = None | Some(value: T)

  const MAX_CHANGED_KEYS_PER_TABLE := 1_000

  /** One table an outcome changed, with the keys it reports of it, if it does. */
  datatype Report = Report(table: Table, keys: Option<seq<Key>>)

  /** An outcome, or an event made of several: the tables it changed, and the keys of those it can report in full. */
  datatype Outcome = Outcome(tables: seq<Table>, keys: map<Table, seq<Key>>)

  function Reports(outcome: Outcome): (reports: seq<Report>)
    ensures |reports| == |outcome.tables|
  {
    seq(|outcome.tables|, i requires 0 <= i < |outcome.tables| =>
      Report(outcome.tables[i],
             if outcome.tables[i] in outcome.keys then Some(outcome.keys[outcome.tables[i]]) else None))
  }

  /** Every key reported of a table, in turn. */
  function KeysOf(history: seq<Report>, table: Table): seq<Key> {
    if history == [] then []
    else
      var last := history[|history| - 1];
      KeysOf(history[..|history| - 1], table) + if last.table == table && last.keys.Some? then last.keys.value else []
  }

  predicate Touched(history: seq<Report>, table: Table) {
    exists i :: 0 <= i < |history| && history[i].table == table
  }

  /** Whether some change to a table was not reported. */
  predicate Silent(history: seq<Report>, table: Table) {
    exists i :: 0 <= i < |history| && history[i].table == table && history[i].keys.None?
  }

  /** The keys without repeats, each where it first came. */
  function Distinct(keys: seq<Key>): seq<Key> {
    if keys == [] then []
    else
      var before, last := Distinct(keys[..|keys| - 1]), keys[|keys| - 1];
      if last in before then before else before + [last]
  }

  /** Whether no key came once as many were held as may be: not even one that was held. */
  predicate Room(keys: seq<Key>) {
    keys == [] || |Distinct(keys[..|keys| - 1])| < MAX_CHANGED_KEYS_PER_TABLE
  }

  lemma {:induction false} DistinctKeys(keys: seq<Key>)
    ensures forall key :: key in Distinct(keys) <==> key in keys
    ensures forall i, j :: 0 <= i < j < |Distinct(keys)| ==> Distinct(keys)[i] != Distinct(keys)[j]
  {
    if keys != [] {
      var before, last := keys[..|keys| - 1], keys[|keys| - 1];
      DistinctKeys(before);
      assert keys == before + [last];
    }
  }

  lemma DistinctNext(keys: seq<Key>, key: Key)
    ensures Distinct(keys + [key]) == if key in Distinct(keys) then Distinct(keys) else Distinct(keys) + [key]
    ensures Room(keys + [key]) <==> |Distinct(keys)| < MAX_CHANGED_KEYS_PER_TABLE
    ensures Room(keys + [key]) ==> Room(keys)
  {
    assert (keys + [key])[..|keys|] == keys;
    DistinctShorter(keys);
  }

  lemma DistinctShorter(keys: seq<Key>)
    ensures keys != [] ==> |Distinct(keys[..|keys| - 1])| <= |Distinct(keys)|
  {
  }

  /** Where there was no room for some keys, there is none for more. */
  lemma {:induction false} RoomMonotone(keys: seq<Key>, more: seq<Key>)
    ensures Room(keys + more) ==> Room(keys)
  {
    if more == [] {
      assert keys + more == keys;
    } else {
      var most, last := more[..|more| - 1], more[|more| - 1];
      assert keys + more == (keys + most) + [last];
      DistinctNext(keys + most, last);
      RoomMonotone(keys, most);
    }
  }

  lemma RoomBounded(keys: seq<Key>)
    ensures Room(keys) ==> |Distinct(keys)| <= MAX_CHANGED_KEYS_PER_TABLE
  {
  }

  /** The bound is tested before a key is known to be a repeat: one that comes once the bound is reached leaves a set
      that is within it, and yet it is not reported. */
  lemma RepeatRefused(keys: seq<Key>, key: Key)
    requires |Distinct(keys)| == MAX_CHANGED_KEYS_PER_TABLE && key in keys
    ensures |Distinct(keys + [key])| == MAX_CHANGED_KEYS_PER_TABLE && !Room(keys + [key])
  {
    DistinctKeys(keys);
    DistinctNext(keys, key);
  }

  /** The room there is: for fewer keys than the bound, or for as many where the last came for the first time. */
  lemma RoomExactly(keys: seq<Key>)
    requires keys != []
    ensures Room(keys) <==>
            || |Distinct(keys)| < MAX_CHANGED_KEYS_PER_TABLE
            || (|Distinct(keys)| == MAX_CHANGED_KEYS_PER_TABLE && keys[|keys| - 1] !in keys[..|keys| - 1])
  {
    DistinctKeys(keys[..|keys| - 1]);
  }

  /** Keys that are all among others are no more, without repeats. */
  lemma DistinctFewer(some: seq<Key>, all: seq<Key>)
    requires forall key :: key in some ==> key in all
    ensures |Distinct(some)| <= |Distinct(all)|
  {
    DistinctSet(some);
    DistinctSet(all);
    Fewer(set key | key in some, set key | key in all);
  }

  lemma Fewer(some: set<Key>, all: set<Key>)
    requires some <= all
    ensures |some| <= |all|
  {
    assert all == some + (all - some);
  }

  lemma {:induction false} DistinctSet(keys: seq<Key>)
    ensures |Distinct(keys)| == |set key | key in keys|
  {
    if keys != [] {
      var before, last := keys[..|keys| - 1], keys[|keys| - 1];
      DistinctSet(before);
      DistinctKeys(before);
      assert keys == before + [last];
      assert (set key | key in keys) == (set key | key in before) + {last};
      if last in before {
        assert (set key | key in keys) == set key | key in before;
      }
    }
  }

  lemma HistoryNext(history: seq<Report>, report: Report, table: Table)
    ensures Touched(history + [report], table) <==> Touched(history, table) || report.table == table
    ensures Silent(history + [report], table) <==>
            Silent(history, table) || (report.table == table && report.keys.None?)
    ensures KeysOf(history + [report], table) ==
            KeysOf(history, table) + if report.table == table && report.keys.Some? then report.keys.value else []
  {
    var next := history + [report];
    assert next[..|history|] == history && next[|history|] == report;
    forall i | 0 <= i < |history| ensures next[i] == history[i] {
    }
    if Touched(history, table) {
      var i :| 0 <= i < |history| && history[i].table == table;
      assert next[i].table == table;
    }
    if Silent(history, table) {
      var i :| 0 <= i < |history| && history[i].table == table && history[i].keys.None?;
      assert next[i].table == table && next[i].keys.None?;
    }
  }
}

/** Merging what outcomes report into one notification (common.ts). */
module ChangedKeys {
  import opened KeyReports

  datatype Entry = Entry(rows: seq<Key>, seen: set<Key>)

  /** A table's running keys: None where they can no longer be reported in full. */
  type Pending = map<Table, Option<Entry>>

  /** What a history leaves of a table: its distinct keys, if every change to it was reported and there was room. */
  function Left(history: seq<Report>, table: Table): Option<seq<Key>> {
    var keys := KeysOf(history, table);
    if Silent(history, table) || !Room(keys) then None else Some(Distinct(keys))
  }

  class PendingChangedKeys {
    var pending: Pending
    ghost var history: seq<Report>

    /** The tables held are those changed, each with exactly what is left of it. */
    ghost predicate Valid()
      reads this
    {
      && (forall table :: table in pending <==> Touched(history, table))
      && (forall table :: table in pending ==> Holds(pending[table], Left(history, table)))
    }

    constructor ()
      ensures Valid() && history == []
    {
      pending, history := map[], [];
    }

    /** Folds an outcome in: a table changed without its keys, or past the bound, can no longer be reported. */
    method Merge(outcome: Outcome)
      requires Valid()
      modifies this
      ensures Valid() && history == old(history) + Reports(outcome)
    {
      ghost var reports := Reports(outcome);
      for i := 0 to |outcome.tables|
        invariant Valid() && history == old(history) + reports[..i]
      {
        var table := outcome.tables[i];
        MergeTable(table, if table in outcome.keys then Some(outcome.keys[table]) else None);
        assert reports[..i + 1] == reports[..i] + [reports[i]];
      }
      assert reports[..|reports|] == reports;
    }

    method MergeTable(table: Table, incoming: Option<seq<Key>>)
      requires Valid()
      modifies this
      ensures Valid() && history == old(history) + [Report(table, incoming)]
    {
      hide KeysOf, Distinct, Room;
      ghost var was := history;
      ghost var report := Report(table, incoming);
      history := history + [report];
      forall other ensures (Touched(history, other) <==> Touched(was, other) || other == table) &&
                           (other != table ==> Left(history, other) == Left(was, other)) {
        HistoryNext(was, report, other);
        assert KeysOf(was, other) + [] == KeysOf(was, other);
      }
      HistoryNext(was, report, table);
      Untouched(was, table);
      ghost var keys := KeysOf(was, table);
      if incoming.None? {
        pending := pending[table := None];
        return;
      }
      Nothing();
      var entry: Option<Entry> := if table in pending then pending[table] else Some(Entry([], {}));
      if entry.None? {
        RoomMonotone(keys, incoming.value);
        return;
      }
      var after := AddKeys(entry.value, incoming.value, keys);
      pending := pending[table := after];
    }

    /** Adds keys to those held, until one comes when as many are held as may be. */
    method AddKeys(entry: Entry, incoming: seq<Key>, ghost keys: seq<Key>) returns (after: Option<Entry>)
      requires Room(keys) && Holds(Some(entry), Some(Distinct(keys)))
      ensures Holds(after, if Room(keys + incoming) then Some(Distinct(keys + incoming)) else None)
    {
      hide Distinct, Room;
      var rows, seen := entry.rows, entry.seen;
      assert keys + incoming[..0] == keys;
      for n := 0 to |incoming|
        invariant Room(keys + incoming[..n])
        invariant rows == Distinct(keys + incoming[..n]) && seen == set key | key in rows
      {
        var key := incoming[n];
        assert keys + incoming[..n + 1] == keys + incoming[..n] + [key];
        DistinctNext(keys + incoming[..n], key);
        if |rows| >= MAX_CHANGED_KEYS_PER_TABLE {
          assert keys + incoming == keys + incoming[..n + 1] + incoming[n + 1..];
          RoomMonotone(keys + incoming[..n + 1], incoming[n + 1..]);
          return None;
        }
        if key !in seen {
          seen := seen + {key};
          rows := rows + [key];
        }
      }
      assert incoming[..|incoming|] == incoming;
      return Some(Entry(rows, seen));
    }

    /** The tables that can be reported in full, with their keys. */
    method Finish() returns (keys: map<Table, seq<Key>>)
      requires Valid()
      ensures forall table :: table in keys <==> Touched(history, table) && Left(history, table).Some?
      ensures forall table :: table in keys ==> keys[table] == Left(history, table).value
    {
      keys := map table | table in pending && pending[table].Some? :: pending[table].value.rows;
    }
  }

  ghost predicate Holds(entry: Option<Entry>, left: Option<seq<Key>>) {
    match entry
    case None => left.None?
    case Some(held) => left == Some(held.rows) && held.seen == set key | key in held.rows
  }

  lemma Nothing()
    ensures Room([]) && Distinct([]) == []
  {
  }

  lemma {:induction false} Untouched(history: seq<Report>, table: Table)
    ensures !Touched(history, table) ==> KeysOf(history, table) == [] && !Silent(history, table)
  {
    if history != [] && !Touched(history, table) {
      var before := history[..|history| - 1];
      assert history[|history| - 1].table != table;
      assert forall i :: 0 <= i < |before| ==> before[i] == history[i];
      Untouched(before, table);
    }
  }

  /** A table listed with keys lists each key ever reported of it, once, and no more than the bound. */
  lemma LeftExactly(history: seq<Report>, table: Table)
    ensures match Left(history, table)
            case None => Silent(history, table) || !Room(KeysOf(history, table))
            case Some(rows) =>
              && !Silent(history, table) && |rows| <= MAX_CHANGED_KEYS_PER_TABLE
              && (forall key :: key in rows <==> key in KeysOf(history, table))
              && (forall i, j :: 0 <= i < j < |rows| ==> rows[i] != rows[j])
  {
    DistinctKeys(KeysOf(history, table));
    RoomBounded(KeysOf(history, table));
  }

  /** A table that can no longer be reported never is again. */
  lemma {:induction false} StaysAbsent(history: seq<Report>, more: seq<Report>, table: Table)
    ensures Left(history, table).None? ==> Left(history + more, table).None?
  {
    if more == [] {
      assert history + more == history;
    } else {
      var most, last := more[..|more| - 1], more[|more| - 1];
      StaysAbsent(history, most, table);
      assert history + more == (history + most) + [last];
      HistoryNext(history + most, last, table);
      RoomMonotone(KeysOf(history + most, table),
                   if last.table == table && last.keys.Some? then last.keys.value else []);
    }
  }

  /** An event made of a history. */
  ghost predicate Merged(history: seq<Report>, event: Outcome) {
    && (forall table :: table in event.tables <==> Touched(history, table))
    && (forall table :: table in event.keys <==> Touched(history, table) && Left(history, table).Some?)
    && (forall table :: table in event.keys ==> event.keys[table] == Left(history, table).value)
  }

  function Flat(histories: seq<seq<Report>>): seq<Report> {
    if histories == [] then [] else Flat(histories[..|histories| - 1]) + histories[|histories| - 1]
  }

  function AllReports(events: seq<Outcome>): seq<Report> {
    if events == [] then [] else AllReports(events[..|events| - 1]) + Reports(events[|events| - 1])
  }

  lemma {:induction false} Joined(a: seq<Report>, b: seq<Report>, table: Table)
    ensures Touched(a + b, table) <==> Touched(a, table) || Touched(b, table)
    ensures Silent(a + b, table) <==> Silent(a, table) || Silent(b, table)
    ensures KeysOf(a + b, table) == KeysOf(a, table) + KeysOf(b, table)
  {
    if b == [] {
      assert a + b == a;
      Untouched([], table);
    } else {
      hide Touched, Silent, KeysOf;
      var most, last := b[..|b| - 1], b[|b| - 1];
      Joined(a, most, table);
      HistoryNext(a + most, last, table);
      HistoryNext(most, last, table);
      assert most + [last] == b && a + b == (a + most) + [last];
    }
  }

  /** What an event reports of a table is what its history does: all of its keys, or nothing. */
  lemma EventReports(history: seq<Report>, event: Outcome, table: Table)
    requires Merged(history, event)
    ensures Touched(Reports(event), table) <==> Touched(history, table)
    ensures !Silent(Reports(event), table) ==>
              !Silent(history, table) &&
              forall key :: key in KeysOf(Reports(event), table) <==> key in KeysOf(history, table)
  {
    var reports := Reports(event);
    if table in event.tables {
      var i :| 0 <= i < |event.tables| && event.tables[i] == table;
      assert reports[i].table == table;
      if !Silent(reports, table) {
        assert table in event.keys;
        LeftExactly(history, table);
        SameKeys(event, reports, table);
      }
    } else {
      assert !Touched(reports, table);
      Untouched(reports, table);
      Untouched(history, table);
    }
  }

  lemma {:induction false} SameKeys(event: Outcome, reports: seq<Report>, table: Table)
    requires table in event.keys && reports <= Reports(event)
    ensures forall key :: key in KeysOf(reports, table) ==> key in event.keys[table]
    ensures Touched(reports, table) ==> forall key :: key in event.keys[table] ==> key in KeysOf(reports, table)
  {
    if reports != [] {
      var before, last := reports[..|reports| - 1], reports[|reports| - 1];
      assert last == Reports(event)[|reports| - 1];
      SameKeys(event, before, table);
      assert before + [last] == reports;
      HistoryNext(before, last, table);
    }
  }

  /** Merges of merges, a script's, a worker's events and a client's alike: a table that the last lists with keys lists
      exactly those changed in any history, once each and within the bound. */
  lemma LayersExactly(histories: seq<seq<Report>>, events: seq<Outcome>, table: Table)
    requires |histories| == |events| && forall i :: 0 <= i < |events| ==> Merged(histories[i], events[i])
    ensures Left(AllReports(events), table).Some? ==>
              var rows := Left(AllReports(events), table).value;
              && !Silent(Flat(histories), table) && |rows| <= MAX_CHANGED_KEYS_PER_TABLE
              && (forall key :: key in rows <==> key in KeysOf(Flat(histories), table))
              && (forall i, j :: 0 <= i < j < |rows| ==> rows[i] != rows[j])
  {
    LeftExactly(AllReports(events), table);
    LayersReport(histories, events, table);
  }

  lemma {:induction false} LayersReport(histories: seq<seq<Report>>, events: seq<Outcome>, table: Table)
    requires |histories| == |events| && forall i :: 0 <= i < |events| ==> Merged(histories[i], events[i])
    ensures !Silent(AllReports(events), table) ==>
              && !Silent(Flat(histories), table)
              && forall key :: key in KeysOf(AllReports(events), table) <==> key in KeysOf(Flat(histories), table)
  {
    if events != [] {
      var n := |events| - 1;
      LayersReport(histories[..n], events[..n], table);
      Joined(AllReports(events[..n]), Reports(events[n]), table);
      Joined(Flat(histories[..n]), histories[n], table);
      EventReports(histories[n], events[n], table);
    }
  }

  /** Events merged into events, to any depth: outcomes into a script's event, those into a worker's, and those into a
      client's. */
  datatype Tree = Told(event: Outcome) | Merge(parts: seq<Tree>, event: Outcome)

  function Events(parts: seq<Tree>): (events: seq<Outcome>)
    ensures |events| == |parts|
  {
    seq(|parts|, i requires 0 <= i < |parts| => parts[i].event)
  }

  ghost predicate Whole(tree: Tree) {
    tree.Merge? ==>
      (forall part :: part in tree.parts ==> Whole(part)) && Merged(AllReports(Events(tree.parts)), tree.event)
  }

  /** What the outcomes at the leaves report, in turn. */
  function Leaves(tree: Tree): seq<Report> {
    match tree
    case Told(event) => Reports(event)
    case Merge(parts, _) => LeavesOf(parts)
  }

  function LeavesOf(parts: seq<Tree>): seq<Report> {
    if parts == [] then [] else LeavesOf(parts[..|parts| - 1]) + Leaves(parts[|parts| - 1])
  }

  /** Whether reports say of a table what others do, or that some of it is not reported; and that only where the others
      do too, or report as many keys as the bound. */
  ghost predicate Tells(reports: seq<Report>, history: seq<Report>, table: Table) {
    && (Touched(reports, table) <==> Touched(history, table))
    && (!Silent(reports, table) ==>
          && !Silent(history, table)
          && forall key :: key in KeysOf(reports, table) <==> key in KeysOf(history, table))
    && (!Silent(history, table) && |Distinct(KeysOf(history, table))| < MAX_CHANGED_KEYS_PER_TABLE ==>
          !Silent(reports, table))
  }

  lemma EventTells(history: seq<Report>, event: Outcome, table: Table)
    requires Merged(history, event)
    ensures Tells(Reports(event), history, table)
  {
    EventReports(history, event, table);
    if !Silent(history, table) && |Distinct(KeysOf(history, table))| < MAX_CHANGED_KEYS_PER_TABLE {
      RoomBelow(KeysOf(history, table));
    }
  }

  lemma RoomBelow(keys: seq<Key>)
    requires |Distinct(keys)| < MAX_CHANGED_KEYS_PER_TABLE
    ensures Room(keys)
  {
  }

  lemma TellsOn(reports: seq<Report>, history: seq<Report>, origin: seq<Report>, table: Table)
    requires Tells(reports, history, table) && Tells(history, origin, table)
    ensures Tells(reports, origin, table)
  {
    hide Touched, Silent, KeysOf, Distinct;
    if !Silent(history, table) {
      DistinctFewer(KeysOf(history, table), KeysOf(origin, table));
    }
  }

  lemma TellsBoth(a: seq<Report>, b: seq<Report>, c: seq<Report>, d: seq<Report>, table: Table)
    requires Tells(a, c, table) && Tells(b, d, table)
    ensures Tells(a + b, c + d, table)
  {
    hide Touched, Silent, KeysOf, Distinct;
    Joined(a, b, table);
    Joined(c, d, table);
    DistinctFewer(KeysOf(c, table), KeysOf(c + d, table));
    DistinctFewer(KeysOf(d, table), KeysOf(c + d, table));
  }

  lemma NothingTells(table: Table)
    ensures Tells([], [], table)
  {
  }

  lemma {:induction false} PartsTell(parts: seq<Tree>, table: Table)
    requires forall part :: part in parts ==> Whole(part)
    ensures Tells(AllReports(Events(parts)), LeavesOf(parts), table)
    decreases parts
  {
    hide Tells;
    if parts == [] {
      NothingTells(table);
    } else {
      var before, last := parts[..|parts| - 1], parts[|parts| - 1];
      PartsTell(before, table);
      TreeTells(last, table);
      assert Events(parts)[..|parts| - 1] == Events(before);
      TellsBoth(AllReports(Events(before)), Reports(last.event), LeavesOf(before), Leaves(last), table);
    }
  }

  lemma {:induction false} TreeTells(tree: Tree, table: Table)
    requires Whole(tree)
    ensures Tells(Reports(tree.event), Leaves(tree), table)
    decreases tree
  {
    if tree.Merge? {
      PartsTell(tree.parts, table);
      EventTells(AllReports(Events(tree.parts)), tree.event, table);
      TellsOn(Reports(tree.event), AllReports(Events(tree.parts)), LeavesOf(tree.parts), table);
    }
  }

  /** However deep the merges: a table listed with keys lists each key any outcome reported of it, once each and within
      the bound, and no outcome left some out; and it is listed unless one did, or there are as many keys as the bound.
      */
  lemma TreeExactly(tree: Tree, table: Table)
    requires Whole(tree) && tree.Merge?
    ensures table in tree.event.keys ==>
              var rows := tree.event.keys[table];
              && Touched(Leaves(tree), table) && !Silent(Leaves(tree), table) && |rows| <= MAX_CHANGED_KEYS_PER_TABLE
              && (forall key :: key in rows <==> key in KeysOf(Leaves(tree), table))
              && (forall i, j :: 0 <= i < j < |rows| ==> rows[i] != rows[j])
    ensures (&& Touched(Leaves(tree), table) && !Silent(Leaves(tree), table)
             && |Distinct(KeysOf(Leaves(tree), table))| < MAX_CHANGED_KEYS_PER_TABLE) ==> table in tree.event.keys
  {
    var history := AllReports(Events(tree.parts));
    PartsTell(tree.parts, table);
    EventTells(history, tree.event, table);
    TellsOn(Reports(tree.event), history, Leaves(tree), table);
    LeftExactly(history, table);
  }
}
