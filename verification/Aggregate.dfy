/** What a grouped query keeps of the rows it reads, and how many bytes it counts for that (aggregate.rs). */
module GroupStates {
  import opened GroupKeys

  datatype Option<+T> = None | Some(value: T)

  /** An aggregate's input in a row. A float is finite, and known by its value, so that its two zeros are one. */
  datatype Input = Missing | Number(n: int) | Letters(text: string) | Fraction(f: real)

  /** A sum is of a column of integers or of one of floats. */
  datatype Kind = CountRows | CountOf | SumOf | FloatSumOf | AverageOf | MinimumOf | MaximumOf

  /** An aggregate, with the length of its column's name. */
  datatype Aggregate = Aggregate(kind: Kind, name: nat)

  /** A row: the values it is grouped by, and the input of each aggregate. */
  datatype Row = Row(values: seq<Grouped>, inputs: seq<Input>)

  /** A sum of floats is known by its terms: whatever adding them one after another, each rounded, comes to. An
      average's sum is of floats too, of whatever its column is. */
  datatype Accumulator =
    | Counter(count: nat)
    | Summer(sum: int, seen: bool)
    | FloatSummer(terms: seq<Input>, seen: bool)
    | Averager(terms: seq<Input>, count: nat)
    | Extremum(selected: Option<Input>)

  /** A column a group shows: the length of its name, and its place among those the rows are grouped by. */
  datatype Column = Column(name: nat, place: nat)

  /** The plan: its aggregates, the lengths of the names of the columns it groups by, and those of them it shows. */
  datatype Plan = Plan(aggregates: seq<Aggregate>, grouped: seq<nat>, shown: seq<Column>)

  const MAX_GROUPS := 100_000
  const MAX_AGGREGATE_CELLS := 1_000_000
  const MAX_AGGREGATE_WORK_BYTES := 16 * 1024 * 1024
  const MAX_U64 := 0xffff_ffff_ffff_ffff
  const MAX_I128 := 0x7fff_ffff_ffff_ffff_ffff_ffff_ffff_ffff

  function Start(kind: Kind): Accumulator {
    match kind
    case CountRows | CountOf => Counter(0)
    case SumOf => Summer(0, false)
    case FloatSumOf => FloatSummer([], false)
    case AverageOf => Averager([], 0)
    case MinimumOf | MaximumOf => Extremum(None)
  }

  /** Whether an accumulator is one of a kind. */
  predicate Matches(kind: Kind, state: Accumulator) {
    match kind
    case CountRows | CountOf => state.Counter?
    case SumOf => state.Summer?
    case FloatSumOf => state.FloatSummer?
    case AverageOf => state.Averager?
    case MinimumOf | MaximumOf => state.Extremum?
  }

  predicate MatchesAll(aggregates: seq<Aggregate>, accumulators: seq<Accumulator>) {
    |accumulators| == |aggregates| &&
    forall i :: 0 <= i < |accumulators| ==> Matches(aggregates[i].kind, accumulators[i])
  }

  /** Whether one text comes before another. */
  predicate Before(a: string, b: string) {
    b != [] && (a == [] || a[0] < b[0] || (a[0] == b[0] && Before(a[1..], b[1..])))
  }

  predicate Less(a: Input, b: Input) {
    || (a.Number? && b.Number? && a.n < b.n)
    || (a.Fraction? && b.Fraction? && a.f < b.f)
    || (a.Letters? && b.Letters? && Before(a.text, b.text))
  }

  /** Whether an input replaces the selected minimum or maximum. */
  predicate Replaces(kind: Kind, incoming: Input, selected: Option<Input>) {
    selected.None? || if kind == MinimumOf then Less(incoming, selected.value) else Less(selected.value, incoming)
  }

  /** One input more, unless a count or a sum overflows. */
  function Taken(kind: Kind, state: Accumulator, input: Input): Option<Accumulator> {
    if input.Missing? && kind != CountRows then Some(state)
    else match state
      case Counter(count) => if count + 1 > MAX_U64 then None else Some(Counter(count + 1))
      case Summer(sum, _) =>
        var next := sum + if input.Number? then input.n else 0;
        if -MAX_I128 - 1 <= next <= MAX_I128 then Some(Summer(next, true)) else None
      case FloatSummer(terms, _) => Some(FloatSummer(terms + [input], true))
      case Averager(terms, count) => if count + 1 > MAX_U64 then None else Some(Averager(terms + [input], count + 1))
      case Extremum(selected) => Some(Extremum(if Replaces(kind, input, selected) then Some(input) else selected))
  }

  function InputBytes(input: Input): nat {
    if input.Letters? then 24 + Utf8Length(input.text) else 16
  }

  function GroupedBytes(value: Grouped): nat {
    if value.Text? then 24 + Utf8Length(value.text) else 16
  }

  function AccumulatorBytes(aggregate: Aggregate, state: Accumulator): nat {
    96 + (if aggregate.kind == CountRows then 0 else 2 * aggregate.name) +
    (if state.Extremum? && state.selected.Some? then 2 * InputBytes(state.selected.value) else 0)
  }

  /** What a row will leave of an accumulator's bytes, before it is taken. */
  function AccumulatorBytesAfter(aggregate: Aggregate, state: Accumulator, input: Input): int {
    var bytes := AccumulatorBytes(aggregate, state);
    if !state.Extremum? || input.Missing? || !Replaces(aggregate.kind, input, state.selected) then bytes
    else bytes - (if state.selected.Some? then 2 * InputBytes(state.selected.value) else 0) + 2 * InputBytes(input)
  }

  /** A group's values as it shows them, and its accumulators. */
  datatype State = State(shown: seq<Grouped>, accumulators: seq<Accumulator>)

  function Shown(columns: seq<Column>, shown: seq<Grouped>): nat
    decreases |columns|
  {
    if columns == [] || shown == [] then 0
    else 96 + 2 * columns[0].name + 2 * GroupedBytes(shown[0]) + Shown(columns[1..], shown[1..])
  }

  /** The values a row's group shows, each looked up by its column. */
  function Selected(columns: seq<Column>, values: seq<Grouped>): (shown: seq<Grouped>)
    ensures |shown| == |columns|
  {
    seq(|columns|, i requires 0 <= i < |columns| =>
      if columns[i].place < |values| then values[columns[i].place] else Null)
  }

  function Sum(aggregates: seq<Aggregate>, accumulators: seq<Accumulator>): nat
    requires |accumulators| == |aggregates|
    decreases |accumulators|
  {
    if accumulators == [] then 0
    else AccumulatorBytes(aggregates[0], accumulators[0]) + Sum(aggregates[1..], accumulators[1..])
  }

  function SumAfter(aggregates: seq<Aggregate>, accumulators: seq<Accumulator>, inputs: seq<Input>): int
    requires |accumulators| == |aggregates| == |inputs|
    decreases |accumulators|
  {
    if accumulators == [] then 0
    else AccumulatorBytesAfter(aggregates[0], accumulators[0], inputs[0]) +
         SumAfter(aggregates[1..], accumulators[1..], inputs[1..])
  }

  function Bytes(plan: Plan, state: State): nat
    requires |state.accumulators| == |plan.aggregates|
  {
    Shown(plan.shown, state.shown) + Sum(plan.aggregates, state.accumulators)
  }

  function BytesAfter(plan: Plan, state: State, row: Row): int
    requires |state.accumulators| == |plan.aggregates| == |row.inputs|
  {
    Shown(plan.shown, state.shown) + SumAfter(plan.aggregates, state.accumulators, row.inputs)
  }

  /** Each accumulator with its input. */
  function TakenAll(aggregates: seq<Aggregate>, accumulators: seq<Accumulator>, inputs: seq<Input>):
    (after: Option<seq<Accumulator>>)
    requires |accumulators| == |aggregates| == |inputs|
    ensures after.Some? ==> |after.value| == |aggregates|
    decreases |accumulators|
  {
    if accumulators == [] then Some([])
    else match Taken(aggregates[0].kind, accumulators[0], inputs[0])
      case None => None
      case Some(first) => match TakenAll(aggregates[1..], accumulators[1..], inputs[1..])
        case None => None
        case Some(rest) => Some([first] + rest)
  }

  function New(plan: Plan, row: Row): (state: State)
    ensures MatchesAll(plan.aggregates, state.accumulators)
  {
    State(Selected(plan.shown, row.values),
          seq(|plan.aggregates|, i requires 0 <= i < |plan.aggregates| => Start(plan.aggregates[i].kind)))
  }

  function Updated(plan: Plan, state: State, row: Row): (after: Option<State>)
    requires |state.accumulators| == |plan.aggregates| == |row.inputs|
    ensures after.Some? ==> |after.value.accumulators| == |plan.aggregates|
  {
    match TakenAll(plan.aggregates, state.accumulators, row.inputs)
    case None => None
    case Some(accumulators) => Some(state.(accumulators := accumulators))
  }

  /** The bytes a row is charged for before it is taken are those its group then has. */
  lemma {:induction false} SumTaken(aggregates: seq<Aggregate>, accumulators: seq<Accumulator>, inputs: seq<Input>)
    requires MatchesAll(aggregates, accumulators) && |aggregates| == |inputs|
    ensures var after := TakenAll(aggregates, accumulators, inputs);
            after.Some? ==>
              MatchesAll(aggregates, after.value) &&
              SumAfter(aggregates, accumulators, inputs) == Sum(aggregates, after.value)
    decreases |accumulators|
  {
    if accumulators != [] {
      SumTaken(aggregates[1..], accumulators[1..], inputs[1..]);
      var after := TakenAll(aggregates, accumulators, inputs);
      if after.Some? {
        assert after.value[1..] == TakenAll(aggregates[1..], accumulators[1..], inputs[1..]).value;
        OneTaken(aggregates[0], accumulators[0], inputs[0]);
      }
    }
  }

  lemma OneTaken(aggregate: Aggregate, state: Accumulator, input: Input)
    ensures var after := Taken(aggregate.kind, state, input);
            after.Some? && Matches(aggregate.kind, state) ==>
              && Matches(aggregate.kind, after.value)
              && AccumulatorBytesAfter(aggregate, state, input) == AccumulatorBytes(aggregate, after.value)
  {
  }

  lemma BytesUpdated(plan: Plan, state: State, row: Row)
    requires MatchesAll(plan.aggregates, state.accumulators) && |plan.aggregates| == |row.inputs|
    ensures var after := Updated(plan, state, row);
            after.Some? ==>
              MatchesAll(plan.aggregates, after.value.accumulators) &&
              BytesAfter(plan, state, row) == Bytes(plan, after.value)
  {
    SumTaken(plan.aggregates, state.accumulators, row.inputs);
  }

  /** Where no accumulator is an extremum, no row changes the bytes: they are settled. */
  lemma {:induction false} Settled(aggregates: seq<Aggregate>, accumulators: seq<Accumulator>, inputs: seq<Input>)
    requires |accumulators| == |aggregates| == |inputs|
    requires forall accumulator :: accumulator in accumulators ==> !accumulator.Extremum?
    ensures SumAfter(aggregates, accumulators, inputs) == Sum(aggregates, accumulators)
    decreases |accumulators|
  {
    if accumulators != [] {
      Settled(aggregates[1..], accumulators[1..], inputs[1..]);
    }
  }
}

/** How rows fall into groups: found by hash, or as a plain search and a sorted map would have them (aggregate.rs). */
module Grouping {
  import opened GroupKeys
  import opened GroupStates

  datatype Group = Group(values: seq<Grouped>, key: string, state: State)

  predicate Fits(plan: Plan, group: Group) {
    MatchesAll(plan.aggregates, group.state.accumulators)
  }

  function Charge(plan: Plan, group: Group): nat
    requires Fits(plan, group)
  {
    256 + 2 * Utf8Length(group.key) + Bytes(plan, group.state)
  }

  /** The bytes that all groups are charged for. */
  function Total(plan: Plan, groups: seq<Group>): nat
    requires forall group :: group in groups ==> Fits(plan, group)
  {
    if groups == [] then 0 else Charge(plan, groups[0]) + Total(plan, groups[1..])
  }

  /** Where a plain search finds the group with some values. */
  function Place(groups: seq<Group>, values: seq<Grouped>): (place: Option<nat>)
    ensures match place
            case Some(i) => i < |groups| && groups[i].values == values
            case None => forall i :: 0 <= i < |groups| ==> groups[i].values != values
  {
    if groups == [] then None
    else if groups[0].values == values then Some(0)
    else match Place(groups[1..], values)
      case Some(i) => Some(i + 1)
      case None =>
        assert forall i :: 0 < i < |groups| ==> groups[i] == groups[1..][i - 1];
        None
  }

  /** The bytes that encoding a row's key may take for a while. */
  function KeyInput(names: seq<nat>, values: seq<Grouped>): nat
    decreases |names|
  {
    if names == [] || values == [] then 32
    else 16 + 2 * names[0] + 14 * GroupedBytes(values[0]) + KeyInput(names[1..], values[1..])
  }

  /** The groups after one row more, by a plain search; or None where a bound is passed or a count or sum overflows. */
  function Added(plan: Plan, groups: seq<Group>, row: Row): (after: Option<seq<Group>>)
    requires (forall group :: group in groups ==> Fits(plan, group)) && |row.inputs| == |plan.aggregates|
    ensures after.Some? ==> forall group :: group in after.value ==> Fits(plan, group)
  {
    var place := Place(groups, row.values);
    if place.None? && (|groups| >= MAX_GROUPS || (|groups| + 1) * |plan.aggregates| > MAX_AGGREGATE_CELLS ||
                       KeyInput(plan.grouped, row.values) > MAX_AGGREGATE_WORK_BYTES)
    then None
    else
      var group := if place.Some? then groups[place.value] else Group(row.values, Key(row.values), New(plan, row));
      assert Fits(plan, group);
      match Updated(plan, group.state, row)
      case None => None
      case Some(state) =>
        BytesUpdated(plan, group.state, row);
        var next := if place.Some? then groups[place.value := group.(state := state)]
                    else groups + [group.(state := state)];
        if Total(plan, next) > MAX_AGGREGATE_WORK_BYTES then None else Some(next)
  }

  /** The groups of some rows, by a plain search for each. */
  function Groups(plan: Plan, rows: seq<Row>): (groups: Option<seq<Group>>)
    requires forall row :: row in rows ==> |row.inputs| == |plan.aggregates|
    ensures groups.Some? ==> forall group :: group in groups.value ==> Fits(plan, group)
  {
    if rows == [] then Some([])
    else match Groups(plan, rows[..|rows| - 1])
      case None => None
      case Some(groups) => Added(plan, groups, rows[|rows| - 1])
  }

  /** The rows with some values. */
  function Where(rows: seq<Row>, values: seq<Grouped>): seq<Row> {
    if rows == [] then []
    else Where(rows[..|rows| - 1], values) + if rows[|rows| - 1].values == values then [rows[|rows| - 1]] else []
  }

  /** What a group's state is by itself: the updates of its rows, in turn. */
  function StateOf(plan: Plan, rows: seq<Row>): (state: Option<State>)
    requires rows != [] && forall row :: row in rows ==> |row.inputs| == |plan.aggregates|
    ensures state.Some? ==> |state.value.accumulators| == |plan.aggregates|
  {
    var last := rows[|rows| - 1];
    if |rows| == 1 then Updated(plan, New(plan, last), last)
    else match StateOf(plan, rows[..|rows| - 1])
      case None => None
      case Some(state) => Updated(plan, state, last)
  }

  /** One group for each row's values, keyed by their encoding, each with the state of exactly its rows, in their order.
      */
  ghost predicate Exactly(plan: Plan, rows: seq<Row>, groups: seq<Group>)
    requires forall row :: row in rows ==> |row.inputs| == |plan.aggregates|
  {
    && (forall i, j :: 0 <= i < j < |groups| ==> groups[i].values != groups[j].values && groups[i].key != groups[j].key)
    && (forall row :: row in rows ==> Place(groups, row.values).Some?)
    && (forall i :: 0 <= i < |groups| ==> GroupOf(plan, rows, groups[i]))
  }

  ghost predicate GroupOf(plan: Plan, rows: seq<Row>, group: Group)
    requires forall row :: row in rows ==> |row.inputs| == |plan.aggregates|
  {
    var own := Where(rows, group.values);
    WhereRows(rows, group.values);
    group.key == Key(group.values) && own != [] && StateOf(plan, own) == Some(group.state)
  }

  lemma {:induction false} WhereRows(rows: seq<Row>, values: seq<Grouped>)
    ensures forall row :: row in Where(rows, values) <==> row in rows && row.values == values
  {
    if rows != [] {
      WhereRows(rows[..|rows| - 1], values);
      assert rows == rows[..|rows| - 1] + [rows[|rows| - 1]];
    }
  }

  lemma PlaceOf(groups: seq<Group>, i: nat)
    requires i < |groups|
    ensures forall values :: groups[i].values == values ==> Place(groups, values).Some?
  {
  }

  /** The plain search keeps a group for each row's values. */
  lemma {:induction false} GroupsExactly(plan: Plan, rows: seq<Row>)
    requires forall row :: row in rows ==> |row.inputs| == |plan.aggregates|
    ensures Groups(plan, rows).Some? ==> Exactly(plan, rows, Groups(plan, rows).value)
  {
    if rows != [] && Groups(plan, rows).Some? {
      var before, last := rows[..|rows| - 1], rows[|rows| - 1];
      GroupsExactly(plan, before);
      AddedExactly(plan, before, last, Groups(plan, before).value);
      assert before + [last] == rows;
    }
  }

  lemma WhereNext(rows: seq<Row>, last: Row, values: seq<Grouped>)
    ensures Where(rows + [last], values) == Where(rows, values) + if last.values == values then [last] else []
  {
    assert (rows + [last])[..|rows|] == rows;
  }

  lemma StateNext(plan: Plan, rows: seq<Row>, last: Row)
    requires forall row :: row in rows + [last] ==> |row.inputs| == |plan.aggregates|
    requires rows == [] || StateOf(plan, rows).Some?
    ensures StateOf(plan, rows + [last]) ==
            Updated(plan, if rows == [] then New(plan, last) else StateOf(plan, rows).value, last)
  {
    assert (rows + [last])[..|rows|] == rows;
  }

  /** What one row leaves of the groups: all as they were, but for its own. */
  ghost predicate Grows(plan: Plan, groups: seq<Group>, row: Row, next: seq<Group>, p: nat)
    requires (forall group :: group in groups ==> Fits(plan, group)) && |row.inputs| == |plan.aggregates|
  {
    && p <= |groups| && |next| == (if p == |groups| then |groups| + 1 else |groups|)
    && (forall i :: 0 <= i < |groups| && i != p ==> next[i] == groups[i])
    && next[p].values == row.values
    && (p < |groups| ==> groups[p].values == row.values && next[p].key == groups[p].key)
    && (p == |groups| ==>
          next[p].key == Key(row.values) && forall i :: 0 <= i < |groups| ==> groups[i].values != row.values)
    && (assert p < |groups| ==> groups[p] in groups && Fits(plan, groups[p]);
        Updated(plan, if p < |groups| then groups[p].state else New(plan, row), row) == Some(next[p].state))
  }

  lemma AddedGrows(plan: Plan, groups: seq<Group>, row: Row) returns (p: nat)
    requires (forall group :: group in groups ==> Fits(plan, group)) && |row.inputs| == |plan.aggregates|
    requires Added(plan, groups, row).Some?
    ensures Grows(plan, groups, row, Added(plan, groups, row).value, p)
  {
    hide Updated, New, Key, Total, Fits;
    var place := Place(groups, row.values);
    p := if place.Some? then place.value else |groups|;
  }

  lemma AddedExactly(plan: Plan, rows: seq<Row>, last: Row, groups: seq<Group>)
    requires forall row :: row in rows + [last] ==> |row.inputs| == |plan.aggregates|
    requires (forall group :: group in groups ==> Fits(plan, group)) && Exactly(plan, rows, groups)
    ensures Added(plan, groups, last).Some? ==> Exactly(plan, rows + [last], Added(plan, groups, last).value)
  {
    hide Added, Fits, Updated, New, Key, GroupOf, Place;
    if Added(plan, groups, last).Some? {
      var next := Added(plan, groups, last).value;
      var p := AddedGrows(plan, groups, last);
      forall i | 0 <= i < |next| ensures GroupOf(plan, rows + [last], next[i]) {
        GroupNext(plan, rows, last, groups, next, p, i);
      }
      forall i, j | 0 <= i < j < |next| ensures next[i].values != next[j].values && next[i].key != next[j].key {
        KeyedApart(plan, rows + [last], next[i], next[j]);
      }
      forall row | row in rows + [last] ensures Place(next, row.values).Some? {
        if row in rows {
          PlaceOf(next, Place(groups, row.values).value);
        } else {
          PlaceOf(next, p);
        }
      }
    }
  }

  lemma KeyedApart(plan: Plan, rows: seq<Row>, a: Group, b: Group)
    requires forall row :: row in rows ==> |row.inputs| == |plan.aggregates|
    requires GroupOf(plan, rows, a) && GroupOf(plan, rows, b) && a.values != b.values
    ensures a.key != b.key
  {
    KeyOnce(a.values, b.values);
  }

  lemma GroupNext(plan: Plan, rows: seq<Row>, last: Row, groups: seq<Group>, next: seq<Group>, p: nat, i: nat)
    requires forall row :: row in rows + [last] ==> |row.inputs| == |plan.aggregates|
    requires (forall group :: group in groups ==> Fits(plan, group)) && Exactly(plan, rows, groups)
    requires Grows(plan, groups, last, next, p) && i < |next|
    ensures GroupOf(plan, rows + [last], next[i])
  {
    hide Fits, Updated, New, Key, Place, StateOf, GroupOf, Where;
    if i < |groups| && i != p {
      NotLast(plan, rows, last, groups, next, p, i);
      KeptGroup(plan, rows, last, groups[i]);
    } else if i < |groups| {
      TakenGroup(plan, rows, last, groups[i], next[i]);
    } else {
      NoneBefore(plan, rows, groups, last.values);
      BegunGroup(plan, rows, last, next[i]);
    }
  }

  lemma KeptGroup(plan: Plan, rows: seq<Row>, last: Row, group: Group)
    requires forall row :: row in rows + [last] ==> |row.inputs| == |plan.aggregates|
    requires GroupOf(plan, rows, group) && group.values != last.values
    ensures GroupOf(plan, rows + [last], group)
  {
    hide StateOf, Key;
    WhereNext(rows, last, group.values);
    assert Where(rows, group.values) + [] == Where(rows, group.values);
  }

  lemma TakenGroup(plan: Plan, rows: seq<Row>, last: Row, group: Group, next: Group)
    requires forall row :: row in rows + [last] ==> |row.inputs| == |plan.aggregates|
    requires GroupOf(plan, rows, group) && group.values == next.values == last.values && group.key == next.key
    requires Fits(plan, group) && Updated(plan, group.state, last) == Some(next.state)
    ensures GroupOf(plan, rows + [last], next)
  {
    hide StateOf, Key, Updated;
    WhereNext(rows, last, group.values);
    WhereRows(rows, group.values);
    StateNext(plan, Where(rows, group.values), last);
  }

  lemma BegunGroup(plan: Plan, rows: seq<Row>, last: Row, next: Group)
    requires forall row :: row in rows + [last] ==> |row.inputs| == |plan.aggregates|
    requires Where(rows, last.values) == [] && next.values == last.values && next.key == Key(last.values)
    requires Updated(plan, New(plan, last), last) == Some(next.state)
    ensures GroupOf(plan, rows + [last], next)
  {
    hide StateOf, Key, Updated;
    WhereNext(rows, last, last.values);
    StateNext(plan, [], last);
    assert [] + [last] == [last];
  }

  lemma NotLast(plan: Plan, rows: seq<Row>, last: Row, groups: seq<Group>, next: seq<Group>, p: nat, i: nat)
    requires forall row :: row in rows + [last] ==> |row.inputs| == |plan.aggregates|
    requires (forall group :: group in groups ==> Fits(plan, group)) && Exactly(plan, rows, groups)
    requires Grows(plan, groups, last, next, p) && i < |groups| && i != p
    ensures next[i].values != last.values
  {
  }

  lemma NoneBefore(plan: Plan, rows: seq<Row>, groups: seq<Group>, values: seq<Grouped>)
    requires forall row :: row in rows ==> |row.inputs| == |plan.aggregates|
    requires Exactly(plan, rows, groups) && forall i :: 0 <= i < |groups| ==> groups[i].values != values
    ensures Where(rows, values) == []
  {
    hide GroupOf, StateOf, Place;
    WhereNone(rows, values);
  }

  lemma {:induction false} WhereNone(rows: seq<Row>, values: seq<Grouped>)
    requires forall row :: row in rows ==> row.values != values
    ensures Where(rows, values) == []
  {
    if rows != [] {
      assert rows[|rows| - 1] in rows;
      WhereNone(rows[..|rows| - 1], values);
    }
  }

  /** What an accumulator has seen: the inputs of a group's rows, in turn. */
  function Over(kind: Kind, inputs: seq<Input>): Option<Accumulator> {
    if inputs == [] then Some(Start(kind))
    else match Over(kind, inputs[..|inputs| - 1])
      case None => None
      case Some(state) => Taken(kind, state, inputs[|inputs| - 1])
  }

  /** The inputs of one aggregate. */
  function InputsOf(rows: seq<Row>, i: nat): seq<Input>
    requires forall row :: row in rows ==> i < |row.inputs|
  {
    seq(|rows|, k requires 0 <= k < |rows| => rows[k].inputs[i])
  }

  lemma {:induction false} TakenAt(aggregates: seq<Aggregate>, accumulators: seq<Accumulator>, inputs: seq<Input>,
                                   i: nat)
    requires |accumulators| == |aggregates| == |inputs| && i < |inputs| &&
             TakenAll(aggregates, accumulators, inputs).Some?
    ensures Taken(aggregates[i].kind, accumulators[i], inputs[i]) ==
            Some(TakenAll(aggregates, accumulators, inputs).value[i])
    decreases |accumulators|
  {
    if i > 0 {
      TakenAt(aggregates[1..], accumulators[1..], inputs[1..], i - 1);
    }
  }

  /** A state shows what it began with, and holds of each aggregate what its own inputs, in turn, come to. */
  lemma {:induction false} StateParts(plan: Plan, rows: seq<Row>, i: nat)
    requires rows != [] && forall row :: row in rows ==> |row.inputs| == |plan.aggregates|
    requires StateOf(plan, rows).Some?
    ensures StateOf(plan, rows).value.shown == New(plan, rows[0]).shown
    ensures i < |plan.aggregates| ==>
              Over(plan.aggregates[i].kind, InputsOf(rows, i)) == Some(StateOf(plan, rows).value.accumulators[i])
  {
    hide Taken, Selected;
    var before, last := rows[..|rows| - 1], rows[|rows| - 1];
    var was := if |rows| == 1 then New(plan, last) else StateOf(plan, before).value;
    if |rows| > 1 {
      StateParts(plan, before, i);
    }
    if i < |plan.aggregates| {
      TakenAt(plan.aggregates, was.accumulators, last.inputs, i);
      assert InputsOf(rows, i)[..|rows| - 1] == InputsOf(before, i);
      assert |rows| == 1 ==> InputsOf(before, i) == [];
    }
  }

  /** A group shows the value of each column that is asked for, and each of its aggregates is over exactly its own input
      in the group's rows. */
  lemma GroupShows(plan: Plan, rows: seq<Row>, group: Group, i: nat)
    requires forall row :: row in rows ==> |row.inputs| == |plan.aggregates|
    requires GroupOf(plan, rows, group)
    ensures |group.state.shown| == |plan.shown|
    ensures i < |plan.shown| && plan.shown[i].place < |group.values| ==>
              group.state.shown[i] == group.values[plan.shown[i].place]
    ensures i < |plan.aggregates| ==>
              && |group.state.accumulators| == |plan.aggregates|
              && (WhereRows(rows, group.values);
                  Over(plan.aggregates[i].kind, InputsOf(Where(rows, group.values), i)) ==
                  Some(group.state.accumulators[i]))
  {
    hide StateOf, Key;
    WhereRows(rows, group.values);
    var own := Where(rows, group.values);
    assert own[0] in own;
    StateParts(plan, own, i);
  }

  function Present(inputs: seq<Input>): nat {
    if inputs == [] then 0 else Present(inputs[..|inputs| - 1]) + if inputs[|inputs| - 1].Missing? then 0 else 1
  }

  function Summed(inputs: seq<Input>): int {
    if inputs == [] then 0
    else Summed(inputs[..|inputs| - 1]) + if inputs[|inputs| - 1].Number? then inputs[|inputs| - 1].n else 0
  }

  /** The inputs that are there. */
  function Terms(inputs: seq<Input>): seq<Input> {
    if inputs == [] then []
    else Terms(inputs[..|inputs| - 1]) + if inputs[|inputs| - 1].Missing? then [] else [inputs[|inputs| - 1]]
  }

  /** Counts are of the inputs that are there, or of the rows; a sum of integers is of the numbers, if any input is
      there, and a sum of floats, or an average's, is of the inputs that are there, in their order. */
  lemma {:induction false} CountsAndSums(kind: Kind, inputs: seq<Input>)
    requires Over(kind, inputs).Some?
    ensures match Over(kind, inputs).value
            case Counter(count) => count == if kind == CountRows then |inputs| else Present(inputs)
            case Summer(sum, seen) => sum == Summed(inputs) && (seen <==> Present(inputs) > 0)
            case FloatSummer(terms, seen) => terms == Terms(inputs) && (seen <==> Present(inputs) > 0)
            case Averager(terms, count) => terms == Terms(inputs) && count == Present(inputs)
            case Extremum(_) => true
    ensures Matches(kind, Over(kind, inputs).value)
  {
    if inputs != [] {
      CountsAndSums(kind, inputs[..|inputs| - 1]);
    }
  }

  lemma {:induction false} BeforeAsymmetric(a: string, b: string)
    ensures !(Before(a, b) && Before(b, a))
  {
    if a != [] && b != [] && a[0] == b[0] {
      BeforeAsymmetric(a[1..], b[1..]);
    }
  }

  lemma {:induction false} BeforeTotal(a: string, b: string)
    ensures a == b || Before(a, b) || Before(b, a)
  {
    if a != [] && b != [] && a[0] == b[0] {
      BeforeTotal(a[1..], b[1..]);
      assert a == [a[0]] + a[1..] && b == [b[0]] + b[1..];
    }
  }

  lemma {:induction false} BeforeTransitive(a: string, b: string, c: string)
    requires Before(a, b) && Before(b, c)
    ensures Before(a, c)
  {
    if a != [] && a[0] == b[0] && b[0] == c[0] {
      BeforeTransitive(a[1..], b[1..], c[1..]);
    }
  }

  lemma NotLessTransitive(a: Input, b: Input, c: Input)
    requires !Less(b, a) && !Less(c, b) && (a.Number? == b.Number? == c.Number?) &&
             (a.Letters? == b.Letters? == c.Letters?) && (a.Fraction? == b.Fraction? == c.Fraction?)
    ensures !Less(c, a)
  {
    if a.Letters? {
      BeforeTotal(a.text, b.text);
      BeforeTotal(b.text, c.text);
      BeforeAsymmetric(a.text, c.text);
      if Before(a.text, b.text) && Before(b.text, c.text) {
        BeforeTransitive(a.text, b.text, c.text);
      }
    }
  }

  /** Inputs of one column: all integers, all texts, or all floats. */
  predicate OneType(inputs: seq<Input>) {
    forall a, b :: a in inputs && b in inputs && !a.Missing? && !b.Missing? ==>
      (a.Number? <==> b.Number?) && (a.Letters? <==> b.Letters?)
  }

  /** The selected minimum or maximum is an input that is there, and no other is less, or greater. */
  lemma {:induction false} ExtremumBest(kind: Kind, inputs: seq<Input>)
    requires kind in {MinimumOf, MaximumOf} && OneType(inputs)
    ensures Over(kind, inputs).Some? && Over(kind, inputs).value.Extremum?
    ensures match Over(kind, inputs).value.selected
            case None => Present(inputs) == 0
            case Some(best) =>
              && best in inputs && !best.Missing?
              && forall input :: input in inputs && !input.Missing? ==>
                   if kind == MinimumOf then !Less(input, best) else !Less(best, input)
  {
    if inputs != [] {
      var before, last := inputs[..|inputs| - 1], inputs[|inputs| - 1];
      assert inputs == before + [last];
      ExtremumBest(kind, before);
      var was, now := Over(kind, before).value.selected, Over(kind, inputs).value.selected;
      if now.Some? {
        forall input | input in inputs && !input.Missing?
          ensures if kind == MinimumOf then !Less(input, now.value) else !Less(now.value, input)
        {
          PresentNone(before);
          Best(kind, was, last, input, now.value);
        }
      } else {
        assert last.Missing?;
      }
    }
  }

  lemma {:induction false} PresentNone(inputs: seq<Input>)
    ensures Present(inputs) == 0 ==> forall input :: input in inputs ==> input.Missing?
  {
    if inputs != [] {
      var before, last := inputs[..|inputs| - 1], inputs[|inputs| - 1];
      assert inputs == before + [last];
      PresentNone(before);
    }
  }

  lemma Best(kind: Kind, was: Option<Input>, last: Input, input: Input, now: Input)
    requires kind in {MinimumOf, MaximumOf} && !input.Missing?
    requires Some(now) == (if !last.Missing? && Replaces(kind, last, was) then Some(last) else was)
    requires input == last ||
             (was.Some? && if kind == MinimumOf then !Less(input, was.value) else !Less(was.value, input))
    requires was.Some? && !last.Missing? ==>
               (input.Number? == was.value.Number? == last.Number?) &&
               (input.Letters? == was.value.Letters? == last.Letters?) &&
               (input.Fraction? == was.value.Fraction? == last.Fraction?)
    ensures if kind == MinimumOf then !Less(input, now) else !Less(now, input)
  {
    if was.Some? && !last.Missing? && Replaces(kind, last, was) {
      if last.Letters? {
        BeforeAsymmetric(last.text, was.value.text);
        BeforeAsymmetric(last.text, last.text);
      }
      if input != last {
        if kind == MinimumOf {
          NotLessTransitive(last, was.value, input);
        } else {
          NotLessTransitive(input, was.value, last);
        }
      }
    } else if input == last && last.Letters? {
      BeforeAsymmetric(last.text, last.text);
    }
  }
}

/** The groups as a query keeps them: in a vector, and found by a hash of their values (aggregate.rs). */
module HashGrouping {
  import opened GroupKeys
  import opened GroupStates
  import opened Grouping

  predicate Indexed(index: map<nat, seq<nat>>, h: nat, i: nat) {
    h in index && i in index[h]
  }

  class HashGroups {
    const hash: seq<Grouped> -> nat
    var entries: seq<Group>
    /** Each group's position, by the hash of its values. */
    var index: map<nat, seq<nat>>

    /** The index lists each entry once at most under each hash, and under its own; other values may share one. */
    ghost predicate Valid()
      reads this
    {
      && (forall h, i :: h in index && i in index[h] ==> i < |entries|)
      && (forall i :: 0 <= i < |entries| ==> Indexed(index, hash(entries[i].values), i))
    }

    constructor (hash: seq<Grouped> -> nat)
      ensures Valid() && this.hash == hash && entries == []
    {
      this.hash, entries, index := hash, [], map[];
    }

    /** The group of some values, wherever others share its hash. */
    method Find(values: seq<Grouped>) returns (found: Option<nat>)
      requires Valid()
      ensures match found
              case Some(i) => i < |entries| && entries[i].values == values
              case None => forall i :: 0 <= i < |entries| ==> entries[i].values != values
    {
      var h := hash(values);
      if h !in index {
        return None;
      }
      var candidates := index[h];
      assert forall j :: 0 <= j < |candidates| ==> candidates[j] in index[h];
      for k := 0 to |candidates|
        invariant forall j :: 0 <= j < |candidates| ==> candidates[j] < |entries|
        invariant forall j :: 0 <= j < k ==> entries[candidates[j]].values != values
      {
        if entries[candidates[k]].values == values {
          return Some(candidates[k]);
        }
      }
      return None;
    }

    method Insert(group: Group)
      requires Valid()
      modifies this
      ensures Valid() && entries == old(entries) + [group]
    {
      ghost var was, before := entries, index;
      var h := hash(group.values);
      index := index[h := (if h in index then index[h] else []) + [|entries|]];
      entries := entries + [group];
      forall i | 0 <= i < |entries| ensures Indexed(index, hash(entries[i].values), i) {
        if i < |was| {
          assert entries[i] == was[i] && Indexed(before, hash(was[i].values), i);
        }
      }
    }

    method SetState(i: nat, state: State)
      requires Valid() && i < |entries|
      modifies this`entries
      ensures Valid() && entries == old(entries)[i := old(entries)[i].(state := state)]
    {
      ghost var was := entries;
      entries := entries[i := entries[i].(state := state)];
      forall j | 0 <= j < |entries| ensures Indexed(index, hash(entries[j].values), j) {
        assert entries[j].values == was[j].values && Indexed(index, hash(was[j].values), j);
      }
    }
  }

  lemma {:induction false} TotalAppend(plan: Plan, groups: seq<Group>, group: Group)
    requires (forall g :: g in groups ==> Fits(plan, g)) && Fits(plan, group)
    ensures Total(plan, groups + [group]) == Total(plan, groups) + Charge(plan, group)
  {
    if groups == [] {
      assert groups + [group] == [group];
    } else {
      TotalAppend(plan, groups[1..], group);
      assert (groups + [group])[1..] == groups[1..] + [group];
    }
  }

  lemma {:induction false} TotalUpdate(plan: Plan, groups: seq<Group>, i: nat, group: Group)
    requires (forall g :: g in groups ==> Fits(plan, g)) && Fits(plan, group) && i < |groups|
    requires forall g :: g in groups[i := group] ==> Fits(plan, g)
    ensures Total(plan, groups[i := group]) == Total(plan, groups) - Charge(plan, groups[i]) + Charge(plan, group)
  {
    var next := groups[i := group];
    if i == 0 {
      assert next[1..] == groups[1..];
    } else {
      assert next[1..] == groups[1..][i - 1 := group];
      TotalUpdate(plan, groups[1..], i - 1, group);
    }
  }

  /** A plain search finds the one entry with some values, as the hash does. */
  lemma SamePlace(groups: seq<Group>, values: seq<Grouped>, found: Option<nat>)
    requires forall i, j :: 0 <= i < j < |groups| ==> groups[i].values != groups[j].values
    requires match found
             case Some(i) => i < |groups| && groups[i].values == values
             case None => forall i :: 0 <= i < |groups| ==> groups[i].values != values
    ensures Place(groups, values) == found
  {
  }

  /** Groups rows, keeping count of the bytes charged for them as each row is taken. */
  method Collect(plan: Plan, rows: seq<Row>, hash: seq<Grouped> -> nat)
    returns (ok: bool, groups: seq<Group>, working: nat)
    requires forall row :: row in rows ==> |row.inputs| == |plan.aggregates|
    ensures ok == Groups(plan, rows).Some?
    ensures ok ==> groups == Groups(plan, rows).value && working == Total(plan, groups) <= MAX_AGGREGATE_WORK_BYTES
  {
    var found := new HashGroups(hash);
    working := 0;
    assert rows[..0] == [];
    for n := 0 to |rows|
      invariant found.Valid() && Groups(plan, rows[..n]) == Some(found.entries)
      invariant working == Total(plan, found.entries) <= MAX_AGGREGATE_WORK_BYTES
    {
      var row := rows[n];
      assert rows[..n + 1][..n] == rows[..n] && rows[..n + 1][n] == row;
      GroupsExactly(plan, rows[..n]);
      ok, working := Take(plan, found, row, working);
      if !ok {
        FailsAll(plan, rows, n + 1);
        return false, [], 0;
      }
    }
    assert rows[..|rows|] == rows;
    return true, found.entries, working;
  }

  lemma {:induction false} FailsAll(plan: Plan, rows: seq<Row>, n: nat)
    requires forall row :: row in rows ==> |row.inputs| == |plan.aggregates|
    requires n <= |rows| && Groups(plan, rows[..n]).None?
    ensures Groups(plan, rows).None?
    decreases |rows|
  {
    if n < |rows| {
      var before := rows[..|rows| - 1];
      assert before[..n] == rows[..n];
      FailsAll(plan, before, n);
    } else {
      assert rows[..n] == rows;
    }
  }

  lemma SettledBytes(plan: Plan, state: State, row: Row)
    requires |state.accumulators| == |plan.aggregates| == |row.inputs|
    requires forall accumulator :: accumulator in state.accumulators ==> !accumulator.Extremum?
    ensures BytesAfter(plan, state, row) == Bytes(plan, state)
  {
    Settled(plan.aggregates, state.accumulators, row.inputs);
  }

  /** One row: a group's state takes it, or it begins a group. */
  method Take(plan: Plan, found: HashGroups, row: Row, working: nat) returns (ok: bool, total: nat)
    requires found.Valid() && |row.inputs| == |plan.aggregates|
    requires (forall group :: group in found.entries ==> Fits(plan, group)) && working == Total(plan, found.entries)
    requires working <= MAX_AGGREGATE_WORK_BYTES
    requires forall i, j :: 0 <= i < j < |found.entries| ==> found.entries[i].values != found.entries[j].values
    modifies found
    ensures ok == Added(plan, old(found.entries), row).Some?
    ensures ok ==> found.Valid() && found.entries == Added(plan, old(found.entries), row).value
    ensures ok ==> total == Total(plan, found.entries) <= MAX_AGGREGATE_WORK_BYTES
  {
    hide Updated, New, Key, KeyInput, Bytes, BytesAfter;
    var entries := found.entries;
    var place := found.Find(row.values);
    SamePlace(entries, row.values, place);
    if place.Some? {
      var i := place.value;
      var group := entries[i];
      assert group in entries && Fits(plan, group);
      var settled := forall accumulator :: accumulator in group.state.accumulators ==> !accumulator.Extremum?;
      var state := Updated(plan, group.state, row);
      if state.None? {
        return false, 0;
      }
      BytesUpdated(plan, group.state, row);
      var next := group.(state := state.value);
      TotalUpdate(plan, entries, i, next);
      if settled {
        // No row changes the bytes of a state without an extremum.
        SettledBytes(plan, group.state, row);
        total := working;
      } else {
        total := working - Bytes(plan, group.state) + BytesAfter(plan, group.state, row);
        if total > MAX_AGGREGATE_WORK_BYTES {
          return false, 0;
        }
      }
      found.SetState(i, state.value);
      return true, total;
    }
    if |entries| >= MAX_GROUPS || (|entries| + 1) * |plan.aggregates| > MAX_AGGREGATE_CELLS ||
       KeyInput(plan.grouped, row.values) > MAX_AGGREGATE_WORK_BYTES
    {
      return false, 0;
    }
    var key, initial := Key(row.values), New(plan, row);
    var state := Updated(plan, initial, row);
    if state.None? {
      return false, 0;
    }
    BytesUpdated(plan, initial, row);
    var group := Group(row.values, key, state.value);
    TotalAppend(plan, entries, group);
    total := working + 256 + 2 * Utf8Length(key) + BytesAfter(plan, initial, row);
    if total > MAX_AGGREGATE_WORK_BYTES {
      return false, 0;
    }
    found.Insert(group);
    return true, total;
  }

  /** In the order of their keys, as a sorted map would have them. */
  ghost predicate Ordered(groups: seq<Group>) {
    forall i, j :: 0 <= i < j < |groups| ==> Before(groups[i].key, groups[j].key)
  }

  /** There is one such order. */
  lemma {:induction false} OrderedOnce(a: seq<Group>, b: seq<Group>)
    requires Ordered(a) && Ordered(b) && forall group :: group in a <==> group in b
    ensures a == b
  {
    SameEmpty(a, b);
    if a != [] {
      var x, y := a[0], b[0];
      assert x in b && y in a;
      if x != y {
        var i :| 0 <= i < |b| && b[i] == x;
        var j :| 0 <= j < |a| && a[j] == y;
        BeforeAsymmetric(x.key, y.key);
      }
      assert x == y;
      forall group | group in a[1..] ensures group in b[1..] {
        RestMember(a, b, group);
      }
      forall group | group in b[1..] ensures group in a[1..] {
        RestMember(b, a, group);
      }
      OrderedOnce(a[1..], b[1..]);
    }
  }

  lemma SameEmpty(a: seq<Group>, b: seq<Group>)
    requires forall group :: group in a <==> group in b
    ensures a == [] <==> b == []
  {
    if a != [] {
      assert a[0] in a;
    }
    if b != [] {
      assert b[0] in b;
    }
  }

  lemma RestMember(a: seq<Group>, b: seq<Group>, group: Group)
    requires Ordered(a) && a != [] && b != [] && a[0] == b[0] && group in a[1..] && group in b
    ensures group in b[1..]
  {
    var i :| 0 <= i < |a[1..]| && a[1..][i] == group;
    assert a[i + 1] == group;
    BeforeAsymmetric(a[0].key, group.key);
    var j :| 0 <= j < |b| && b[j] == group;
    if j > 0 {
      assert b[1..][j - 1] == group;
    }
  }

  /** The groups in the order of their keys. */
  method Sort(groups: seq<Group>) returns (sorted: seq<Group>)
    requires forall i, j :: 0 <= i < j < |groups| ==> groups[i].key != groups[j].key
    ensures Ordered(sorted) && multiset(sorted) == multiset(groups)
  {
    sorted := [];
    for n := 0 to |groups|
      invariant Ordered(sorted) && multiset(sorted) == multiset(groups[..n])
    {
      assert groups[..n + 1] == groups[..n] + [groups[n]];
      forall group | group in sorted ensures group.key != groups[n].key {
        assert group in multiset(sorted);
        assert group in groups[..n];
      }
      sorted := InsertSorted(sorted, groups[n]);
    }
    assert groups[..|groups|] == groups;
  }

  lemma InsertedOrdered(sorted: seq<Group>, group: Group, i: nat)
    requires Ordered(sorted) && i <= |sorted| && forall j :: 0 <= j < i ==> Before(sorted[j].key, group.key)
    requires forall j :: i <= j < |sorted| ==> Before(group.key, sorted[j].key)
    ensures Ordered(sorted[..i] + [group] + sorted[i..])
    ensures multiset(sorted[..i] + [group] + sorted[i..]) == multiset(sorted) + multiset{group}
  {
    hide Before;
    var more := sorted[..i] + [group] + sorted[i..];
    assert sorted == sorted[..i] + sorted[i..];
    forall j, k | 0 <= j < k < |more| ensures Before(more[j].key, more[k].key) {
      assert j > i ==> more[j] == sorted[j - 1];
      assert k > i ==> more[k] == sorted[k - 1];
    }
  }

  method InsertSorted(sorted: seq<Group>, group: Group) returns (more: seq<Group>)
    requires Ordered(sorted) && forall g :: g in sorted ==> g.key != group.key
    ensures Ordered(more) && multiset(more) == multiset(sorted) + multiset{group}
  {
    hide Before;
    var i := 0;
    while i < |sorted| && Before(sorted[i].key, group.key)
      invariant i <= |sorted| && forall j :: 0 <= j < i ==> Before(sorted[j].key, group.key)
    {
      i := i + 1;
    }
    forall j | i <= j < |sorted| ensures Before(group.key, sorted[j].key) {
      assert sorted[i] in sorted;
      BeforeTotal(group.key, sorted[i].key);
      if i < j {
        BeforeTransitive(group.key, sorted[i].key, sorted[j].key);
      }
    }
    InsertedOrdered(sorted, group, i);
    more := sorted[..i] + [group] + sorted[i..];
  }

  /** A grouped query's groups, in order: exactly those of a plain search, whatever the hash. */
  method Execute(plan: Plan, rows: seq<Row>, hash: seq<Grouped> -> nat) returns (ok: bool, groups: seq<Group>)
    requires forall row :: row in rows ==> |row.inputs| == |plan.aggregates|
    ensures ok == Groups(plan, rows).Some?
    ensures ok ==> Ordered(groups) && multiset(groups) == multiset(Groups(plan, rows).value)
  {
    var working;
    ok, groups, working := Collect(plan, rows, hash);
    if ok {
      GroupsExactly(plan, rows);
      groups := Sort(groups);
    }
  }
}
