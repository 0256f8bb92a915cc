/** What a request is charged: each container once, and each slot, key and value where it stands (request-size.ts). */
module RequestCharges {
  datatype Option<+T> = None | Some(value: T)

  /** `Foreign` is a value of no kind that a request may hold, or one behind a getter. An object is known by its place.
      */
  datatype Value = Undefined | Scalar | Text(length: nat) | Foreign | Object(at: nat)

  /** An array's slots, which may be empty, and named properties. A record is one with no slots. */
  datatype Container = Container(slots: seq<Option<Value>>, named: seq<(nat, Value)>)

  type Graph = seq<Container>

  const MAX_SAFE_INTEGER := 9007199254740991

  datatype Entry = Slot(value: Value) | Named(length: nat, value: Value)

  function Slots(slots: seq<Option<Value>>): seq<Entry> {
    if slots == [] then []
    else (if slots[0].Some? then [Slot(slots[0].value)] else []) + Slots(slots[1..])
  }

  function Names(named: seq<(nat, Value)>): (r: seq<Entry>)
    ensures |r| == |named| && forall i :: 0 <= i < |r| ==> r[i] == Named(named[i].0, named[i].1)
  {
    if named == [] then [] else [Named(named[0].0, named[0].1)] + Names(named[1..])
  }

  /** A container's own properties, in the order their keys are listed. */
  function Entries(c: Container): seq<Entry> {
    Slots(c.slots) + Names(c.named)
  }

  /** What a value is charged where it stands. An object is charged for itself. */
  function Inline(v: Value): nat {
    match v
    case Undefined => 8
    case Scalar => 8
    case Text(length) => 16 + length * 2
    case Foreign => 0
    case Object(_) => 0
  }

  function EntryCharge(e: Entry): nat {
    match e
    case Slot(value) => Inline(value)
    case Named(length, value) => 24 + length * 2 + Inline(value)
  }

  function Charges(entries: seq<Entry>): nat {
    if entries == [] then 0 else EntryCharge(entries[0]) + Charges(entries[1..])
  }

  function Cost(c: Container): nat {
    32 + |c.slots| * 8 + Charges(Entries(c))
  }

  predicate Holds(c: Container, v: Value) {
    exists i :: 0 <= i < |Entries(c)| && Entries(c)[i].value == v
  }

  /** Every object mentioned is in the graph. */
  ghost predicate Closed(g: Graph, root: Value) {
    && (root.Object? ==> root.at < |g|)
    && forall a: nat, b: nat :: a < |g| && Holds(g[a], Object(b)) ==> b < |g|
  }

  ghost predicate Path(g: Graph, root: Value, path: seq<nat>) {
    && path != [] && root == Object(path[0])
    && (forall i :: 0 <= i < |path| ==> path[i] < |g|)
    && forall i :: 0 <= i < |path| - 1 ==> Linked(g, path[i], path[i + 1])
  }

  ghost predicate Linked(g: Graph, a: nat, b: nat) {
    a < |g| && Holds(g[a], Object(b))
  }

  ghost predicate Reaches(g: Graph, root: Value, a: nat) {
    exists path :: Path(g, root, path) && path[|path| - 1] == a
  }

  ghost function Reach(g: Graph, root: Value): set<nat> {
    set a: nat | a < |g| && Reaches(g, root, a)
  }

  ghost predicate Follows(g: Graph, s: set<nat>) {
    forall a, b :: a in s && Linked(g, a, b) ==> b in s
  }

  lemma ReachStart(g: Graph, root: Value)
    requires root.Object? && root.at < |g|
    ensures root.at in Reach(g, root)
  {
    assert Path(g, root, [root.at]) && [root.at][|[root.at]| - 1] == root.at;
  }

  lemma ReachStep(g: Graph, root: Value, a: nat, b: nat)
    requires a in Reach(g, root) && Linked(g, a, b) && b < |g|
    ensures b in Reach(g, root)
  {
    var path :| Path(g, root, path) && path[|path| - 1] == a;
    var longer := path + [b];
    assert forall i :: 0 <= i < |longer| - 1 ==> Linked(g, longer[i], longer[i + 1]);
    assert Path(g, root, longer) && longer[|longer| - 1] == b;
  }

  /** What is reached is the least set that holds the root and follows every link. */
  lemma ReachLeast(g: Graph, root: Value, s: set<nat>)
    requires root.Object? ==> root.at in s
    requires Follows(g, s)
    ensures Reach(g, root) <= s
  {
    forall a | a in Reach(g, root) ensures a in s {
      var path :| Path(g, root, path) && path[|path| - 1] == a;
      PathStays(g, root, path, s, |path| - 1);
    }
  }

  lemma {:induction false} PathStays(g: Graph, root: Value, path: seq<nat>, s: set<nat>, i: nat)
    requires Path(g, root, path) && root.at in s && i < |path|
    requires Follows(g, s)
    ensures path[i] in s
  {
    if i > 0 {
      PathStays(g, root, path, s, i - 1);
      assert Linked(g, path[i - 1], path[(i - 1) + 1]);
    }
  }

  /** What the containers of a set are charged, among the first `n`. */
  function Sum(g: Graph, s: set<nat>, n: nat): nat
    requires n <= |g|
  {
    if n == 0 then 0 else Sum(g, s, n - 1) + (if n - 1 in s then Cost(g[n - 1]) else 0)
  }

  lemma {:induction false} SumAdd(g: Graph, s: set<nat>, a: nat, n: nat)
    requires n <= |g| && a < |g| && a !in s
    ensures Sum(g, s + {a}, n) == Sum(g, s, n) + (if a < n then Cost(g[a]) else 0)
  {
    if n > 0 {
      SumAdd(g, s, a, n - 1);
    }
  }

  lemma {:induction false} SumWithin(g: Graph, s: set<nat>, t: set<nat>, n: nat)
    requires n <= |g| && s <= t
    ensures Sum(g, s, n) <= Sum(g, t, n)
  {
    if n > 0 {
      SumWithin(g, s, t, n - 1);
    }
  }

  lemma {:induction false} SumNone(g: Graph, n: nat)
    requires n <= |g|
    ensures Sum(g, {}, n) == 0
  {
    if n > 0 {
      SumNone(g, n - 1);
    }
  }

  function Cap(amount: nat, limit: nat): nat {
    if amount > limit then limit + 1 else amount
  }

  ghost predicate HoldsForeign(g: Graph, root: Value) {
    root == Foreign || exists a :: a in Reach(g, root) && Holds(g[a], Foreign)
  }

  ghost function Total(g: Graph, root: Value): nat {
    Inline(root) + Sum(g, Reach(g, root), |g|)
  }

  /** The charge of a value: all it reaches, each container once, but no more than just over the limit. */
  ghost function Estimate(g: Graph, root: Value, limit: nat): nat {
    if HoldsForeign(g, root) then limit + 1 else Cap(Total(g, root), limit)
  }

  /** A set that a walk ended with is all that is reached. */
  lemma AllReached(g: Graph, root: Value, s: set<nat>)
    requires s <= Reach(g, root) && (root.Object? ==> root.at in s)
    requires Follows(g, s)
    ensures s == Reach(g, root)
  {
    ReachLeast(g, root, s);
  }

  lemma {:induction false} ChargesFrom(entries: seq<Entry>, k: nat)
    requires k < |entries|
    ensures Charges(entries[k..]) == EntryCharge(entries[k]) + Charges(entries[k + 1..])
  {
    assert entries[k..][1..] == entries[k + 1..];
  }

  lemma {:induction false} DenseSlots(slots: seq<Option<Value>>)
    requires forall i :: 0 <= i < |slots| ==> slots[i].Some?
    ensures |Slots(slots)| == |slots| && forall i :: 0 <= i < |slots| ==> Slots(slots)[i] == Slot(slots[i].value)
  {
    if slots != [] {
      DenseSlots(slots[1..]);
      assert forall i :: 0 < i < |slots| ==> slots[i] == slots[1..][i - 1];
    }
  }

  datatype Key = Index(i: nat) | Name(length: nat)

  /** The indexes of an array's filled slots, from one of them on. */
  function Indexes(slots: seq<Option<Value>>, from: nat): seq<Key>
    requires from <= |slots|
    decreases |slots| - from
  {
    if from == |slots| then []
    else (if slots[from].Some? then [Index(from)] else []) + Indexes(slots, from + 1)
  }

  function Keys(c: Container): seq<Key> {
    Indexes(c.slots, 0) + seq(|c.named|, i requires 0 <= i < |c.named| => Name(c.named[i].0))
  }

  predicate Dense(slots: seq<Option<Value>>) {
    forall i :: 0 <= i < |slots| ==> slots[i].Some?
  }

  /** The indexes come first, so an array's slots are all filled exactly when the key at its last slot's place is that
      slot's. */
  lemma DenseKeys(c: Container)
    requires c.slots != []
    ensures |c.slots| <= |Keys(c)| && Keys(c)[|c.slots| - 1] == Index(|c.slots| - 1) <==> Dense(c.slots)
  {
    IndexesRise(c.slots, 0);
  }

  lemma {:induction false} IndexesRise(slots: seq<Option<Value>>, from: nat)
    requires from <= |slots|
    ensures |Indexes(slots, from)| <= |slots| - from
    ensures |Indexes(slots, from)| == |slots| - from <==> forall i :: from <= i < |slots| ==> slots[i].Some?
    ensures |Indexes(slots, from)| == |slots| - from ==>
              forall i :: 0 <= i < |slots| - from ==> Indexes(slots, from)[i] == Index(from + i)
    decreases |slots| - from
  {
    if from < |slots| {
      IndexesRise(slots, from + 1);
    }
  }
}

/** The estimator that walks a stack, for anything a page may send. */
module RequestEstimators {
  import opened RequestCharges

  /** What the containers of a stack are still to be charged. */
  function Owing(g: Graph, stack: seq<nat>): nat {
    if stack == [] then 0
    else
      var last := stack[|stack| - 1];
      Owing(g, stack[..|stack| - 1]) + (if last < |g| then Cost(g[last]) - 32 else 0)
  }

  lemma {:induction false} BoundedSize(s: set<nat>, n: nat)
    requires forall a :: a in s ==> a < n
    ensures |s| <= n
  {
    if n > 0 {
      BoundedSize(s - {n - 1}, n - 1);
      assert s <= (s - {n - 1}) + {n - 1};
    } else {
      assert s == {};
    }
  }

  /** Everything a container holds was seen, and none of it is foreign. */
  ghost predicate Walked(g: Graph, a: nat, upTo: nat, seen: set<nat>) {
    && a < |g| && upTo <= |Entries(g[a])|
    && forall i :: 0 <= i < upTo ==> Met(Entries(g[a])[i].value, seen)
  }

  ghost predicate Done(g: Graph, a: nat, seen: set<nat>) {
    a < |g| && Walked(g, a, |Entries(g[a])|, seen)
  }

  /** What was seen is done, except what the stack still holds, and the container being walked. */
  ghost predicate Behind(g: Graph, stack: seq<nat>, seen: set<nat>, walking: set<nat>) {
    && (forall i :: 0 <= i < |stack| ==> stack[i] < |g| && stack[i] in seen && stack[i] !in walking)
    && (forall i, j :: 0 <= i < j < |stack| ==> stack[i] != stack[j])
    && forall a :: a in seen && a !in stack && a !in walking ==> Done(g, a, seen)
  }

  lemma WalkedMore(g: Graph, a: nat, upTo: nat, seen: set<nat>, more: set<nat>)
    requires Walked(g, a, upTo, seen) && seen <= more
    ensures Walked(g, a, upTo, more)
  {
    forall i | 0 <= i < upTo ensures Met(Entries(g[a])[i].value, more) {
      assert Met(Entries(g[a])[i].value, seen);
    }
  }

  lemma BehindMore(g: Graph, stack: seq<nat>, seen: set<nat>, walking: set<nat>, at: nat)
    requires Behind(g, stack, seen, walking) && at !in seen && at < |g| && walking <= seen
    ensures Behind(g, stack + [at], seen + {at}, walking)
  {
    var longer := stack + [at];
    forall a | a in seen + {at} && a !in longer && a !in walking ensures Done(g, a, seen + {at}) {
      assert longer[|stack|] == at && forall i :: 0 <= i < |stack| ==> longer[i] == stack[i];
      assert a != at && a !in stack;
      assert Done(g, a, seen);
      WalkedMore(g, a, |Entries(g[a])|, seen, seen + {at});
    }
  }

  predicate Met(v: Value, seen: set<nat>) {
    v != Foreign && (v.Object? ==> v.at in seen)
  }

  lemma AllWalked(g: Graph, root: Value, seen: set<nat>)
    requires Closed(g, root) && seen <= Reach(g, root) && Met(root, seen)
    requires forall a :: a in seen ==> Done(g, a, seen)
    ensures seen == Reach(g, root) && !HoldsForeign(g, root)
  {
    forall a, b | a in seen && Linked(g, a, b) ensures b in seen {
      var i :| 0 <= i < |Entries(g[a])| && Entries(g[a])[i].value == Object(b);
      assert Met(Entries(g[a])[i].value, seen);
    }
    AllReached(g, root, seen);
    forall a, i | a in seen && 0 <= i < |Entries(g[a])| ensures Entries(g[a])[i].value != Foreign {
      assert Walked(g, a, |Entries(g[a])|, seen);
      assert Met(Entries(g[a])[i].value, seen);
    }
  }

  /** A charge that is over the limit, of some of what is reached, is the whole's too. */
  lemma OverIsOver(g: Graph, root: Value, seen: set<nat>, charged: nat, owed: nat, limit: nat)
    requires seen <= Reach(g, root) && charged + owed == Inline(root) + Sum(g, seen, |g|) && charged > limit
    ensures Estimate(g, root, limit) == limit + 1
  {
    SumWithin(g, seen, Reach(g, root), |g|);
  }

  lemma NextReached(g: Graph, root: Value, seen: set<nat>, next: Value)
    requires Closed(g, root) && seen <= Reach(g, root) && next.Object?
    requires next == root || exists a :: a in seen && Holds(g[a], next)
    ensures next.at < |g| && next.at in Reach(g, root)
  {
    if next == root {
      ReachStart(g, root);
    } else {
      var a :| a in seen && Holds(g[a], next);
      ReachStep(g, root, a, next.at);
    }
  }

  class Estimator {
    const g: Graph
    const root: Value
    const limit: nat
    var bytes: nat
    var seen: set<nat>
    var pending: seq<nat>
    /** The exact charge so far, what is still owed for the containers seen, and whether a foreign value was met. */
    ghost var charged: nat
    ghost var owed: nat
    ghost var foreign: bool

    ghost predicate Valid()
      reads this
    {
      && Closed(g, root) && seen <= Reach(g, root)
      && bytes == (if foreign then limit + 1 else Cap(charged, limit)) && bytes <= limit + 1
      && charged + owed == Inline(root) + Sum(g, seen, |g|)
      && (foreign ==> HoldsForeign(g, root))
      && (forall i :: 0 <= i < |pending| ==> pending[i] in seen)
    }

    constructor (g: Graph, root: Value, limit: nat)
      requires Closed(g, root)
      ensures Valid() && this.g == g && this.root == root && this.limit == limit
      ensures bytes == 0 && seen == {} && pending == [] && owed == Inline(root) && !foreign
    {
      this.g, this.root, this.limit := g, root, limit;
      bytes, seen, pending := 0, {}, [];
      charged, owed, foreign := 0, Inline(root), false;
      SumNone(g, |g|);
    }

    method Add(amount: nat)
      requires Valid() && amount <= owed
      modifies this`bytes, this`charged, this`owed
      ensures Valid() && owed == old(owed) - amount
      ensures bytes >= old(bytes)
    {
      bytes := if amount > limit - bytes then limit + 1 else bytes + amount;
      charged, owed := charged + amount, owed - amount;
    }

    /** Meets a value: charges it, and keeps a container not seen before for later. */
    method Visit(next: Value, ghost rest: nat)
      requires Valid() && owed == Inline(next) + rest
      requires next == root || exists a :: a in seen && Holds(g[a], next)
      modifies this
      ensures Valid() && bytes >= old(bytes) && old(seen) <= seen
      ensures bytes <= limit ==>
                && Met(next, seen)
                && (if next.Object? && next.at !in old(seen)
                    then seen == old(seen) + {next.at} && pending == old(pending) + [next.at] &&
                         owed == rest + Cost(g[next.at]) - 32
                    else seen == old(seen) && pending == old(pending) && owed == rest)
    {
      if bytes > limit {
        return;
      }
      match next
      case Undefined => Add(8);
      case Scalar => Add(8);
      case Text(length) => Add(16 + length * 2);
      case Object(at) =>
        if at in seen {
          return;
        }
        NextReached(g, root, seen, next);
        SumAdd(g, seen, at, |g|);
        seen := seen + {at};
        owed := owed + Cost(g[at]);
        Add(32);
        if bytes <= limit {
          pending := pending + [at];
        }
      case Foreign =>
        ForeignMet(next);
        bytes := limit + 1;
        foreign := true;
    }

    lemma ForeignMet(next: Value)
      requires Valid() && next == Foreign && (next == root || exists a :: a in seen && Holds(g[a], next))
      ensures HoldsForeign(g, root)
    {
      if next != root {
        var a :| a in seen && Holds(g[a], next);
        assert a in Reach(g, root);
      }
    }

    /** Meets the next of a container's own properties. */
    method Step(current: nat, k: nat)
      requires Valid() && bytes <= limit && current in seen && k < |Entries(g[current])|
      requires Behind(g, pending, seen, {current}) && Walked(g, current, k, seen)
      requires owed == Owing(g, pending) + Charges(Entries(g[current])[k..])
      modifies this
      ensures Valid() && old(seen) <= seen && bytes >= old(bytes)
      ensures bytes <= limit ==>
                && Behind(g, pending, seen, {current}) && Walked(g, current, k + 1, seen)
                && owed == Owing(g, pending) + Charges(Entries(g[current])[k + 1..])
                && |pending| - |seen| == |old(pending)| - |old(seen)|
    {
      hide Behind, Walked, Owing;
      var entry := Entries(g[current])[k];
      ChargesFrom(Entries(g[current]), k);
      assert Holds(g[current], entry.value);
      if entry.Named? {
        Add(24 + entry.length * 2);
        if bytes > limit {
          return;
        }
      }
      ghost var stack, before, rest := pending, seen, Owing(g, pending) + Charges(Entries(g[current])[k + 1..]);
      Visit(entry.value, rest);
      if bytes <= limit {
        if pending != stack {
          BehindMore(g, stack, before, {current}, entry.value.at);
          OwingMore(g, stack, entry.value.at);
        }
        WalkedNext(g, current, k, before, seen);
      }
    }

    /** Walks one container's own properties. */
    method Walk(current: nat)
      requires Valid() && bytes <= limit && current in seen && current < |g| && Behind(g, pending, seen, {current})
      requires owed == Owing(g, pending) + Cost(g[current]) - 32
      modifies this
      ensures Valid() && old(seen) <= seen && bytes >= old(bytes)
      ensures bytes <= limit ==>
                && Behind(g, pending, seen, {}) && owed == Owing(g, pending)
                && |pending| - |seen| == |old(pending)| - |old(seen)|
    {
      hide Behind, Owing, Walked, Estimator.Valid;
      var c := g[current];
      if c.slots != [] {
        // Charge capacity before walking: sparse arrays occupy slots too.
        Add(|c.slots| * 8);
        if bytes > limit {
          return;
        }
      }
      var entries := Entries(c);
      assert entries[0..] == entries;
      NoneWalked(g, current, seen);
      for k := 0 to |entries|
        invariant Valid() && old(bytes) <= bytes <= limit && current in seen && old(seen) <= seen
        invariant Behind(g, pending, seen, {current}) && Walked(g, current, k, seen)
        invariant owed == Owing(g, pending) + Charges(entries[k..])
        invariant |pending| - |seen| == |old(pending)| - |old(seen)|
      {
        Step(current, k);
        if bytes > limit {
          return;
        }
      }
      AllBehind(g, pending, seen, current);
    }

    /** The whole walk. */
    method Run() returns (result: nat)
      requires Valid() && bytes == 0 && seen == {} && pending == [] && owed == Inline(root) && !foreign
      modifies this
      ensures result == Estimate(g, root, limit)
    {
      hide Behind, Owing, Estimator.Valid, Met;
      Visit(root, 0);
      if bytes <= limit {
        FirstBehind(g, root, pending, seen);
      }
      while pending != [] && bytes <= limit
        invariant Valid()
        invariant bytes <= limit ==> Behind(g, pending, seen, {}) && owed == Owing(g, pending) && Met(root, seen)
        decreases limit + 1 - bytes, |g| - |seen| + |pending|
      {
        Turn();
      }
      if bytes <= limit {
        AllDone();
      } else {
        AllOver();
      }
      return bytes;
    }

    /** Takes a container from the stack, and walks it. */
    method Turn()
      requires Valid() && bytes <= limit && pending != []
      requires Behind(g, pending, seen, {}) && owed == Owing(g, pending) && Met(root, seen)
      modifies this
      ensures Valid() && bytes >= old(bytes)
      ensures bytes <= limit ==> Behind(g, pending, seen, {}) && owed == Owing(g, pending) && Met(root, seen)
      ensures bytes <= limit ==> 0 <= |g| - |seen| + |pending| < |g| - |old(seen)| + |old(pending)|
    {
      hide Behind, Owing, Walked;
      var current := pending[|pending| - 1];
      BehindPopped(g, pending, seen);
      pending := pending[..|pending| - 1];
      Walk(current);
      BoundedSize(seen, |g|);
    }

    lemma AllDone()
      requires Valid() && bytes <= limit && pending == [] && Behind(g, pending, seen, {}) && owed == Owing(g, pending)
      requires Met(root, seen)
      ensures bytes == Estimate(g, root, limit)
    {
      AllWalked(g, root, seen);
    }

    lemma AllOver()
      requires Valid() && bytes > limit
      ensures bytes == Estimate(g, root, limit)
    {
      if !foreign {
        OverIsOver(g, root, seen, charged, owed, limit);
      }
    }
  }

  lemma FirstBehind(g: Graph, root: Value, stack: seq<nat>, seen: set<nat>)
    requires Closed(g, root) &&
             if root.Object? then seen == {root.at} && stack == [root.at] else seen == {} && stack == []
    ensures Behind(g, stack, seen, {})
    ensures Owing(g, stack) == if root.Object? then Cost(g[root.at]) - 32 else 0
  {
  }

  lemma OwingMore(g: Graph, stack: seq<nat>, at: nat)
    requires at < |g|
    ensures Owing(g, stack + [at]) == Owing(g, stack) + Cost(g[at]) - 32
  {
    assert (stack + [at])[..|stack|] == stack;
  }

  lemma WalkedNext(g: Graph, a: nat, k: nat, before: set<nat>, seen: set<nat>)
    requires Walked(g, a, k, before) && before <= seen && k < |Entries(g[a])| && Met(Entries(g[a])[k].value, seen)
    ensures Walked(g, a, k + 1, seen)
  {
    WalkedMore(g, a, k, before, seen);
  }

  lemma NoneWalked(g: Graph, a: nat, seen: set<nat>)
    requires a < |g|
    ensures Walked(g, a, 0, seen)
  {
  }

  lemma AllBehind(g: Graph, stack: seq<nat>, seen: set<nat>, current: nat)
    requires Behind(g, stack, seen, {current}) && current < |g| && Walked(g, current, |Entries(g[current])|, seen)
    ensures Behind(g, stack, seen, {})
  {
  }

  lemma BehindPopped(g: Graph, stack: seq<nat>, seen: set<nat>)
    requires Behind(g, stack, seen, {}) && stack != []
    ensures var last, rest := stack[|stack| - 1], stack[..|stack| - 1];
            last in seen && last < |g| && Behind(g, rest, seen, {last}) &&
            Owing(g, stack) == Owing(g, rest) + Cost(g[last]) - 32
  {
    var last, rest := stack[|stack| - 1], stack[..|stack| - 1];
    forall a | a in seen && a !in rest && a != last ensures Done(g, a, seen) {
      assert a !in stack;
    }
  }

  /** The estimate of anything, as the stack finds it. A limit that is no safe size is refused. */
  method RequestBytes(g: Graph, root: Value, limit: int) returns (result: Option<nat>)
    requires Closed(g, root)
    ensures result == if 0 <= limit < MAX_SAFE_INTEGER then Some(Estimate(g, root, limit)) else None
  {
    if limit < 0 || limit >= MAX_SAFE_INTEGER {
      return None;
    }
    var estimator := new Estimator(g, root, limit);
    var bytes := estimator.Run();
    return Some(bytes);
  }
}

/** The estimators for what a protocol check has accepted, which recur, and read a statement where it lies. */
module CheckedEstimators {
  import opened RequestCharges
  import opened RequestEstimators

  function Elements(s: seq<nat>): (r: set<nat>)
    ensures forall a :: a in r <==> a in s
  {
    set a | a in s
  }

  class Checked {
    const g: Graph
    const root: Value
    const limit: nat
    var bytes: nat
    var seen: seq<nat>
    var unchecked: bool
    ghost var charged: nat
    ghost var owed: nat

    ghost predicate Valid()
      reads this
    {
      && Closed(g, root) && Elements(seen) <= Reach(g, root) && |seen| <= 64
      && bytes == Cap(charged, limit)
      && charged + owed == Inline(root) + Sum(g, Elements(seen), |g|)
    }

    predicate Stopped()
      reads this
    {
      bytes > limit || unchecked
    }

    constructor (g: Graph, root: Value, limit: nat)
      requires Closed(g, root)
      ensures Valid() && this.g == g && this.root == root && this.limit == limit
      ensures bytes == 0 && seen == [] && !unchecked && owed == Inline(root)
    {
      this.g, this.root, this.limit := g, root, limit;
      bytes, seen, unchecked := 0, [], false;
      charged, owed := 0, Inline(root);
      SumNone(g, |g|);
      assert Elements([]) == {};
    }

    method Add(amount: nat)
      requires Valid() && amount <= owed
      modifies this`bytes, this`charged, this`owed
      ensures Valid() && owed == old(owed) - amount && bytes >= old(bytes)
    {
      bytes := if amount > limit - bytes then limit + 1 else bytes + amount;
      charged, owed := charged + amount, owed - amount;
    }

    method Uncheck()
      requires Valid()
      modifies this`unchecked
      ensures Valid() && unchecked
    {
      unchecked := true;
    }

    /** Lists a container not seen before, which is then owed its cost. */
    method See(at: nat)
      requires Valid() && at !in seen && |seen| < 64
      requires Object(at) == root || exists a :: a in seen && Holds(g[a], Object(at))
      modifies this`seen, this`owed
      ensures Valid() && seen == old(seen) + [at] && at < |g| && owed == old(owed) + Cost(g[at])
    {
      hide Sum, Cost, Inline, Closed;
      NextReached(g, root, Elements(seen), Object(at));
      SumAdd(g, Elements(seen), at, |g|);
      assert Elements(seen + [at]) == Elements(seen) + {at};
      seen := seen + [at];
      owed := owed + Cost(g[at]);
    }

    /** What a visit leaves, unless it stops: the value met, and each container newly seen done. */
    ghost predicate Visited(next: Value, before: seq<nat>, rest: nat)
      reads this
    {
      && Met(next, Elements(seen)) && owed == rest
      && forall a :: a in seen && a !in before ==> Done(g, a, Elements(seen))
    }

    method Visit(next: Value, ghost rest: nat)
      requires Valid() && owed == Inline(next) + rest
      requires next == root || exists a :: a in seen && Holds(g[a], next)
      modifies this
      ensures Valid() && bytes >= old(bytes) && old(seen) <= seen
      ensures !Stopped() ==> Visited(next, old(seen), rest)
      decreases 64 - |seen|, 0
    {
      hide Sum, Reach, Closed;
      if Stopped() {
        return;
      }
      match next
      case Undefined => Add(8);
      case Scalar => Add(8);
      case Text(length) => Add(16 + length * 2);
      case Foreign => unchecked := true;
      case Object(at) =>
        if |seen| == 64 {
          unchecked := true;
        } else if at !in seen {
          See(at);
          Parts(at, rest, seen[..|seen| - 1]);
        }
    }

    /** Charges a container newly seen, and visits what it holds. */
    method Parts(at: nat, ghost rest: nat, ghost before: seq<nat>)
      requires Valid() && !Stopped() && at < |g| && seen == before + [at] && at !in before && owed == rest + Cost(g[at])
      modifies this
      ensures Valid() && bytes >= old(bytes) && old(seen) <= seen
      ensures !Stopped() ==> Visited(Object(at), before, rest)
      decreases 64 - |seen|, 2
    {
      hide Valid, Closed, Sum, Reach, Walked;
      var c := g[at];
      Add(32);
      Add(|c.slots| * 8);
      var keys := Keys(c);
      if c.slots != [] {
        DenseKeys(c);
        if |keys| < |c.slots| || keys[|c.slots| - 1] != Index(|c.slots| - 1) {
          Uncheck();
          return;
        }
      }
      DenseSlots(c.slots);
      ghost var entries := Entries(c);
      assert entries[0..] == entries;
      NoneWalked(g, at, Elements(seen));
      for k := 0 to |c.slots| + |c.named|
        invariant Valid() && bytes >= old(bytes) && old(seen) <= seen
        invariant !Stopped() ==> Progress(at, k, rest, before)
      {
        if Stopped() {
          return;
        }
        Part(at, k, rest, before);
      }
      if !Stopped() {
        assert Done(g, at, Elements(seen));
      }
    }

    /** How far a container's parts have been visited. */
    ghost predicate Progress(at: nat, k: nat, rest: nat, before: seq<nat>)
      requires at < |g| && k <= |Entries(g[at])|
      reads this
    {
      && at in seen && Walked(g, at, k, Elements(seen)) && owed == rest + Charges(Entries(g[at])[k..])
      && forall a :: a in seen && a !in before && a != at ==> Done(g, a, Elements(seen))
    }

    method Part(at: nat, k: nat, ghost rest: nat, ghost before: seq<nat>)
      requires Valid() && !Stopped() && at < |g| && k < |Entries(g[at])| && Dense(g[at].slots)
      requires Progress(at, k, rest, before)
      modifies this
      ensures Valid() && bytes >= old(bytes) && old(seen) <= seen
      ensures !Stopped() ==> Progress(at, k + 1, rest, before)
      decreases 64 - |seen|, 1
    {
      hide Valid, Closed, Sum, Reach, Walked;
      var c := g[at];
      DenseSlots(c.slots);
      ghost var entries, was := Entries(c), seen;
      ChargesFrom(entries, k);
      assert Holds(c, entries[k].value);
      ghost var left := rest + Charges(entries[k + 1..]);
      if k < |c.slots| {
        Visit(c.slots[k].value, left);
      } else {
        var (length, value) := c.named[k - |c.slots|];
        Add(24 + length * 2);
        Visit(value, left);
      }
      if !Stopped() {
        WalkedNext(g, at, k, Elements(was), Elements(seen));
        forall a | a in seen && a !in before && a != at ensures Done(g, a, Elements(seen)) {
          if a in was {
            WalkedMore(g, a, |Entries(g[a])|, Elements(was), Elements(seen));
          }
        }
      }
    }

    lemma Finished()
      requires Valid() && !unchecked && (bytes <= limit ==> Visited(root, [], 0))
      ensures bytes == Estimate(g, root, limit)
    {
      if bytes <= limit {
        AllWalked(g, root, Elements(seen));
      } else {
        OverIsOver(g, root, Elements(seen), charged, owed, limit);
      }
    }
  }

  /** The estimate of what a check has accepted. Whatever stops the recursion is left to the stack. */
  method CheckedRequestBytes(g: Graph, root: Value, limit: int) returns (result: Option<nat>)
    requires Closed(g, root)
    ensures result == if 0 <= limit < MAX_SAFE_INTEGER then Some(Estimate(g, root, limit)) else None
  {
    if limit < 0 || limit >= MAX_SAFE_INTEGER {
      return None;
    }
    var checked := new Checked(g, root, limit);
    checked.Visit(root, 0);
    if checked.unchecked {
      result := RequestBytes(g, root, limit);
    } else {
      checked.Finished();
      result := Some(checked.bytes);
    }
  }
}

/** The charge of a flat statement, which is that of the request object it stands for. */
module StatementCharges {
  import opened RequestCharges
  import opened RequestEstimators
  import opened CheckedEstimators

  datatype Target = Sql(length: nat) | Prepared

  /** `transaction` is the length of the id that names one. */
  datatype Statement = Statement(target: Target, transaction: Option<nat>, arrayRows: bool, params: seq<Value>)

  function Parameters(s: Statement): Container {
    Container(seq(|s.params|, i requires 0 <= i < |s.params| => Some(s.params[i])), [])
  }

  function TargetName(s: Statement): (nat, Value) {
    match s.target
    case Sql(length) => (3, Text(length))
    case Prepared => (11, Scalar)
  }

  /** Keys are `sql` or `statementId`, `params`, and perhaps `transactionId` and `rowMode`, which is `array`. */
  function ParamsObject(s: Statement, at: nat): Container {
    Container([],
      [TargetName(s)]
      + [(6, Object(at))]
      + (if s.transaction.Some? then [(13, Text(s.transaction.value))] else [])
      + (if s.arrayRows then [(7, Text(5))] else []))
  }

  /** Keys are `v`, `id`, `method`, which is `executeSql` or `executePrepared`, and `params`. */
  function RequestObject(s: Statement, at: nat): Container {
    Container([], [(1, Scalar), (2, Scalar), (6, Text(if s.target.Sql? then 10 else 15)), (6, Object(at))])
  }

  /** The request that a statement stands for, over the graph of what its parameters hold. */
  function Whole(g: Graph, s: Statement): Graph {
    g + [Parameters(s), ParamsObject(s, |g|), RequestObject(s, |g| + 1)]
  }

  function Request(g: Graph): Value {
    Object(|g| + 2)
  }

  ghost predicate ParamsClosed(g: Graph, s: Statement) {
    forall i :: 0 <= i < |s.params| ==> Closed(g, s.params[i])
  }

  /** The graph is closed also where a statement has no parameters. */
  ghost predicate Sound(g: Graph, s: Statement) {
    Closed(g, Undefined) && ParamsClosed(g, s)
  }

  function Fixed(s: Statement): nat {
    (match s.target case Sql(length) => 324 + length * 2 case Prepared => 342)
    + (if s.transaction.Some? then 66 + s.transaction.value * 2 else 0)
    + (if s.arrayRows then 64 else 0)
  }

  lemma {:induction false} ChargesConcat(a: seq<Entry>, b: seq<Entry>)
    ensures Charges(a + b) == Charges(a) + Charges(b)
  {
    if a == [] {
      assert a + b == b;
    } else {
      ChargesConcat(a[1..], b);
      assert (a + b)[1..] == a[1..] + b;
    }
  }

  /** What names one property is charged, and holds, what the property is. */
  lemma NamesOne(a: seq<(nat, Value)>, length: nat, value: Value)
    ensures Charges(Names(a + [(length, value)])) == Charges(Names(a)) + 24 + length * 2 + Inline(value)
  {
    assert Names(a + [(length, value)]) == Names(a) + [Named(length, value)];
    ChargesConcat(Names(a), [Named(length, value)]);
    assert [Named(length, value)][1..] == [];
  }

  lemma NamedEntries(named: seq<(nat, Value)>)
    ensures Entries(Container([], named)) == Names(named)
  {
  }

  lemma ParamsObjectCost(s: Statement, at: nat)
    ensures Cost(ParamsObject(s, at)) == 68 + (match s.target case Sql(length) => 46 + length * 2 case Prepared => 54)
      + (if s.transaction.Some? then 66 + s.transaction.value * 2 else 0) + (if s.arrayRows then 64 else 0)
  {
    hide Names, Charges;
    NoNames();
    var one := TargetName(s);
    NamesOne([], one.0, one.1);
    var two := [one] + [(6, Object(at))];
    NamesOne([one], 6, Object(at));
    assert [] + [one] == [one];
    var three := two + if s.transaction.Some? then [(13, Text(s.transaction.value))] else [];
    if s.transaction.Some? {
      NamesOne(two, 13, Text(s.transaction.value));
    } else {
      assert three == two;
    }
    var all := three + if s.arrayRows then [(7, Text(5))] else [];
    if s.arrayRows {
      NamesOne(three, 7, Text(5));
    } else {
      assert all == three;
    }
    assert ParamsObject(s, at) == Container([], all);
    NamedEntries(all);
  }

  lemma NoNames()
    ensures Charges(Names([])) == 0
  {
  }

  lemma RequestObjectCost(s: Statement, at: nat)
    ensures Cost(RequestObject(s, at)) == if s.target.Sql? then 210 else 220
  {
    hide Names, Charges;
    var one := [] + [(1, Scalar)];
    var two := one + [(2, Scalar)];
    var three := two + [(6, Text(if s.target.Sql? then 10 else 15))];
    NoNames();
    NamesOne([], 1, Scalar);
    assert one == [(1, Scalar)];
    NamesOne(one, 2, Scalar);
    NamesOne(two, 6, Text(if s.target.Sql? then 10 else 15));
    NamesOne(three, 6, Object(at));
    assert RequestObject(s, at).named == three + [(6, Object(at))];
    NamedEntries(RequestObject(s, at).named);
  }

  lemma ParametersEntries(s: Statement)
    ensures |Entries(Parameters(s))| == |s.params|
    ensures forall i :: 0 <= i < |s.params| ==> Entries(Parameters(s))[i] == Slot(s.params[i])
  {
    DenseSlots(Parameters(s).slots);
  }

  lemma ParametersHold(s: Statement, v: Value)
    ensures Holds(Parameters(s), v) <==> v in s.params
  {
    ParametersEntries(s);
    if v in s.params {
      var i :| 0 <= i < |s.params| && s.params[i] == v;
      assert Entries(Parameters(s))[i].value == v;
    }
  }

  lemma NamedHolds(named: seq<(nat, Value)>, v: Value)
    ensures Holds(Container([], named), v) <==> exists i :: 0 <= i < |named| && named[i].1 == v
  {
    NamedEntries(named);
    if i :| 0 <= i < |named| && named[i].1 == v {
      assert Entries(Container([], named))[i].value == v;
    }
  }

  lemma ParamsObjectHolds(s: Statement, at: nat, v: Value)
    requires v.Object? || v == Foreign
    ensures Holds(ParamsObject(s, at), v) <==> v == Object(at)
  {
    hide Holds, Entries;
    var named := ParamsObject(s, at).named;
    NamedHolds(named, v);
    assert named[1].1 == Object(at);
    assert forall i :: 0 <= i < |named| && i != 1 ==> named[i].1 == Scalar || named[i].1.Text?;
  }

  lemma RequestObjectHolds(s: Statement, at: nat, v: Value)
    requires v.Object? || v == Foreign
    ensures Holds(RequestObject(s, at), v) <==> v == Object(at)
  {
    hide Holds, Entries;
    NamedHolds(RequestObject(s, at).named, v);
    assert RequestObject(s, at).named[3].1 == Object(at);
  }

  /** The links of the whole: the request to its parameters' object, that to their array, and that to what they hold. */
  lemma WholeLinked(g: Graph, s: Statement, a: nat, b: nat)
    requires Sound(g, s)
    ensures Linked(Whole(g, s), a, b) && a <= |g| ==> b < |g|
    ensures a == |g| ==> (Linked(Whole(g, s), a, b) <==> Object(b) in s.params)
    ensures a == |g| + 1 ==> (Linked(Whole(g, s), a, b) <==> b == |g|)
    ensures a == |g| + 2 ==> (Linked(Whole(g, s), a, b) <==> b == |g| + 1)
  {
    hide Holds, Parameters, ParamsObject, RequestObject;
    ParametersHold(s, Object(b));
    ParamsObjectHolds(s, |g|, Object(b));
    RequestObjectHolds(s, |g| + 1, Object(b));
    var whole := Whole(g, s);
    if a < |g| {
      assert whole[a] == g[a];
    } else if a == |g| && Object(b) in s.params {
      var i :| 0 <= i < |s.params| && s.params[i] == Object(b);
      assert Closed(g, s.params[i]);
    }
  }

  lemma WholeClosed(g: Graph, s: Statement)
    requires Sound(g, s)
    ensures Closed(Whole(g, s), Request(g)) && Closed(Whole(g, s), Object(|g|))
  {
    var whole := Whole(g, s);
    forall a: nat, b: nat | a < |whole| && Holds(whole[a], Object(b)) ensures b < |whole| {
      assert Linked(whole, a, b);
      WholeLinked(g, s, a, b);
    }
  }

  /** The request reaches its own two objects, and what its parameters do. */
  lemma RequestReach(g: Graph, s: Statement)
    requires Sound(g, s)
    ensures Reach(Whole(g, s), Request(g)) == Reach(Whole(g, s), Object(|g|)) + {|g| + 1, |g| + 2}
    ensures |g| in Reach(Whole(g, s), Object(|g|)) && forall a :: a in Reach(Whole(g, s), Object(|g|)) ==> a <= |g|
  {
    hide Reach, Linked, Whole, Closed, Sound;
    WholeSize(g, s);
    var whole, root, inner := Whole(g, s), Request(g), Object(|g|);
    WholeClosed(g, s);
    ReachStart(whole, inner);
    ReachStart(whole, root);
    WholeLinked(g, s, |g| + 2, |g| + 1);
    WholeLinked(g, s, |g| + 1, |g|);
    ReachStep(whole, root, |g| + 2, |g| + 1);
    ReachStep(whole, root, |g| + 1, |g|);
    ReachFollows(whole, root);
    ReachFollows(whole, inner);
    ReachLeast(whole, inner, Reach(whole, root));
    var low := set a: nat | a in Reach(whole, inner) && a <= |g|;
    forall a, b | a in low && Linked(whole, a, b) ensures b in low {
      WholeLinked(g, s, a, b);
    }
    ReachLeast(whole, inner, low);
    var all := Reach(whole, inner) + {|g| + 1, |g| + 2};
    forall a, b | a in all && Linked(whole, a, b) ensures b in all {
      WholeLinked(g, s, a, b);
    }
    ReachLeast(whole, root, all);
  }

  lemma WholeSize(g: Graph, s: Statement)
    ensures var whole := Whole(g, s);
            |whole| == |g| + 3 && whole[|g|] == Parameters(s) &&
            whole[|g| + 1] == ParamsObject(s, |g|) && whole[|g| + 2] == RequestObject(s, |g| + 1)
  {
  }

  lemma ReachFollows(g: Graph, root: Value)
    requires Closed(g, root)
    ensures Follows(g, Reach(g, root))
  {
    forall a, b | a in Reach(g, root) && Linked(g, a, b) ensures b in Reach(g, root) {
      ReachStep(g, root, a, b);
    }
  }

  lemma {:induction false} SumSame(g: Graph, s: set<nat>, t: set<nat>, n: nat)
    requires n <= |g| && forall a :: 0 <= a < n ==> (a in s <==> a in t)
    ensures Sum(g, s, n) == Sum(g, t, n)
  {
    if n > 0 {
      SumSame(g, s, t, n - 1);
    }
  }

  /** Everything but the parameters has a fixed charge. */
  lemma RequestTotal(g: Graph, s: Statement)
    requires Sound(g, s)
    ensures Total(Whole(g, s), Request(g)) == Fixed(s) + Total(Whole(g, s), Object(|g|))
    ensures HoldsForeign(Whole(g, s), Request(g)) <==> HoldsForeign(Whole(g, s), Object(|g|))
  {
    hide Reach, Whole, Sound, Parameters, ParamsObject, RequestObject, Holds, Cost;
    var whole, n := Whole(g, s), |g|;
    var outer, inner := Reach(whole, Request(g)), Reach(whole, Object(n));
    WholeSize(g, s);
    RequestReach(g, s);
    ParamsObjectCost(s, n);
    RequestObjectCost(s, n + 1);
    SumSame(whole, outer, inner, n + 1);
    assert Sum(whole, outer, n + 2) == Sum(whole, outer, n + 1) + Cost(whole[n + 1]);
    assert Sum(whole, outer, n + 3) == Sum(whole, outer, n + 2) + Cost(whole[n + 2]);
    assert Sum(whole, inner, n + 2) == Sum(whole, inner, n + 1);
    assert Sum(whole, inner, n + 3) == Sum(whole, inner, n + 2);
    ParamsObjectHolds(s, n, Foreign);
    RequestObjectHolds(s, n + 1, Foreign);
  }

  predicate IsScalar(v: Value) {
    v.Scalar? || v.Text?
  }

  /** With scalar parameters, their array is all there is besides. */
  lemma ScalarTotal(g: Graph, s: Statement)
    requires Sound(g, s) && forall i :: 0 <= i < |s.params| ==> IsScalar(s.params[i])
    ensures Total(Whole(g, s), Object(|g|)) == 32 + |s.params| * 8 + Charges(Entries(Parameters(s)))
    ensures !HoldsForeign(Whole(g, s), Object(|g|))
  {
    hide Reach, Whole, Linked, Sound, Closed;
    var whole, n, root := Whole(g, s), |g|, Object(|g|);
    WholeSize(g, s);
    WholeClosed(g, s);
    ReachStart(whole, root);
    forall b ensures !Linked(whole, n, b) {
      WholeLinked(g, s, n, b);
    }
    ReachLeast(whole, root, {n});
    SumAdd(whole, {}, n, |whole|);
    SumNone(whole, |whole|);
    assert {} + {n} == {n} == Reach(whole, root);
    ParametersHold(s, Foreign);
  }

  /** The charge of a statement, from its array alone unless a parameter is no scalar. */
  method StatementBytes(g: Graph, s: Statement, limit: nat) returns (bytes: nat)
    requires Sound(g, s) && limit < MAX_SAFE_INTEGER
    ensures bytes == Estimate(Whole(g, s), Request(g), limit)
  {
    hide Whole, Charges, Entries, Reach, Sum, Closed;
    var fixed := Fixed(s);
    RequestTotal(g, s);
    ParametersEntries(s);
    ghost var entries := Entries(Parameters(s));
    assert entries[0..] == entries;
    bytes := fixed + 32 + |s.params| * 8;
    for i := 0 to |s.params|
      invariant bytes + Charges(entries[i..]) == fixed + 32 + |s.params| * 8 + Charges(entries)
      invariant forall j :: 0 <= j < i ==> IsScalar(s.params[j])
    {
      ChargesFrom(entries, i);
      var value := s.params[i];
      if value.Text? {
        bytes := bytes + 16 + value.length * 2;
      } else if value.Scalar? {
        bytes := bytes + 8;
      } else if fixed > limit {
        return limit + 1;
      } else {
        WholeClosed(g, s);
        var rest := CheckedRequestBytes(Whole(g, s), Object(|g|), limit - fixed);
        return fixed + rest.value;
      }
    }
    NoCharges(entries[|s.params|..]);
    ScalarTotal(g, s);
    bytes := if bytes > limit then limit + 1 else bytes;
  }

  lemma NoCharges(entries: seq<Entry>)
    requires entries == []
    ensures Charges(entries) == 0
  {
  }
}
