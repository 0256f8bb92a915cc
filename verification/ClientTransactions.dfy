/** A page's connection to its Worker, and what becomes of each statement sent on it (rpc.ts). */
module PageRpcs {
  datatype Option<+T> = None | Some(value: T)

  /** A request in flight. A statement whose caller asks to be told has a ticket. */
  datatype Pending = Pending(statement: bool, ticket: Option<nat>)

  /** A message as its checks judge it. A flat response answers only a statement. `readable` is whether its result could
      be read. */
  datatype Message =
    | Event
    | Garbled
    | Answer(id: nat, flat: bool, ok: bool, valid: bool, readable: bool)

  datatype Settlement = Settlement(ticket: nat, failed: bool)

  ghost predicate InFlight(pending: map<nat, Pending>, ticket: nat) {
    exists id :: id in pending && pending[id].ticket == Some(ticket)
  }

  ghost predicate Told(told: seq<Settlement>, ticket: nat) {
    exists i :: 0 <= i < |told| && told[i].ticket == ticket
  }

  lemma ToldMore(told: seq<Settlement>, more: Settlement, ticket: nat)
    ensures Told(told + [more], ticket) <==> Told(told, ticket) || ticket == more.ticket
  {
    var all := told + [more];
    assert all[|told|] == more;
    if i :| 0 <= i < |told| && told[i].ticket == ticket {
      assert all[i].ticket == ticket;
    }
  }

  lemma FlightLess(pending: map<nat, Pending>, id: nat, ticket: nat)
    requires id in pending
    ensures InFlight(pending, ticket) <==> InFlight(pending - {id}, ticket) || pending[id].ticket == Some(ticket)
  {
    var less := pending - {id};
    if other :| other in pending && pending[other].ticket == Some(ticket) && other != id {
      assert other in less && less[other].ticket == Some(ticket);
    }
  }

  lemma FlightMore(pending: map<nat, Pending>, id: nat, request: Pending, ticket: nat)
    requires id !in pending
    ensures InFlight(pending[id := request], ticket) <==> InFlight(pending, ticket) || request.ticket == Some(ticket)
  {
    var more := pending[id := request];
    assert more[id] == request;
    if other :| other in pending && pending[other].ticket == Some(ticket) {
      assert more[other].ticket == Some(ticket);
    }
  }

  class PageRpc {
    var pending: map<nat, Pending>
    var nextId: nat
    var disposed: bool
    /** What callers were told, in order, and how many statements had a caller to tell. */
    var told: seq<Settlement>
    var tickets: nat

    /** Each statement is either in flight, and its caller was not told, or is not, and its caller was told once. */
    ghost predicate Valid()
      reads this
    {
      && (forall id :: id in pending ==> id < nextId)
      && (disposed ==> pending == map[])
      && Bookkept()
      && forall t :: 0 <= t < tickets ==> InFlight(pending, t) || Told(told, t)
    }

    ghost predicate Bookkept()
      reads this
    {
      && (forall id :: id in pending && pending[id].ticket.Some? ==> pending[id].ticket.value < tickets)
      && (forall a, b :: a in pending && b in pending && pending[a].ticket.Some? && a != b ==>
            pending[a].ticket != pending[b].ticket)
      && (forall i :: 0 <= i < |told| ==> told[i].ticket < tickets && !InFlight(pending, told[i].ticket))
      && forall i, j :: 0 <= i < j < |told| ==> told[i].ticket != told[j].ticket
    }

    constructor ()
      ensures Valid() && pending == map[] && told == [] && tickets == 0 && !disposed
    {
      pending, nextId, disposed, told, tickets := map[], 1, false, [], 0;
    }

    /** Takes a request out of flight, and tells its caller, if it asked, whether it failed. */
    method Settle(id: nat, failed: bool)
      requires Valid() && id in pending
      modifies this`pending, this`told
      ensures Valid() && pending == old(pending) - {id}
      ensures var ticket := old(pending)[id].ticket;
              told == old(told) + if ticket.Some? then [Settlement(ticket.value, failed)] else []
    {
      var request := pending[id];
      ghost var before, was := pending, told;
      pending := pending - {id};
      if request.ticket.Some? {
        told := told + [Settlement(request.ticket.value, failed)];
      }
      forall t: nat
        ensures InFlight(before, t) <==> InFlight(pending, t) || request.ticket == Some(t)
        ensures Told(told, t) <==> Told(was, t) || request.ticket == Some(t)
      {
        FlightLess(before, id, t);
        if request.ticket.Some? {
          ToldMore(was, Settlement(request.ticket.value, failed), t);
        }
      }
      if request.ticket.Some? {
        assert InFlight(before, request.ticket.value);
        OnlyFlight(before, id);
      }
    }

    lemma OnlyFlight(before: map<nat, Pending>, id: nat)
      requires id in before && before[id].ticket.Some?
      requires forall a, b :: a in before && b in before && before[a].ticket.Some? && a != b ==>
                 before[a].ticket != before[b].ticket
      ensures !InFlight(before - {id}, before[id].ticket.value)
    {
    }

    /** Gives the connection up, and fails all that is in flight. */
    method Dispose()
      requires Valid()
      modifies this`pending, this`told, this`disposed
      ensures Valid() && disposed && pending == map[] && old(told) <= told
    {
      while pending != map[]
        invariant Valid() && old(told) <= told
        decreases |pending|
      {
        var id :| id in pending;
        Settle(id, true);
      }
      assert forall t :: 0 <= t < tickets ==> Told(told, t);
      disposed := true;
    }

    method OnMessage(message: Message)
      requires Valid()
      modifies this`pending, this`told, this`disposed
      ensures Valid() && old(told) <= told
      ensures forall id :: id in pending ==> id in old(pending) && pending[id] == old(pending)[id]
      ensures message.Event? ==> told == old(told) && pending == old(pending) && disposed == old(disposed)
      ensures message.Garbled? ==> disposed
      ensures message.Answer? && message.id !in old(pending) ==>
                told == old(told) && pending == old(pending) && disposed == old(disposed)
      ensures message.Answer? && message.id in old(pending) ==>
                var request := old(pending)[message.id];
                if (message.flat && !request.statement) || (message.ok && !message.valid) then disposed
                else
                  && pending == old(pending) - {message.id} && disposed == old(disposed)
                  && told == old(told) + if request.ticket.None? then []
                                         else [Settlement(request.ticket.value, !message.ok || !message.readable)]
    {
      match message
      case Event =>
      case Garbled => Dispose();
      case Answer(id, flat, ok, valid, readable) =>
        if id in pending {
          if (flat && !pending[id].statement) || (ok && !valid) {
            Dispose();
          } else {
            Settle(id, !ok || !readable);
          }
        }
    }

    /** Posts a message. A stand-in for the Worker may answer before the post ends, or throw, or both. */
    method Post() returns (threw: bool)
      requires Valid()
      modifies this`pending, this`told, this`disposed
      ensures Valid() && old(told) <= told
      ensures forall id :: id in pending ==> id in old(pending) && pending[id] == old(pending)[id]
      ensures nextId == old(nextId)
    {
      var n: int := *;
      for i := 0 to if n < 0 then 0 else n
        invariant Valid() && old(told) <= told
        invariant forall id :: id in pending ==> id in old(pending) && pending[id] == old(pending)[id]
      {
        var message: Message := *;
        OnMessage(message);
      }
      threw := *;
    }

    /** Sends a statement whose caller asks to be told when it has settled. `after` is what is in flight once it was
        posted, and `heard` what callers were told by then: only a post that threw fails what still is. */
    method Execute()
      returns (ticket: nat, ghost threw: bool, ghost after: map<nat, Pending>, ghost heard: seq<Settlement>)
      requires Valid()
      modifies this
      ensures Valid() && ticket == old(tickets) && tickets == old(tickets) + 1 && old(told) <= told
      ensures old(disposed) ==> told == old(told) + [Settlement(ticket, true)] && pending == map[]
      ensures !old(disposed) ==> nextId == old(nextId) + 1 && Left(old(nextId), true, ticket, threw, after, heard)
    {
      ticket, after, heard, threw := tickets, pending, told, false;
      if disposed {
        Refuse();
        return;
      }
      var id := nextId;
      Launch(true, true);
      var failed := Post();
      threw, after, heard := failed, pending, told;
      if failed && id in pending {
        Settle(id, true);
      }
    }

    /** What is left of a request once it was posted: itself in flight, unless it was answered or the post threw. */
    ghost predicate Left(id: nat, tracked: bool, ticket: nat, threw: bool, after: map<nat, Pending>,
                         heard: seq<Settlement>)
      reads this
    {
      && (id in after ==> after[id].ticket == if tracked then Some(ticket) else None)
      && pending == (if threw then after - {id} else after)
      && told == heard + if threw && tracked && id in after then [Settlement(ticket, true)] else []
    }

    /** Sends any other request. One that could not be posted is out of flight, answered or not. */
    method Request(statement: bool)
      returns (sent: bool, ghost after: map<nat, Pending>, ghost heard: seq<Settlement>)
      requires Valid()
      modifies this
      ensures Valid() && tickets == old(tickets) && old(told) <= told
      ensures old(disposed) ==> !sent && told == old(told) && pending == map[]
      ensures !old(disposed) ==> nextId == old(nextId) + 1 && Left(old(nextId), false, 0, !sent, after, heard)
    {
      after, heard := pending, told;
      if disposed {
        return false, after, heard;
      }
      var id := nextId;
      Launch(statement, false);
      var threw := Post();
      sent, after, heard := !threw, pending, told;
      if threw && id in pending {
        Settle(id, true);
      }
    }

    method Refuse()
      requires Valid() && disposed
      modifies this`told, this`tickets
      ensures Valid() && tickets == old(tickets) + 1 && told == old(told) + [Settlement(old(tickets), true)]
    {
      ghost var was := told;
      told := told + [Settlement(tickets, true)];
      tickets := tickets + 1;
      forall t: nat ensures Told(told, t) <==> Told(was, t) || t == tickets - 1 {
        ToldMore(was, Settlement(tickets - 1, true), t);
      }
    }

    method Launch(statement: bool, tracked: bool)
      requires Valid() && !disposed
      modifies this`pending, this`nextId, this`tickets
      ensures Valid() && nextId == old(nextId) + 1 && tickets == old(tickets) + if tracked then 1 else 0
      ensures pending == old(pending)[old(nextId) := Pending(statement, if tracked then Some(old(tickets)) else None)]
    {
      ghost var before, request := pending, Pending(statement, if tracked then Some(tickets) else None);
      forall t: nat
        ensures InFlight(before[nextId := request], t) <==> InFlight(before, t) || request.ticket == Some(t)
      {
        FlightMore(before, nextId, request, t);
      }
      pending := pending[nextId := Pending(statement, if tracked then Some(tickets) else None)];
      nextId := nextId + 1;
      tickets := tickets + if tracked then 1 else 0;
    }

    /** However a connection ends, each caller that asked was told exactly once; until then, at most once. */
    lemma ToldOnce(ticket: nat)
      requires Valid() && ticket < tickets
      ensures disposed ==> Told(told, ticket)
      ensures forall i, j :: 0 <= i < |told| && 0 <= j < |told| && told[i].ticket == ticket == told[j].ticket ==> i == j
      ensures InFlight(pending, ticket) <==> !Told(told, ticket)
    {
    }
  }
}

/** A client's transaction: what its callback sends, and when it is committed (client.ts). */
module TransactionSessions {
  datatype Option<+T> = None | Some(value: T)

  /** Reactions that the microtask queue holds. The last four resume the transaction itself. */
  datatype Task =
    | Shift
    | Delete(id: nat, ok: bool)
    | Continue
    | Throw
    | Resume(ok: bool)
    | RollbackAwaited(ok: bool)

  datatype Phase =
    | Running
    | Returned
    | Settling(awaited: set<nat>, landed: bool)
    | Resuming
    | AwaitingRollback
    | Committing
    | Ended

  /** What settle() waits on while statements are in flight. */
  datatype Landing = NoLanding | Waiting | Landed | Failed

  datatype Post = Statement | Script | Rollback | Commit

  predicate Main(task: Task) {
    !task.Shift? && !task.Delete?
  }

  /** The tasks that may resume a transaction in each phase. */
  predicate Fits(task: Task, phase: Phase) {
    match phase
    case Returned => task.Continue? || task.Throw?
    case Resuming => task.Resume?
    case AwaitingRollback => task.RollbackAwaited?
    case _ => false
  }

  function Shifts(tasks: seq<Task>): nat {
    if tasks == [] then 0 else (if tasks[0].Shift? then 1 else 0) + Shifts(tasks[1..])
  }

  lemma {:induction false} ShiftsAppend(tasks: seq<Task>, task: Task)
    ensures Shifts(tasks + [task]) == Shifts(tasks) + if task.Shift? then 1 else 0
  {
    if tasks == [] {
      assert tasks + [task] == [task];
    } else {
      ShiftsAppend(tasks[1..], task);
      assert (tasks + [task])[1..] == tasks[1..] + [task];
    }
  }

  lemma {:induction false} ShiftsHas(tasks: seq<Task>, i: nat)
    requires i < |tasks| && tasks[i].Shift?
    ensures Shifts(tasks) > 0
  {
    if i > 0 {
      ShiftsHas(tasks[1..], i - 1);
    }
  }

  /** One task resumes the transaction, or none does. */
  ghost predicate OneMain(tasks: seq<Task>, phase: Phase) {
    && (forall i :: 0 <= i < |tasks| && Main(tasks[i]) ==> Fits(tasks[i], phase))
    && forall i, j :: 0 <= i < |tasks| && 0 <= j < |tasks| && Main(tasks[i]) && Main(tasks[j]) ==> i == j
  }

  ghost predicate HasMain(tasks: seq<Task>) {
    exists i :: 0 <= i < |tasks| && Main(tasks[i])
  }

  /** A failure's trace is in the queue behind whatever resumes the transaction. */
  ghost predicate BadAfter(tasks: seq<Task>) {
    exists k, i :: 0 <= k < i < |tasks| && Main(tasks[k]) && Bad(tasks[i])
  }

  predicate Bad(task: Task) {
    task.Shift? || (task.Delete? && !task.ok)
  }

  lemma BadAppend(tasks: seq<Task>, task: Task)
    ensures BadAfter(tasks) ==> BadAfter(tasks + [task])
    ensures HasMain(tasks) ==> HasMain(tasks + [task])
    ensures HasMain(tasks) && Bad(task) ==> BadAfter(tasks + [task])
  {
    var more := tasks + [task];
    if k, i :| 0 <= k < i < |tasks| && Main(tasks[k]) && Bad(tasks[i]) {
      assert Main(more[k]) && Bad(more[i]);
    }
    if k :| 0 <= k < |tasks| && Main(tasks[k]) {
      assert Main(more[k]) && more[|tasks|] == task;
    }
  }

  lemma BadPopped(tasks: seq<Task>)
    requires tasks != [] && !Main(tasks[0])
    ensures BadAfter(tasks) ==> BadAfter(tasks[1..])
    ensures HasMain(tasks) ==> HasMain(tasks[1..])
  {
    var rest := tasks[1..];
    if k, i :| 0 <= k < i < |tasks| && Main(tasks[k]) && Bad(tasks[i]) {
      assert Main(rest[k - 1]) && Bad(rest[i - 1]);
    }
    if k :| 0 <= k < |tasks| && Main(tasks[k]) {
      assert Main(rest[k - 1]);
    }
  }

  /** A transaction's state: statements in flight; scripts and the rollback whose settling has not been seen; how those
      settled, and how many were sent; and whether anything failed that was in flight when the callback returned, or was
      sent since. */
  datatype View = View(
    inFlight: nat, pending: set<nat>, outcomes: map<nat, bool>, nextId: nat, failures: nat, landing: Landing,
    open: bool, closing: bool, rolledBack: bool, rollback: Option<nat>, tasks: seq<Task>, phase: Phase,
    posts: seq<Post>, late: bool)

  /** Each script is pending until its settling is seen, and the queue holds what has not been seen. */
  ghost predicate Kept(v: View) {
    && v.failures == Shifts(v.tasks)
    && (forall id :: 0 <= id < v.nextId ==> id in v.outcomes || id in v.pending)
    && (forall id :: id in v.pending ==> id < v.nextId)
    && (forall id :: id in v.outcomes ==> id < v.nextId)
    && (forall i :: 0 <= i < |v.tasks| && v.tasks[i].Delete? ==>
          v.tasks[i].id in v.pending && v.tasks[i].id in v.outcomes && v.outcomes[v.tasks[i].id] == v.tasks[i].ok)
    && (forall i, j :: 0 <= i < j < |v.tasks| && v.tasks[i].Delete? && v.tasks[j].Delete? ==>
          v.tasks[i].id != v.tasks[j].id)
    && (v.rollback.Some? ==> v.closing || !v.open)
    && (v.rollback.Some? ==> v.rollback.value < v.nextId)
    && (v.rolledBack ==> !v.open && v.rollback.Some? && v.rollback.value in v.outcomes && v.outcomes[v.rollback.value])
    && OneMain(v.tasks, v.phase)
  }

  /** Some part that is awaited has failed, so the wait can only fail. */
  ghost predicate Doomed(v: View) {
    && v.phase.Settling?
    && ((v.phase.landed && v.landing == Failed) ||
        exists id :: id in v.phase.awaited && id in v.outcomes && !v.outcomes[id])
  }

  /** Nothing is in flight, and nothing failed late. */
  ghost predicate AllWell(v: View) {
    v.inFlight == 0 && !v.late && forall id :: id in v.pending ==> id in v.outcomes
  }

  ghost predicate Safe(v: View) {
    match v.phase
    case Running => v.landing == NoLanding && !v.late
    case Returned => v.landing == NoLanding && HasMain(v.tasks) && (v.late ==> BadAfter(v.tasks))
    case Settling(awaited, landed) =>
      && !v.open && v.pending <= awaited && (v.late ==> Doomed(v))
      && (v.inFlight > 0 ==> landed && (v.landing == Waiting || v.landing == Failed))
      && (landed ==> v.landing != NoLanding) && (landed && v.landing == Landed ==> v.inFlight == 0)
    case Resuming => !v.open && (Resume(true) in v.tasks ==> AllWell(v))
    case AwaitingRollback => !v.open && AllWell(v) && v.pending == {}
    case Committing => !v.open && AllWell(v) && v.pending == {} && !v.rolledBack
    case Ended => !v.open
  }

  /** A commit is posted only when all is well, and all stays well. */
  ghost predicate Valid(v: View) {
    && Kept(v) && Safe(v)
    && (Commit in v.posts ==> !v.open && AllWell(v) && !v.rolledBack && (v.phase.Committing? || v.phase.Ended?))
  }

  /** Whatever has become of the transaction, if its commit was posted then each statement and script it sent has
      settled, none failed that was in flight when its callback returned, and it was not rolled back before. */
  lemma CommitSafe(v: View)
    requires Valid(v) && Commit in v.posts
    ensures v.inFlight == 0 && !v.late && !v.rolledBack
    ensures forall id :: 0 <= id < v.nextId ==> id in v.outcomes
  {
  }

  function Enqueued(v: View, task: Task): View {
    v.(tasks := v.tasks + [task], failures := v.failures + if task.Shift? then 1 else 0)
  }

  lemma EnqueuedKept(v: View, task: Task)
    requires Kept(v) && (Main(task) ==> Fits(task, v.phase) && forall i :: 0 <= i < |v.tasks| ==> !Main(v.tasks[i]))
    requires task.Delete? ==> task.id in v.pending && task.id in v.outcomes && v.outcomes[task.id] == task.ok
    requires task.Delete? ==> forall i :: 0 <= i < |v.tasks| && v.tasks[i].Delete? ==> v.tasks[i].id != task.id
    ensures Kept(Enqueued(v, task))
  {
    ShiftsAppend(v.tasks, task);
  }

  lemma HeadFits(v: View)
    requires Kept(v) && v.tasks != [] && Main(v.tasks[0])
    ensures Fits(v.tasks[0], v.phase)
  {
  }

  lemma KeptNext(v: View, next: Phase, posts: seq<Post>)
    requires Kept(v) && NoMain(v.tasks)
    ensures Kept(v.(phase := next, posts := posts))
  {
  }

  /** A statement settles. A failure reaches a settle() that is waiting, or is kept for one turn of the queue. */
  function StatementSeen(v: View, failed: bool): View
    requires v.inFlight > 0
  {
    var w := v.(inFlight := v.inFlight - 1, late := v.late || (failed && !v.phase.Running?));
    if v.landing == NoLanding then if failed then Enqueued(w, Shift) else w
    else if v.landing != Waiting then w
    else if failed then w.(landing := Failed)
    else if w.inFlight == 0 then w.(landing := Landed)
    else w
  }

  /** What a settle() that waits, or none, makes of a statement that settled. */
  function Landfall(landing: Landing, failed: bool, inFlight: nat): Landing {
    if landing != Waiting then landing else if failed then Failed else if inFlight == 0 then Landed else Waiting
  }

  lemma StatementSeenIs(v: View, failed: bool)
    requires v.inFlight > 0
    ensures var kept := failed && v.landing == NoLanding;
            StatementSeen(v, failed) ==
            v.(inFlight := v.inFlight - 1, late := v.late || (failed && !v.phase.Running?),
               landing := Landfall(v.landing, failed, v.inFlight - 1),
               failures := v.failures + (if kept then 1 else 0), tasks := if kept then v.tasks + [Shift] else v.tasks)
  {
  }

  lemma StatementSeenValid(v: View, failed: bool)
    requires Valid(v) && v.inFlight > 0
    ensures Valid(StatementSeen(v, failed))
  {
    hide Safe, Kept;
    StatementSeenSafe(v, failed);
    var late := v.late || (failed && !v.phase.Running?);
    KeptCounted(v, v.inFlight - 1, StatementSeen(v, failed).landing, late);
    KeptCounted(v, v.inFlight - 1, v.landing, late);
    EnqueuedKept(v.(inFlight := v.inFlight - 1, late := late), Shift);
  }

  /** Counting statements leaves what is kept of scripts as it was. */
  lemma KeptCounted(v: View, inFlight: nat, landing: Landing, late: bool)
    requires Kept(v)
    ensures Kept(v.(inFlight := inFlight, landing := landing, late := late))
  {
  }

  lemma StatementSeenSafe(v: View, failed: bool)
    requires Valid(v) && v.inFlight > 0
    ensures Safe(StatementSeen(v, failed)) && Commit !in v.posts
  {
    hide Kept;
    BadAppend(v.tasks, Shift);
    var w := StatementSeen(v, failed);
    if v.phase.Settling? && v.late && v.landing != Failed {
      var other :| other in v.phase.awaited && other in v.outcomes && !v.outcomes[other];
      assert other in w.outcomes && !w.outcomes[other];
    }
  }

  function ScriptSeen(v: View, id: nat, ok: bool): View {
    Enqueued(v.(outcomes := v.outcomes[id := ok], late := v.late || (!ok && !v.phase.Running?)), Delete(id, ok))
  }

  lemma ScriptSeenValid(v: View, id: nat, ok: bool)
    requires Valid(v) && id < v.nextId && id !in v.outcomes
    ensures Valid(ScriptSeen(v, id, ok))
  {
    assert id in v.pending;
    EnqueuedKept(v.(outcomes := v.outcomes[id := ok], late := v.late || (!ok && !v.phase.Running?)), Delete(id, ok));
    ScriptSeenSafe(v, id, ok);
  }

  lemma ScriptSeenSafe(v: View, id: nat, ok: bool)
    requires Valid(v) && id in v.pending && id !in v.outcomes
    ensures Safe(ScriptSeen(v, id, ok)) && Commit !in v.posts
  {
    hide Kept;
    var w := ScriptSeen(v, id, ok);
    BadAppend(v.tasks, Delete(id, ok));
    if v.phase.Settling? {
      if !ok {
        assert id in w.phase.awaited && id in w.outcomes && !w.outcomes[id];
      } else if v.late && !(v.phase.landed && v.landing == Failed) {
        var other :| other in v.phase.awaited && other in v.outcomes && !v.outcomes[other];
        assert other in w.outcomes && !w.outcomes[other];
      }
    }
  }

  function RollbackSeen(v: View, ok: bool): View
    requires v.rollback.Some?
  {
    var w := ScriptSeen(v, v.rollback.value, ok);
    if ok then w.(rolledBack := true, open := false, closing := false) else w
  }

  lemma RollbackSeenIs(v: View, ok: bool)
    requires v.rollback.Some?
    ensures RollbackSeen(v, ok) ==
            v.(outcomes := v.outcomes[v.rollback.value := ok], late := v.late || (!ok && !v.phase.Running?),
               tasks := v.tasks + [Delete(v.rollback.value, ok)], rolledBack := ok || v.rolledBack,
               open := !ok && v.open, closing := !ok && v.closing)
  {
  }

  lemma RollbackSeenValid(v: View, ok: bool)
    requires Valid(v) && v.rollback.Some? && v.rollback.value !in v.outcomes
    ensures Valid(RollbackSeen(v, ok))
  {
    assert v.rollback.value in v.pending;
    ScriptSeenSafe(v, v.rollback.value, ok);
    ScriptSeenValid(v, v.rollback.value, ok);
  }

  /** A reaction runs: a failure's turn is over, or a script's settling is seen. */
  function Reacted(v: View): View
    requires v.tasks != []
  {
    var task := v.tasks[0];
    v.(tasks := v.tasks[1..],
       failures := if task.Shift? && v.failures > 0 then v.failures - 1 else v.failures,
       pending := if task.Delete? then v.pending - {task.id} else v.pending)
  }

  lemma ReactedValid(v: View)
    requires Valid(v) && v.tasks != [] && !Main(v.tasks[0])
    ensures Valid(Reacted(v))
  {
    hide Kept;
    ReactedKept(v);
    BadPopped(v.tasks);
    if Doomed(v) && !(v.phase.landed && v.landing == Failed) {
      var id :| id in v.phase.awaited && id in v.outcomes && !v.outcomes[id];
      assert id in Reacted(v).outcomes;
    }
  }

  lemma ReactedKept(v: View)
    requires Kept(v) && v.tasks != [] && !Main(v.tasks[0])
    ensures Kept(Reacted(v)) && (v.tasks[0].Shift? ==> v.failures > 0)
  {
    if v.tasks[0].Shift? {
      ShiftsHas(v.tasks, 0);
    }
  }

  /** A task that no failure left. */
  predicate Well(task: Task) {
    !Bad(task) && task != Throw && task != Resume(false) && task != RollbackAwaited(false)
  }

  /** Whether nothing has failed so far, and no rollback was asked for or posted. */
  ghost predicate Clean(v: View) {
    && v.landing != Failed && v.rollback.None? && !v.rolledBack && Rollback !in v.posts
    && (forall id :: id in v.outcomes ==> v.outcomes[id])
    && forall i :: 0 <= i < |v.tasks| ==> Well(v.tasks[i])
  }

  lemma {:induction false} WellShifts(tasks: seq<Task>)
    requires forall i :: 0 <= i < |tasks| ==> Well(tasks[i])
    ensures Shifts(tasks) == 0
  {
    if tasks != [] {
      assert Well(tasks[0]);
      assert forall i :: 0 < i < |tasks| ==> tasks[1..][i - 1] == tasks[i];
      WellShifts(tasks[1..]);
    }
  }

  lemma CleanHead(v: View)
    requires Kept(v) && Clean(v) && v.tasks != []
    ensures v.failures == 0 && Well(v.tasks[0])
  {
    WellShifts(v.tasks);
  }

  lemma CleanHeadOf(v: View)
    requires Valid(v) && Clean(v) && v.tasks != []
    ensures v.failures == 0 && Well(v.tasks[0])
  {
    hide Kept, Clean;
    CleanHead(v);
  }

  lemma CleanPhase(v: View, phase: Phase, open: bool)
    requires Clean(v)
    ensures Clean(v.(phase := phase, open := open)) &&
            Clean(v.(phase := phase, open := open, posts := v.posts + [Commit]))
    ensures !v.rolledBack
  {
  }

  /** What succeeds leaves no trace of a failure. */
  lemma CleanStatement(v: View)
    requires v.inFlight > 0
    ensures Clean(v) ==> Clean(StatementSeen(v, false))
  {
  }

  lemma CleanScript(v: View, id: nat)
    ensures Clean(v) ==> Clean(ScriptSeen(v, id, true))
  {
  }

  lemma CleanReacted(v: View)
    requires v.tasks != []
    ensures Clean(v) ==> Clean(Reacted(v))
  {
  }

  class Session {
    var inFlight: nat
    var pending: set<nat>
    var outcomes: map<nat, bool>
    var nextId: nat
    var failures: nat
    var landing: Landing
    var open: bool
    var closing: bool
    var rolledBack: bool
    var rollback: Option<nat>
    var tasks: seq<Task>
    var phase: Phase
    var posts: seq<Post>
    ghost var late: bool

    ghost function State(): View
      reads this
    {
      View(inFlight, pending, outcomes, nextId, failures, landing, open, closing, rolledBack, rollback, tasks, phase,
           posts, late)
    }

    constructor ()
      ensures Valid(State()) && phase == Running && posts == [] && inFlight == 0 && nextId == 0 && open
    {
      inFlight, pending, outcomes, nextId := 0, {}, map[], 0;
      failures, landing, open, closing, rolledBack, rollback := 0, NoLanding, true, false, false, None;
      tasks, phase, posts, late := [], Running, [], false;
    }

    /** Sends a statement, which is counted, unless the callback is over. */
    method Query() returns (sent: bool)
      requires Valid(State())
      modifies this`inFlight, this`posts
      ensures Valid(State()) && sent == (open && !closing)
      ensures inFlight == old(inFlight) + if sent then 1 else 0
      ensures posts == old(posts) + if sent then [Statement] else []
      ensures old(Clean(State())) ==> Clean(State())
    {
      if !open || closing {
        return false;
      }
      inFlight := inFlight + 1;
      posts := posts + [Statement];
      return true;
    }

    method StatementSettled(failed: bool)
      requires Valid(State()) && inFlight > 0
      modifies this`inFlight, this`landing, this`failures, this`tasks, this`late
      ensures Valid(State()) && State() == StatementSeen(old(State()), failed)
      ensures old(Clean(State())) && !failed ==> Clean(State())
    {
      hide Valid, Clean, Kept, Safe, StatementSeen;
      StatementSeenValid(State(), failed);
      CleanStatement(State());
      StatementSeenIs(State(), failed);
      late := late || (failed && !phase.Running?);
      inFlight := inFlight - 1;
      if landing != NoLanding {
        landing := Landfall(landing, failed, inFlight);
      } else if failed {
        failures := failures + 1;
        tasks := tasks + [Shift];
      }
    }

    /** Sends a script, which is pending until its settling is seen. */
    method Exec() returns (id: Option<nat>)
      requires Valid(State())
      modifies this`pending, this`nextId, this`posts
      ensures Valid(State()) && id == (if open && !closing then Some(old(nextId)) else None)
      ensures pending == old(pending) + if id.Some? then {id.value} else {}
      ensures posts == old(posts) + if id.Some? then [Script] else []
      ensures old(Clean(State())) ==> Clean(State())
    {
      if !open || closing {
        return None;
      }
      id := Some(nextId);
      pending := pending + {nextId};
      nextId := nextId + 1;
      posts := posts + [Script];
    }

    /** A script settles, which a reaction queued behind this will see. */
    method ScriptSettled(id: nat, ok: bool)
      requires Valid(State()) && id < nextId && id !in outcomes && rollback != Some(id)
      modifies this`outcomes, this`tasks, this`late
      ensures Valid(State()) && State() == ScriptSeen(old(State()), id, ok)
      ensures old(Clean(State())) && ok ==> Clean(State())
    {
      hide Valid;
      ScriptSeenValid(State(), id, ok);
      CleanScript(State(), id);
      late := late || (!ok && !phase.Running?);
      outcomes := outcomes[id := ok];
      tasks := tasks + [Delete(id, ok)];
    }

    /** Asks for the rollback, after which nothing more is sent. */
    method AskRollback() returns (sent: bool)
      requires Valid(State())
      modifies this`closing, this`rollback, this`pending, this`nextId, this`posts
      ensures Valid(State()) && sent == (open && !old(closing)) && (sent ==> closing && rollback == Some(old(nextId)))
      ensures posts == old(posts) + if sent then [Rollback] else []
    {
      if !open || closing {
        return false;
      }
      closing := true;
      rollback := Some(nextId);
      pending := pending + {nextId};
      nextId := nextId + 1;
      posts := posts + [Rollback];
      return true;
    }

    method RollbackSettled(ok: bool)
      requires Valid(State()) && rollback.Some? && rollback.value !in outcomes
      modifies this`outcomes, this`tasks, this`late, this`rolledBack, this`open, this`closing
      ensures Valid(State()) && State() == RollbackSeen(old(State()), ok)
    {
      hide Valid, Kept, Safe, RollbackSeen;
      RollbackSeenValid(State(), ok);
      RollbackSeenIs(State(), ok);
      late := late || (!ok && !phase.Running?);
      outcomes := outcomes[rollback.value := ok];
      tasks := tasks + [Delete(rollback.value, ok)];
      if ok {
        rolledBack, open, closing := true, false, false;
      }
    }

    /** Queues what will resume the transaction, in its next phase. */
    method Await(next: Phase, task: Task)
      requires Kept(State()) && Main(task) && Fits(task, next) && NoMain(tasks)
      modifies this`tasks, this`phase
      ensures Kept(State()) && HasMain(tasks) && phase == next && tasks == old(tasks) + [task]
    {
      hide Kept, Shifts;
      KeptNext(State(), next, posts);
      EnqueuedKept(State().(phase := next), task);
      tasks := tasks + [task];
      phase := next;
      assert Main(tasks[|tasks| - 1]);
    }

    /** The callback's promise settles. */
    method CallbackSettled(ok: bool)
      requires Valid(State()) && phase == Running
      modifies this`tasks, this`phase
      ensures Valid(State()) && phase == Returned && tasks == old(tasks) + [if ok then Continue else Throw]
      ensures old(Clean(State())) && ok ==> Clean(State())
    {
      Await(Returned, if ok then Continue else Throw);
    }

    /** What a wait waited for has all come, or one part of it has failed. */
    method WaitEnds(ok: bool)
      requires Valid(State()) && phase.Settling?
      requires if ok
               then (forall id :: id in phase.awaited ==> id in outcomes && outcomes[id]) &&
                    (phase.landed ==> landing == Landed)
               else Doomed(State())
      modifies this`tasks, this`phase
      ensures Valid(State()) && phase == Resuming && tasks == old(tasks) + [Resume(ok)]
      ensures old(Clean(State())) ==> ok && Clean(State())
    {
      assert forall i :: 0 <= i < |tasks| ==> !Main(tasks[i]);
      Await(Resuming, Resume(ok));
    }

    /** Runs the first task of the queue. Where nothing has failed, it comes to no rollback. */
    method RunTask()
      requires Valid(State()) && tasks != []
      modifies this
      ensures Valid(State())
      ensures posts == old(posts) + match old(tasks)[0]
                                    case Shift => []
                                    case Delete(_, _) => []
                                    case Continue => if old(failures) == 0 then [] else GivenUp(rolledBack)
                                    case Throw => GivenUp(rolledBack)
                                    case Resume(ok) => if ok then [] else GivenUp(rolledBack)
                                    case RollbackAwaited(ok) =>
                                      if !ok then GivenUp(rolledBack) else if rolledBack then [] else [Commit]
      ensures rolledBack == old(rolledBack)
      ensures old(Clean(State())) ==> Clean(State())
    {
      hide Kept, Safe;
      if !Main(tasks[0]) {
        RunReaction();
      } else if tasks[0].RollbackAwaited? {
        RunLast();
      } else {
        RunMain();
      }
    }

    method RunReaction()
      requires Valid(State()) && tasks != [] && !Main(tasks[0])
      modifies this`failures, this`pending, this`tasks
      ensures Valid(State()) && State() == Reacted(old(State()))
      ensures old(Clean(State())) ==> Clean(State())
    {
      hide Valid;
      ReactedValid(State());
      CleanReacted(State());
      if tasks[0].Shift? {
        if failures > 0 {
          failures := failures - 1;
        }
      } else {
        pending := pending - {tasks[0].id};
      }
      tasks := tasks[1..];
    }

    method RunLast()
      requires Valid(State()) && tasks != [] && tasks[0].RollbackAwaited?
      modifies this
      ensures Valid(State()) && rolledBack == old(rolledBack)
      ensures var ok := old(tasks)[0].ok;
              posts == old(posts) + if !ok then GivenUp(rolledBack) else if rolledBack then [] else [Commit]
      ensures old(Clean(State())) ==> Clean(State())
    {
      if !tasks[0].ok {
        RunCatch();
      } else {
        RunCommit();
      }
    }

    /** The last wait went well: the transaction is committed, unless it was rolled back. */
    method RunCommit()
      requires Valid(State()) && tasks != [] && tasks[0] == RollbackAwaited(true)
      modifies this`tasks, this`phase, this`posts
      ensures Valid(State()) && posts == old(posts) + if rolledBack then [] else [Commit]
      ensures old(Clean(State())) ==> Clean(State())
    {
      hide Clean, Kept;
      HeadFits(State());
      Pop();
      if Clean(State()) {
        CleanPhase(State(), Committing, open);
      }
      KeptNext(State(), Committing, posts + [Commit]);
      KeptNext(State(), Ended, posts);
      if rolledBack {
        phase := Ended;
      } else {
        phase := Committing;
        posts := posts + [Commit];
      }
    }

    /** Something failed: the transaction is given up. */
    method RunCatch()
      requires Valid(State()) && tasks != [] && Main(tasks[0])
      requires tasks[0].Continue? ==> failures > 0
      requires tasks[0].Resume? || tasks[0].RollbackAwaited? ==> !tasks[0].ok
      modifies this
      ensures Valid(State()) && rolledBack == old(rolledBack) && posts == old(posts) + GivenUp(rolledBack)
      ensures !old(Clean(State()))
    {
      hide Clean;
      if Clean(State()) {
        CleanHeadOf(State());
      }
      Pop();
      Catch();
    }

    method RunMain()
      requires Valid(State()) && tasks != [] && (tasks[0].Continue? || tasks[0].Throw? || tasks[0].Resume?)
      modifies this
      ensures Valid(State()) && rolledBack == old(rolledBack)
      ensures var task := old(tasks)[0];
              posts == old(posts) + if (task.Continue? && old(failures) == 0) || (task.Resume? && task.ok) then []
                                    else GivenUp(rolledBack)
      ensures old(Clean(State())) ==> Clean(State())
    {
      hide Valid, Clean;
      if tasks[0].Continue? && failures == 0 {
        RunContinue();
      } else if tasks[0].Resume? && tasks[0].ok {
        RunResume();
      } else {
        RunCatch();
      }
    }

    method RunContinue()
      requires Valid(State()) && tasks != [] && tasks[0].Continue? && failures == 0
      modifies this`open, this`tasks, this`phase, this`landing
      ensures Valid(State()) && (old(Clean(State())) ==> Clean(State()))
    {
      hide Clean;
      Pop();
      if Clean(State()) {
        CleanPhase(State(), phase, false);
      }
      open := false;
      NoShift(tasks);
      Loop();
    }

    method RunResume()
      requires Valid(State()) && tasks != [] && tasks[0] == Resume(true)
      modifies this`tasks, this`phase, this`landing
      ensures Valid(State()) && (old(Clean(State())) ==> Clean(State()))
    {
      hide Clean;
      Pop();
      Loop();
    }

    /** Takes what resumes the transaction from the queue. A late failure has left its trace behind it. */
    method Pop()
      requires Valid(State()) && tasks != [] && Main(tasks[0])
      modifies this`tasks
      ensures Kept(State()) && tasks == old(tasks)[1..] && NoMain(tasks)
      ensures phase == Returned && late ==> exists i :: 0 <= i < |tasks| && Bad(tasks[i])
      ensures old(Clean(State())) ==> Clean(State())
    {
      if phase == Returned && late {
        var k, i :| 0 <= k < i < |tasks| && Main(tasks[k]) && Bad(tasks[i]);
        assert tasks[1..][i - 1] == tasks[i];
      }
      tasks := tasks[1..];
    }

    /** One turn of settle(): waits for what is in flight, if anything is, and at last for the rollback, if one was
        asked for. */
    method Loop()
      requires Kept(State()) && !open && Commit !in posts && NoMain(tasks)
      requires late ==> exists i :: 0 <= i < |tasks| && tasks[i].Delete? && !tasks[i].ok
      modifies this`landing, this`tasks, this`phase
      ensures Valid(State()) && posts == old(posts) && (old(Clean(State())) ==> Clean(State()))
      ensures if inFlight > 0 then phase == Settling(pending, true) && landing == Waiting && tasks == old(tasks)
              else landing == old(landing) &&
                   if pending != {} then phase == Settling(pending, false) && tasks == old(tasks)
                   else phase == AwaitingRollback &&
                        tasks == old(tasks) + [RollbackAwaited(rollback.None? ||
                                                               (rollback.value in outcomes &&
                                                                outcomes[rollback.value]))]
    {
      if inFlight > 0 {
        landing := Waiting;
        phase := Settling(pending, true);
      } else if pending != {} {
        phase := Settling(pending, false);
      } else {
        var ok := rollback.None? || (rollback.value in outcomes && outcomes[rollback.value]);
        Await(AwaitingRollback, RollbackAwaited(ok));
      }
    }

    /** Gives the transaction up: it is rolled back, unless it has been. */
    method Catch()
      requires Kept(State()) && NoMain(tasks) && (Commit in posts ==> AllWell(State()) && !rolledBack)
      modifies this`open, this`posts, this`phase
      ensures Valid(State()) && phase == Ended && posts == old(posts) + GivenUp(rolledBack)
    {
      open := false;
      if !rolledBack {
        posts := posts + [Rollback];
      }
      phase := Ended;
    }

    /** The Worker answers the commit. */
    method CommitSettled(ok: bool)
      requires Valid(State()) && phase == Committing
      modifies this`open, this`posts, this`phase
      ensures Valid(State()) && phase == Ended && posts == old(posts) + if ok then [] else [Rollback]
    {
      if ok {
        phase := Ended;
      } else {
        Catch();
      }
    }
  }

  function GivenUp(rolledBack: bool): seq<Post> {
    if rolledBack then [] else [Rollback]
  }

  ghost predicate NoMain(tasks: seq<Task>) {
    forall i :: 0 <= i < |tasks| ==> !Main(tasks[i])
  }

  lemma NoShift(tasks: seq<Task>)
    requires Shifts(tasks) == 0
    ensures forall i :: 0 <= i < |tasks| ==> !tasks[i].Shift?
  {
    forall i | 0 <= i < |tasks| ensures !tasks[i].Shift? {
      if tasks[i].Shift? {
        ShiftsHas(tasks, i);
      }
    }
  }
}

/** The barrier between closing prepared statements, which the host forbids in a transaction, and beginning one
    (client.ts). */
module PreparedCloses {
  datatype Begin = Idle | Draining(generation: nat, tail: nat) | Begun

  class Barrier {
    /** Which closes have settled. Each lengthens the tail: its promise settles after the one before it and the close.
        */
    var closes: seq<bool>
    var tails: seq<bool>
    var generation: nat
    var transactionActive: bool
    var closed: bool
    var begin: Begin

    ghost predicate Valid()
      reads this
    {
      && |tails| == |closes| + 1 && generation == |closes|
      && (forall i :: 0 <= i < |tails| && tails[i] ==> Drained(closes[..i]))
      && (transactionActive ==> Drained(closes))
      && (begin.Draining? ==> begin.generation < |tails| && begin.tail == begin.generation && !transactionActive)
      && (begin.Begun? ==> transactionActive)
    }

    constructor ()
      ensures Valid() && closes == [] && !transactionActive && begin == Idle
    {
      closes, tails, generation, transactionActive, closed, begin := [], [true], 0, false, false, Idle;
    }

    /** Closes a statement, but not while a transaction is active. */
    method Close() returns (tracked: bool)
      requires Valid()
      modifies this`closes, this`tails, this`generation
      ensures Valid() && tracked == (!transactionActive && !closed)
      ensures closes == old(closes) + if tracked then [false] else []
    {
      if transactionActive || closed {
        return false;
      }
      ghost var was := closes;
      closes, tails, generation := closes + [false], tails + [false], generation + 1;
      assert forall i :: 0 <= i <= |was| ==> closes[..i] == was[..i];
      return true;
    }

    method CloseSettles(i: nat)
      requires Valid() && i < |closes|
      modifies this`closes
      ensures Valid() && closes == old(closes)[i := true]
    {
      closes := closes[i := true];
    }

    method TailSettles(i: nat)
      requires Valid() && 0 < i < |tails| && tails[i - 1] && closes[i - 1]
      modifies this`tails
      ensures Valid() && tails == old(tails)[i := true]
    {
      assert closes[..i] == closes[..i - 1] + [closes[i - 1]];
      tails := tails[i := true];
    }

    /** Starts to begin a transaction: waits for the tail there is. */
    method StartBegin() returns (ok: bool)
      requires Valid() && begin == Idle && !transactionActive
      modifies this`begin
      ensures Valid() && ok == !closed && (ok ==> begin == Draining(generation, |tails| - 1)) && (!ok ==> begin == Idle)
    {
      ok := !closed;
      if ok {
        begin := Draining(generation, |tails| - 1);
      }
    }

    /** The tail waited for has settled. BEGIN is posted only if no close has been added since; then all have settled.
        */
    method ResumeBegin() returns (posted: bool)
      requires Valid() && begin.Draining? && tails[begin.tail]
      modifies this`begin, this`transactionActive
      ensures Valid() && (posted ==> transactionActive && Drained(closes))
      ensures posted == (!closed && old(begin).generation == generation)
      ensures begin == if posted then Begun else if closed then Idle else Draining(generation, |tails| - 1)
    {
      if begin.generation != generation || begin.tail != |tails| - 1 {
        begin := Idle;
        posted := StartBegin();
        return false;
      }
      if closed {
        begin := Idle;
        return false;
      }
      assert closes[..begin.tail] == closes;
      transactionActive, begin := true, Begun;
      return true;
    }

    /** The transaction is over, or could not begin. */
    method End()
      requires Valid() && begin == Begun
      modifies this`begin, this`transactionActive
      ensures Valid() && begin == Idle && !transactionActive
    {
      transactionActive, begin := false, Idle;
    }

    method CloseClient()
      requires Valid()
      modifies this`closed
      ensures Valid() && closed
    {
      closed := true;
    }
  }

  predicate Drained(closes: seq<bool>) {
    forall i :: 0 <= i < |closes| ==> closes[i]
  }
}
