/** One tab's coordinator: the requests its page waits for, the owner it knows, and what its handlers do
    (coordinator.ts). */
module Coordinators {
  type Id = nat

  type ClientId = nat

  /** An owner's tenure of the election lock. Each tenure has an epoch of its own; here they are numbered in turn. */
  type Epoch = nat

  datatype Option<+T> = None | Some(value: T)

  /** A request that waits: its size, the epoch of the transaction it names, and the epoch it was dispatched to, if it
      was. */
  datatype Pending = Pending(id: Id, bytes: nat, transaction: Option<Epoch>, epoch: Option<Epoch>)

  datatype Announcement = Announcement(epoch: Epoch, owner: ClientId, ready: bool, release: nat)

  /** What a page is told of a request: what an owner answered in an epoch, or a failure of the coordinator's own. */
  datatype Answer = Served(id: Id, epoch: Epoch, value: nat) | Failed(id: Id)

  /** A request on its way to the owner of an epoch. */
  datatype Routed = Routed(client: ClientId, id: Id, epoch: Epoch)

  /** What the owner answered to it. */
  datatype Result = Result(request: Routed, value: nat)

  /** A question to the lock manager: whether an announcement's owner holds the lock, or, once elected, who one is. */
  datatype Query = Check(sequence: nat, announcement: Announcement) | Own(epoch: Epoch)

  /** The closure's variables, with the ids its page has used. `posted` is all that was ever posted to the page, and
      `sent` all that was ever sent to an owner; `queries` were asked of the lock manager and `replies` are its answers,
      each in order, with the tenure that held the lock. */
  datatype Client = Client(
    self: ClientId,
    release: nat,
    issued: set<Id>,
    pending: seq<Pending>,
    posted: seq<Answer>,
    sent: set<Routed>,
    leader: Option<Announcement>,
    announcementSequence: nat,
    acceptedSequence: nat,
    queries: seq<Query>,
    replies: seq<(Query, Option<Epoch>)>,
    registered: bool,
    terminal: bool,
    closed: bool)
  {
    predicate Waits(id: Id) {
      exists i :: 0 <= i < |pending| && pending[i].id == id
    }

    /** A failure of the coordinator's own, whether the request waited or not. */
    function Fail(id: Id): Client {
      this.(pending := Without(pending, id), posted := posted + [Failed(id)])
    }

    function FailPending(dispatchedOnly: bool): Client {
      var failed := Failing(pending, dispatchedOnly);
      this.(pending := Staying(pending, dispatchedOnly), posted := posted + failed)
    }

    /** A new request takes its place in the queue. */
    function Enqueue(id: Id, bytes: nat, transaction: Option<Epoch>): Client {
      this.(pending := pending + [Pending(id, bytes, transaction, None)])
    }

    /** Sends a waiting request to the owner, once. */
    function Dispatch(i: nat): Client
      requires i < |pending|
    {
      var entry := pending[i];
      if closed || !registered || entry.epoch.Some? || leader.None? || !leader.value.ready then this
      else if entry.transaction.Some? && entry.transaction != Some(leader.value.epoch) then Fail(entry.id)
      else this.(pending := pending[i := entry.(epoch := Some(leader.value.epoch))],
                 sent := sent + {Routed(self, entry.id, leader.value.epoch)})
    }

    /** Takes an announcement as the present owner's, before what waits is dispatched to it. */
    function Announce(message: Announcement): Client {
      if closed then this
      else if message.release != release then FailPending(true).(terminal := true).FailPending(false)
      else
        var changed := leader.None? || leader.value.epoch != message.epoch;
        (if changed then FailPending(true) else this).(leader := Some(message))
    }

    /** An announcement arrives: ask whether its owner holds the lock. */
    function Hear(message: Announcement): Client {
      var sequence := announcementSequence + 1;
      this.(announcementSequence := sequence, queries := queries + [Check(sequence, message)])
    }

    /** The lock manager answers: `holder` is whose tenure held the lock. */
    function Checked(sequence: nat, message: Announcement, holder: Option<ClientId>): Client {
      if sequence > acceptedSequence && holder == Some(message.owner)
      then this.(acceptedSequence := sequence).Announce(message)
      else this
    }

    /** An answer arrives for an epoch: only the present owner's is taken, and only for a request that waits. */
    function Respond(id: Id, epoch: Epoch, value: nat): Client {
      if leader.None? || leader.value.epoch != epoch || !Waits(id) then this
      else this.(pending := Without(pending, id), posted := posted + [Served(id, epoch, value)])
    }

    /** The owner of an epoch failed for good. */
    function OwnerFailed(epoch: Epoch): Client {
      if leader.None? || leader.value.epoch != epoch then this
      else this.(terminal := true).FailPending(false)
    }
  }

  function Without(pending: seq<Pending>, id: Id): (rest: seq<Pending>)
    ensures forall entry :: entry in rest <==> entry in pending && entry.id != id
  {
    if pending == [] then []
    else (if pending[0].id == id then [] else [pending[0]]) + Without(pending[1..], id)
  }

  /** The failures of the requests that wait, or of those dispatched. */
  function Failing(pending: seq<Pending>, dispatchedOnly: bool): (failed: seq<Answer>)
    ensures forall answer :: answer in failed <==>
              exists entry :: entry in pending && (!dispatchedOnly || entry.epoch.Some?) && answer == Failed(entry.id)
  {
    if pending == [] then []
    else (if !dispatchedOnly || pending[0].epoch.Some? then [Failed(pending[0].id)] else []) +
         Failing(pending[1..], dispatchedOnly)
  }

  function Staying(pending: seq<Pending>, dispatchedOnly: bool): (rest: seq<Pending>)
    ensures forall entry :: entry in rest <==> entry in pending && dispatchedOnly && entry.epoch.None?
  {
    if pending == [] then []
    else (if !dispatchedOnly || pending[0].epoch.Some? then [] else [pending[0]]) +
         Staying(pending[1..], dispatchedOnly)
  }

  /** Every answer is to another request. */
  ghost predicate Once(posted: seq<Answer>) {
    forall i, j :: 0 <= i < j < |posted| ==> posted[i].id != posted[j].id
  }

  ghost predicate Apart(pending: seq<Pending>) {
    forall i, j :: 0 <= i < j < |pending| ==> pending[i].id != pending[j].id
  }

  ghost predicate Unanswered(pending: seq<Pending>, posted: seq<Answer>) {
    forall entry, answer :: entry in pending && answer in posted ==> entry.id != answer.id
  }

  /** A request is sent once at most, and one that waits is sent only to the present owner. */
  ghost predicate SentOnce(c: Client) {
    && (forall a, b :: a in c.sent && b in c.sent && a.id == b.id ==> a == b)
    && (forall r :: r in c.sent ==> r.client == c.self && r.id in c.issued)
    && (forall entry, r :: entry in c.pending && r in c.sent && r.id == entry.id ==> entry.epoch == Some(r.epoch))
    && (forall entry :: entry in c.pending && entry.epoch.Some? ==>
          Routed(c.self, entry.id, entry.epoch.value) in c.sent && c.leader.Some? &&
          c.leader.value.epoch == entry.epoch.value)
    && (forall answer :: answer in c.posted && answer.Served? ==> Routed(c.self, answer.id, answer.epoch) in c.sent)
  }

  /** What the page sees: each request it made is answered once at most, and not while it waits. */
  ghost predicate AnsweredOnce(c: Client) {
    && Once(c.posted) && Apart(c.pending) && Unanswered(c.pending, c.posted)
    && (forall answer :: answer in c.posted ==> answer.id in c.issued)
    && (forall entry :: entry in c.pending ==> entry.id in c.issued)
  }

  /** The lock manager's answers never fall behind the owner the client knows. */
  ghost predicate InOrder(c: Client) {
    && (forall i :: 0 <= i < |c.replies| && c.replies[i].1.Some? && c.leader.Some? ==>
          c.leader.value.epoch <= c.replies[i].1.value)
    && (forall i, j :: 0 <= i < j < |c.replies| && c.replies[i].1.Some? && c.replies[j].1.Some? ==>
          c.replies[i].1.value <= c.replies[j].1.value)
  }

  ghost predicate Kept(c: Client) {
    AnsweredOnce(c) && SentOnce(c) && InOrder(c)
  }

  lemma OnceMore(posted: seq<Answer>, more: seq<Answer>)
    requires Once(posted) && Once(more)
    requires forall a, b :: a in posted && b in more ==> a.id != b.id
    ensures Once(posted + more)
  {
    var all := posted + more;
    forall i, j | 0 <= i < j < |all| ensures all[i].id != all[j].id {
      if i < |posted| <= j {
        assert all[i] in posted && all[j] in more;
      }
    }
  }

  lemma ApartRest(pending: seq<Pending>)
    requires Apart(pending) && pending != []
    ensures Apart(pending[1..]) && forall entry :: entry in pending[1..] ==> entry.id != pending[0].id
  {
    forall entry | entry in pending[1..] ensures entry.id != pending[0].id {
      var i :| 0 <= i < |pending[1..]| && pending[1..][i] == entry;
      assert pending[i + 1] == entry;
    }
  }

  lemma {:induction false} FailingOnce(pending: seq<Pending>, dispatchedOnly: bool)
    requires Apart(pending)
    ensures Once(Failing(pending, dispatchedOnly)) && Apart(Staying(pending, dispatchedOnly))
    ensures Unanswered(Staying(pending, dispatchedOnly), Failing(pending, dispatchedOnly))
  {
    if pending != [] {
      ApartRest(pending);
      FailingOnce(pending[1..], dispatchedOnly);
      if !dispatchedOnly || pending[0].epoch.Some? {
        OnceMore([Failed(pending[0].id)], Failing(pending[1..], dispatchedOnly));
      }
    }
  }

  lemma {:induction false} WithoutApart(pending: seq<Pending>, id: Id)
    requires Apart(pending)
    ensures Apart(Without(pending, id))
  {
    if pending != [] {
      ApartRest(pending);
      WithoutApart(pending[1..], id);
    }
  }

  /** Where the owner takes requests, none that waits is still to be sent to it. */
  ghost predicate AllSent(c: Client) {
    !c.closed && c.registered && c.leader.Some? && c.leader.value.ready ==>
      forall entry :: entry in c.pending ==> entry.epoch.Some?
  }

  lemma {:induction false} NothingLeft(pending: seq<Pending>)
    ensures Staying(pending, false) == []
  {
    if pending != [] {
      NothingLeft(pending[1..]);
    }
  }

  /** With the present owner gone for good, or one of another release, nothing waits any more, and nothing will. */
  lemma NothingWaits(c: Client, epoch: Epoch, message: Announcement)
    ensures c.leader.Some? && c.leader.value.epoch == epoch ==>
              c.OwnerFailed(epoch).pending == [] && c.OwnerFailed(epoch).terminal
    ensures !c.closed && message.release != c.release ==>
              c.Announce(message).pending == [] && c.Announce(message).terminal
  {
    NothingLeft(c.pending);
    NothingLeft(Staying(c.pending, true));
  }

  /** An announcement is the present owner's exactly if its check is later than any taken, its owner held the lock, and
      it is of this release; and then its epoch is the one that requests are sent to. */
  lemma AcceptsExactly(c: Client, sequence: nat, message: Announcement, holder: Option<ClientId>)
    requires !c.closed
    ensures var taken := sequence > c.acceptedSequence && holder == Some(message.owner);
            && c.Checked(sequence, message, holder).acceptedSequence ==
               (if taken then sequence else c.acceptedSequence)
            && c.Checked(sequence, message, holder).leader ==
               (if taken && message.release == c.release then Some(message) else c.leader)
  {
  }

  lemma FailKeeps(c: Client, id: Id)
    requires Kept(c) && id in c.issued && forall answer :: answer in c.posted ==> answer.id != id
    ensures Kept(c.Fail(id))
  {
    WithoutApart(c.pending, id);
    OnceMore(c.posted, [Failed(id)]);
  }

  lemma FailPendingKeeps(c: Client, dispatchedOnly: bool)
    requires Kept(c)
    ensures Kept(c.FailPending(dispatchedOnly))
    ensures forall entry :: entry in c.FailPending(dispatchedOnly).pending ==> entry.epoch.None?
  {
    FailingOnce(c.pending, dispatchedOnly);
    OnceMore(c.posted, Failing(c.pending, dispatchedOnly));
  }

  lemma DispatchKeeps(c: Client, i: nat)
    requires Kept(c) && i < |c.pending|
    ensures Kept(c.Dispatch(i))
  {
    var entry := c.pending[i];
    assert entry in c.pending;
    if c.Dispatch(i) == c.Fail(entry.id) {
      FailKeeps(c, entry.id);
    }
  }

  lemma RespondKeeps(c: Client, id: Id, epoch: Epoch, value: nat)
    requires Kept(c) && Routed(c.self, id, epoch) in c.sent
    ensures Kept(c.Respond(id, epoch, value))
  {
    if c.Respond(id, epoch, value) != c {
      var i :| 0 <= i < |c.pending| && c.pending[i].id == id;
      assert c.pending[i] in c.pending;
      WithoutApart(c.pending, id);
      OnceMore(c.posted, [Served(id, epoch, value)]);
    }
  }

  /** A new leader no earlier than the one known, and no later than what the lock manager has yet to say. */
  lemma AnnounceKeeps(c: Client, message: Announcement)
    requires Kept(c) && (c.leader.Some? ==> c.leader.value.epoch <= message.epoch)
    requires forall i :: 0 <= i < |c.replies| && c.replies[i].1.Some? ==> message.epoch <= c.replies[i].1.value
    ensures Kept(c.Announce(message))
  {
    FailPendingKeeps(c, true);
    var failed := c.FailPending(true);
    FailPendingKeeps(failed.(terminal := true), false);
  }
}

/** Tabs, the lock they contend for, and the channels between them (coordinator.ts). Messages may be lost, late or out
    of order. The lock is held by one tab at a time, and a tab's questions about it are answered in turn. */
module Coordination {
  import opened Coordinators

  /** `serving` are the epochs whose owner takes requests. `gone` are requests that reached their owner or were lost,
      `queued` wait there, and `runs` are those its engine ran, in order. Announcements, failures and answers stay on
      their channels, to arrive at any time, again and again, or never. `results` is what the engines made of each run,
      and `refusals` what owners answered to requests they refused. */
  datatype System = System(
    clients: map<ClientId, Client>,
    tenures: seq<ClientId>,
    holder: Option<Epoch>,
    serving: set<Epoch>,
    announcements: set<Announcement>,
    failures: set<Epoch>,
    gone: set<Routed>,
    queued: set<Routed>,
    runs: seq<Routed>,
    answers: set<Result>,
    results: map<Routed, nat>,
    refusals: set<Result>)
  {
    function With(client: Client): System {
      this.(clients := clients[client.self := client])
    }

    ghost predicate Sent(r: Routed) {
      r.client in clients && r in clients[r.client].sent
    }
  }

  datatype Outcome = Queued | Refused | Lost

  datatype Step =
    | Join(self: ClientId, release: nat)
    | Enqueue(client: ClientId, id: Id, bytes: nat, transaction: Option<Epoch>)
    | Refuse(client: ClientId, id: Id)
    | ServeLocal(client: ClientId, id: Id, epoch: Epoch, value: nat)
    | Dispatch(client: ClientId, index: nat)
    | Register(client: ClientId)
    | Hear(client: ClientId, announcement: Announcement)
    | HearFailure(client: ClientId, epoch: Epoch)
    | HearAnswer(answer: Result)
    | Ask(client: ClientId)
    | Reply(client: ClientId)
    | Elect(client: ClientId)
    | Open(client: ClientId, epoch: Epoch)
    | Deliver(request: Routed, outcome: Outcome, value: nat)
    | Run(request: Routed, value: nat)
    | Reject(request: Routed, value: nat)
    | Retire(epoch: Epoch)
    | Release(epoch: Epoch)
    | Close(client: ClientId)

  /** The client of a step that is one client's own. */
  function Local(s: System, step: Step): Option<Client> {
    if step.HearAnswer? then
      var Result(r, value) := step.answer;
      if step.answer in s.answers && r.client in s.clients then Some(s.clients[r.client].Respond(r.id, r.epoch, value))
      else None
    else if step.Join? || step.Deliver? || step.Run? || step.Reject? || step.Retire? || step.Release? ||
            step.client !in s.clients
    then None
    else
      var c := s.clients[step.client];
      match step
      case Enqueue(_, id, bytes, transaction) =>
        if c.closed || c.terminal || id in c.issued then None
        else Some(c.(issued := c.issued + {id}).Enqueue(id, bytes, transaction))
      case Refuse(_, id) => if c.closed || id in c.issued then None else Some(c.(issued := c.issued + {id}).Fail(id))
      case Dispatch(_, index) => if index < |c.pending| then Some(c.Dispatch(index)) else None
      case Register(_) => Some(c.(registered := true))
      case Hear(_, announcement) => if announcement in s.announcements then Some(c.Hear(announcement)) else None
      case HearFailure(_, epoch) => if epoch in s.failures then Some(c.OwnerFailed(epoch)) else None
      case Ask(_) =>
        if c.queries == [] then None
        else Some(c.(queries := c.queries[1..], replies := c.replies + [(c.queries[0], s.holder)]))
      case _ => None
  }

  function Holder(s: System, tenure: Option<Epoch>): Option<ClientId> {
    if tenure.Some? && tenure.value < |s.tenures| then Some(s.tenures[tenure.value]) else None
  }

  /** A client takes its lock manager's next answer: it accepts an announcement or, elected, publishes its own. */
  function TakeReply(s: System, c: Client): System
    requires c.replies != []
  {
    var (query, tenure) := c.replies[0];
    var rest := c.(replies := c.replies[1..]);
    match query
    case Check(sequence, announcement) => s.With(rest.Checked(sequence, announcement, Holder(s, tenure)))
    case Own(epoch) =>
      if c.closed || tenure != Some(epoch) then s.With(rest)
      else
        var starting := Announcement(epoch, c.self, false, c.release);
        s.(announcements := s.announcements + {starting}).With(rest.Announce(starting))
  }

  function Take(s: System, step: Step): System {
    match Local(s, step)
    case Some(next) => s.With(next)
    case None =>
      match step
      case Join(self, release) =>
        if self in s.clients then s
        else s.With(Client(self, release, {}, [], [], {}, None, 0, 0, [], [], false, false, false))
      case ServeLocal(client, id, epoch, value) =>
        if client in s.clients && epoch in s.serving && Holder(s, Some(epoch)) == Some(client)
           && s.clients[client].pending == [] && !s.clients[client].terminal && id !in s.clients[client].issued
        then
          var c := s.clients[client];
          var r := Routed(client, id, epoch);
          s.(gone := s.gone + {r}, runs := s.runs + [r], results := s.results[r := value])
           .With(c.(issued := c.issued + {id}, sent := c.sent + {r}, posted := c.posted + [Served(id, epoch, value)]))
        else s
      case Reply(client) =>
        if client in s.clients && s.clients[client].replies != [] then TakeReply(s, s.clients[client]) else s
      case Elect(client) =>
        if client in s.clients && s.holder.None? && client !in s.tenures && s.clients[client].registered &&
           !s.clients[client].closed && !s.clients[client].terminal
        then
          var epoch, c := |s.tenures|, s.clients[client];
          s.(tenures := s.tenures + [client], holder := Some(epoch)).With(c.(queries := c.queries + [Own(epoch)]))
        else s
      case Open(client, epoch) =>
        if client in s.clients && s.holder == Some(epoch) && Holder(s, Some(epoch)) == Some(client) &&
           !s.clients[client].closed && Announcement(epoch, client, false, s.clients[client].release) in s.announcements
        then
          var ready := Announcement(epoch, client, true, s.clients[client].release);
          s.(serving := s.serving + {epoch}, announcements := s.announcements + {ready})
           .With(s.clients[client].Announce(ready))
        else s
      case Deliver(r, outcome, value) =>
        if r.client in s.clients && r in s.clients[r.client].sent && r !in s.gone then
          var taken := s.(gone := s.gone + {r});
          if r.epoch !in s.serving || outcome == Lost then taken
          else if outcome == Queued then taken.(queued := s.queued + {r})
          else taken.(answers := s.answers + {Result(r, value)}, refusals := s.refusals + {Result(r, value)})
        else s
      case Run(r, value) =>
        if r in s.queued && r.epoch in s.serving
        then s.(queued := s.queued - {r}, runs := s.runs + [r], answers := s.answers + {Result(r, value)},
                results := s.results[r := value]) else s
      case Reject(r, value) =>
        if r in s.queued && r.epoch in s.serving
        then s.(queued := s.queued - {r}, answers := s.answers + {Result(r, value)},
                refusals := s.refusals + {Result(r, value)}) else s
      case Retire(epoch) => s.(failures := s.failures + {epoch}, serving := s.serving - {epoch})
      case Release(epoch) => if s.holder == Some(epoch) then s.(holder := None, serving := s.serving - {epoch}) else s
      case Close(client) =>
        if client in s.clients
        then s.(serving := set e | e in s.serving && Holder(s, Some(e)) != Some(client))
              .With(s.clients[client].(closed := true))
        else s
      case _ => s
  }

  const START := System(map[], [], None, {}, {}, {}, {}, {}, [], {}, map[], {})

  /** Every state is one that some sequence of steps reaches. A step that cannot be taken leaves the state as it is. */
  function After(steps: seq<Step>): System {
    if steps == [] then START else Take(After(steps[..|steps| - 1]), steps[|steps| - 1])
  }

  /** What a client knows of the others. */
  ghost predicate Knows(s: System, c: Client) {
    && (c.leader.Some? ==> c.leader.value in s.announcements)
    && (forall query :: query in c.queries ==> Heard(s, c.self, query))
    && (forall i :: 0 <= i < |c.replies| ==> Heard(s, c.self, c.replies[i].0))
    && (forall i :: 0 <= i < |c.replies| && c.replies[i].1.Some? ==> c.replies[i].1.value < |s.tenures|)
  }

  ghost predicate Heard(s: System, self: ClientId, query: Query) {
    match query
    case Check(_, announcement) => announcement in s.announcements
    case Own(epoch) => epoch < |s.tenures| && s.tenures[epoch] == self
  }

  ghost predicate Clients(s: System) {
    forall id :: id in s.clients ==> s.clients[id].self == id && Kept(s.clients[id]) && Knows(s, s.clients[id])
  }

  /** One tab holds the lock at a time, and no tab holds it twice. */
  ghost predicate Exclusive(s: System) {
    && (forall i, j :: 0 <= i < j < |s.tenures| ==> s.tenures[i] != s.tenures[j])
    && (s.holder.Some? ==> s.holder.value + 1 == |s.tenures|)
    && (forall epoch :: epoch in s.serving ==> s.holder == Some(epoch))
  }

  /** An announcement is its owner's, who knows of no earlier one. */
  ghost predicate Announced(s: System) {
    forall a :: a in s.announcements ==>
      && a.epoch < |s.tenures| && s.tenures[a.epoch] == a.owner && a.owner in s.clients
      && a.release == s.clients[a.owner].release
      && s.clients[a.owner].leader.Some? && a.epoch <= s.clients[a.owner].leader.value.epoch
  }

  ghost predicate Traffic(s: System) {
    && (forall r :: r in s.gone ==> s.Sent(r))
    && s.queued <= s.gone
    && (forall answer :: answer in s.answers ==> s.Sent(answer.request))
    && (forall i :: 0 <= i < |s.runs| ==>
          s.runs[i] in s.gone && s.runs[i] !in s.queued && s.runs[i].epoch < |s.tenures|)
    && (forall i, j :: 0 <= i < j < |s.runs| ==> s.runs[i] != s.runs[j] && s.runs[i].epoch <= s.runs[j].epoch)
  }

  ghost predicate Inv(s: System) {
    Clients(s) && Exclusive(s) && Announced(s) && Traffic(s)
  }

  /** A client that keeps its name and its leader, and forgets nothing it sent. */
  ghost predicate Continues(c: Client, next: Client) {
    && next.self == c.self && next.release == c.release && next.leader == c.leader && c.sent <= next.sent
  }

  ghost predicate Goes(s: System, c: Client, next: Client) {
    Continues(c, next) && Kept(next) && Knows(s, next)
  }

  lemma LocalKeeps(s: System, step: Step)
    requires Inv(s) && Local(s, step).Some?
    ensures var next := Local(s, step).value;
            next.self in s.clients && Goes(s, s.clients[next.self], next)
  {
    hide Kept, Goes, Traffic, Announced, Knows, Exclusive;
    hide Client.Respond, Client.Enqueue, Client.Fail, Client.Dispatch, Client.OwnerFailed;
    var next := Local(s, step).value;
    var c := s.clients[if step.HearAnswer? then step.answer.request.client else step.client];
    assert Goes(s, c, next) by {
      match step
      case HearAnswer(answer) => RespondGoes(s, answer);
      case Enqueue(_, id, bytes, transaction) => EnqueueGoes(s, c, id, bytes, transaction);
      case Refuse(_, id) => RefuseGoes(s, c, id);
      case Dispatch(_, index) => DispatchGoes(s, c, index);
      case HearFailure(_, epoch) => FailureGoes(s, c, epoch);
      case Register(_) => RegisterGoes(s, c);
      case Hear(_, announcement) => HearGoes(s, c, announcement);
      case Ask(_) => AskGoes(s, c);
      case _ =>
    }
    GoesSelf(s, c, next);
  }

  lemma GoesSelf(s: System, c: Client, next: Client)
    requires Goes(s, c, next)
    ensures next.self == c.self
  {
  }

  lemma RespondGoes(s: System, answer: Result)
    requires Clients(s) && Traffic(s) && answer in s.answers
    ensures var Result(r, value) := answer;
            r.client in s.clients && Goes(s, s.clients[r.client], s.clients[r.client].Respond(r.id, r.epoch, value))
  {
    var Result(r, value) := answer;
    assert s.Sent(r);
    RespondKeeps(s.clients[r.client], r.id, r.epoch, value);
    hide AnsweredOnce, SentOnce, InOrder;
  }

  lemma EnqueueGoes(s: System, c: Client, id: Id, bytes: nat, transaction: Option<Epoch>)
    requires Kept(c) && Knows(s, c) && id !in c.issued
    ensures Goes(s, c, c.(issued := c.issued + {id}).Enqueue(id, bytes, transaction))
  {
  }

  lemma RefuseGoes(s: System, c: Client, id: Id)
    requires Kept(c) && Knows(s, c) && id !in c.issued
    ensures Goes(s, c, c.(issued := c.issued + {id}).Fail(id))
  {
    FailKeeps(c.(issued := c.issued + {id}), id);
  }

  lemma DispatchGoes(s: System, c: Client, i: nat)
    requires Kept(c) && Knows(s, c) && i < |c.pending|
    ensures Goes(s, c, c.Dispatch(i))
  {
    DispatchKeeps(c, i);
    hide Kept;
  }

  lemma FailureGoes(s: System, c: Client, epoch: Epoch)
    requires Kept(c) && Knows(s, c)
    ensures Goes(s, c, c.OwnerFailed(epoch))
  {
    assert Kept(c.(terminal := true));
    FailPendingKeeps(c.(terminal := true), false);
    hide Kept;
  }

  lemma RegisterGoes(s: System, c: Client)
    requires Kept(c) && Knows(s, c)
    ensures Goes(s, c, c.(registered := true))
  {
  }

  lemma HearGoes(s: System, c: Client, announcement: Announcement)
    requires Kept(c) && Knows(s, c) && announcement in s.announcements
    ensures Goes(s, c, c.Hear(announcement))
  {
    assert Kept(c.Hear(announcement));
  }

  lemma AskGoes(s: System, c: Client)
    requires Exclusive(s) && Announced(s) && Kept(c) && Knows(s, c) && c.queries != []
    ensures Goes(s, c, c.(queries := c.queries[1..], replies := c.replies + [(c.queries[0], s.holder)]))
  {
    assert c.leader.Some? ==> c.leader.value.epoch < |s.tenures|;
    hide AnsweredOnce, SentOnce, Announced;
    var next := c.(queries := c.queries[1..], replies := c.replies + [(c.queries[0], s.holder)]);
    assert AnsweredOnce(next) && SentOnce(next) by {
      SameRequests(c, next);
    }
    assert InOrder(next);
  }

  lemma SameRequests(c: Client, next: Client)
    requires AnsweredOnce(c) && SentOnce(c)
    requires next == c.(queries := next.queries, replies := next.replies)
    ensures AnsweredOnce(next) && SentOnce(next)
  {
  }

  /** A client knows no less where the channels hold more. */
  lemma KnowsMore(s: System, after: System, c: Client)
    requires Knows(s, c) && s.announcements <= after.announcements && s.tenures <= after.tenures
    ensures Knows(after, c)
  {
    forall query | Heard(s, c.self, query) ensures Heard(after, c.self, query) {
    }
  }

  /** One client changes, and the channels hold no less. */
  ghost predicate Moves(s: System, after: System, next: Client) {
    && after.clients == s.clients[next.self := next]
    && s.announcements <= after.announcements && s.tenures <= after.tenures
    && (next.self in s.clients ==> Ahead(s.clients[next.self], next))
  }

  /** A client's known owner is never an earlier one than before. */
  ghost predicate Ahead(c: Client, next: Client) {
    && next.self == c.self && next.release == c.release && c.sent <= next.sent
    && (c.leader.Some? ==> next.leader.Some? && c.leader.value.epoch <= next.leader.value.epoch)
  }

  lemma MovesClients(s: System, after: System, next: Client)
    requires Clients(s) && Moves(s, after, next) && Kept(next) && Knows(after, next)
    ensures Clients(after)
  {
    hide Kept, Knows;
    forall id | id in after.clients
      ensures after.clients[id].self == id && Kept(after.clients[id]) && Knows(after, after.clients[id])
    {
      if id != next.self {
        KnowsMore(s, after, s.clients[id]);
      }
    }
  }

  lemma MovesTraffic(s: System, after: System, next: Client)
    requires Traffic(s) && Moves(s, after, next)
    requires after == s.(clients := after.clients, announcements := after.announcements, tenures := after.tenures,
                         holder := after.holder, serving := after.serving)
    ensures Traffic(after)
  {
    forall r | s.Sent(r) ensures after.Sent(r) {
    }
  }

  lemma MovesAnnounced(s: System, after: System, next: Client)
    requires Announced(s) && Moves(s, after, next)
    requires forall a :: a in after.announcements && a !in s.announcements ==>
               && a.epoch < |after.tenures| && after.tenures[a.epoch] == a.owner == next.self &&
                  a.release == next.release
               && next.leader.Some? && a.epoch <= next.leader.value.epoch
    ensures Announced(after)
  {
  }

  /** A step that leaves the lock and the channels as they are, but for one client. */
  lemma WithKeeps(s: System, next: Client)
    requires Inv(s) && next.self in s.clients && Goes(s, s.clients[next.self], next)
    ensures Inv(s.With(next)) && Moves(s, s.With(next), next)
  {
    hide Clients, Announced, Traffic, Kept;
    var after := s.With(next);
    KnowsMore(s, after, next);
    MovesClients(s, after, next);
    MovesTraffic(s, after, next);
    MovesAnnounced(s, after, next);
  }

  lemma JoinKeeps(s: System, self: ClientId, release: nat)
    requires Inv(s) && self !in s.clients
    ensures var next := Client(self, release, {}, [], [], {}, None, 0, 0, [], [], false, false, false);
            Inv(s.With(next)) && Moves(s, s.With(next), next)
  {
    hide Clients, Announced, Traffic;
    var next := Client(self, release, {}, [], [], {}, None, 0, 0, [], [], false, false, false);
    var after := s.With(next);
    assert Kept(next) && Knows(after, next);
    MovesClients(s, after, next);
    MovesTraffic(s, after, next);
    MovesAnnounced(s, after, next);
  }

  /** The client's next reply, when it is not one the client takes up. */
  lemma PopKeeps(s: System, c: Client)
    requires Kept(c) && Knows(s, c) && c.replies != []
    ensures var rest := c.(replies := c.replies[1..]);
            Kept(rest) && Knows(s, rest)
  {
    SameRequests(c, c.(replies := c.replies[1..]));
    hide AnsweredOnce, SentOnce;
  }

  /** An owner that held the lock when the manager answered is no earlier than the one the client knows, and no later
      than any the manager has yet to name. */
  lemma AcceptKeeps(s: System, c: Client, message: Announcement)
    requires Kept(c) && Knows(s, c) && c.replies != [] && c.replies[0].1 == Some(message.epoch)
    requires message in s.announcements
    ensures var next := c.(replies := c.replies[1..]).Announce(message);
            Kept(next) && Knows(s, next) && Ahead(c, next)
  {
    PopKeeps(s, c);
    AnnounceKeeps(c.(replies := c.replies[1..]), message);
    hide Kept;
  }

  /** What one step keeps, and how far it moves each client. */
  ghost predicate Advances(s: System, after: System) {
    && Inv(after)
    && (forall id :: id in s.clients ==> id in after.clients && Ahead(s.clients[id], after.clients[id]))
    && s.runs <= after.runs
  }

  lemma MovesAdvances(s: System, after: System, next: Client)
    requires Inv(after) && Moves(s, after, next) && s.runs <= after.runs
    ensures Advances(s, after)
  {
    hide Inv;
  }

  lemma Parts(s: System)
    requires Inv(s)
    ensures Clients(s) && Exclusive(s) && Announced(s) && Traffic(s)
  {
  }

  lemma Member(s: System, id: ClientId)
    requires Inv(s) && id in s.clients
    ensures s.clients[id].self == id && Kept(s.clients[id]) && Knows(s, s.clients[id])
  {
    hide Kept, Knows, Announced, Traffic, Exclusive;
  }

  lemma NextReply(s: System, c: Client)
    requires Knows(s, c) && c.replies != []
    ensures Heard(s, c.self, c.replies[0].0)
  {
  }

  lemma ReplyKeeps(s: System, c: Client)
    requires Inv(s) && c.self in s.clients && s.clients[c.self] == c && c.replies != []
    ensures Advances(s, TakeReply(s, c))
  {
    hide Inv, Kept, Advances, Client.Checked, Client.Announce;
    Member(s, c.self);
    var (query, tenure) := c.replies[0];
    PopKeeps(s, c);
    match query
    case Check(sequence, message) =>
      if sequence > c.acceptedSequence && Holder(s, tenure) == Some(message.owner) {
        CheckKeeps(s, c, sequence, message, tenure);
      } else {
        UncheckedSame(c.(replies := c.replies[1..]), sequence, message, Holder(s, tenure));
        ClientMoves(s, TakeReply(s, c), c.(replies := c.replies[1..]));
      }
    case Own(epoch) =>
      if c.closed || tenure != Some(epoch) {
        ClientMoves(s, TakeReply(s, c), c.(replies := c.replies[1..]));
      } else {
        OwnKeeps(s, c, epoch);
      }
  }

  lemma UncheckedSame(c: Client, sequence: nat, message: Announcement, holder: Option<ClientId>)
    requires sequence <= c.acceptedSequence || holder != Some(message.owner)
    ensures c.Checked(sequence, message, holder) == c
  {
  }

  lemma CheckKeeps(s: System, c: Client, sequence: nat, message: Announcement, tenure: Option<Epoch>)
    requires Inv(s) && c.self in s.clients && s.clients[c.self] == c && c.replies != []
    requires c.replies[0] == (Check(sequence, message), tenure)
    requires sequence > c.acceptedSequence && Holder(s, tenure) == Some(message.owner)
    ensures Advances(s, TakeReply(s, c))
  {
    hide Inv, Clients, Exclusive, Announced, Traffic, Kept, Knows, Ahead, Advances, Client.Announce;
    Member(s, c.self);
    Parts(s);
    NextReply(s, c);
    AnnouncedOwner(s, message);
    SameTenure(s, tenure, message);
    var rest := c.(replies := c.replies[1..]);
    AcceptKeeps(s, c, message);
    AcceptedKeeps(s, c, rest, sequence, message);
    ClientMoves(s, TakeReply(s, c), rest.(acceptedSequence := sequence).Announce(message));
  }

  lemma SameTenure(s: System, tenure: Option<Epoch>, message: Announcement)
    requires Exclusive(s) && message.epoch < |s.tenures| && s.tenures[message.epoch] == message.owner
    requires Holder(s, tenure) == Some(message.owner)
    ensures tenure == Some(message.epoch)
  {
  }

  lemma OwnKeeps(s: System, c: Client, epoch: Epoch)
    requires Inv(s) && c.self in s.clients && s.clients[c.self] == c && c.replies != []
    requires c.replies[0] == (Own(epoch), Some(epoch)) && !c.closed
    ensures Advances(s, TakeReply(s, c))
  {
    hide Inv, Kept, Knows, Ahead, Advances;
    Member(s, c.self);
    NextReply(s, c);
    var rest := c.(replies := c.replies[1..]);
    var starting := Announcement(epoch, c.self, false, c.release);
    var told := s.(announcements := s.announcements + {starting});
    KnowsMore(s, told, c);
    AcceptKeeps(told, c, starting);
    PublishMoves(s, TakeReply(s, c), rest.Announce(starting), starting);
  }

  lemma AnnouncedOwner(s: System, message: Announcement)
    requires Announced(s) && message in s.announcements
    ensures message.epoch < |s.tenures| && s.tenures[message.epoch] == message.owner
  {
  }

  /** The acceptance counter is no part of what is kept. */
  lemma AcceptedKeeps(s: System, c: Client, rest: Client, sequence: nat, message: Announcement)
    requires var next := rest.Announce(message); Kept(next) && Knows(s, next) && Ahead(c, next)
    ensures var next := rest.(acceptedSequence := sequence).Announce(message);
            Kept(next) && Knows(s, next) && Ahead(c, next) && next.self == c.self
  {
    hide Kept, Knows, Ahead, Client.Announce;
    AcceptedAside(rest, sequence, message);
    CounterKeeps(s, c, rest.Announce(message), sequence);
  }

  lemma AcceptedAside(rest: Client, sequence: nat, message: Announcement)
    ensures rest.(acceptedSequence := sequence).Announce(message) ==
            rest.Announce(message).(acceptedSequence := sequence)
  {
  }

  lemma CounterKeeps(s: System, c: Client, next: Client, sequence: nat)
    requires Kept(next) && Knows(s, next) && Ahead(c, next)
    ensures var counted := next.(acceptedSequence := sequence);
            Kept(counted) && Knows(s, counted) && Ahead(c, counted) && counted.self == c.self
  {
  }

  lemma ClientMoves(s: System, after: System, next: Client)
    requires Inv(s) && next.self in s.clients && after == s.With(next)
    requires Kept(next) && Knows(s, next) && Ahead(s.clients[next.self], next)
    ensures Advances(s, after)
  {
    hide Clients, Announced, Traffic, Kept, Ahead;
    KnowsMore(s, after, next);
    MovesClients(s, after, next);
    MovesTraffic(s, after, next);
    MovesAnnounced(s, after, next);
    MovesAdvances(s, after, next);
  }

  lemma PublishMoves(s: System, after: System, next: Client, message: Announcement)
    requires Inv(s) && next.self in s.clients
    requires after == s.(announcements := s.announcements + {message}, serving := after.serving).With(next)
    requires after.serving == s.serving || (s.holder.Some? && after.serving == s.serving + {s.holder.value})
    requires Kept(next) && Knows(s.(announcements := s.announcements + {message}), next)
    requires Ahead(s.clients[next.self], next)
    requires message.epoch < |s.tenures| && s.tenures[message.epoch] == message.owner == next.self
    requires message.release == next.release && next.leader == Some(message)
    ensures Advances(s, after)
  {
    hide Clients, Announced, Traffic, Kept, Ahead;
    KnowsMore(s.(announcements := s.announcements + {message}), after, next);
    MovesClients(s, after, next);
    MovesTraffic(s, after, next);
    MovesAnnounced(s, after, next);
    MovesAdvances(s, after, next);
  }

  lemma ElectKeeps(s: System, client: ClientId)
    requires Inv(s) && client in s.clients && client !in s.tenures && s.holder.None?
    ensures var c := s.clients[client];
            Advances(s, s.(tenures := s.tenures + [client], holder := Some(|s.tenures|))
                         .With(c.(queries := c.queries + [Own(|s.tenures|)])))
  {
    hide Inv, Clients, Exclusive, Announced, Traffic, Kept, Ahead, Knows;
    Member(s, client);
    Parts(s);
    var c := s.clients[client];
    var next := c.(queries := c.queries + [Own(|s.tenures|)]);
    var after := s.(tenures := s.tenures + [client], holder := Some(|s.tenures|)).With(next);
    QueriesKeep(c, next);
    QueriesKnow(s, after, c);
    MovesClients(s, after, next);
    MovesTraffic(s, after, next);
    MovesAnnounced(s, after, next);
    ElectExclusive(s, after, client);
    Whole(after);
    MovesAdvances(s, after, next);
  }

  lemma Whole(s: System)
    requires Clients(s) && Exclusive(s) && Announced(s) && Traffic(s)
    ensures Inv(s)
  {
  }

  lemma ElectExclusive(s: System, after: System, client: ClientId)
    requires Exclusive(s) && client !in s.tenures && s.holder.None?
    requires after.tenures == s.tenures + [client] && after.holder == Some(|s.tenures|) && after.serving == s.serving
    ensures Exclusive(after)
  {
  }

  lemma QueriesKeep(c: Client, next: Client)
    requires Kept(c) && next == c.(queries := next.queries, closed := next.closed)
    ensures Kept(next) && Ahead(c, next)
  {
  }

  lemma QueriesKnow(s: System, after: System, c: Client)
    requires Knows(s, c) && s.announcements <= after.announcements && after.tenures == s.tenures + [c.self]
    ensures Knows(after, c.(queries := c.queries + [Own(|s.tenures|)]))
  {
    KnowsMore(s, after, c);
  }

  /** The owner in its tenure knows of no later one, so it takes itself for the leader. */
  lemma OpenKeeps(s: System, client: ClientId, epoch: Epoch)
    requires Inv(s) && client in s.clients && s.holder == Some(epoch) && Holder(s, Some(epoch)) == Some(client)
    requires !s.clients[client].closed &&
             Announcement(epoch, client, false, s.clients[client].release) in s.announcements
    ensures Advances(s, Take(s, Open(client, epoch)))
  {
    hide Inv, Clients, Exclusive, Announced, Traffic, Kept, Knows, Advances;
    Member(s, client);
    Parts(s);
    var c := s.clients[client];
    LeaderIs(s, c, epoch);
    var ready := Announcement(epoch, client, true, c.release);
    var next, after := c.Announce(ready), Take(s, Open(client, epoch));
    AnnounceKeeps(c, ready);
    var told := s.(announcements := s.announcements + {ready});
    KnowsMore(s, told, c);
    AnnounceKnows(told, c, ready);
    PublishMoves(s, after, next, ready);
  }

  lemma AnnounceKnows(s: System, c: Client, message: Announcement)
    requires Knows(s, c) && message in s.announcements
    ensures Knows(s, c.Announce(message))
  {
  }

  lemma LeaderIs(s: System, c: Client, epoch: Epoch)
    requires Announced(s) && Exclusive(s) && Kept(c) && Knows(s, c)
    requires c.self in s.clients && s.clients[c.self] == c && s.holder == Some(epoch)
    requires Announcement(epoch, c.self, false, c.release) in s.announcements
    ensures && c.leader.Some? && c.leader.value.epoch == epoch
            && forall i :: 0 <= i < |c.replies| && c.replies[i].1.Some? ==> epoch <= c.replies[i].1.value
  {
    hide AnsweredOnce, SentOnce;
    assert c.leader.value in s.announcements;
  }

  lemma ServeLocalKeeps(s: System, c: Client, id: Id, epoch: Epoch, value: nat)
    requires Inv(s) && c.self in s.clients && s.clients[c.self] == c && epoch in s.serving && id !in c.issued &&
             c.pending == []
    requires Holder(s, Some(epoch)) == Some(c.self) && !c.terminal
    ensures Advances(s, Take(s, ServeLocal(c.self, id, epoch, value)))
  {
    hide Inv, Clients, Announced, Traffic, Kept, Knows, Ahead, Local;
    Member(s, c.self);
    Parts(s);
    var r := Routed(c.self, id, epoch);
    var next := c.(issued := c.issued + {id}, sent := c.sent + {r}, posted := c.posted + [Served(id, epoch, value)]);
    var after := s.(gone := s.gone + {r}, runs := s.runs + [r], results := s.results[r := value]).With(next);
    ServedKeeps(s, c, next, id, epoch, value);
    KnowsMore(s, after, c);
    AlsoKnows(after, c, next);
    MovesClients(s, after, next);
    MovesAnnounced(s, after, next);
    FreshUnsent(c, r);
    var sent := s.With(next);
    MovesTraffic(s, sent, next);
    ServingLast(s, epoch);
    UngoneUnsent(s, r);
    RunTraffic(sent, after, r);
    assert Exclusive(after) by { SameLock(s, after); }
    Whole(after);
    MovesAdvances(s, after, next);
    assert Local(s, ServeLocal(c.self, id, epoch, value)) == None by { ServeLocalOnly(s, c.self, id, epoch, value); }
  }

  lemma ServeLocalOnly(s: System, client: ClientId, id: Id, epoch: Epoch, value: nat)
    ensures Local(s, ServeLocal(client, id, epoch, value)) == None
  {
  }

  lemma FreshUnsent(c: Client, r: Routed)
    requires Kept(c) && r.id !in c.issued
    ensures r !in c.sent
  {
  }

  lemma ServedKeeps(s: System, c: Client, next: Client, id: Id, epoch: Epoch, value: nat)
    requires Kept(c) && id !in c.issued && c.pending == []
    requires next == c.(issued := c.issued + {id}, sent := c.sent + {Routed(c.self, id, epoch)},
                        posted := c.posted + [Served(id, epoch, value)])
    ensures Kept(next) && Ahead(c, next)
  {
    OnceMore(c.posted, [Served(id, epoch, value)]);
  }

  lemma AlsoKnows(s: System, c: Client, next: Client)
    requires Knows(s, c) && next.self == c.self && next.leader == c.leader && next.queries == c.queries
    requires next.replies == c.replies
    ensures Knows(s, next)
  {
  }

  lemma ServingLast(s: System, epoch: Epoch)
    requires Exclusive(s) && epoch in s.serving
    ensures epoch + 1 == |s.tenures|
  {
  }

  lemma UngoneUnsent(s: System, r: Routed)
    requires Traffic(s) && (r.client in s.clients ==> r !in s.clients[r.client].sent)
    ensures r !in s.gone
  {
  }

  lemma SameLock(s: System, after: System)
    requires Exclusive(s) && after.tenures == s.tenures && after.holder == s.holder && after.serving <= s.serving
    ensures Exclusive(after)
  {
  }

  /** A request new to the owner runs, or one that waited there: neither ran before. */
  lemma RunTraffic(s: System, after: System, r: Routed)
    requires Traffic(s) && s.Sent(r) && r.epoch + 1 == |s.tenures| && (r in s.queued || r !in s.gone)
    requires after == s.(gone := s.gone + {r}, queued := s.queued - {r}, runs := s.runs + [r], answers := after.answers,
                         results := after.results)
    requires forall answer :: answer in after.answers ==> answer in s.answers || answer.request == r
    ensures Traffic(after)
  {
    assert forall other :: s.Sent(other) ==> after.Sent(other);
  }

  lemma QueueTraffic(s: System, after: System, r: Routed)
    requires Traffic(s) && s.Sent(r)
    requires after == s.(gone := s.gone + {r}, queued := after.queued, answers := after.answers,
                         refusals := after.refusals)
    requires after.queued <= s.queued || (r !in s.gone && after.queued == s.queued + {r})
    requires forall answer :: answer in after.answers ==> answer in s.answers || answer.request == r
    ensures Traffic(after)
  {
    assert forall other :: s.Sent(other) ==> after.Sent(other);
  }

  lemma SameParts(s: System, after: System)
    requires Clients(s) && Exclusive(s) && Announced(s) && after.serving <= s.serving
    requires after == s.(serving := after.serving, failures := after.failures, gone := after.gone,
                         queued := after.queued, runs := after.runs, answers := after.answers, results := after.results,
                         refusals := after.refusals)
    ensures Clients(after) && Exclusive(after) && Announced(after)
  {
    hide Kept, Knows;
    forall id | id in after.clients ensures Knows(after, after.clients[id]) {
      KnowsMore(s, after, after.clients[id]);
    }
  }

  lemma Same(s: System, after: System)
    requires Inv(after) && after.clients == s.clients && s.runs <= after.runs
    ensures Advances(s, after)
  {
    hide Inv;
  }

  lemma TrafficSame(s: System, after: System)
    requires Traffic(s) && after == s.(serving := after.serving, holder := after.holder, failures := after.failures)
    ensures Traffic(after)
  {
    assert forall other :: s.Sent(other) ==> after.Sent(other);
  }

  lemma DeliverKeeps(s: System, r: Routed, outcome: Outcome, value: nat)
    requires Inv(s)
    ensures Advances(s, Take(s, Deliver(r, outcome, value)))
  {
    hide Inv, Clients, Announced, Traffic, Exclusive, Advances;
    Parts(s);
    var after := Take(s, Deliver(r, outcome, value));
    if after == s {
      Same(s, s);
    } else {
      assert s.Sent(r);
      SameParts(s, after);
      QueueTraffic(s, after, r);
      Whole(after);
      Same(s, after);
    }
  }

  lemma QueuedSent(s: System, r: Routed)
    requires Traffic(s) && r in s.queued
    ensures s.Sent(r) && s.gone + {r} == s.gone
  {
  }

  lemma RunKeeps(s: System, r: Routed, value: nat)
    requires Inv(s)
    ensures Advances(s, Take(s, Run(r, value))) && Advances(s, Take(s, Reject(r, value)))
  {
    hide Inv, Clients, Announced, Traffic, Exclusive, Advances;
    Parts(s);
    Same(s, s);
    if r in s.queued && r.epoch in s.serving {
      QueuedSent(s, r);
      ServingLast(s, r.epoch);
      var run, reject := Take(s, Run(r, value)), Take(s, Reject(r, value));
      SameParts(s, run);
      SameParts(s, reject);
      RunTraffic(s, run, r);
      QueueTraffic(s, reject, r);
      Whole(run);
      Whole(reject);
      Same(s, run);
      Same(s, reject);
    }
  }

  lemma ReleaseKeeps(s: System, epoch: Epoch)
    requires Inv(s)
    ensures Advances(s, Take(s, Release(epoch))) && Advances(s, Take(s, Retire(epoch)))
  {
    hide Inv, Clients, Announced, Traffic, Exclusive, Advances;
    Parts(s);
    Same(s, s);
    var retire := Take(s, Retire(epoch));
    SameParts(s, retire);
    TrafficSame(s, retire);
    Whole(retire);
    Same(s, retire);
    if s.holder == Some(epoch) {
      var stop := s.(serving := s.serving - {epoch});
      var release := Take(s, Release(epoch));
      SameParts(s, stop);
      TrafficSame(s, release);
      Free(stop, release);
      Whole(release);
      Same(s, release);
    }
  }

  lemma Free(s: System, after: System)
    requires Clients(s) && Exclusive(s) && Announced(s) && after == s.(holder := None) && s.holder.Some?
    requires s.holder.value !in s.serving
    ensures Clients(after) && Exclusive(after) && Announced(after)
  {
    hide Kept, Knows;
    forall id | id in after.clients ensures Knows(after, after.clients[id]) {
      KnowsMore(s, after, after.clients[id]);
    }
  }

  lemma CloseKeeps(s: System, client: ClientId)
    requires Inv(s)
    ensures Advances(s, Take(s, Close(client)))
  {
    hide Inv, Clients, Announced, Traffic, Exclusive, Advances, Kept, Knows, Ahead;
    Parts(s);
    Same(s, s);
    if client in s.clients {
      var stop := s.(serving := set e | e in s.serving && Holder(s, Some(e)) != Some(client));
      SameParts(s, stop);
      TrafficSame(s, stop);
      Whole(stop);
      Member(stop, client);
      var c := s.clients[client];
      var next := c.(closed := true);
      QueriesKeep(c, next);
      AlsoKnows(stop, c, next);
      ClientMoves(stop, Take(s, Close(client)), next);
      FromStop(s, stop, Take(s, Close(client)));
    }
  }

  lemma FromStop(s: System, stop: System, after: System)
    requires Advances(stop, after) && stop.clients == s.clients && stop.runs == s.runs
    ensures Advances(s, after)
  {
    hide Inv;
  }

  /** Every step keeps the invariant, and moves no client back to an earlier owner. */
  lemma TakeKeeps(s: System, step: Step)
    requires Inv(s)
    ensures Advances(s, Take(s, step))
  {
    hide Inv, Advances, Local, Moves, Goes;
    Same(s, s);
    var local := Local(s, step);
    if local.Some? {
      LocalKeeps(s, step);
      WithKeeps(s, local.value);
      MovesAdvances(s, s.With(local.value), local.value);
    } else {
      match step
      case Join(self, release) => Joined(s, self, release);
      case ServeLocal(client, id, epoch, value) => ServedLocal(s, client, id, epoch, value);
      case Reply(client) => Replied(s, client);
      case Elect(client) => Elected(s, client);
      case Open(client, epoch) => Opened(s, client, epoch);
      case Deliver(r, outcome, value) => DeliverKeeps(s, r, outcome, value);
      case Run(r, value) => RunKeeps(s, r, value);
      case Reject(r, value) => RunKeeps(s, r, value);
      case Retire(epoch) => ReleaseKeeps(s, epoch);
      case Release(epoch) => ReleaseKeeps(s, epoch);
      case Close(client) => CloseKeeps(s, client);
      case _ =>
    }
  }

  lemma Joined(s: System, self: ClientId, release: nat)
    requires Inv(s)
    ensures Advances(s, Take(s, Join(self, release)))
  {
    hide Inv, Advances, Moves;
    Same(s, s);
    if self !in s.clients {
      JoinKeeps(s, self, release);
      var next := Client(self, release, {}, [], [], {}, None, 0, 0, [], [], false, false, false);
      MovesAdvances(s, s.With(next), next);
    }
  }

  lemma ServedLocal(s: System, client: ClientId, id: Id, epoch: Epoch, value: nat)
    requires Inv(s)
    ensures Advances(s, Take(s, ServeLocal(client, id, epoch, value)))
  {
    hide Inv, Advances;
    Same(s, s);
    if Take(s, ServeLocal(client, id, epoch, value)) != s {
      Member(s, client);
      ServeLocalKeeps(s, s.clients[client], id, epoch, value);
    }
  }

  lemma Replied(s: System, client: ClientId)
    requires Inv(s)
    ensures Advances(s, Take(s, Reply(client)))
  {
    hide Inv, Advances, TakeReply;
    Same(s, s);
    if client in s.clients && s.clients[client].replies != [] {
      Member(s, client);
      ReplyKeeps(s, s.clients[client]);
    }
  }

  lemma Elected(s: System, client: ClientId)
    requires Inv(s)
    ensures Advances(s, Take(s, Elect(client)))
  {
    hide Inv, Advances;
    Same(s, s);
    if Take(s, Elect(client)) != s {
      ElectKeeps(s, client);
    }
  }

  lemma Opened(s: System, client: ClientId, epoch: Epoch)
    requires Inv(s)
    ensures Advances(s, Take(s, Open(client, epoch)))
  {
    hide Inv, Advances;
    Same(s, s);
    if Take(s, Open(client, epoch)) != s {
      OpenKeeps(s, client, epoch);
    }
  }

  lemma {:induction false} Invariant(steps: seq<Step>)
    ensures Inv(After(steps))
  {
    if steps != [] {
      var before := steps[..|steps| - 1];
      Invariant(before);
      TakeKeeps(After(before), steps[|steps| - 1]);
    }
  }

  /** Over any run, each request reaches an engine once at most, in the one epoch it was sent to; and no engine runs
      after that of a later tenure. */
  lemma EngineOnce(steps: seq<Step>)
    ensures var s := After(steps);
            && (forall i, j :: 0 <= i < j < |s.runs| ==>
                  s.runs[i].client != s.runs[j].client || s.runs[i].id != s.runs[j].id)
            && (forall i, j :: 0 <= i < j < |s.runs| ==> s.runs[i].epoch <= s.runs[j].epoch)
            && (forall i, r :: 0 <= i < |s.runs| && s.Sent(r) && r.client == s.runs[i].client &&
                               r.id == s.runs[i].id ==>
                  r == s.runs[i])
  {
    Invariant(steps);
    var s := After(steps);
    hide After, AnsweredOnce, InOrder, Knows, Announced;
    forall i, r | 0 <= i < |s.runs| && s.Sent(r) && r.client == s.runs[i].client && r.id == s.runs[i].id
      ensures r == s.runs[i]
    {
      assert s.runs[i] in s.gone;
      assert Kept(s.clients[r.client]);
    }
    forall i, j | 0 <= i < j < |s.runs| ensures s.runs[i].client != s.runs[j].client || s.runs[i].id != s.runs[j].id {
      assert s.runs[j] in s.gone && s.Sent(s.runs[j]);
    }
  }

  /** Over any run, a page's request is answered once at most, not while it waits, and where an owner answered it, by
      the one it was sent to. */
  lemma AnswerOnce(steps: seq<Step>, client: ClientId)
    requires client in After(steps).clients
    ensures var c := After(steps).clients[client];
            && (forall i, j :: 0 <= i < j < |c.posted| ==> c.posted[i].id != c.posted[j].id)
            && (forall entry, answer :: entry in c.pending && answer in c.posted ==> entry.id != answer.id)
            && (forall answer, r :: answer in c.posted && answer.Served? && r in c.sent && r.id == answer.id ==>
                  r.epoch == answer.epoch)
  {
    Invariant(steps);
    Member(After(steps), client);
  }

  lemma AfterNext(steps: seq<Step>, step: Step)
    ensures After(steps + [step]) == Take(After(steps), step)
  {
    assert (steps + [step])[..|steps|] == steps;
  }

  ghost predicate Later(s: System, after: System, client: ClientId) {
    client in s.clients ==> client in after.clients && Ahead(s.clients[client], after.clients[client])
  }

  lemma LaterNext(s: System, between: System, step: Step, client: ClientId)
    requires Later(s, between, client) && Inv(between)
    ensures Later(s, Take(between, step), client)
  {
    hide Inv, Take;
    TakeKeeps(between, step);
  }

  lemma {:induction false} LaterMore(steps: seq<Step>, more: seq<Step>, client: ClientId)
    ensures Later(After(steps), After(steps + more), client)
  {
    hide Later, After, Inv, Take;
    if more == [] {
      assert steps + more == steps;
      assert Later(After(steps), After(steps), client) by { LaterSame(After(steps), client); }
    } else {
      var most, last := more[..|more| - 1], more[|more| - 1];
      LaterMore(steps, most, client);
      Invariant(steps + most);
      assert steps + more == (steps + most) + [last];
      AfterNext(steps + most, last);
      LaterNext(After(steps), After(steps + most), last, client);
    }
  }

  lemma LaterSame(s: System, client: ClientId)
    ensures Later(s, s, client)
  {
  }

  /** Over any run, the owners a client accepts follow the order of their tenures: none comes back. */
  lemma OwnersInOrder(steps: seq<Step>, more: seq<Step>, client: ClientId)
    requires client in After(steps).clients && After(steps).clients[client].leader.Some?
    ensures client in After(steps + more).clients
    ensures var later := After(steps + more).clients[client].leader;
            later.Some? && After(steps).clients[client].leader.value.epoch <= later.value.epoch
  {
    hide After;
    LaterMore(steps, more, client);
  }
}
