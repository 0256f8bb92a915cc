/** What a page is told, over any run of the protocol: what an owner answered, or that its coordinator gave the request
    up, and why (coordinator.ts). */
module CoordinationAnswers {
  import opened Coordinators
  import opened Coordination

  /** Why a coordinator gives a request up. It refuses it; the transaction it names ended with an earlier owner; the
      present owner failed for good; the request was sent to an owner that another has followed; or a tab of another
      release is the owner. */
  ghost predicate GivenUp(s: System, step: Step, client: ClientId, id: Id)
    requires client in s.clients
  {
    var c := s.clients[client];
    || (step.Refuse? && step.client == client && step.id == id && !c.closed)
    || (step.Dispatch? && step.client == client && LostAt(c, step.index, id))
    || (step.HearFailure? && step.client == client && step.epoch in s.failures && IsLeader(c, step.epoch) &&
        c.Waits(id))
    || ((step.Reply? || step.Open?) && step.client == client && !c.closed && HandedOver(s, c, Take(s, step), id))
  }

  ghost predicate IsLeader(c: Client, epoch: Epoch) {
    c.leader.Some? && c.leader.value.epoch == epoch
  }

  ghost predicate LostAt(c: Client, index: nat, id: Id) {
    && index < |c.pending| && c.pending[index].id == id && c.leader.Some? && c.leader.value.ready
    && c.pending[index].transaction.Some? && !IsLeader(c, c.pending[index].transaction.value)
  }

  ghost predicate HandedOver(s: System, c: Client, after: System, id: Id) {
    exists entry :: entry in c.pending && entry.id == id &&
      ((entry.epoch.Some? && c.self in after.clients && after.clients[c.self].leader.Some? &&
        !IsLeader(c, after.clients[c.self].leader.value.epoch))
       || exists a :: a in after.announcements && a.release != c.release)
  }

  /** An owner's answer, taken for one: the present owner's, to a request that waits, or the tab's own. */
  ghost predicate IsAnswer(s: System, step: Step, client: ClientId, id: Id, epoch: Epoch, value: nat)
    requires client in s.clients
  {
    var c := s.clients[client];
    || (step == HearAnswer(Result(Routed(client, id, epoch), value)) && step.answer in s.answers &&
        IsLeader(c, epoch) &&
        c.Waits(id))
    || (step == ServeLocal(client, id, epoch, value) && epoch in s.serving && Holder(s, Some(epoch)) == Some(client) &&
        id !in c.issued)
  }

  /** Whether what is posted in a step has its reason. */
  ghost predicate Reasoned(s: System, step: Step, client: ClientId, answer: Answer)
    requires client in s.clients
  {
    match answer
    case Failed(id) => GivenUp(s, step, client, id)
    case Served(id, epoch, value) => IsAnswer(s, step, client, id, epoch, value)
  }

  /** What was posted stays, and what no longer waits is answered. */
  ghost predicate Settles(c: Client, next: Client) {
    && c.posted <= next.posted && c.issued <= next.issued
    && forall id :: c.Waits(id) || (id in next.issued && id !in c.issued) ==> next.Waits(id) || Told(next, id)
  }

  ghost predicate Told(c: Client, id: Id) {
    exists i :: 0 <= i < |c.posted| && c.posted[i].id == id
  }

  lemma FailSettles(c: Client, id: Id)
    ensures c.Fail(id).posted == c.posted + [Failed(id)] && Settles(c, c.Fail(id)) && Told(c.Fail(id), id)
  {
    var next := c.Fail(id);
    assert next.posted[|c.posted|] == Failed(id);
    forall other | c.Waits(other) ensures next.Waits(other) || Told(next, other) {
      var i :| 0 <= i < |c.pending| && c.pending[i].id == other;
      WaitsIn(next, c.pending[i]);
    }
  }

  lemma WaitsIn(c: Client, entry: Pending)
    ensures entry in c.pending ==> c.Waits(entry.id)
  {
  }

  lemma FailPendingSettles(c: Client, dispatchedOnly: bool)
    ensures Settles(c, c.FailPending(dispatchedOnly))
    ensures c.FailPending(dispatchedOnly).posted == c.posted + Failing(c.pending, dispatchedOnly)
  {
    var next, failed := c.FailPending(dispatchedOnly), Failing(c.pending, dispatchedOnly);
    forall id | c.Waits(id) ensures next.Waits(id) || Told(next, id) {
      var i :| 0 <= i < |c.pending| && c.pending[i].id == id;
      var entry := c.pending[i];
      if dispatchedOnly && entry.epoch.None? {
        WaitsIn(next, entry);
      } else {
        assert Failed(id) in failed;
        var j :| 0 <= j < |failed| && failed[j] == Failed(id);
        assert next.posted[|c.posted| + j] == failed[j];
      }
    }
  }

  lemma SettlesTransitive(first: Client, second: Client, third: Client)
    requires Settles(first, second) && Settles(second, third)
    ensures Settles(first, third)
  {
    forall id | first.Waits(id) || (id in third.issued && id !in first.issued)
      ensures third.Waits(id) || Told(third, id)
    {
      if Told(second, id) {
        TellsMore(second, third, id);
      }
    }
  }

  lemma TellsMore(c: Client, next: Client, id: Id)
    requires Told(c, id) && c.posted <= next.posted
    ensures Told(next, id)
  {
    var i :| 0 <= i < |c.posted| && c.posted[i].id == id;
    assert next.posted[i] == c.posted[i];
  }

  /** What an announcement adds to what was posted. */
  function Announcing(c: Client, message: Announcement): seq<Answer> {
    if c.closed then []
    else if message.release != c.release then Failing(c.pending, true) + Failing(Staying(c.pending, true), false)
    else if c.leader.None? || c.leader.value.epoch != message.epoch then Failing(c.pending, true)
    else []
  }

  lemma AnnounceSettles(c: Client, message: Announcement)
    ensures Settles(c, c.Announce(message))
    ensures c.Announce(message).posted == c.posted + Announcing(c, message)
  {
    FailPendingSettles(c, true);
    var failed := c.FailPending(true);
    FailPendingSettles(failed.(terminal := true), false);
    SameSettles(failed, failed.(terminal := true));
    SameSettles(failed, failed.(leader := Some(message)));
    SameSettles(c, c.(leader := Some(message)));
    SettlesTransitive(c, failed, failed.(terminal := true));
    SettlesTransitive(c, failed.(terminal := true), failed.(terminal := true).FailPending(false));
    SettlesTransitive(c, failed, failed.(leader := Some(message)));
  }

  lemma SameSettles(c: Client, next: Client)
    requires next.pending == c.pending && next.posted == c.posted && next.issued == c.issued
    ensures Settles(c, next)
  {
  }

  /** A failure that an announcement posts is of a request that was sent to an earlier owner, or of any where the new
      one is of another release. */
  lemma AnnouncingWhy(c: Client, message: Announcement, answer: Answer)
    requires answer in Announcing(c, message)
    ensures answer.Failed? && !c.closed
    ensures exists entry :: entry in c.pending && entry.id == answer.id &&
              ((entry.epoch.Some? && !IsLeader(c, message.epoch)) || message.release != c.release)
  {
    if message.release != c.release {
      assert answer in Failing(c.pending, true) || answer in Failing(Staying(c.pending, true), false);
    }
  }

  /** What a client's own steps post. */
  lemma LocalReasoned(s: System, step: Step, i: nat)
    requires Inv(s) && Local(s, step).Some?
    ensures var next := Local(s, step).value;
            && next.self in s.clients
            && var c := s.clients[next.self];
            && Settles(c, next)
            && (|c.posted| <= i < |next.posted| ==> Reasoned(s, step, next.self, next.posted[i]))
  {
    hide Inv, Reasoned, Settles;
    LocalClient(s, step);
    var next := Local(s, step).value;
    var c := s.clients[next.self];
    match step
    case HearAnswer(answer) => AnswerReasoned(s, answer, i);
    case Enqueue(client, id, bytes, transaction) => EnqueueSettles(c, id, bytes, transaction);
    case Refuse(client, id) => RefuseReasoned(s, client, id, i);
    case Dispatch(client, index) => DispatchReasoned(s, client, index, i);
    case HearFailure(client, epoch) => FailureReasoned(s, client, epoch, i);
    case Register(_) => SameSettles(c, next);
    case Hear(_, announcement) => SameSettles(c, next);
    case Ask(_) => SameSettles(c, next);
    case _ =>
  }

  lemma LocalClient(s: System, step: Step)
    requires Inv(s) && Local(s, step).Some?
    ensures var next := Local(s, step).value;
            && next.self in s.clients
            && next.self == if step.HearAnswer? then step.answer.request.client else step.client
  {
    hide Inv;
    var self := if step.HearAnswer? then step.answer.request.client else step.client;
    Member(s, self);
    hide Kept, Knows, Settles;
  }

  lemma AnswerReasoned(s: System, answer: Result, i: nat)
    requires Inv(s) && Local(s, HearAnswer(answer)).Some?
    ensures var next := Local(s, HearAnswer(answer)).value;
            && next.self in s.clients
            && var c := s.clients[next.self];
            && Settles(c, next)
            && (|c.posted| <= i < |next.posted| ==> Reasoned(s, HearAnswer(answer), next.self, next.posted[i]))
  {
    hide Inv;
    var Result(r, value) := answer;
    Member(s, r.client);
    hide Kept, Knows;
    var c, next := s.clients[r.client], Local(s, HearAnswer(answer)).value;
    RespondSettles(c, r.id, r.epoch, value);
  }

  lemma RespondSettles(c: Client, id: Id, epoch: Epoch, value: nat)
    ensures Settles(c, c.Respond(id, epoch, value))
    ensures c.Respond(id, epoch, value).posted ==
            c.posted + if IsLeader(c, epoch) && c.Waits(id) then [Served(id, epoch, value)] else []
  {
    var next := c.Respond(id, epoch, value);
    if IsLeader(c, epoch) && c.Waits(id) {
      assert next.posted[|c.posted|] == Served(id, epoch, value);
      forall other | c.Waits(other) ensures next.Waits(other) || Told(next, other) {
        var i :| 0 <= i < |c.pending| && c.pending[i].id == other;
        WaitsIn(next, c.pending[i]);
      }
    }
  }

  lemma EnqueueSettles(c: Client, id: Id, bytes: nat, transaction: Option<Epoch>)
    ensures var next := c.(issued := c.issued + {id}).Enqueue(id, bytes, transaction);
            Settles(c, next) && next.posted == c.posted
  {
    var next := c.(issued := c.issued + {id}).Enqueue(id, bytes, transaction);
    assert next.pending[|c.pending|].id == id;
    forall other | c.Waits(other) ensures next.Waits(other) {
      var i :| 0 <= i < |c.pending| && c.pending[i].id == other;
      assert next.pending[i] == c.pending[i];
    }
  }

  lemma RefuseReasoned(s: System, client: ClientId, id: Id, i: nat)
    requires Local(s, Refuse(client, id)).Some?
    ensures var c, next := s.clients[client], Local(s, Refuse(client, id)).value;
            && Settles(c, next)
            && (|c.posted| <= i < |next.posted| ==> Reasoned(s, Refuse(client, id), client, next.posted[i]))
  {
    var c := s.clients[client];
    var with := c.(issued := c.issued + {id});
    FailSettles(with, id);
    forall other | c.Waits(other) ensures with.Waits(other) {
    }
  }

  lemma DispatchReasoned(s: System, client: ClientId, index: nat, i: nat)
    requires Local(s, Dispatch(client, index)).Some?
    ensures var c, next := s.clients[client], Local(s, Dispatch(client, index)).value;
            && Settles(c, next)
            && (|c.posted| <= i < |next.posted| ==> Reasoned(s, Dispatch(client, index), client, next.posted[i]))
  {
    var c, next := s.clients[client], Local(s, Dispatch(client, index)).value;
    FailSettles(c, c.pending[index].id);
    if next.posted == c.posted {
      forall other | c.Waits(other) ensures next.Waits(other) {
        var j :| 0 <= j < |c.pending| && c.pending[j].id == other;
        assert next.pending[j].id == other;
      }
    }
  }

  lemma FailureReasoned(s: System, client: ClientId, epoch: Epoch, i: nat)
    requires Local(s, HearFailure(client, epoch)).Some?
    ensures var c, next := s.clients[client], Local(s, HearFailure(client, epoch)).value;
            && Settles(c, next)
            && (|c.posted| <= i < |next.posted| ==> Reasoned(s, HearFailure(client, epoch), client, next.posted[i]))
  {
    var c, next := s.clients[client], Local(s, HearFailure(client, epoch)).value;
    SameSettles(c, c.(terminal := true));
    FailPendingSettles(c.(terminal := true), false);
    SettlesTransitive(c, c.(terminal := true), c.(terminal := true).FailPending(false));
    SameSettles(c, c);
    if |c.posted| <= i < |next.posted| {
      var answer := next.posted[i];
      assert answer == Failing(c.pending, false)[i - |c.posted|];
      assert answer in Failing(c.pending, false);
      var entry :| entry in c.pending && answer == Failed(entry.id);
      WaitsIn(c, entry);
    }
  }

  /** Whether all that a step posts to a page has its reason, and no request is dropped. */
  ghost predicate Accounted(s: System, step: Step, client: ClientId)
    requires client in s.clients
  {
    && client in Take(s, step).clients
    && var c, next := s.clients[client], Take(s, step).clients[client];
    && Settles(c, next)
    && forall i :: |c.posted| <= i < |next.posted| ==> Reasoned(s, step, client, next.posted[i])
  }

  lemma SameAccounted(s: System, step: Step, client: ClientId)
    requires client in s.clients && Unmoved(s, Take(s, step), client)
    ensures Accounted(s, step, client)
  {
    hide Take;
    SameSettles(s.clients[client], Take(s, step).clients[client]);
  }

  /** Of every step, what it posts to a page has its reason: a failure is of a request that the coordinator gave up, and
      an answer is the one that an owner gave. And a request that no longer waits was answered. */
  lemma StepAccounted(s: System, step: Step, client: ClientId)
    requires Inv(s) && client in s.clients
    ensures Accounted(s, step, client)
  {
    hide Inv, Local, TakeReply, Settles, Reasoned;
    var local := Local(s, step);
    if local.Some? {
      LocalReasoned(s, step, 0);
      if local.value.self == client {
        var c, next := s.clients[client], local.value;
        forall i | |c.posted| <= i < |next.posted| ensures Reasoned(s, step, client, next.posted[i]) {
          LocalReasoned(s, step, i);
        }
      } else {
        SameAccounted(s, step, client);
      }
    } else if step.Reply? && step.client == client && s.clients[client].replies != [] {
      ReplyAccounted(s, client);
    } else if step.Open? && step.client == client {
      OpenAccounted(s, client, step.epoch);
    } else if step.ServeLocal? && step.client == client {
      ServeAccounted(s, client, step.id, step.epoch, step.value);
    } else {
      OthersSame(s, step, client);
      SameAccounted(s, step, client);
    }
  }

  lemma SelfOf(s: System, id: ClientId)
    requires Inv(s) && id in s.clients
    ensures s.clients[id].self == id
  {
    hide Inv, Kept, Knows;
    Member(s, id);
  }

  /** Whether a page's requests and answers are as they were. */
  ghost predicate Unmoved(s: System, after: System, client: ClientId)
    requires client in s.clients
  {
    && client in after.clients
    && after.clients[client].pending == s.clients[client].pending
    && after.clients[client].posted == s.clients[client].posted
    && after.clients[client].issued == s.clients[client].issued
  }

  lemma OthersSame(s: System, step: Step, client: ClientId)
    requires Inv(s) && client in s.clients && Local(s, step).None?
    requires !(step.Reply? && step.client == client && s.clients[client].replies != [])
    requires !(step.Open? && step.client == client) && !(step.ServeLocal? && step.client == client)
    ensures Unmoved(s, Take(s, step), client)
  {
    hide Inv, Local, Client.Announce, TakeReply, Holder;
    if step.Reply? || step.Open? || step.Elect? || step.Close? || step.ServeLocal? {
      if step.client in s.clients {
        SelfOf(s, step.client);
        if step.Reply? && s.clients[step.client].replies != [] {
          ReplySelf(s, s.clients[step.client]);
        } else if step.Open? {
          AnnounceSelf(s.clients[step.client],
                       Announcement(step.epoch, step.client, true, s.clients[step.client].release));
        }
      }
    }
  }

  lemma AnnounceSelf(c: Client, message: Announcement)
    ensures c.Announce(message).self == c.self
  {
  }

  lemma ReplySelf(s: System, c: Client)
    requires c.replies != []
    ensures TakeReply(s, c).clients.Keys == s.clients.Keys + {c.self}
    ensures forall other :: other in s.clients && other != c.self ==> TakeReply(s, c).clients[other] == s.clients[other]
  {
    var rest := c.(replies := c.replies[1..]);
    match c.replies[0].0
    case Check(sequence, message) => AnnounceSelf(rest.(acceptedSequence := sequence), message);
    case Own(epoch) => AnnounceSelf(rest, Announcement(epoch, c.self, false, c.release));
    hide Client.Announce;
  }

  /** What a client posts on taking an announcement has its reason. */
  lemma AnnouncedAccounted(s: System, step: Step, c: Client, base: Client, message: Announcement)
    requires (step.Reply? || step.Open?) && step.client == c.self && c.self in s.clients && s.clients[c.self] == c
    requires base == c.(replies := base.replies, acceptedSequence := base.acceptedSequence)
    requires c.self in Take(s, step).clients && Take(s, step).clients[c.self] == base.Announce(message)
    requires message in Take(s, step).announcements
    ensures Accounted(s, step, c.self)
  {
    hide Take, Client.Announce;
    AnnounceSettles(base, message);
    AnnouncedLeader(base, message);
    SameSettles(c, base);
    SettlesTransitive(c, base, base.Announce(message));
    var next := base.Announce(message);
    hide Settles;
    forall i | |c.posted| <= i < |next.posted| ensures Reasoned(s, step, c.self, next.posted[i]) {
      var answer := Announcing(base, message)[i - |c.posted|];
      assert answer == next.posted[i] && answer in Announcing(base, message);
      AnnouncingWhy(base, message, answer);
      var entry :| entry in c.pending && entry.id == answer.id &&
        ((entry.epoch.Some? && !IsLeader(c, message.epoch)) || message.release != c.release);
      assert HandedOver(s, c, Take(s, step), answer.id);
    }
  }

  lemma AnnouncedLeader(c: Client, message: Announcement)
    ensures !c.closed && message.release == c.release ==> c.Announce(message).leader == Some(message)
  {
  }

  lemma ReplyIs(s: System, client: ClientId)
    requires client in s.clients && s.clients[client].replies != []
    ensures Take(s, Reply(client)) == TakeReply(s, s.clients[client])
  {
    hide TakeReply;
  }

  lemma HeardNext(s: System, client: ClientId)
    requires Inv(s) && client in s.clients && s.clients[client].replies != []
    ensures s.clients[client].self == client && Heard(s, client, s.clients[client].replies[0].0)
  {
    hide Inv, Kept, Knows;
    Member(s, client);
    NextReply(s, s.clients[client]);
  }

  lemma ReplyAccounted(s: System, client: ClientId)
    requires Inv(s) && client in s.clients && s.clients[client].replies != []
    ensures Accounted(s, Reply(client), client)
  {
    hide Inv, Take, Local, Client.Announce, Accounted, Holder;
    HeardNext(s, client);
    ReplyIs(s, client);
    var c, step := s.clients[client], Reply(client);
    var (query, tenure) := c.replies[0];
    var rest := c.(replies := c.replies[1..]);
    match query
    case Check(sequence, message) =>
      AnnounceSelf(rest.(acceptedSequence := sequence), message);
      if sequence > c.acceptedSequence && Holder(s, tenure) == Some(message.owner) {
        AnnouncedAccounted(s, step, c, rest.(acceptedSequence := sequence), message);
      } else {
        SameAccounted(s, step, client);
      }
    case Own(epoch) =>
      AnnounceSelf(rest, Announcement(epoch, c.self, false, c.release));
      if c.closed || tenure != Some(epoch) {
        SameAccounted(s, step, client);
      } else {
        AnnouncedAccounted(s, step, c, rest, Announcement(epoch, c.self, false, c.release));
      }
  }

  /** An owner's announcement of its own, if it is in its tenure. */
  lemma OpenIs(s: System, client: ClientId, epoch: Epoch)
    requires client in s.clients && s.clients[client].self == client
    ensures var c, after := s.clients[client], Take(s, Open(client, epoch));
            var ready := Announcement(epoch, client, true, c.release);
            after == s || (after.clients == s.clients[client := c.Announce(ready)] && ready in after.announcements)
  {
    hide Client.Announce, Holder;
    AnnounceSelf(s.clients[client], Announcement(epoch, client, true, s.clients[client].release));
  }

  lemma OpenAccounted(s: System, client: ClientId, epoch: Epoch)
    requires Inv(s) && client in s.clients
    ensures Accounted(s, Open(client, epoch), client)
  {
    hide Inv, Take, Client.Announce, Accounted;
    SelfOf(s, client);
    OpenIs(s, client, epoch);
    var c, step := s.clients[client], Open(client, epoch);
    var ready := Announcement(epoch, client, true, c.release);
    if Take(s, step) == s {
      SameAccounted(s, step, client);
    } else {
      AnnouncedAccounted(s, step, c, c, ready);
    }
  }

  lemma ServeIs(s: System, client: ClientId, id: Id, epoch: Epoch, value: nat)
    requires client in s.clients && s.clients[client].self == client
    ensures var c, after := s.clients[client], Take(s, ServeLocal(client, id, epoch, value));
            || after == s
            || (&& epoch in s.serving && Holder(s, Some(epoch)) == Some(client) && id !in c.issued
                && client in after.clients && after.clients[client].pending == c.pending
                && after.clients[client].posted == c.posted + [Served(id, epoch, value)]
                && after.clients[client].issued == c.issued + {id}
                && after.results == s.results[Routed(client, id, epoch) := value])
  {
    hide Holder;
  }

  lemma ServeAccounted(s: System, client: ClientId, id: Id, epoch: Epoch, value: nat)
    requires Inv(s) && client in s.clients
    ensures Accounted(s, ServeLocal(client, id, epoch, value), client)
  {
    hide Inv, Take, Holder;
    SelfOf(s, client);
    ServeIs(s, client, id, epoch, value);
    var c, step := s.clients[client], ServeLocal(client, id, epoch, value);
    if Take(s, step) == s {
      SameSettles(c, c);
    } else {
      var next := Take(s, step).clients[client];
      assert next.posted[|c.posted|] == Served(id, epoch, value);
      assert Told(next, id);
      forall other | c.Waits(other) ensures next.Waits(other) {
        var i :| 0 <= i < |c.pending| && c.pending[i].id == other;
        assert next.pending[i] == c.pending[i];
      }
    }
  }

  /** Whether an owner answered that: it is what its engine made of the request, or the owner refused it. */
  ghost predicate Said(s: System, answer: Result) {
    || (answer.request in s.results && s.results[answer.request] == answer.value)
    || answer in s.refusals
  }

  /** What an engine makes of a request it does once, and an owner that refuses one does not run it. */
  ghost predicate Channels(s: System) {
    && (forall answer :: answer in s.answers ==> Said(s, answer))
    && (forall r :: r in s.results <==> r in s.runs)
    && forall answer :: answer in s.refusals ==>
         answer.request in s.gone && answer.request !in s.queued && answer.request !in s.runs
  }

  ghost predicate Truthful(s: System, client: ClientId)
    requires client in s.clients
  {
    forall i :: 0 <= i < |s.clients[client].posted| && s.clients[client].posted[i].Served? ==>
      var answer := s.clients[client].posted[i];
      Said(s, Result(Routed(client, answer.id, answer.epoch), answer.value))
  }

  /** What was said stays said. */
  ghost predicate SaysMore(s: System, after: System) {
    && s.refusals <= after.refusals
    && forall r :: r in s.results ==> r in after.results && after.results[r] == s.results[r]
  }

  lemma SaidStays(s: System, after: System, answer: Result)
    requires SaysMore(s, after) && Said(s, answer)
    ensures Said(after, answer)
  {
  }

  lemma RunSays(s: System, r: Routed, value: nat)
    requires Traffic(s) && Channels(s) && (r in s.queued || r !in s.gone)
    ensures SaysMore(s, s.(results := s.results[r := value]))
  {
    assert r !in s.runs;
  }

  lemma ChannelsKeep(s: System, step: Step)
    requires Inv(s) && Channels(s)
    ensures Channels(Take(s, step)) && SaysMore(s, Take(s, step))
  {
    hide Inv, Take, Channels, SaysMore;
    match step
    case Run(r, value) => RunChannels(s, r, value);
    case Reject(r, value) => RejectChannels(s, r, value);
    case Deliver(r, outcome, value) => DeliverChannels(s, r, outcome, value);
    case ServeLocal(client, id, epoch, value) => ServeChannels(s, client, id, epoch, value);
    case _ => SilentChannels(s, step);
  }

  lemma TrafficOf(s: System)
    requires Inv(s)
    ensures Traffic(s)
  {
  }

  lemma RunChannels(s: System, r: Routed, value: nat)
    requires Inv(s) && Channels(s)
    ensures Channels(Take(s, Run(r, value))) && SaysMore(s, Take(s, Run(r, value)))
  {
    hide Inv;
    TrafficOf(s);
    if r in s.queued && r.epoch in s.serving {
      RunSays(s, r, value);
      MoreChannels(s, Take(s, Run(r, value)), r);
    }
  }

  lemma RejectChannels(s: System, r: Routed, value: nat)
    requires Inv(s) && Channels(s)
    ensures Channels(Take(s, Reject(r, value))) && SaysMore(s, Take(s, Reject(r, value)))
  {
    hide Inv;
    TrafficOf(s);
    if r in s.queued && r.epoch in s.serving {
      MoreChannels(s, Take(s, Reject(r, value)), r);
    }
  }

  lemma DeliverChannels(s: System, r: Routed, outcome: Outcome, value: nat)
    requires Inv(s) && Channels(s)
    ensures Channels(Take(s, Deliver(r, outcome, value))) && SaysMore(s, Take(s, Deliver(r, outcome, value)))
  {
    hide Inv;
    TrafficOf(s);
    if r.client in s.clients && r in s.clients[r.client].sent && r !in s.gone {
      MoreChannels(s, Take(s, Deliver(r, outcome, value)), r);
    }
  }

  lemma MoreChannels(s: System, after: System, r: Routed)
    requires Traffic(s) && Channels(s) && SaysMore(s, after) && (r in s.queued || r !in s.gone)
    requires after.gone == s.gone + {r} && after.queued <= s.queued + {r}
    requires after.runs == s.runs || after.runs == s.runs + [r]
    requires after.results.Keys == s.results.Keys || after.results.Keys == s.results.Keys + {r}
    requires after.runs == s.runs + [r] <==> after.results.Keys == s.results.Keys + {r} && r !in s.results
    requires forall answer :: answer in after.answers ==> answer in s.answers || Said(after, answer)
    requires forall answer :: answer in after.refusals ==>
               answer in s.refusals || (answer.request == r && r !in after.queued && after.runs == s.runs)
    ensures Channels(after)
  {
    assert r !in s.runs;
    forall answer | answer in after.answers ensures Said(after, answer) {
      if answer in s.answers {
        SaidStays(s, after, answer);
      }
    }
    forall other ensures other in after.results <==> other in after.runs {
      assert other in after.results.Keys <==> other in after.results;
      assert other in s.results.Keys <==> other in s.results;
    }
  }

  lemma ServeChannels(s: System, client: ClientId, id: Id, epoch: Epoch, value: nat)
    requires Inv(s) && Channels(s)
    ensures var after := Take(s, ServeLocal(client, id, epoch, value));
            Channels(after) && SaysMore(s, after)
  {
    hide Inv, Holder;
    var after := Take(s, ServeLocal(client, id, epoch, value));
    if after != s {
      SelfOf(s, client);
      Unsent(s, client, Routed(client, id, epoch));
      RunSays(s, Routed(client, id, epoch), value);
      MoreChannels(s, after, Routed(client, id, epoch));
    }
  }

  lemma Unsent(s: System, client: ClientId, r: Routed)
    requires Inv(s) && client in s.clients && r.client == client && r.id !in s.clients[client].issued
    ensures r !in s.gone && Traffic(s)
  {
    hide Inv, Clients, Announced, Exclusive;
    Parts(s);
    Member(s, client);
    FreshUnsent(s.clients[client], r);
    UngoneUnsent(s, r);
  }

  lemma SilentChannels(s: System, step: Step)
    requires Channels(s) && !step.Run? && !step.Reject? && !step.Deliver? && !step.ServeLocal?
    ensures Channels(Take(s, step)) && SaysMore(s, Take(s, step))
  {
    hide Local, Client.Announce, Client.Checked, Holder;
    var after := Take(s, step);
    assert after.answers == s.answers && after.refusals == s.refusals && after.results == s.results;
    assert after.gone == s.gone && after.queued == s.queued && after.runs == s.runs;
    SameChannels(s, after);
  }

  lemma SameChannels(s: System, after: System)
    requires Channels(s) && after.answers == s.answers && after.refusals == s.refusals && after.results == s.results
    requires after.gone == s.gone && after.queued == s.queued && after.runs == s.runs
    ensures Channels(after)
  {
    forall answer | answer in after.answers ensures Said(after, answer) {
      assert Said(s, answer);
    }
  }

  lemma TruthKeeps(s: System, step: Step, client: ClientId)
    requires Inv(s) && Channels(s) && client in s.clients && Truthful(s, client)
    ensures client in Take(s, step).clients && Truthful(Take(s, step), client)
  {
    hide Inv, Take, Channels, Settles, GivenUp;
    StepAccounted(s, step, client);
    ChannelsKeep(s, step);
    var after := Take(s, step);
    var c, next := s.clients[client], after.clients[client];
    assert c.posted <= next.posted by { SettlesMore(c, next); }
    forall i | 0 <= i < |next.posted| && next.posted[i].Served?
      ensures var answer := next.posted[i]; Said(after, Result(Routed(client, answer.id, answer.epoch), answer.value))
    {
      var answer := next.posted[i];
      var result := Result(Routed(client, answer.id, answer.epoch), answer.value);
      if i < |c.posted| {
        assert answer == c.posted[i];
        SaidStays(s, after, result);
      } else {
        AnswerSaid(s, step, client, answer.id, answer.epoch, answer.value);
      }
    }
  }

  lemma SettlesMore(c: Client, next: Client)
    requires Settles(c, next)
    ensures c.posted <= next.posted && c.issued <= next.issued
  {
  }

  lemma AnswerSaid(s: System, step: Step, client: ClientId, id: Id, epoch: Epoch, value: nat)
    requires Inv(s) && Channels(s) && client in s.clients && IsAnswer(s, step, client, id, epoch, value)
    requires SaysMore(s, Take(s, step)) && (step.ServeLocal? ==> Take(s, step) != s)
    ensures Said(Take(s, step), Result(Routed(client, id, epoch), value))
  {
    hide Inv, Take, Holder, SaysMore;
    if step.HearAnswer? {
      SaidStays(s, Take(s, step), step.answer);
    } else {
      SelfOf(s, client);
      ServeIs(s, client, id, epoch, value);
    }
  }

  /** A page that has just opened. */
  lemma JoinedFresh(s: System, step: Step, client: ClientId)
    requires Inv(s) && client !in s.clients && client in Take(s, step).clients
    ensures Take(s, step).clients[client].posted == [] && Take(s, step).clients[client].issued == {}
  {
    hide Inv, Client.Announce, Client.Checked, Holder, TakeReply, Local;
    if Local(s, step).Some? {
      LocalClient(s, step);
    } else if step.Reply? && step.client in s.clients && s.clients[step.client].replies != [] {
      SelfOf(s, step.client);
      ReplySelf(s, s.clients[step.client]);
    } else if step.Open? && step.client in s.clients {
      SelfOf(s, step.client);
      OpenIs(s, step.client, step.epoch);
    } else if (step.Elect? || step.Close? || step.ServeLocal?) && step.client in s.clients {
      SelfOf(s, step.client);
    }
  }

  lemma StepsNext(steps: seq<Step>)
    requires steps != []
    ensures After(steps) == Take(After(steps[..|steps| - 1]), steps[|steps| - 1])
  {
  }

  lemma {:induction false} ChannelsAlways(steps: seq<Step>)
    ensures Channels(After(steps))
  {
    hide Take, Inv;
    if steps != [] {
      var before := steps[..|steps| - 1];
      ChannelsAlways(before);
      Invariant(before);
      ChannelsKeep(After(before), steps[|steps| - 1]);
    }
  }

  /** Over any run, what a page is told of a request is what an owner answered: what the engine that ran it made of it,
      or a refusal, and then no engine ever ran it. */
  lemma {:induction false} AnswersTrue(steps: seq<Step>, client: ClientId)
    requires client in After(steps).clients
    ensures Truthful(After(steps), client) && Channels(After(steps))
  {
    ChannelsAlways(steps);
    hide Take, Inv, Channels;
    if steps != [] {
      var before, last := steps[..|steps| - 1], steps[|steps| - 1];
      StepsNext(steps);
      Invariant(before);
      ChannelsAlways(before);
      hide After;
      if client in After(before).clients {
        AnswersTrue(before, client);
        TruthKeeps(After(before), last, client);
      } else {
        JoinedFresh(After(before), last, client);
      }
    }
  }

  /** Over any run, a page that is told of a failure is told so because its coordinator gave the request up. */
  lemma {:induction false} FailedWhy(steps: seq<Step>, client: ClientId, i: nat) returns (n: nat)
    requires client in After(steps).clients && i < |After(steps).clients[client].posted|
    requires After(steps).clients[client].posted[i].Failed?
    ensures n < |steps| && client in After(steps[..n]).clients
    ensures GivenUp(After(steps[..n]), steps[n], client, After(steps).clients[client].posted[i].id)
  {
    hide Take, Inv, GivenUp, Settles;
    var before, last := steps[..|steps| - 1], steps[|steps| - 1];
    n := |steps| - 1;
    StepsNext(steps);
    Invariant(before);
    hide After;
    if client in After(before).clients {
      StepAccounted(After(before), last, client);
      SettlesMore(After(before).clients[client], After(steps).clients[client]);
      if i < |After(before).clients[client].posted| {
        n := FailedWhy(before, client, i);
        assert before[..n] == steps[..n];
      }
    } else {
      JoinedFresh(After(before), last, client);
    }
  }

  /** Over any run, no request of a page is dropped: it waits, or the page was told of it, and not both. */
  lemma {:induction false} NoneDropped(steps: seq<Step>, client: ClientId)
    requires client in After(steps).clients
    ensures var c := After(steps).clients[client];
            forall id :: id in c.issued ==> (c.Waits(id) <==> !Told(c, id))
  {
    hide Take, Inv, Settles, Told, Client.Waits;
    NoneLost(steps, client);
    AnswerOnce(steps, client);
    hide After;
    var c := After(steps).clients[client];
    forall id | c.Waits(id) ensures !Told(c, id) {
      NotBoth(c, id);
    }
  }

  lemma NotBoth(c: Client, id: Id)
    requires forall entry, answer :: entry in c.pending && answer in c.posted ==> entry.id != answer.id
    requires c.Waits(id)
    ensures !Told(c, id)
  {
    var i :| 0 <= i < |c.pending| && c.pending[i].id == id;
    assert c.pending[i] in c.pending;
  }

  lemma {:induction false} NoneLost(steps: seq<Step>, client: ClientId)
    requires client in After(steps).clients
    ensures var c := After(steps).clients[client]; forall id :: id in c.issued ==> c.Waits(id) || Told(c, id)
  {
    hide Take, Inv, Reasoned, Told, Client.Waits, Settles;
    if steps != [] {
      var before, last := steps[..|steps| - 1], steps[|steps| - 1];
      StepsNext(steps);
      Invariant(before);
      hide After;
      if client in After(before).clients {
        NoneLost(before, client);
        StepAccounted(After(before), last, client);
        LostNone(After(before).clients[client], After(steps).clients[client]);
      } else {
        JoinedFresh(After(before), last, client);
      }
    }
  }

  lemma LostNone(c: Client, next: Client)
    requires Settles(c, next) && forall id :: id in c.issued ==> c.Waits(id) || Told(c, id)
    ensures forall id :: id in next.issued ==> next.Waits(id) || Told(next, id)
  {
    forall id | id in next.issued ensures next.Waits(id) || Told(next, id) {
      if Told(c, id) {
        TellsMore(c, next, id);
      }
    }
  }
}
