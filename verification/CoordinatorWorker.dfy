/** The coordinator as it runs in a tab's Worker: its variables, and its handlers, each of which is the function of
    `Coordinators` that the protocol is proved of (coordinator.ts). */
module CoordinatorWorkers {
  import opened Coordinators

  const MAX_PENDING_REQUESTS := 256
  const MAX_QUEUED_BYTES := 8 * 1024 * 1024

  function Bytes(pending: seq<Pending>): nat {
    if pending == [] then 0 else pending[0].bytes + Bytes(pending[1..])
  }

  lemma {:induction false} BytesAppend(pending: seq<Pending>, entry: Pending)
    ensures Bytes(pending + [entry]) == Bytes(pending) + entry.bytes
  {
    if pending == [] {
      assert pending + [entry] == [entry];
    } else {
      BytesAppend(pending[1..], entry);
      assert (pending + [entry])[1..] == pending[1..] + [entry];
    }
  }

  lemma {:induction false} BytesWithout(pending: seq<Pending>, i: nat)
    requires Apart(pending) && i < |pending|
    ensures Bytes(Without(pending, pending[i].id)) + pending[i].bytes == Bytes(pending)
    ensures |Without(pending, pending[i].id)| + 1 == |pending|
  {
    ApartRest(pending);
    if i == 0 {
      WithoutNone(pending[1..], pending[0].id);
      assert Without(pending, pending[0].id) == pending[1..];
    } else {
      assert pending[1..][i - 1] == pending[i];
      BytesWithout(pending[1..], i - 1);
    }
  }

  lemma {:induction false} WithoutNone(pending: seq<Pending>, id: Id)
    requires forall entry :: entry in pending ==> entry.id != id
    ensures Without(pending, id) == pending
  {
    if pending != [] {
      WithoutNone(pending[1..], id);
    }
  }

  lemma {:induction false} BytesUpdate(pending: seq<Pending>, i: nat, entry: Pending)
    requires i < |pending| && entry.bytes == pending[i].bytes
    ensures Bytes(pending[i := entry]) == Bytes(pending)
  {
    if i > 0 {
      BytesUpdate(pending[1..], i - 1, entry);
      assert pending[i := entry][1..] == pending[1..][i - 1 := entry];
    }
  }

  /** Dispatches each of the requests that still waits, in turn. */
  function DispatchEach(c: Client, ids: seq<Id>): Client
    decreases |ids|
  {
    if ids == [] then c
    else DispatchEach(if Place(c.pending, ids[0]).Some? then c.Dispatch(Place(c.pending, ids[0]).value) else c,
                      ids[1..])
  }

  /** Once each of the requests that wait has had its turn, none is still to be sent. */
  lemma {:induction false} DispatchEachSends(c: Client, ids: seq<Id>)
    requires Apart(c.pending)
    requires forall entry :: entry in c.pending ==> entry.epoch.Some? || entry.id in ids
    ensures AllSent(DispatchEach(c, ids))
    decreases |ids|
  {
    if ids != [] {
      var place := Place(c.pending, ids[0]);
      var next := if place.Some? then c.Dispatch(place.value) else c;
      if !c.closed && c.registered && c.leader.Some? && c.leader.value.ready {
        forall entry | entry in next.pending ensures entry.epoch.Some? || entry.id in ids[1..] {
          if place.Some? {
            DispatchOne(c, place.value, entry);
          }
        }
        if place.Some? {
          DispatchApart(c, place.value);
        }
        DispatchEachSends(next, ids[1..]);
      } else {
        DispatchIdle(c, ids);
      }
    }
  }

  lemma DispatchOne(c: Client, i: nat, entry: Pending)
    requires Apart(c.pending) && i < |c.pending| && entry in c.Dispatch(i).pending
    requires !c.closed && c.registered && c.leader.Some? && c.leader.value.ready
    ensures entry.id == c.pending[i].id ==> entry.epoch.Some?
    ensures entry.id != c.pending[i].id ==> entry in c.pending
  {
    if c.pending[i].epoch.Some? && entry.id == c.pending[i].id {
      var j :| 0 <= j < |c.pending| && c.pending[j] == entry;
    }
  }

  lemma DispatchApart(c: Client, i: nat)
    requires Apart(c.pending) && i < |c.pending|
    ensures Apart(c.Dispatch(i).pending)
  {
    WithoutApart(c.pending, c.pending[i].id);
  }

  /** Where the owner takes no requests, none is sent. */
  lemma {:induction false} DispatchIdle(c: Client, ids: seq<Id>)
    requires c.closed || !c.registered || c.leader.None? || !c.leader.value.ready
    ensures DispatchEach(c, ids) == c
    decreases |ids|
  {
    if ids != [] {
      DispatchIdle(c, ids[1..]);
    }
  }

  lemma IdsCover(c: Client)
    ensures forall entry :: entry in c.pending ==> entry.id in Ids(c.pending)
  {
    forall entry | entry in c.pending ensures entry.id in Ids(c.pending) {
      var i :| 0 <= i < |c.pending| && c.pending[i] == entry;
      assert Ids(c.pending)[i] == entry.id;
    }
  }

  function Place(pending: seq<Pending>, id: Id): (place: Option<nat>)
    ensures match place
            case Some(i) => i < |pending| && pending[i].id == id
            case None => forall i :: 0 <= i < |pending| ==> pending[i].id != id
  {
    if pending == [] then None
    else if pending[0].id == id then Some(0)
    else match Place(pending[1..], id)
      case Some(i) => Some(i + 1)
      case None =>
        assert forall i :: 0 < i < |pending| ==> pending[i] == pending[1..][i - 1];
        None
  }

  class Coordinator {
    const self: ClientId
    const release: nat
    var pending: seq<Pending>
    var pendingBytes: nat
    var leader: Option<Announcement>
    var announcementSequence: nat
    var acceptedSequence: nat
    var registered: bool
    var terminal: bool
    var closed: bool
    /** What the handlers posted to the page and to owners, and what the page and the lock manager were asked. */
    var posted: seq<Answer>
    var sent: set<Routed>
    ghost var issued: set<Id>
    ghost var queries: seq<Query>
    ghost var replies: seq<(Query, Option<Epoch>)>

    ghost function Now(): Client
      reads this
    {
      Client(self, release, issued, pending, posted, sent, leader, announcementSequence, acceptedSequence, queries,
             replies, registered, terminal, closed)
    }

    /** The bytes counted are those of the requests that wait, and they and their number are bounded. */
    ghost predicate Valid()
      reads this
    {
      && Apart(pending) && pendingBytes == Bytes(pending)
      && |pending| <= MAX_PENDING_REQUESTS + 8 && pendingBytes <= MAX_QUEUED_BYTES + 8192
    }

    method RemovePending(id: Id) returns (found: bool)
      requires Valid()
      modifies this`pending, this`pendingBytes
      ensures Valid() && pending == Without(old(pending), id) && found == old(Now()).Waits(id)
    {
      var place := Place(pending, id);
      WithoutApart(pending, id);
      found := place.Some?;
      if found {
        BytesWithout(pending, place.value);
        pendingBytes := pendingBytes - pending[place.value].bytes;
      } else {
        WithoutNone(pending, id);
      }
      pending := Without(pending, id);
    }

    method Fail(id: Id)
      requires Valid()
      modifies this`pending, this`pendingBytes, this`posted
      ensures Valid() && Now() == old(Now()).Fail(id)
    {
      var _ := RemovePending(id);
      posted := posted + [Failed(id)];
    }

    /** Fails what waits, or what of it was dispatched, in the order in which it waits. */
    method FailPending(dispatchedOnly: bool)
      requires Valid()
      modifies this`pending, this`pendingBytes, this`posted
      ensures Valid() && Now() == old(Now()).FailPending(dispatchedOnly)
    {
      hide Staying, Failing, Without, Bytes;
      ghost var entries, was, kept := pending, posted, [];
      var rest := pending;
      while rest != []
        invariant Valid() && pending == kept + rest
        invariant kept + Staying(rest, dispatchedOnly) == Staying(entries, dispatchedOnly)
        invariant posted + Failing(rest, dispatchedOnly) == was + Failing(entries, dispatchedOnly)
        decreases |rest|
      {
        var entry, others := rest[0], rest[1..];
        assert rest == [entry] + others && pending == kept + [entry] + others;
        if !dispatchedOnly || entry.epoch.Some? {
          WithoutOne(kept, entry, others);
          FailFirst(posted, entry, others, dispatchedOnly);
          Fail(entry.id);
        } else {
          StayFirst(kept, entry, others, dispatchedOnly);
          kept := kept + [entry];
        }
        rest := others;
      }
      FailNone(kept, posted, dispatchedOnly);
    }

    /** Sends a waiting request to the owner, once. */
    method Dispatch(i: nat)
      requires Valid() && i < |pending|
      modifies this`pending, this`pendingBytes, this`posted, this`sent
      ensures Valid() && Now() == old(Now()).Dispatch(i)
    {
      var entry := pending[i];
      if closed || !registered || entry.epoch.Some? || leader.None? || !leader.value.ready {
        return;
      }
      if entry.transaction.Some? && entry.transaction != Some(leader.value.epoch) {
        Fail(entry.id);
        return;
      }
      BytesUpdate(pending, i, entry.(epoch := Some(leader.value.epoch)));
      pending := pending[i := entry.(epoch := Some(leader.value.epoch))];
      sent := sent + {Routed(self, entry.id, leader.value.epoch)};
    }

    /** Takes an announcement as the present owner's, and sends that owner what waits. */
    method Announce(message: Announcement)
      requires Valid()
      modifies this`pending, this`pendingBytes, this`posted, this`sent, this`leader, this`terminal
      ensures Valid()
      ensures var announced := old(Now()).Announce(message);
              Now() == if old(closed) || message.release != release || !message.ready then announced
                       else DispatchEach(announced, Ids(announced.pending))
      ensures AllSent(Now())
    {
      if closed {
        return;
      }
      if message.release != release {
        FailPending(true);
        terminal := true;
        FailPending(false);
        NothingWaits(old(Now()), 0, message);
        return;
      }
      if leader.None? || leader.value.epoch != message.epoch {
        FailPending(true);
      }
      leader := Some(message);
      if message.ready {
        IdsCover(Now());
        DispatchEachSends(Now(), Ids(pending));
        DispatchAll(Ids(pending));
      }
    }

    method DispatchAll(ids: seq<Id>)
      requires Valid()
      modifies this`pending, this`pendingBytes, this`posted, this`sent
      ensures Valid() && Now() == DispatchEach(old(Now()), ids)
    {
      for i := 0 to |ids|
        invariant Valid() && DispatchEach(Now(), ids[i..]) == DispatchEach(old(Now()), ids)
        invariant registered == old(registered) && terminal == old(terminal)
      {
        assert ids[i..][0] == ids[i] && ids[i..][1..] == ids[i + 1..];
        var place := Place(pending, ids[i]);
        if place.Some? {
          Dispatch(place.value);
        }
      }
    }

    /** An owner's answer: passed on to the page, if it comes from the present owner and its request still waits. */
    method Response(id: Id, epoch: Epoch, value: nat)
      requires Valid()
      modifies this`pending, this`pendingBytes, this`posted
      ensures Valid() && Now() == old(Now()).Respond(id, epoch, value)
      ensures var taken := leader.Some? && leader.value.epoch == epoch && old(Now()).Waits(id);
              && posted == old(posted) + (if taken then [Served(id, epoch, value)] else [])
              && forall entry :: entry in pending <==> entry in old(pending) && !(taken && entry.id == id)
      ensures old(AllSent(Now())) ==> AllSent(Now())
    {
      if leader.None? || leader.value.epoch != epoch {
        return;
      }
      var found := RemovePending(id);
      if found {
        posted := posted + [Served(id, epoch, value)];
      } else {
        assert pending == old(pending) by { NotWaiting(old(pending), id); }
      }
    }

    /** The lock manager's answer to a check of an announcement. */
    method Checked(sequence: nat, message: Announcement, holder: Option<ClientId>)
      requires Valid()
      modifies this`pending, this`pendingBytes, this`posted, this`sent, this`leader, this`terminal,
               this`acceptedSequence
      ensures Valid()
      ensures var announced := old(Now()).Checked(sequence, message, holder);
              var taken := sequence > old(acceptedSequence) && holder == Some(message.owner);
              Now() == if taken && !old(closed) && message.release == release && message.ready
                       then DispatchEach(announced, Ids(announced.pending)) else announced
      ensures old(AllSent(Now())) ==> AllSent(Now())
    {
      if sequence > acceptedSequence && holder == Some(message.owner) {
        acceptedSequence := sequence;
        Announce(message);
      }
    }

    /** A request from the page: it waits, within the bounds that leave room for what ends a transaction, and is sent to
        the owner; or it fails at once. */
    method Receive(id: Id, bytes: nat, transaction: Option<Epoch>, cleanup: bool)
      requires Valid() && !Now().Waits(id)
      modifies this`pending, this`pendingBytes, this`posted, this`sent
      ensures Valid()
      ensures var c := old(Now());
              var full := bytes > MAX_QUEUED_BYTES ||
                          |c.pending| >= MAX_PENDING_REQUESTS + (if cleanup then 8 else 0) ||
                          Bytes(c.pending) + bytes > MAX_QUEUED_BYTES + (if cleanup then 8192 else 0);
              Now() == if c.closed then c
                       else if c.terminal || full then c.Fail(id)
                       else c.Enqueue(id, bytes, transaction).Dispatch(|c.pending|)
      ensures old(AllSent(Now())) ==> AllSent(Now())
    {
      if closed {
        return;
      }
      if terminal
         || bytes > MAX_QUEUED_BYTES || |pending| >= MAX_PENDING_REQUESTS + (if cleanup then 8 else 0)
         || pendingBytes + bytes > MAX_QUEUED_BYTES + (if cleanup then 8192 else 0)
      {
        Fail(id);
        return;
      }
      var entry := Pending(id, bytes, transaction, None);
      BytesAppend(pending, entry);
      pending := pending + [entry];
      pendingBytes := pendingBytes + bytes;
      Dispatch(|pending| - 1);
    }
  }

  function Ids(pending: seq<Pending>): seq<Id> {
    seq(|pending|, i requires 0 <= i < |pending| => pending[i].id)
  }

  lemma NotWaiting(pending: seq<Pending>, id: Id)
    requires forall i :: 0 <= i < |pending| ==> pending[i].id != id
    ensures Without(pending, id) == pending
  {
    WithoutNone(pending, id);
  }

  lemma FailNone(kept: seq<Pending>, posted: seq<Answer>, dispatchedOnly: bool)
    ensures kept + [] == kept + Staying([], dispatchedOnly) == kept
    ensures posted + [] == posted + Failing([], dispatchedOnly) == posted
  {
  }

  lemma FailFirst(posted: seq<Answer>, entry: Pending, others: seq<Pending>, dispatchedOnly: bool)
    requires !dispatchedOnly || entry.epoch.Some?
    ensures posted + Failing([entry] + others, dispatchedOnly) ==
            posted + [Failed(entry.id)] + Failing(others, dispatchedOnly)
    ensures Staying([entry] + others, dispatchedOnly) == Staying(others, dispatchedOnly)
  {
    assert ([entry] + others)[1..] == others;
  }

  lemma StayFirst(kept: seq<Pending>, entry: Pending, others: seq<Pending>, dispatchedOnly: bool)
    requires dispatchedOnly && entry.epoch.None?
    ensures kept + Staying([entry] + others, dispatchedOnly) == kept + [entry] + Staying(others, dispatchedOnly)
    ensures Failing([entry] + others, dispatchedOnly) == Failing(others, dispatchedOnly)
  {
    assert ([entry] + others)[1..] == others;
  }

  lemma {:induction false} WithoutOne(before: seq<Pending>, entry: Pending, rest: seq<Pending>)
    requires Apart(before + [entry] + rest)
    ensures Without(before + [entry] + rest, entry.id) == before + rest
  {
    var pending := before + [entry] + rest;
    ApartRest(pending);
    if before == [] {
      assert pending[1..] == rest && before + rest == rest;
      WithoutNone(rest, entry.id);
    } else {
      assert pending[1..] == before[1..] + [entry] + rest;
      assert before + rest == [before[0]] + (before[1..] + rest);
      assert entry in pending[1..];
      WithoutOne(before[1..], entry, rest);
    }
  }

  /** What `Announce` sends, it sends as the protocol's steps do, one request at a time. */
  lemma {:induction false} DispatchEachKeeps(c: Client, ids: seq<Id>)
    requires Kept(c)
    ensures Kept(DispatchEach(c, ids))
    decreases |ids|
  {
    if ids != [] {
      var place := Place(c.pending, ids[0]);
      if place.Some? {
        DispatchKeeps(c, place.value);
        DispatchEachKeeps(c.Dispatch(place.value), ids[1..]);
      } else {
        DispatchEachKeeps(c, ids[1..]);
      }
    }
  }
}
