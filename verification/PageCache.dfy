/** The copy-on-write page cache (cache.rs). */
module PageCaches {
  import opened Devices
  import opened CacheStates

  const FIRST_DATA_PAGE_ID := 6
  const MAX_PAGE_COUNT := 65536
  const MAX_WRITE_RUN_PAGES := 256

  datatype Error =
    | MetadataPage | PastLastPage | AllocatedPage | PresentInCommittedView | OtherCandidateActive
    | PageReserved | PageNotReserved | NotInitialized
    | NotFlushed | OverlapsCommittedView | NeverWritten | MissingFromNextBitmap | NotWrittenYet
    | NoEvictionCandidate | DeviceFailed | VerificationFailed

  datatype Option<+T> = None | Some(value: T)

  datatype Outcome<+T> = Done(value: T) | Failed(error: Error)

  /** The pages an allocation bitmap allocates. */
  type Bitmap = ids: set<PageId> | forall id :: id in ids ==> id < MAX_PAGE_COUNT witness {}

  class PageCache {
    var device: Device
    var entries: seq<Entry>
    var lookup: map<Key, nat>
    var reservations: map<PageId, Reservation>
    var unflushedOwners: set<Owner>
    var hand: nat
    const capacity: nat
    const digest: seq<bv8> -> bv32

    /** The committed view, as the device has it, and what the candidate has written, as it was last written. */
    ghost var committed: map<PageId, Page>
    ghost var candidate: map<PageId, Written>

    ghost function Now(): Cache
      reads this
    {
      Cache(device, entries, lookup, reservations, unflushedOwners, hand, capacity, digest, committed, candidate)
    }

    ghost predicate Held()
      reads this
    {
      Now().Consistent() && Now().Tracked()
    }

    ghost predicate Valid()
      reads this
    {
      Now().Valid()
    }

    function Sealed(entry: Entry): (sealed: Entry)
      reads this
      ensures sealed == Now().Sealed(entry)
    {
      if entry.unsealed then entry.(page := entry.page.(checksum := digest(entry.page.body)), unsealed := false)
      else entry
    }

    /** An entry gets its checksum, if it still needs one. */
    method Seal(index: nat)
      requires Held() && index < |entries|
      modifies this`entries
      ensures Held() && old(Now()).Same(Now())
      ensures entries == old(entries[index := Sealed(entries[index])])
    {
      hide Cache.Consistent, Cache.Tracked;
      ghost var c := Now();
      SealKeeps(c, index);
      entries := entries[index := Sealed(entries[index])];
      assert Now() == c.(entries := c.entries[index := c.Sealed(c.entries[index])]);
    }

    /** Extends the device with zero pages up to `id`. */
    method PadTo(id: PageId) returns (ok: bool)
      requires Held()
      modifies this`device
      ensures Held() && old(Now()).Same(Now())
      ensures old(device.pages) <= device.pages
      ensures ok ==> id <= |device.pages|
      ensures device.faults >= old(device.faults) && (ok <==> device.faults == old(device.faults))
    {
      hide Cache.Consistent, Cache.Tracked, Cache.Writable;
      ghost var c := Now();
      EndWritable(c, id);
      ok, device := Pad(device, id);
      WriteKeeps(c, device, |c.device.pages|, id);
      assert Now() == c.(device := device);
    }

    /** An entry whose page reached the device is clean, and its owner needs a flush. */
    method MarkWritten(index: nat)
      requires Held() && index < |entries| && !entries[index].unsealed
      requires entries[index].id < |device.pages| && device.pages[entries[index].id] == entries[index].page
      modifies this`entries, this`unflushedOwners
      ensures Held() && old(Now()).Same(Now())
      ensures entries == old(entries[index := entries[index].(dirty := false)])
    {
      hide Cache.Consistent, Cache.Tracked;
      ghost var c := Now();
      WrittenKeeps(c, index);
      entries := entries[index := entries[index].(dirty := false)];
      unflushedOwners := unflushedOwners + {entries[index].owner};
      assert Now() == c.(entries := c.entries[index := c.entries[index].(dirty := false)],
                         unflushed := c.unflushed + {c.entries[index].owner});
    }

    /** Sends a dirty entry to the device, after zero pages up to it where the file ends before it. */
    method WriteEntry(index: nat) returns (ok: bool)
      requires Held() && index < |entries| && entries[index].dirty
      modifies this`device, this`entries, this`unflushedOwners
      ensures Held() && old(Now()).Same(Now())
      ensures |entries| == |old(entries)|
      ensures forall i :: 0 <= i < |entries| && i != index ==> entries[i] == old(entries[i])
      ensures entries[index].Key() == old(entries[index].Key())
      ensures ok ==> entries[index] == old(Sealed(entries[index])).(dirty := false)
      ensures entries[index].referenced == old(entries[index].referenced)
      ensures Spares(old(device), device, old(entries[index]))
      ensures device.faults >= old(device.faults) && (ok <==> device.faults == old(device.faults))
    {
      hide Cache.Consistent, Cache.Tracked, Cache.Writable;
      Seal(index);
      ok := PadTo(entries[index].id);
      if !ok {
        return;
      }
      ghost var c := Now();
      OwnWritable(c, index);
      ok, device := Write(device, entries[index].id, entries[index].page);
      WriteKeeps(c, device, entries[index].id, entries[index].id + 1);
      assert Now() == c.(device := device);
      if ok {
        MarkWritten(index);
      }
    }

    /** Moves the clock's hand past one entry, which from then on was not used lately. */
    method Advance() returns (index: nat, referenced: bool)
      requires Held() && hand < |entries|
      modifies this`entries, this`hand
      ensures Held() && old(Now()).Same(Now())
      ensures index == old(hand) && hand == if index + 1 < |entries| then index + 1 else 0
      ensures entries == old(entries[hand := entries[hand].(referenced := false)])
      ensures referenced == old(entries[hand].referenced)
    {
      hide Cache.Consistent, Cache.Tracked;
      ghost var c := Now();
      index := hand;
      assert (hand + 1) % |entries| == if index + 1 < |entries| then index + 1 else 0;
      ReferenceKeeps(c, index, false, (hand + 1) % |entries|);
      hand := (hand + 1) % |entries|;
      referenced := entries[index].referenced;
      if referenced {
        entries := entries[index := entries[index].(referenced := false)];
      } else {
        assert entries == entries[index := entries[index].(referenced := false)];
      }
      assert Now() == c.(entries := c.entries[index := c.entries[index].(referenced := false)], hand := hand);
    }

    /** Passes over each entry used since the last pass, and stops at one that was not: one that was used lately only
        if all were. A working device always yields one: the source's error for finding none in two passes cannot
        arise. */
    method FindVictim() returns (result: Outcome<nat>)
      requires Held() && 0 < |entries| && hand < |entries|
      modifies this`device, this`entries, this`unflushedOwners, this`hand
      ensures Held() && old(Now()).Same(Now())
      ensures |entries| == |old(entries)|
      ensures match result
              case Done(index) =>
                && index < |entries| && !entries[index].dirty && Spares(old(device), device, old(entries)[index])
                && (old(entries)[index].referenced ==> forall i :: 0 <= i < |entries| ==> old(entries)[i].referenced)
              case Failed(error) => error == DeviceFailed
      ensures device.faults >= old(device.faults) && (result.Done? <==> device.faults == old(device.faults))
    {
      hide Cache.Consistent, Cache.Tracked;
      ghost var start, n, was := hand, |entries|, entries;
      for attempt := 0 to |entries| * 2
        invariant Held() && old(Now()).Same(Now()) && device == old(device)
        invariant |entries| == n && attempt <= n
        invariant hand == if start + attempt < n then start + attempt else start + attempt - n
        invariant forall i :: 0 <= i < n ==>
                    if start <= i < start + attempt || i < start + attempt - n
                    then was[i].referenced && entries[i] == was[i].(referenced := false)
                    else entries[i] == was[i]
      {
        var index, referenced := Advance();
        if referenced {
          continue;
        }
        if entries[index].dirty {
          ghost var c := Now();
          var ok := WriteEntry(index);
          SameTransitive(old(Now()), c, Now());
          if !ok {
            return Failed(DeviceFailed);
          }
        }
        return Done(index);
      }
      assert false;
      return Failed(NoEvictionCandidate);
    }

    /** Puts a new entry after the others or in a victim's place. For a page the candidate writes, `written` is what it
        has then written. */
    method Insert(entry: Entry, ghost written: map<PageId, Written>) returns (result: Outcome<nat>)
      requires Held() && entry.Key() !in lookup && Now().(candidate := written).EntryHolds(entry)
      requires written == candidate ||
               (entry.owner.Candidate? && entry.dirty &&
                written == candidate[entry.id := Written(entry.page, entry.unsealed)])
      modifies this`device, this`entries, this`lookup, this`unflushedOwners, this`hand, this`candidate
      ensures Held() && old(Now()).(candidate := candidate).Same(Now())
      ensures match result
              case Done(index) => index < |entries| && entries[index] == entry && candidate == written
              case Failed(error) => error == DeviceFailed && candidate == old(candidate)
      ensures device.faults >= old(device.faults) && (result.Done? <==> device.faults == old(device.faults))
    {
      hide Cache.Consistent, Cache.Tracked, Cache.EntryHolds, Adds, Spares;
      Bounded(Now());
      var index := |entries|;
      if |entries| == capacity {
        ghost var c := Now();
        var victim := FindVictim();
        if victim.Failed? {
          return Failed(victim.error);
        }
        index := victim.value;
        SparedHolds(c, Now(), index, entry, written);
      }
      result := Fill(index, entry, written);
    }

    /** The entry goes to `index`, and the entry that was there is no longer cached. */
    method Fill(index: nat, entry: Entry, ghost written: map<PageId, Written>) returns (result: Outcome<nat>)
      requires Held() && entry.Key() !in lookup && Now().(candidate := written).EntryHolds(entry)
      requires written == candidate ||
               (entry.owner.Candidate? && entry.dirty &&
                written == candidate[entry.id := Written(entry.page, entry.unsealed)])
      requires index <= |entries| && if index == |entries| then index < capacity else !entries[index].dirty
      modifies this`entries, this`lookup, this`hand, this`candidate
      ensures Held() && candidate == written && old(Now()).(candidate := written).Same(Now())
      ensures result == Done(index) && index < |entries| && entries[index] == entry
    {
      hide Cache.Consistent, Cache.Tracked, Cache.EntryHolds, Adds;
      ghost var c := Now();
      AddsHolds(c, index, entry, written);
      AddKeeps(c, c.Place(index, entry).(candidate := written), index, entry);
      candidate := written;
      if index == |entries| {
        lookup := lookup[entry.Key() := index];
        entries := entries + [entry];
      } else {
        lookup := (lookup - {entries[index].Key()})[entry.Key() := index];
        entries := entries[index := entry];
        hand := (index + 1) % |entries|;
      }
      assert Now() == c.Place(index, entry).(candidate := written);
      return Done(index);
    }

    /** Sends a run of dirty entries for consecutive pages to the device in one call. */
    method WriteRun(run: seq<nat>, bytes: seq<Page>) returns (ok: bool)
      requires Held() && RunReady(Now(), run, bytes)
      modifies this`device, this`entries, this`unflushedOwners
      ensures Held() && old(Now()).Same(Now())
      ensures |entries| == |old(entries)|
      ensures forall i :: 0 <= i < |entries| ==>
                entries[i] == if ok && i in run then old(entries)[i].(dirty := false) else old(entries)[i]
      ensures device.faults >= old(device.faults) && (ok <==> device.faults == old(device.faults))
    {
      hide Cache.Consistent, Cache.Tracked, Cache.Writable, Touches;
      if run == [] {
        return true;
      }
      ghost var was := entries;
      var first := entries[run[0]].id;
      ok := PadTo(first);
      if !ok {
        return;
      }
      ghost var c := Now();
      RunWritable(c, run, bytes);
      ok, device := WriteAll(device, first, bytes);
      WriteKeeps(c, device, first, first + |bytes|);
      assert Now() == c.(device := device);
      if !ok {
        return;
      }
      MarkRun(run);
    }

    /** Every entry of a run is on the device. */
    method MarkRun(run: seq<nat>)
      requires Held() && forall k :: 0 <= k < |run| ==>
                 && run[k] < |entries| && !entries[run[k]].unsealed && entries[run[k]].id < |device.pages|
                 && device.pages[entries[run[k]].id] == entries[run[k]].page
      modifies this`entries, this`unflushedOwners
      ensures Held() && old(Now()).Same(Now())
      ensures |entries| == |old(entries)|
      ensures forall i :: 0 <= i < |entries| ==>
                entries[i] == if i in run then old(entries)[i].(dirty := false) else old(entries)[i]
    {
      hide Cache.Consistent, Cache.Tracked;
      ghost var was := entries;
      for k := 0 to |run|
        invariant Held() && old(Now()).Same(Now()) && |entries| == |was|
        invariant forall i :: 0 <= i < |entries| ==>
                    entries[i] == if i in run[..k] then was[i].(dirty := false) else was[i]
      {
        assert run[..k + 1] == run[..k] + [run[k]];
        MarkWritten(run[k]);
      }
      assert run[..|run|] == run;
    }

    /** Removes one entry, if present; the last takes its place, so that only one index changes. */
    method RemoveEntry(key: Key)
      requires Now().Indexed()
      modifies this`entries, this`lookup, this`hand
      ensures Now() == old(Now()).Remove(key)
    {
      if key !in lookup {
        return;
      }
      var index, last := lookup[key], |entries| - 1;
      lookup := lookup - {key};
      entries := if index == last then entries[..last] else entries[index := entries[last]][..last];
      if index < |entries| {
        lookup := lookup[entries[index].Key() := index];
      }
      if hand >= |entries| {
        hand := 0;
      }
    }

    method ReadDevice(id: PageId) returns (ok: bool, page: Page)
      requires Held()
      modifies this`device
      ensures Held() && Now() == old(Now()).(device := device) && old(Now()).Same(Now())
      ensures ok ==> id < |device.pages| && page == device.pages[id]
      ensures device == old(device).(faults := old(device.faults) + if ok || id >= |device.pages| then 0 else 1)
    {
      hide Cache.Consistent, Cache.Tracked;
      ghost var c := Now();
      ok, page, device := Read(device, id);
      FaultKeeps(c, device);
      assert Now() == c.(device := device);
    }

    /** A read fails only if the device did, or has no such page, or has one that does not pass. */
    predicate FailsFor(result: Outcome<Page>, id: PageId, verify: Page -> bool, was: Device, now: Device) {
      match result
      case Done(_) => now.faults == was.faults
      case Failed(DeviceFailed) => now.faults > was.faults || id >= |was.pages|
      case Failed(VerificationFailed) => id < |was.pages| && !verify(was.pages[id])
      case Failed(_) => now == was
    }

    /** A read of a page of either view: from the cache, or else from the device, verified and then cached. */
    method ReadOwned(owner: Owner, id: PageId, verify: Page -> bool) returns (result: Outcome<Page>)
      requires Valid()
      requires if owner == Committed then id !in reservations
               else id in candidate && id in reservations && owner == Candidate(reservations[id].candidate)
      modifies this`device, this`entries, this`lookup, this`unflushedOwners, this`hand, this`candidate
      ensures Valid() && old(Now()).Same(Now())
      ensures (owner, id) in old(lookup) ==>
                var index := old(lookup)[(owner, id)];
                && Now() == old(Now()).(entries := old(entries)[index := old(entries)[index].(referenced := true)])
                && result == Done(entries[index].page)
      ensures match result
              case Done(page) =>
                if owner == Committed then id in committed ==> page == committed[id]
                else Now().Holds(page, candidate[id])
              case Failed(error) => error == DeviceFailed || error == VerificationFailed
      ensures device.faults >= old(device.faults) && FailsFor(result, id, verify, old(device), device)
    {
      hide Cache.Consistent, Cache.Tracked;
      if (owner, id) in lookup {
        var index := lookup[(owner, id)];
        CachedHolds(Now(), owner, id);
        ReferenceKeeps(Now(), index, true, hand);
        entries := entries[index := entries[index].(referenced := true)];
        return Done(entries[index].page);
      }
      DeviceHolds(Now(), owner, id);
      var ok, page := ReadDevice(id);
      if !ok {
        return Failed(DeviceFailed);
      }
      if !verify(page) {
        return Failed(VerificationFailed);
      }
      var entry := Entry(id, owner, page, true, false, false);
      var index := Insert(entry, candidate);
      if index.Failed? {
        return Failed(index.error);
      }
      return Done(entries[index.value].page);
    }

    /** An empty cache over a device whose committed view is `active`. */
    constructor (device: Device, capacity: nat, digest: seq<bv8> -> bv32, ghost active: set<PageId>)
      requires 1 <= capacity
      requires forall id :: id in active ==> id < |device.pages|
      ensures Valid() && this.device == device && entries == [] && reservations == map[] && candidate == map[]
      ensures this.capacity == capacity && this.digest == digest
      ensures committed == map id | id in active :: device.pages[id]
    {
      this.device, this.capacity, this.digest := device, capacity, digest;
      entries, lookup, reservations, unflushedOwners, hand := [], map[], map[], {}, 0;
      committed, candidate := map id | id in active :: device.pages[id], map[];
    }

    /** A committed read: the page as it was published, sealed if it was to be, whatever was evicted since. A cached
        page is returned as it is, and only marked as used. */
    method ReadPage(id: PageId, verify: Page -> bool) returns (result: Outcome<Page>)
      requires Valid()
      modifies this`device, this`entries, this`lookup, this`unflushedOwners, this`hand, this`candidate
      ensures Valid() && old(Now()).Same(Now())
      ensures result == Failed(PageReserved) <==> id in reservations
      ensures (Committed, id) in old(lookup) && id !in reservations ==>
                var index := old(lookup)[(Committed, id)];
                && Now() == old(Now()).(entries := old(entries)[index := old(entries)[index].(referenced := true)])
                && result == Done(entries[index].page)
      ensures match result
              case Done(page) => id in committed ==> page == committed[id]
              case Failed(error) => error in {PageReserved, DeviceFailed, VerificationFailed}
      ensures FailsFor(result, id, verify, old(device), device)
    {
      hide Cache.Consistent, Cache.Tracked;
      if id in reservations {
        return Failed(PageReserved);
      }
      result := ReadOwned(Committed, id, verify);
    }

    /** Where the page is cached, when no page is reserved: for a caller that reads it without `ReadPage`. No index is
        past the entries. */
    method CachedIndex(id: PageId) returns (found: Option<nat>)
      requires Valid()
      ensures found.None? <==> reservations != map[] || (Committed, id) !in lookup
      ensures found.Some? ==> found.value == lookup[(Committed, id)] && found.value < |entries|
    {
      if reservations != map[] || (Committed, id) !in lookup {
        return None;
      }
      return Some(lookup[(Committed, id)]);
    }

    /** With `CachedIndex`, leaves the state and returns the page that `ReadPage` would. */
    method CachedPage(index: nat) returns (page: Page)
      requires Valid() && index < |entries|
      modifies this`entries
      ensures Valid() &&
              Now() == old(Now()).(entries := old(entries)[index := old(entries)[index].(referenced := true)])
      ensures page == entries[index].page
    {
      hide Cache.Consistent, Cache.Tracked;
      Bounded(Now());
      ReferenceKeeps(Now(), index, true, hand);
      entries := entries[index := entries[index].(referenced := true)];
      return entries[index].page;
    }

    predicate ReservedBy(owner: CandidateId, id: PageId)
      reads this
    {
      id in reservations && reservations[id].candidate == owner
    }

    /** A candidate's read of a page it reserved: the page as it last wrote it, sealed or not. */
    method ReadCandidatePage(owner: CandidateId, id: PageId, verify: Page -> bool) returns (result: Outcome<Page>)
      requires Valid()
      modifies this`device, this`entries, this`lookup, this`unflushedOwners, this`hand, this`candidate
      ensures Valid() && old(Now()).Same(Now())
      ensures result == Failed(PageNotReserved) <==> !ReservedBy(owner, id)
      ensures result == Failed(NotInitialized) <==> ReservedBy(owner, id) && id !in candidate
      ensures match result
              case Done(page) => id in candidate && Now().Holds(page, candidate[id])
              case Failed(error) => error in {PageNotReserved, NotInitialized, DeviceFailed, VerificationFailed}
      ensures FailsFor(result, id, verify, old(device), device)
    {
      hide Cache.Consistent, Cache.Tracked;
      if !ReservedBy(owner, id) {
        return Failed(PageNotReserved);
      }
      if !reservations[id].written {
        return Failed(NotInitialized);
      }
      result := ReadOwned(Candidate(owner), id, verify);
    }

    /** Reserves a data page that the active bitmap does not allocate, for the one candidate there may be. */
    method Reserve(owner: CandidateId, id: PageId, active: Bitmap) returns (result: Outcome<()>)
      requires Valid()
      modifies this`reservations
      ensures result.Failed? || id in old(reservations) || id !in committed ==> Valid()
      ensures result.Done? <==>
                && FIRST_DATA_PAGE_ID <= id < MAX_PAGE_COUNT && id !in active && (Committed, id) !in lookup
                && forall other :: other in old(reservations) ==> old(reservations)[other].candidate == owner
      ensures reservations == if result.Done? && id !in old(reservations)
                              then old(reservations)[id := Reservation(owner, false)] else old(reservations)
    {
      hide Cache.Consistent, Cache.Tracked;
      if id < FIRST_DATA_PAGE_ID {
        return Failed(MetadataPage);
      }
      if id >= MAX_PAGE_COUNT {
        return Failed(PastLastPage);
      }
      if id in active {
        return Failed(AllocatedPage);
      }
      if (Committed, id) in lookup {
        return Failed(PresentInCommittedView);
      }
      OneOwner(Now());
      if reservations != map[] {
        var first :| first in reservations;
        if reservations[first].candidate != owner {
          return Failed(OtherCandidateActive);
        }
      }
      if id !in reservations {
        ghost var c := Now();
        if id !in committed {
          ReserveKeeps(c, id, owner);
        }
        reservations := reservations[id := Reservation(owner, false)];
        assert Now() == c.(reservations := c.reservations[id := Reservation(owner, false)]);
      }
      return Done(());
    }

    /** A candidate's write of a page it reserved, which the cache may seal later. A failure changes no page. */
    method WriteCandidate(owner: CandidateId, id: PageId, page: Page, unsealed: bool) returns (result: Outcome<()>)
      requires Valid()
      modifies this
      ensures Valid()
      ensures old(Now()).(candidate := candidate, reservations := reservations).Same(Now())
      ensures result == Failed(PageNotReserved) <==> !old(ReservedBy(owner, id))
      ensures match result
              case Done(_) =>
                && candidate == old(candidate)[id := Written(page, unsealed)]
                && reservations == old(reservations)[id := Reservation(owner, true)]
              case Failed(error) =>
                && candidate == old(candidate) && reservations == old(reservations)
                && error in {PageNotReserved, DeviceFailed}
      ensures result == Failed(DeviceFailed) <==> device.faults > old(device.faults)
    {
      hide Cache.Consistent, Cache.Tracked;
      if !ReservedBy(owner, id) {
        return Failed(PageNotReserved);
      }
      var ok := WriteOwned(owner, id, page, unsealed);
      if !ok {
        return Failed(DeviceFailed);
      }
      ghost var c := Now();
      MarkKeeps(c, id);
      reservations := reservations[id := reservations[id].(written := true)];
      assert Now() == c.(reservations := c.reservations[id := c.reservations[id].(written := true)]);
      return Done(());
    }

    /** Over the cached copy of the page, or in a new entry. */
    method WriteOwned(owner: CandidateId, id: PageId, page: Page, unsealed: bool) returns (ok: bool)
      requires Valid() && ReservedBy(owner, id)
      modifies this`device, this`entries, this`lookup, this`unflushedOwners, this`hand, this`candidate
      ensures Held() && old(Now()).(candidate := candidate).Same(Now())
      ensures candidate == if ok then old(candidate)[id := Written(page, unsealed)] else old(candidate)
      ensures device.faults >= old(device.faults) && (ok <==> device.faults == old(device.faults))
    {
      hide Cache.Consistent, Cache.Tracked;
      var key := (Candidate(owner), id);
      if key in lookup {
        var index := lookup[key];
        CachedHolds(Now(), Candidate(owner), id);
        OverwriteKeeps(Now(), index, page, unsealed);
        ghost var c := Now();
        entries := entries[index := entries[index].(page := page, referenced := true, dirty := true,
                                                    unsealed := unsealed)];
        candidate := candidate[id := Written(page, unsealed)];
        assert Now() == c.(entries := c.entries[index := c.entries[index].(page := page, referenced := true,
                                                                           dirty := true, unsealed := unsealed)],
                           candidate := c.candidate[id := Written(page, unsealed)]);
        return true;
      }
      var index := Insert(Entry(id, Candidate(owner), page, true, true, unsealed),
                          candidate[id := Written(page, unsealed)]);
      return index.Done?;
    }

    /** A candidate gives one page up: it is as if it had never reserved it, and no other page changes. */
    method Release(owner: CandidateId, id: PageId) returns (result: Outcome<()>)
      requires Valid()
      modifies this`entries, this`lookup, this`hand, this`reservations, this`unflushedOwners, this`candidate
      ensures Valid()
      ensures result.Done? <==> old(ReservedBy(owner, id))
      ensures result.Failed? ==> Now() == old(Now())
      ensures result.Done? ==> candidate == old(candidate) - {id} && reservations == old(reservations) - {id}
    {
      hide Cache.Consistent, Cache.Tracked;
      if !ReservedBy(owner, id) {
        return Failed(PageNotReserved);
      }
      Drop(owner, id);
      if reservations == map[] {
        Unreserved(Now(), owner);
        ghost var c := Now();
        unflushedOwners := unflushedOwners - {Candidate(owner)};
        assert Now() == c.(unflushed := c.unflushed - {Candidate(owner)});
      }
      return Done(());
    }

    /** Forgets a reservation and what was written under it. */
    method Drop(owner: CandidateId, id: PageId)
      requires Valid() && ReservedBy(owner, id)
      modifies this`entries, this`lookup, this`hand, this`reservations, this`candidate
      ensures Valid() && candidate == old(candidate) - {id} && reservations == old(reservations) - {id}
    {
      hide Cache.Consistent, Cache.Tracked;
      ghost var c := Now();
      DropCandidateKeeps(c, id);
      reservations := reservations - {id};
      candidate := candidate - {id};
      IsIndexed(c);
      SameIndexed(c, Now());
      RemoveEntry((Candidate(owner), id));
      assert Now() == c.Remove((Candidate(owner), id)).(reservations := c.reservations - {id},
                                                        candidate := c.candidate - {id});
    }

    /** The pages a candidate reserved. */
    function Own(owner: CandidateId): set<PageId>
      reads this
    {
      set id | id in reservations && reservations[id].candidate == owner
    }

    /** Forgets a candidate: the committed view and the device are as they were, and its pages are nobody's. */
    method Invalidate(owner: CandidateId)
      requires Valid()
      modifies this`entries, this`lookup, this`hand, this`reservations, this`unflushedOwners, this`candidate
      ensures Valid() && unflushedOwners == old(unflushedOwners) - {Candidate(owner)}
      ensures reservations == old(reservations) - old(Own(owner)) && candidate == old(candidate) - old(Own(owner))
      ensures forall id :: (Candidate(owner), id) !in lookup
    {
      hide Cache.Consistent, Cache.Tracked;
      DropAll(owner);
      Unreserved(Now(), owner);
      ghost var c := Now();
      unflushedOwners := unflushedOwners - {Candidate(owner)};
      assert Now() == c.(unflushed := c.unflushed - {Candidate(owner)});
    }

    method DropAll(owner: CandidateId)
      requires Valid()
      modifies this`entries, this`lookup, this`hand, this`reservations, this`candidate
      ensures Valid()
      ensures reservations == old(reservations) - old(Own(owner)) && candidate == old(candidate) - old(Own(owner))
    {
      hide Cache.Valid;
      var reserved := Own(owner);
      ghost var all, dropped := reserved, {};
      MinusNone(reservations);
      MinusNone(candidate);
      while reserved != {}
        invariant Valid()
        invariant dropped !! reserved && dropped + reserved == all
        invariant forall id :: id in reserved ==> ReservedBy(owner, id)
        invariant reservations == old(reservations) - dropped && candidate == old(candidate) - dropped
        decreases |reserved|
      {
        var id :| id in reserved;
        Drop(owner, id);
        MinusNext(old(reservations), dropped, id);
        MinusNext(old(candidate), dropped, id);
        dropped, reserved := dropped + {id}, reserved - {id};
      }
      assert dropped == all;
    }

    /** Whether the candidate's page is cached with changes the device lacks. */
    predicate Dirty(owner: CandidateId, id: PageId)
      reads this
    {
      var key := (Candidate(owner), id);
      key in lookup && lookup[key] < |entries| && entries[lookup[key]].dirty
    }

    /** Adds an entry to the run it follows, sealed. */
    method Gather(run: seq<nat>, bytes: seq<Page>, index: nat) returns (longer: seq<nat>, more: seq<Page>)
      requires Held() && RunReady(Now(), run, bytes) && index < |entries| && entries[index].dirty
      requires run != [] ==> entries[index].id == entries[run[|run| - 1]].id + 1
      modifies this`entries
      ensures Held() && old(Now()).Same(Now()) && |entries| == |old(entries)|
      ensures RunReady(Now(), longer, more) && longer == run + [index]
      ensures forall i :: 0 <= i < |entries| ==>
                entries[i].Key() == old(entries)[i].Key() && entries[i].dirty == old(entries)[i].dirty
    {
      hide Cache.Consistent, Cache.Tracked;
      Seal(index);
      longer, more := run + [index], bytes + [entries[index].page];
    }

    /** Adds an entry to a run, or to a new one where it does not follow: what is left is then sent first. */
    method Extend(run: seq<nat>, bytes: seq<Page>, index: nat) returns (ok: bool, longer: seq<nat>, more: seq<Page>)
      requires Held() && RunReady(Now(), run, bytes) && index < |entries| && entries[index].dirty
      requires run != [] ==> entries[run[|run| - 1]].id < entries[index].id
      modifies this`device, this`entries, this`unflushedOwners
      ensures Held() && old(Now()).Same(Now()) && |entries| == |old(entries)|
      ensures ok ==> RunReady(Now(), longer, more) && longer != [] && longer[|longer| - 1] == index
      ensures forall i :: 0 <= i < |entries| ==>
                && entries[i].Key() == old(entries)[i].Key() && (entries[i].dirty ==> old(entries)[i].dirty)
                && (ok && i in run && entries[i].dirty ==> i in longer)
      ensures device.faults >= old(device.faults) && (ok <==> device.faults == old(device.faults))
    {
      hide Cache.Consistent, Cache.Tracked, Cache.Indexed;
      ok, longer, more := true, run, bytes;
      if run == [] || entries[run[|run| - 1]].id + 1 != entries[index].id || |run| == MAX_WRITE_RUN_PAGES {
        ok := WriteRun(run, bytes);
        if !ok {
          return;
        }
        longer, more := [], [];
      }
      longer, more := Gather(longer, more, index);
    }

    /** Sends the candidate's dirty pages to the device, each run of consecutive pages in one call. */
    method WriteCandidatePages(owner: CandidateId, pages: seq<PageId>) returns (ok: bool)
      requires Valid() && forall i, j :: 0 <= i < j < |pages| ==> pages[i] < pages[j]
      modifies this`device, this`entries, this`unflushedOwners
      ensures Valid() && old(Now()).Same(Now())
      ensures ok ==> forall id :: id in pages ==> !Dirty(owner, id)
      ensures device.faults >= old(device.faults) && (ok <==> device.faults == old(device.faults))
    {
      hide Cache.Consistent, Cache.Tracked, Cache.Indexed;
      var run: seq<nat>, bytes: seq<Page> := [], [];
      for n := 0 to |pages|
        invariant Held() && old(Now()).Same(Now()) && |entries| == |old(entries)|
        invariant RunReady(Now(), run, bytes) && device.faults == old(device.faults)
        invariant run != [] ==> n > 0 && entries[run[|run| - 1]].id <= pages[n - 1]
        invariant forall j :: 0 <= j < n && Dirty(owner, pages[j]) ==> lookup[(Candidate(owner), pages[j])] in run
      {
        var key := (Candidate(owner), pages[n]);
        if key !in lookup {
          continue;
        }
        var index := lookup[key];
        CachedHolds(Now(), Candidate(owner), pages[n]);
        if !entries[index].dirty {
          continue;
        }
        ok, run, bytes := Extend(run, bytes, index);
        if !ok {
          return;
        }
      }
      ok := WriteRun(run, bytes);
    }

    /** Makes every page sent to the device durable. */
    method FlushDevice() returns (ok: bool)
      requires Valid()
      modifies this`device, this`unflushedOwners
      ensures Valid() && old(Now()).Same(Now()) && device.pages == old(device.pages)
      ensures ok ==> device.pending == {} && unflushedOwners == {}
      ensures !ok ==> Now() == old(Now()).(device := old(device).(faults := old(device.faults) + 1))
      ensures ok ==> device.faults == old(device.faults)
    {
      hide Cache.Consistent, Cache.Tracked;
      ghost var c := Now();
      FlushKeeps(c);
      FaultKeeps(c, c.device.(faults := c.device.faults + 1));
      ok, device := Flush(device);
      if ok {
        unflushedOwners := {};
        assert Now() == c.(device := c.device.(pending := {}), unflushed := {});
      } else {
        assert Now() == c.(device := c.device.(faults := c.device.faults + 1));
      }
    }

    /** The checksum of a candidate's page as the device holds it: its own, or its seal if it was written without. */
    method CandidatePageChecksum(owner: CandidateId, id: PageId, verify: Page -> bool) returns (result: Outcome<bv32>)
      requires Valid()
      modifies this`device
      ensures Valid() && old(Now()).Same(Now()) && device.pages == old(device.pages)
      ensures match result
              case Done(checksum) =>
                && ReservedBy(owner, id) && id < |device.pages| && checksum == device.pages[id].checksum
                && (id in candidate ==> device.pages[id] == Sent(digest, candidate[id]))
              case Failed(error) => error in {PageNotReserved, NotWrittenYet, DeviceFailed, VerificationFailed}
      ensures result == Failed(PageNotReserved) <==> !ReservedBy(owner, id)
      ensures result == Failed(NotWrittenYet) <==> ReservedBy(owner, id) && Dirty(owner, id)
      ensures result == Failed(DeviceFailed) ==> device.faults > old(device.faults) || id >= |device.pages|
      ensures result == Failed(VerificationFailed) ==> id < |device.pages| && !verify(device.pages[id])
    {
      if !ReservedBy(owner, id) {
        return Failed(PageNotReserved);
      }
      var key := (Candidate(owner), id);
      assert id in candidate ==> Now().CandidateHolds(id);
      if key in lookup {
        var entry := entries[lookup[key]];
        assert Now().EntryHolds(entry);
        if entry.dirty || entry.unsealed {
          return Failed(NotWrittenYet);
        }
        return Done(entry.page.checksum);
      }
      var ok, page := ReadDevice(id);
      if !ok {
        return Failed(DeviceFailed);
      }
      if !verify(page) {
        return Failed(VerificationFailed);
      }
      return Done(page.checksum);
    }

    /** A candidate may be installed once every page it reserved is written, in the next bitmap and durable. */
    ghost predicate Installable(owner: CandidateId, next: Bitmap)
      reads this
    {
      && Candidate(owner) !in unflushedOwners
      && forall id :: id in Own(owner) ==> id in candidate && id in next && !Dirty(owner, id)
    }

    /** The committed view with the freed pages gone and the candidate's pages, as the device has them, over the rest.
        */
    ghost function Published(owner: CandidateId, active: Bitmap, next: Bitmap): map<PageId, Page>
      reads this
    {
      Laid(committed - (active - next), Sending(digest, candidate), Own(owner))
    }

    /** Whether a candidate may be installed. The source's error for a cached committed page under a reserved ID cannot
        arise. */
    method Check(owner: CandidateId, next: Bitmap) returns (result: Outcome<()>)
      requires Valid()
      ensures result.Done? <==> Installable(owner, next)
      ensures result.Failed? ==> result.error in {NotFlushed, NeverWritten, MissingFromNextBitmap, PastLastPage}
    {
      hide Cache.Consistent, Cache.Tracked, Cache.Indexed;
      var own := Own(owner);
      if (exists id :: id in own && Dirty(owner, id)) || Candidate(owner) in unflushedOwners {
        return Failed(NotFlushed);
      }
      NoOverlap(Now());
      if exists id :: id in own && (Committed, id) in lookup {
        return Failed(OverlapsCommittedView);
      }
      if exists id :: id in own && !reservations[id].written {
        return Failed(NeverWritten);
      }
      if exists id :: id in own && id >= MAX_PAGE_COUNT {
        return Failed(PastLastPage);
      }
      if exists id :: id in own && id !in next {
        return Failed(MissingFromNextBitmap);
      }
      return Done(());
    }

    /** Makes a candidate's pages the committed view, and drops the committed pages its commit freed. It does so wholly
        or, where the candidate is not ready, not at all; and every page it publishes is durable. */
    method Install(owner: CandidateId, active: Bitmap, next: Bitmap) returns (result: Outcome<()>)
      requires Valid()
      modifies this`entries, this`lookup, this`hand, this`reservations, this`committed, this`candidate
      ensures Valid()
      ensures result.Done? <==> old(Installable(owner, next))
      ensures result.Failed? ==>
                Now() == old(Now()) && result.error in {NotFlushed, NeverWritten, MissingFromNextBitmap, PastLastPage}
      ensures result.Done? ==>
                && committed == old(Published(owner, active, next))
                && candidate == old(candidate) - old(Own(owner)) && reservations == old(reservations) - old(Own(owner))
                && (forall id :: id in old(Own(owner)) ==> id !in device.pending)
                && (forall id :: id in active && id !in next ==> (Committed, id) !in lookup)
                && (forall id :: (Candidate(owner), id) !in lookup)
    {
      hide Cache.Consistent, Cache.Tracked, Cache.Indexed;
      result := Check(owner, next);
      if result.Failed? {
        return;
      }
      NoOverlap(Now());
      InFile(Now());
      Durable(Now(), owner);
      var freed := set id | id in active && id !in next && id < |device.pages|;
      hide Laid;
      MinusSame(committed, freed, active - next);
      DropFreed(freed, owner);
      Publish(owner);
    }

    /** Removes the committed pages a commit freed. */
    method DropFreed(freed: set<PageId>, owner: CandidateId)
      requires Valid()
      modifies this`entries, this`lookup, this`hand, this`committed
      ensures Valid() && committed == old(committed) - freed
      ensures forall key :: key in lookup ==> key in old(lookup) && !(key.0 == Committed && key.1 in freed)
      ensures forall id :: Dirty(owner, id) ==> old(Dirty(owner, id))
    {
      hide Cache.Consistent, Cache.Tracked, Cache.Indexed, Cache.Remove;
      ghost var c := Now();
      UncommitKeeps(c, freed);
      committed := committed - freed;
      assert Now() == c.(committed := c.committed - freed);
      var rest := freed;
      while rest != {}
        invariant Valid() && rest <= freed && committed == old(committed) - freed
        invariant forall key :: key in lookup ==> key in old(lookup) && !(key.0 == Committed && key.1 in freed - rest)
        invariant forall id :: Dirty(owner, id) ==> old(Dirty(owner, id))
        decreases |rest|
      {
        var id :| id in rest;
        ghost var before := Now();
        IsIndexed(before);
        RemoveRemoves(before, (Committed, id));
        DropCommittedKeeps(before, id);
        RemoveEntry((Committed, id));
        rest := rest - {id};
      }
    }

    /** Makes each of the candidate's pages the committed view's. */
    method Publish(owner: CandidateId)
      requires Valid()
      requires forall id :: id in Own(owner) ==> id in candidate && (Committed, id) !in lookup && !Dirty(owner, id)
      modifies this`entries, this`lookup, this`reservations, this`committed, this`candidate
      ensures Valid()
      ensures committed == old(Laid(committed, Sending(digest, candidate), Own(owner)))
      ensures candidate == old(candidate) - old(Own(owner)) && reservations == old(reservations) - old(Own(owner))
      ensures forall key :: key in lookup ==> key in old(lookup) || (key.0 == Committed && key.1 in old(Own(owner)))
      ensures forall id :: (Candidate(owner), id) !in lookup
    {
      hide Cache.Consistent, Cache.Tracked, Cache.Indexed;
      hide Laid;
      MinusNone(reservations);
      var own := PublishEntries(owner);
      reservations := reservations - own;
      Unreserved(Now(), owner);
    }

    method PublishEntries(owner: CandidateId) returns (own: set<PageId>)
      requires Publishing({}) && Publishable(owner, Own(owner)) && Own(owner) <= candidate.Keys
      modifies this`entries, this`lookup, this`committed, this`candidate
      ensures own == Own(owner) && Publishing(own)
      ensures committed == old(Laid(committed, Sending(digest, candidate), Own(owner)))
      ensures candidate == old(candidate) - own
      ensures forall key :: key in lookup ==> key in old(lookup) || (key.0 == Committed && key.1 in own)
    {
      hide Publishing, Publishable, Laid;
      MinusNone(candidate);
      LaidNone(committed, Sending(digest, candidate));
      own := Own(owner);
      var rest := own;
      ghost var published := {};
      ghost var was, all, under := lookup, candidate, committed;
      ghost var over := Sending(digest, all);
      while rest != {}
        invariant published !! rest && published + rest == own
        invariant Publishing(published) && Publishable(owner, rest)
        invariant committed == Laid(under, over, published)
        invariant candidate == all - published && own <= all.Keys
        invariant forall key :: key in lookup ==> key in was || (key.0 == Committed && key.1 in own)
        decreases |rest|
      {
        var id :| id in rest;
        PublishPage(owner, id, rest, published);
        LaidNext(under, over, published, id);
        MinusNext(all, published, id);
        published, rest := published + {id}, rest - {id};
      }
      assert published == own;
    }

    /** What holds while a candidate's pages become the committed view's, `published` so far: all that does of a state
        in which those are no longer reserved. */
    ghost predicate Publishing(published: set<PageId>)
      reads this
    {
      var now := Now().(reservations := reservations - published);
      now.Consistent() && now.Tracked()
    }

    ghost predicate Publishable(owner: CandidateId, ids: set<PageId>)
      reads this
    {
      forall id :: id in ids ==>
        ReservedBy(owner, id) && id in candidate && (Committed, id) !in lookup && !Dirty(owner, id)
    }

    /** Re-keys a candidate's page, if cached, as the committed view's. */
    method PublishPage(owner: CandidateId, id: PageId, ghost ids: set<PageId>, ghost published: set<PageId>)
      requires Publishing(published) && Publishable(owner, ids) && id in ids && id !in published
      modifies this`entries, this`lookup, this`committed, this`candidate
      ensures Publishing(published + {id}) && Publishable(owner, ids - {id})
      ensures committed == old(committed)[id := Sent(digest, old(candidate)[id])] && candidate == old(candidate) - {id}
      ensures forall key :: key in lookup ==> key in old(lookup) || key == (Committed, id)
    {
      hide Cache.Consistent, Cache.Tracked, Cache.Indexed;
      ghost var c := Now().(reservations := reservations - published);
      MovesHolds(c, id);
      var key := (Candidate(owner), id);
      if key in lookup {
        var index := lookup[key];
        entries := entries[index := entries[index].(owner := Committed, referenced := true)];
        lookup := (lookup - {key})[(Committed, id) := index];
      }
      committed := committed[id := Sent(digest, candidate[id])];
      candidate := candidate - {id};
      assert reservations - (published + {id}) == c.reservations - {id};
      MovesKeeps(c, Now().(reservations := reservations - (published + {id})), id);
    }
  }
}
