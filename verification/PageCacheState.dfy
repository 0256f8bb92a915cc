/** The page device below the cache: a dense sequence of pages whose operations may fail (device.rs). */
module Devices {
  type PageId = nat

  /** A page's bytes and, apart, its checksum field. */
  datatype Page = Page(body: seq<bv8>, checksum: bv32)

  /** `pending` are the pages written since the last successful flush, and `faults` is how often the device failed. */
  datatype Device = Device(pages: seq<Page>, pending: set<PageId>, faults: nat)

  /** Only pages from `low` up to `high` may differ, and the device may have grown up to `high`. */
  ghost predicate Touches(before: Device, after: Device, low: PageId, high: PageId) {
    && |before.pages| <= |after.pages|
    && (|after.pages| > |before.pages| ==> |after.pages| <= high)
    && (forall id :: 0 <= id < |before.pages| && !(low <= id < high) ==> after.pages[id] == before.pages[id])
    && before.pending <= after.pending && before.faults <= after.faults
    && (forall id :: id in after.pending && id !in before.pending ==> low <= id < high)
  }

  method Read(device: Device, id: PageId) returns (ok: bool, page: Page, after: Device)
    ensures ok ==> id < |device.pages| && page == device.pages[id]
    ensures after == device.(faults := after.faults)
    ensures after.faults == device.faults + if ok || id >= |device.pages| then 0 else 1
  {
    ok := *;
    page, after := Page([], 0), device;
    if id >= |device.pages| {
      ok := false;
    } else if ok {
      page := device.pages[id];
    } else {
      after := device.(faults := device.faults + 1);
    }
  }

  /** Replaces a page or appends the next one. A failure leaves that page unknown, and no other. */
  method Write(device: Device, id: PageId, page: Page) returns (ok: bool, after: Device)
    ensures Touches(device, after, id, id + 1)
    ensures ok ==> id < |after.pages| && after.pages[id] == page
    ensures !ok && id > |device.pages| ==> after == device
    ensures id <= |device.pages| ==> after.faults == device.faults + if ok then 0 else 1
  {
    ok := *;
    var reaches: bool := *;
    var stored: Page := *;
    after := device;
    if id > |device.pages| {
      ok := false;
    } else if ok || reaches {
      var written := if ok then page else stored;
      var pages := if id == |device.pages| then device.pages + [written] else device.pages[id := written];
      after := Device(pages, device.pending + {id}, device.faults);
    }
    if !ok && id <= |device.pages| {
      after := after.(faults := after.faults + 1);
    }
  }

  /** Writes consecutive pages. A failure may have written any of them, but no other. */
  method WriteAll(device: Device, first: PageId, pages: seq<Page>) returns (ok: bool, after: Device)
    ensures Touches(device, after, first, first + |pages|)
    ensures ok ==> first + |pages| <= |after.pages| || pages == []
    ensures ok ==> forall i :: 0 <= i < |pages| ==> after.pages[first + i] == pages[i]
    ensures first <= |device.pages| ==> (ok <==> after.faults == device.faults)
  {
    ok, after := true, device;
    for i := 0 to |pages|
      invariant ok && Touches(device, after, first, first + i)
      invariant i > 0 ==> first + i <= |after.pages|
      invariant first <= |device.pages| ==> after.faults == device.faults
      invariant forall j :: 0 <= j < i ==> after.pages[first + j] == pages[j]
    {
      ok, after := Write(after, first + i, pages[i]);
      if !ok {
        return;
      }
    }
  }

  const ZEROS := Page(seq(4092, _ => 0 as bv8), 0)

  /** Writes zero pages up to `id`, where the file ends before it, which keeps the device dense. */
  method Pad(device: Device, id: PageId) returns (ok: bool, after: Device)
    ensures Touches(device, after, |device.pages|, id)
    ensures ok ==> id <= |after.pages|
    ensures ok <==> after.faults == device.faults
  {
    ok, after := true, device;
    var start := |device.pages|;
    if id <= start {
      return;
    }
    for placeholder := start to id
      invariant ok && placeholder <= |after.pages| && Touches(device, after, start, placeholder)
      invariant after.faults == device.faults
    {
      ok, after := Write(after, placeholder, ZEROS);
      if !ok {
        return;
      }
    }
  }

  /** Makes every earlier write durable, or leaves that unknown. */
  method Flush(device: Device) returns (ok: bool, after: Device)
    ensures after.pages == device.pages
    ensures after.pending == if ok then {} else device.pending
    ensures after.faults == device.faults + if ok then 0 else 1
  {
    ok := *;
    after := if ok then device.(pending := {}) else device.(faults := device.faults + 1);
  }
}

/** What the cache's fields hold, and what every operation keeps true of them (cache.rs). */
module CacheStates {
  import opened Devices

  type CandidateId = nat

  datatype Owner = Committed | Candidate(candidate: CandidateId)

  type Key = (Owner, PageId)

  datatype Entry = Entry(id: PageId, owner: Owner, page: Page, referenced: bool, dirty: bool, unsealed: bool)
  {
    function Key(): Key {
      (owner, id)
    }
  }

  datatype Reservation = Reservation(candidate: CandidateId, written: bool)

  /** A page as a candidate last wrote it, and whether it is to be sealed before the device has it. */
  datatype Written = Written(page: Page, unsealed: bool)

  /** A page as the device has it: sealed with its checksum, if it was written to be. */
  function Sent(digest: seq<bv8> -> bv32, written: Written): Page {
    if written.unsealed then written.page.(checksum := digest(written.page.body)) else written.page
  }

  ghost function Sending(digest: seq<bv8> -> bv32, pages: map<PageId, Written>): map<PageId, Page> {
    map id | id in pages :: Sent(digest, pages[id])
  }

  /** The fields, and the two plain maps they stand for: the pages of the committed view as the device has them, and
      those the candidate has written, each as last written. */
  datatype Cache = Cache(
    device: Device,
    entries: seq<Entry>,
    lookup: map<Key, nat>,
    reservations: map<PageId, Reservation>,
    unflushed: set<Owner>,
    hand: nat,
    capacity: nat,
    digest: seq<bv8> -> bv32,
    committed: map<PageId, Page>,
    candidate: map<PageId, Written>)
  {
    function Seal(page: Page): Page {
      page.(checksum := digest(page.body))
    }

    function Sealed(entry: Entry): Entry {
      if entry.unsealed then entry.(page := Seal(entry.page), unsealed := false) else entry
    }

    /** A page as it was written, or as the device has it. */
    predicate Holds(stored: Page, written: Written) {
      stored == written.page || stored == Sent(digest, written)
    }

    /** An entry that is still to be sealed is as it was written, and any other as the device is to have it. */
    predicate Copies(entry: Entry, written: Written) {
      if entry.unsealed then written.unsealed && entry.page == written.page else entry.page == Sent(digest, written)
    }

    /** The lookup is an exact bijection onto the entries, within the capacity. */
    ghost predicate Indexed() {
      && 1 <= capacity && |entries| <= capacity
      && (if entries == [] then hand == 0 else hand < |entries|)
      && (forall i :: 0 <= i < |entries| ==> entries[i].Key() in lookup && lookup[entries[i].Key()] == i)
      && (forall key :: key in lookup ==> lookup[key] < |entries| && entries[lookup[key]].Key() == key)
    }

    ghost predicate OneCandidate() {
      forall a, b :: a in reservations && b in reservations ==> reservations[a].candidate == reservations[b].candidate
    }

    ghost predicate EntryHolds(entry: Entry) {
      && (entry.unsealed ==> entry.dirty)
      && (!entry.dirty ==> entry.id < |device.pages| && device.pages[entry.id] == entry.page)
      && match entry.owner
         case Committed => !entry.dirty && entry.id !in reservations
         case Candidate(owner) =>
           && entry.id in reservations && reservations[entry.id].candidate == owner
           && entry.id in candidate && Copies(entry, candidate[entry.id])
    }

    ghost predicate Cached(key: Key) {
      key in lookup && lookup[key] < |entries|
    }

    /** A page the candidate wrote is reserved, and is cached or has reached the device. */
    ghost predicate CandidateHolds(id: PageId)
      requires id in candidate
    {
      && id in reservations
      && (Cached((Candidate(reservations[id].candidate), id)) ||
          (id < |device.pages| && device.pages[id] == Sent(digest, candidate[id])))
    }

    ghost predicate CommittedHolds(id: PageId)
      requires id in committed
    {
      id < |device.pages| && id !in reservations && device.pages[id] == committed[id]
    }

    ghost predicate Consistent() {
      && Indexed()
      && OneCandidate()
      && (forall i :: 0 <= i < |entries| ==> EntryHolds(entries[i]))
      && (forall id :: id in candidate ==> CandidateHolds(id))
      && (forall id :: id in committed ==> CommittedHolds(id))
    }

    /** A written page with no flush since is known to need one: it is dirty, or its owner is unflushed. */
    ghost predicate Tracked() {
      forall id :: id in candidate && id in reservations && id in device.pending ==>
        var key := (Candidate(reservations[id].candidate), id);
        key.0 in unflushed || (Cached(key) && entries[lookup[key]].dirty)
    }

    ghost predicate Marked() {
      forall id :: id in reservations ==> (reservations[id].written <==> id in candidate)
    }

    ghost predicate Valid() {
      Consistent() && Tracked() && Marked()
    }

    /** Whether pages from `low` up to `high` are nobody's but the candidate's dirty copies. */
    ghost predicate Writable(low: PageId, high: PageId) {
      && (forall id :: id in committed ==> !(low <= id < high))
      && (forall i :: 0 <= i < |entries| && low <= entries[i].id < high ==> entries[i].dirty)
      && (forall id :: id in candidate && low <= id < high && id in reservations ==>
            var key := (Candidate(reservations[id].candidate), id);
            Cached(key) && entries[lookup[key]].dirty)
    }

    ghost predicate WritableAt(id: PageId) {
      Writable(id, id + 1)
    }

    /** The next entry under a new key goes after the others, or in the place of the one at `slot`. */
    function Place(slot: nat, entry: Entry): Cache
      requires slot <= |entries|
    {
      if slot == |entries| then this.(entries := entries + [entry], lookup := lookup[entry.Key() := slot])
      else this.(entries := entries[slot := entry],
                 lookup := (lookup - {entries[slot].Key()})[entry.Key() := slot],
                 hand := (slot + 1) % |entries|)
    }

    /** Without the entry under `key`: the last entry moves into its place. */
    function Remove(key: Key): Cache
      requires key in lookup ==> lookup[key] < |entries|
    {
      if key !in lookup then this
      else
        var index, last := lookup[key], |entries| - 1;
        var kept := if index == last then entries[..last] else entries[index := entries[last]][..last];
        var found := lookup - {key};
        this.(entries := kept,
              lookup := if index == last then found else found[entries[last].Key() := index],
              hand := if hand >= last then 0 else hand)
    }

    /** The committed pages are on the device of `later` exactly as they are here. */
    ghost predicate ProtectedIn(later: Cache) {
      && |device.pages| <= |later.device.pages|
      && forall id :: id in committed && id < |device.pages| ==> later.device.pages[id] == device.pages[id]
    }

    /** Both views and the reservations are the same in `later`, and the committed pages are untouched. */
    ghost predicate Same(later: Cache) {
      && later.committed == committed && later.candidate == candidate && later.reservations == reservations
      && later.capacity == capacity && later.digest == digest && ProtectedIn(later)
    }
  }

  /** `over` at `ids`, and `under` elsewhere. */
  ghost function Laid(under: map<PageId, Page>, over: map<PageId, Page>, ids: set<PageId>): map<PageId, Page> {
    under + map id | id in over && id in ids :: over[id]
  }

  lemma LaidNext(under: map<PageId, Page>, over: map<PageId, Page>, ids: set<PageId>, id: PageId)
    requires id in over
    ensures Laid(under, over, ids + {id}) == Laid(under, over, ids)[id := over[id]]
  {
  }

  lemma LaidNone(under: map<PageId, Page>, over: map<PageId, Page>)
    ensures Laid(under, over, {}) == under
  {
  }

  lemma MinusNext<V>(m: map<PageId, V>, ids: set<PageId>, id: PageId)
    ensures m - ids - {id} == m - (ids + {id})
  {
  }

  lemma MinusSame<V>(m: map<PageId, V>, some: set<PageId>, more: set<PageId>)
    requires some <= more && forall id :: id in more && id !in some ==> id !in m
    ensures m - some == m - more
  {
  }

  lemma MinusNone<V>(m: map<PageId, V>)
    ensures m - {} == m
  {
  }

  lemma SameTransitive(first: Cache, second: Cache, third: Cache)
    requires first.Same(second) && second.Same(third)
    ensures first.Same(third)
  {
  }

  /** Sending `entry` to the device, if it is dirty, leaves every other page as it was. */
  ghost predicate Spares(before: Device, after: Device, entry: Entry) {
    && |before.pages| <= |after.pages|
    && forall id :: 0 <= id < |before.pages| && !(entry.dirty && id == entry.id) ==> after.pages[id] == before.pages[id]
  }

  /** An entry that is about to be cached still holds once another was sent to the device. */
  lemma SparedHolds(c: Cache, later: Cache, index: nat, entry: Entry, written: map<PageId, Written>)
    requires c.Consistent() && c.Same(later) && index < |c.entries| && Spares(c.device, later.device, c.entries[index])
    requires entry.Key() !in c.lookup && c.(candidate := written).EntryHolds(entry)
    ensures later.(candidate := written).EntryHolds(entry)
  {
    assert c.EntryHolds(c.entries[index]) && c.entries[index].Key() in c.lookup;
  }

  lemma Bounded(c: Cache)
    requires c.Consistent()
    ensures 1 <= c.capacity && |c.entries| <= c.capacity
    ensures if c.entries == [] then c.hand == 0 else c.hand < |c.entries|
  {
  }

  lemma WriteKeeps(c: Cache, after: Device, low: PageId, high: PageId)
    requires c.Consistent() && c.Tracked() && Touches(c.device, after, low, high) && c.Writable(low, high)
    ensures c.(device := after).Consistent() && c.(device := after).Tracked()
    ensures c.Same(c.(device := after))
  {
    WriteTracked(c, after, low, high);
    var next := c.(device := after);
    assert next.Indexed() && next.OneCandidate();
    hide Cache.Indexed, Cache.OneCandidate, Cache.Tracked;
  }

  lemma WriteTracked(c: Cache, after: Device, low: PageId, high: PageId)
    requires c.Tracked() && Touches(c.device, after, low, high) && c.Writable(low, high)
    ensures c.(device := after).Tracked()
  {
  }

  /** Past the end of the file there is nothing but dirty copies. */
  lemma EndWritable(c: Cache, high: PageId)
    requires c.Consistent()
    ensures c.Writable(|c.device.pages|, high)
  {
  }

  /** A dirty entry is the candidate's, and no other entry or view has its page. */
  lemma OwnWritable(c: Cache, index: nat)
    requires c.Consistent() && index < |c.entries| && c.entries[index].dirty
    ensures c.Writable(c.entries[index].id, c.entries[index].id + 1)
  {
    var low := c.entries[index].id;
    assert c.EntryHolds(c.entries[index]);
    forall id | id in c.committed ensures !(low <= id < low + 1) {
      assert c.CommittedHolds(id);
    }
    forall i | 0 <= i < |c.entries| && low <= c.entries[i].id < low + 1 ensures c.entries[i].dirty {
      assert c.EntryHolds(c.entries[i]) && c.entries[i].id == low;
      if i != index {
        DistinctKeys(c, i, index);
      }
    }
    assert c.entries[index].Key() in c.lookup;
  }

  lemma DistinctKeys(c: Cache, i: nat, j: nat)
    requires c.Indexed() && i < |c.entries| && j < |c.entries| && i != j
    ensures c.entries[i].Key() != c.entries[j].Key()
  {
  }

  /** An entry changed under its own key. */
  lemma UpdateIndexed(c: Cache, index: nat, entry: Entry, hand: nat)
    requires c.Indexed() && index < |c.entries| && hand < |c.entries|
    requires entry.Key() == c.entries[index].Key()
    ensures c.(entries := c.entries[index := entry], hand := hand).Indexed()
  {
    var entries := c.entries[index := entry];
    forall i | 0 <= i < |entries| ensures entries[i].Key() in c.lookup && c.lookup[entries[i].Key()] == i {
      assert entries[i].Key() == c.entries[i].Key();
    }
    forall key | key in c.lookup ensures c.lookup[key] < |entries| && entries[c.lookup[key]].Key() == key {
      assert entries[c.lookup[key]].Key() == c.entries[c.lookup[key]].Key();
    }
  }

  ghost predicate Updates(c: Cache, next: Cache, index: nat, entry: Entry) {
    && index < |c.entries| && next.hand < |c.entries|
    && entry.Key() == c.entries[index].Key() && next.EntryHolds(entry)
    && next == c.(entries := c.entries[index := entry], hand := next.hand, unflushed := next.unflushed,
                  candidate := next.candidate)
    && (next.candidate == c.candidate ||
        (entry.owner.Candidate? && next.candidate == c.candidate[entry.id := Written(entry.page, entry.unsealed)]))
  }

  lemma UpdateEntries(c: Cache, next: Cache, index: nat, entry: Entry)
    requires c.Consistent() && Updates(c, next, index, entry)
    ensures forall i :: 0 <= i < |next.entries| ==> next.EntryHolds(next.entries[i])
  {
    forall i | 0 <= i < |next.entries| ensures next.EntryHolds(next.entries[i]) {
      if i != index {
        DistinctKeys(c, i, index);
      }
    }
  }

  lemma UpdateKeeps(c: Cache, next: Cache, index: nat, entry: Entry)
    requires c.Consistent() && Updates(c, next, index, entry)
    ensures next.Consistent()
  {
    UpdateIndexed(c, index, entry, next.hand);
    UpdateEntries(c, next, index, entry);
    hide Cache.Indexed, Cache.EntryHolds;
    forall id | id in next.candidate ensures next.CandidateHolds(id) {
      if id in c.candidate {
        assert c.CandidateHolds(id);
      }
    }
    forall id | id in next.committed ensures next.CommittedHolds(id) {
      assert c.CommittedHolds(id);
    }
  }

  lemma UpdateTracked(c: Cache, next: Cache, index: nat, entry: Entry)
    requires c.Consistent() && c.Tracked() && Updates(c, next, index, entry) && c.unflushed <= next.unflushed
    requires entry.dirty || !c.entries[index].dirty || entry.owner in next.unflushed
    requires next.candidate == c.candidate || entry.dirty
    ensures next.Tracked()
  {
    forall id | id in next.candidate && id in next.reservations && id in next.device.pending
      ensures var key := (Candidate(next.reservations[id].candidate), id);
              key.0 in next.unflushed || (next.Cached(key) && next.entries[next.lookup[key]].dirty)
    {
      var key := (Candidate(next.reservations[id].candidate), id);
      assert next.entries[index].Key() == entry.Key() && c.lookup[entry.Key()] == index;
      if key == entry.Key() {
        assert id in c.candidate || entry.dirty;
      } else {
        assert id in c.candidate;
      }
    }
  }

  lemma SealKeeps(c: Cache, index: nat)
    requires c.Consistent() && index < |c.entries|
    ensures var next := c.(entries := c.entries[index := c.Sealed(c.entries[index])]);
            next.Consistent() && (c.Tracked() ==> next.Tracked())
  {
    var entry := c.Sealed(c.entries[index]);
    var next := c.(entries := c.entries[index := entry]);
    assert c.EntryHolds(c.entries[index]);
    assert Updates(c, next, index, entry);
    hide Cache.Consistent, Cache.Tracked, Updates;
    UpdateKeeps(c, next, index, entry);
    if c.Tracked() {
      UpdateTracked(c, next, index, entry);
    }
  }

  /** An entry whose page reached the device is clean, and its owner has a write to flush. */
  lemma WrittenKeeps(c: Cache, index: nat)
    requires c.Consistent() && c.Tracked() && index < |c.entries|
    requires var entry := c.entries[index];
             !entry.unsealed && entry.id < |c.device.pages| && c.device.pages[entry.id] == entry.page
    ensures var next := c.(entries := c.entries[index := c.entries[index].(dirty := false)],
                           unflushed := c.unflushed + {c.entries[index].owner});
            next.Consistent() && next.Tracked()
  {
    var entry := c.entries[index].(dirty := false);
    var next := c.(entries := c.entries[index := entry], unflushed := c.unflushed + {entry.owner});
    assert c.EntryHolds(c.entries[index]);
    assert Updates(c, next, index, entry);
    hide Cache.Consistent, Cache.Tracked, Updates;
    UpdateKeeps(c, next, index, entry);
    UpdateTracked(c, next, index, entry);
  }

  /** Whether an entry was used lately is all the clock's hand looks at. */
  lemma ReferenceKeeps(c: Cache, index: nat, referenced: bool, hand: nat)
    requires c.Consistent() && c.Tracked() && index < |c.entries| && hand < |c.entries|
    ensures var next := c.(entries := c.entries[index := c.entries[index].(referenced := referenced)], hand := hand);
            next.Consistent() && next.Tracked()
  {
    var entry := c.entries[index].(referenced := referenced);
    var next := c.(entries := c.entries[index := entry], hand := hand);
    assert c.EntryHolds(c.entries[index]);
    assert Updates(c, next, index, entry);
    hide Cache.Consistent, Cache.Tracked, Updates;
    UpdateKeeps(c, next, index, entry);
    UpdateTracked(c, next, index, entry);
  }

  /** A page the candidate writes over its cached copy. */
  lemma OverwriteKeeps(c: Cache, index: nat, page: Page, unsealed: bool)
    requires c.Consistent() && c.Tracked() && index < |c.entries| && c.entries[index].owner.Candidate?
    ensures var entry := c.entries[index].(page := page, referenced := true, dirty := true, unsealed := unsealed);
            var next := c.(entries := c.entries[index := entry],
                           candidate := c.candidate[entry.id := Written(page, unsealed)]);
            next.Consistent() && next.Tracked()
  {
    var entry := c.entries[index].(page := page, referenced := true, dirty := true, unsealed := unsealed);
    var next := c.(entries := c.entries[index := entry], candidate := c.candidate[entry.id := Written(page, unsealed)]);
    assert c.EntryHolds(c.entries[index]);
    assert Updates(c, next, index, entry);
    hide Cache.Consistent, Cache.Tracked, Updates;
    UpdateKeeps(c, next, index, entry);
    UpdateTracked(c, next, index, entry);
  }

  lemma PlaceIndexed(c: Cache, slot: nat, entry: Entry)
    requires c.Indexed() && slot <= |c.entries| && entry.Key() !in c.lookup
    requires slot == |c.entries| ==> slot < c.capacity
    ensures c.Place(slot, entry).Indexed()
  {
    var next := c.Place(slot, entry);
    forall i | 0 <= i < |next.entries|
      ensures next.entries[i].Key() in next.lookup && next.lookup[next.entries[i].Key()] == i
    {
      if i < |c.entries| && i != slot {
        assert next.entries[i].Key() == c.entries[i].Key();
        if slot < |c.entries| {
          DistinctKeys(c, i, slot);
        }
      }
    }
    forall key | key in next.lookup
      ensures next.lookup[key] < |next.entries| && next.entries[next.lookup[key]].Key() == key
    {
      if key != entry.Key() {
        assert c.entries[c.lookup[key]].Key() == key;
      }
    }
  }

  /** A candidate's entry is keyed by the candidate that reserved its page. */
  lemma EntryOwned(c: Cache, entry: Entry)
    requires c.EntryHolds(entry)
    ensures entry.owner.Candidate? ==>
              entry.id in c.reservations && entry.Key() == (Candidate(c.reservations[entry.id].candidate), entry.id)
  {
  }

  /** A new entry, after the others or in the place of a clean one. */
  ghost predicate Adds(c: Cache, next: Cache, slot: nat, entry: Entry) {
    && slot <= |c.entries|
    && (if slot == |c.entries| then slot < c.capacity else !c.entries[slot].dirty)
    && entry.Key() !in c.lookup && next.EntryHolds(entry)
    && next == c.Place(slot, entry).(candidate := next.candidate)
    && (next.candidate == c.candidate ||
        (entry.owner.Candidate? && entry.dirty &&
         next.candidate == c.candidate[entry.id := Written(entry.page, entry.unsealed)]))
  }

  lemma AddsHolds(c: Cache, slot: nat, entry: Entry, written: map<PageId, Written>)
    requires slot <= |c.entries| && entry.Key() !in c.lookup && c.(candidate := written).EntryHolds(entry)
    requires if slot == |c.entries| then slot < c.capacity else !c.entries[slot].dirty
    requires written == c.candidate ||
             (entry.owner.Candidate? && entry.dirty &&
              written == c.candidate[entry.id := Written(entry.page, entry.unsealed)])
    ensures Adds(c, c.Place(slot, entry).(candidate := written), slot, entry)
  {
  }

  /** What is where after a new entry, but for the one it displaced. */
  ghost predicate Added(c: Cache, next: Cache, slot: nat, entry: Entry) {
    && next.device == c.device && next.reservations == c.reservations && next.unflushed == c.unflushed
    && next.committed == c.committed && next.capacity == c.capacity && next.digest == c.digest
    && slot < |next.entries| && next.entries[slot] == entry
    && (forall i :: 0 <= i < |next.entries| && i != slot ==> i < |c.entries| && next.entries[i] == c.entries[i])
    && (forall key :: key in c.lookup && c.lookup[key] != slot ==>
          key in next.lookup && next.lookup[key] == c.lookup[key])
    && next.Indexed()
    && next.EntryHolds(entry)
    && (next.candidate == c.candidate ||
        (entry.owner.Candidate? && entry.dirty &&
         next.candidate == c.candidate[entry.id := Written(entry.page, entry.unsealed)]))
    && (slot < |c.entries| ==> c.EntryHolds(c.entries[slot]) && !c.entries[slot].dirty)
    && |next.entries| >= |c.entries|
  }

  lemma PlaceOthers(c: Cache, slot: nat, entry: Entry)
    requires c.Indexed() && slot <= |c.entries| && entry.Key() !in c.lookup
    ensures forall key :: key in c.lookup && c.lookup[key] != slot ==>
              key in c.Place(slot, entry).lookup && c.Place(slot, entry).lookup[key] == c.lookup[key]
  {
    forall key | key in c.lookup && c.lookup[key] != slot
      ensures key in c.Place(slot, entry).lookup && c.Place(slot, entry).lookup[key] == c.lookup[key]
    {
      assert c.entries[c.lookup[key]].Key() == key;
      if slot < |c.entries| {
        DistinctKeys(c, c.lookup[key], slot);
      }
    }
  }

  lemma SameIndexed(c: Cache, next: Cache)
    requires c.Indexed() && next.entries == c.entries && next.lookup == c.lookup
    requires next.hand == c.hand && next.capacity == c.capacity
    ensures next.Indexed()
  {
  }

  lemma PlaceEntries(c: Cache, slot: nat, entry: Entry)
    requires slot <= |c.entries|
    ensures var placed := c.Place(slot, entry).entries;
            && slot < |placed| && placed[slot] == entry && |placed| >= |c.entries|
            && forall i :: 0 <= i < |placed| && i != slot ==> i < |c.entries| && placed[i] == c.entries[i]
  {
  }

  lemma PlaceAdded(c: Cache, next: Cache, slot: nat, entry: Entry)
    requires c.Indexed() && Adds(c, next, slot, entry)
    requires slot < |c.entries| ==> c.EntryHolds(c.entries[slot])
    ensures Added(c, next, slot, entry)
  {
    hide Cache.EntryHolds, Cache.Indexed;
    PlaceIndexed(c, slot, entry);
    PlaceOthers(c, slot, entry);
    PlaceEntries(c, slot, entry);
    SameIndexed(c.Place(slot, entry), next);
  }

  lemma AddsAdded(c: Cache, next: Cache, slot: nat, entry: Entry)
    requires c.Consistent() && Adds(c, next, slot, entry)
    ensures Added(c, next, slot, entry)
  {
    hide Cache.CandidateHolds, Cache.CommittedHolds, Cache.OneCandidate, Cache.EntryHolds, Cache.Indexed;
    PlaceAdded(c, next, slot, entry);
  }

  lemma AddEntries(c: Cache, next: Cache, slot: nat, entry: Entry)
    requires c.Consistent() && Added(c, next, slot, entry)
    ensures forall i :: 0 <= i < |next.entries| ==> next.EntryHolds(next.entries[i])
  {
    forall i | 0 <= i < |next.entries| ensures next.EntryHolds(next.entries[i]) {
      if i != slot {
        var other := next.entries[i];
        assert i < |c.entries| && other == c.entries[i];
        assert c.EntryHolds(c.entries[i]);
        EntryOwned(c, c.entries[i]);
        EntryOwned(next, entry);
        DistinctKeys(next, i, slot);
      }
    }
  }

  /** A page the candidate wrote before is where it was, or was clean and is on the device. */
  lemma AddOther(c: Cache, next: Cache, slot: nat, entry: Entry, id: PageId)
    requires c.Consistent() && Added(c, next, slot, entry) && id in c.candidate && next.candidate[id] == c.candidate[id]
    requires id in next.candidate
    ensures next.CandidateHolds(id)
    ensures c.Tracked() && id in next.device.pending ==>
              var key := (Candidate(next.reservations[id].candidate), id);
              key.0 in next.unflushed || (next.Cached(key) && next.entries[next.lookup[key]].dirty)
  {
    assert c.CandidateHolds(id);
    var key := (Candidate(c.reservations[id].candidate), id);
    if c.Cached(key) {
      assert c.entries[c.lookup[key]].Key() == key;
    }
  }

  lemma AddOwn(c: Cache, next: Cache, slot: nat, entry: Entry, id: PageId)
    requires Added(c, next, slot, entry) && id == entry.id && entry.owner.Candidate? && entry.dirty &&
             id in next.candidate
    ensures next.CandidateHolds(id)
    ensures id in next.device.pending ==>
              var key := (Candidate(next.reservations[id].candidate), id);
              next.Cached(key) && next.entries[next.lookup[key]].dirty
  {
    EntryOwned(next, entry);
    assert next.Indexed() && next.entries[slot] == entry;
    assert entry.Key() in next.lookup;
  }

  lemma AddCommitted(c: Cache, next: Cache, slot: nat, entry: Entry)
    requires c.Consistent() && Added(c, next, slot, entry)
    ensures forall id :: id in next.committed ==> next.CommittedHolds(id)
    ensures next.OneCandidate()
  {
    hide Cache.Indexed, Cache.EntryHolds, Cache.CandidateHolds;
    forall id | id in next.committed ensures next.CommittedHolds(id) {
      assert c.CommittedHolds(id);
    }
  }

  lemma AddCandidates(c: Cache, next: Cache, slot: nat, entry: Entry)
    requires c.Consistent() && Added(c, next, slot, entry)
    ensures forall id :: id in next.candidate ==> next.CandidateHolds(id)
    ensures c.Tracked() ==> next.Tracked()
  {
    forall id | id in next.candidate
      ensures next.CandidateHolds(id)
      ensures c.Tracked() && id in next.device.pending ==>
                var key := (Candidate(next.reservations[id].candidate), id);
                key.0 in next.unflushed || (next.Cached(key) && next.entries[next.lookup[key]].dirty)
    {
      if next.candidate != c.candidate && id == entry.id {
        AddOwn(c, next, slot, entry, id);
      } else {
        AddOther(c, next, slot, entry, id);
      }
    }
  }

  lemma AddKeeps(c: Cache, next: Cache, slot: nat, entry: Entry)
    requires c.Consistent() && c.Tracked() && Adds(c, next, slot, entry)
    ensures next.Consistent() && next.Tracked()
  {
    AddsAdded(c, next, slot, entry);
    AddEntries(c, next, slot, entry);
    AddCommitted(c, next, slot, entry);
    AddCandidates(c, next, slot, entry);
    hide Cache.EntryHolds, Cache.CandidateHolds, Cache.CommittedHolds, Cache.OneCandidate, Cache.Tracked, Adds;
  }

  lemma RemoveIndexed(c: Cache, key: Key)
    requires c.Indexed() && key in c.lookup
    ensures c.Remove(key).Indexed()
  {
    var next, index, last := c.Remove(key), c.lookup[key], |c.entries| - 1;
    forall i | 0 <= i < |next.entries|
      ensures next.entries[i].Key() in next.lookup && next.lookup[next.entries[i].Key()] == i
    {
      if i == index {
        DistinctKeys(c, last, index);
      } else {
        DistinctKeys(c, i, index);
        if index != last {
          DistinctKeys(c, i, last);
        }
      }
    }
    forall other | other in next.lookup
      ensures next.lookup[other] < |next.entries| && next.entries[next.lookup[other]].Key() == other
    {
      assert c.entries[c.lookup[other]].Key() == other;
    }
  }

  /** What is left without the entry under `key`. */
  ghost predicate Removed(c: Cache, next: Cache, key: Key) {
    && c.Indexed()
    && next.device == c.device && next.reservations == c.reservations && next.unflushed == c.unflushed
    && next.committed == c.committed && next.capacity == c.capacity && next.digest == c.digest
    && next.candidate == c.candidate
    && next.Indexed()
    && (forall i :: 0 <= i < |next.entries| ==> next.entries[i] in c.entries && next.entries[i].Key() != key)
    && (forall other :: other in c.lookup && other != key ==>
          other in next.lookup && next.entries[next.lookup[other]] == c.entries[c.lookup[other]])
    && (forall other :: other in next.lookup ==> other in c.lookup && other != key)
  }

  lemma RemoveOther(c: Cache, key: Key, other: Key)
    requires c.Indexed() && key in c.lookup && other in c.lookup && other != key
    ensures var next := c.Remove(key);
            && other in next.lookup && next.lookup[other] < |next.entries|
            && next.entries[next.lookup[other]] == c.entries[c.lookup[other]]
  {
    DistinctKeys(c, c.lookup[other], c.lookup[key]);
  }

  lemma RemoveEntries(c: Cache, key: Key, i: nat)
    requires c.Indexed() && key in c.lookup && i < |c.Remove(key).entries|
    ensures c.Remove(key).entries[i] in c.entries && c.Remove(key).entries[i].Key() != key
  {
    var index, last := c.lookup[key], |c.entries| - 1;
    DistinctKeys(c, if i == index then last else i, index);
  }

  lemma RemoveRemoves(c: Cache, key: Key)
    requires c.Indexed()
    ensures Removed(c, c.Remove(key), key)
  {
    var next := c.Remove(key);
    if key in c.lookup {
      RemoveIndexed(c, key);
      forall i | 0 <= i < |next.entries| ensures next.entries[i] in c.entries && next.entries[i].Key() != key {
        RemoveEntries(c, key, i);
      }
      forall other | other in c.lookup && other != key
        ensures other in next.lookup && next.lookup[other] < |next.entries| &&
                next.entries[next.lookup[other]] == c.entries[c.lookup[other]]
      {
        RemoveOther(c, key, other);
      }
    }
  }

  /** A committed page read into the cache may be dropped, for the device has it. */
  lemma DropCommittedKeeps(c: Cache, id: PageId)
    requires c.Consistent() && c.Tracked()
    ensures c.Remove((Committed, id)).Consistent() && c.Remove((Committed, id)).Tracked()
  {
    var key := (Committed, id);
    var next := c.Remove(key);
    RemoveRemoves(c, key);
    hide Cache.Indexed, Cache.Remove;
    DropHolds(c, next, next, key);
  }

  /** A page the candidate gives up: its reservation, what it wrote there and its cached copy. */
  lemma DropCandidateKeeps(c: Cache, id: PageId)
    requires c.Consistent() && c.Tracked() && id in c.reservations
    ensures var next := c.Remove((Candidate(c.reservations[id].candidate), id))
                         .(reservations := c.reservations - {id}, candidate := c.candidate - {id});
            next.Consistent() && next.Tracked()
  {
    var key := (Candidate(c.reservations[id].candidate), id);
    var removed := c.Remove(key);
    var next := removed.(reservations := c.reservations - {id}, candidate := c.candidate - {id});
    RemoveRemoves(c, key);
    SameIndexed(removed, next);
    hide Cache.Indexed, Cache.Remove;
    DropHolds(c, removed, next, key);
  }

  /** An entry goes, and if it was a candidate's, its page is forgotten. */
  ghost predicate Drops(c: Cache, removed: Cache, next: Cache, key: Key) {
    && Removed(c, removed, key) && next.Indexed()
    && (if key.0 == Committed then next == removed
        else key.1 in c.reservations && key.0.candidate == c.reservations[key.1].candidate &&
             next == removed.(reservations := c.reservations - {key.1}, candidate := c.candidate - {key.1}))
  }

  lemma DropEntry(c: Cache, removed: Cache, next: Cache, key: Key, entry: Entry)
    requires Drops(c, removed, next, key) && c.EntryHolds(entry) && entry.Key() != key
    ensures next.EntryHolds(entry)
  {
    hide Cache.Indexed, Cache.Remove;
  }

  lemma DropOther(c: Cache, removed: Cache, next: Cache, key: Key, id: PageId)
    requires Drops(c, removed, next, key) && c.Tracked() && id in c.candidate && c.CandidateHolds(id)
    requires id in next.candidate
    ensures next.CandidateHolds(id)
    ensures id in next.device.pending ==>
              var own := (Candidate(next.reservations[id].candidate), id);
              own.0 in next.unflushed || (next.Cached(own) && next.entries[next.lookup[own]].dirty)
  {
    var own := (Candidate(c.reservations[id].candidate), id);
    assert own != key;
    hide Cache.EntryHolds, Cache.Remove;
  }

  lemma DropHolds(c: Cache, removed: Cache, next: Cache, key: Key)
    requires c.Consistent() && c.Tracked() && Drops(c, removed, next, key)
    ensures next.Consistent() && next.Tracked()
  {
    hide Cache.Indexed, Cache.Remove, Cache.EntryHolds, Cache.CandidateHolds;
    forall i | 0 <= i < |next.entries| ensures next.EntryHolds(next.entries[i]) {
      DropEntry(c, removed, next, key, next.entries[i]);
    }
    forall id | id in next.candidate
      ensures next.CandidateHolds(id)
      ensures id in next.device.pending && id in next.reservations ==>
                var own := (Candidate(next.reservations[id].candidate), id);
                own.0 in next.unflushed || (next.Cached(own) && next.entries[next.lookup[own]].dirty)
    {
      DropOther(c, removed, next, key, id);
    }
    forall id | id in next.committed ensures next.CommittedHolds(id) {
      assert c.CommittedHolds(id);
    }
  }

  /** Reservations only change where no committed page is, and keep the pages the candidate wrote. */
  ghost predicate Reserves(c: Cache, next: Cache, id: PageId) {
    && next == c.(reservations := next.reservations) && id in next.reservations
    && next.reservations == c.reservations[id := next.reservations[id]]
    && (if id in c.reservations then next.reservations[id].candidate == c.reservations[id].candidate
        else id !in c.committed && (Committed, id) !in c.lookup)
    && (forall other :: other in c.reservations ==> c.reservations[other].candidate == next.reservations[id].candidate)
  }

  lemma ReservesEntry(c: Cache, next: Cache, id: PageId, i: nat)
    requires c.Indexed() && Reserves(c, next, id) && i < |c.entries| && c.EntryHolds(c.entries[i])
    ensures next.EntryHolds(c.entries[i])
  {
    assert c.entries[i].Key() in c.lookup;
    hide Cache.Indexed;
  }

  lemma ReservesCandidate(c: Cache, next: Cache, id: PageId, other: PageId)
    requires Reserves(c, next, id) && c.Tracked() && other in c.candidate && c.CandidateHolds(other)
    ensures next.CandidateHolds(other)
    ensures other in next.device.pending ==>
              var own := (Candidate(next.reservations[other].candidate), other);
              own.0 in next.unflushed || (next.Cached(own) && next.entries[next.lookup[own]].dirty)
  {
  }

  lemma ReservesKeeps(c: Cache, next: Cache, id: PageId)
    requires c.Consistent() && c.Tracked() && Reserves(c, next, id)
    ensures next.Consistent() && next.Tracked()
  {
    SameIndexed(c, next);
    hide Cache.EntryHolds, Cache.Indexed, Cache.CandidateHolds;
    forall i | 0 <= i < |next.entries| ensures next.EntryHolds(next.entries[i]) {
      ReservesEntry(c, next, id, i);
    }
    forall other | other in next.candidate
      ensures next.CandidateHolds(other)
      ensures other in next.device.pending && other in next.reservations ==>
                var own := (Candidate(next.reservations[other].candidate), other);
                own.0 in next.unflushed || (next.Cached(own) && next.entries[next.lookup[own]].dirty)
    {
      ReservesCandidate(c, next, id, other);
    }
    forall other | other in next.committed ensures next.CommittedHolds(other) {
      assert c.CommittedHolds(other);
    }
  }

  lemma ReserveKeeps(c: Cache, id: PageId, candidate: CandidateId)
    requires c.Valid() && id !in c.reservations && id !in c.committed && (Committed, id) !in c.lookup
    requires forall other :: other in c.reservations ==> c.reservations[other].candidate == candidate
    ensures c.(reservations := c.reservations[id := Reservation(candidate, false)]).Valid()
  {
    var next := c.(reservations := c.reservations[id := Reservation(candidate, false)]);
    ReservesKeeps(c, next, id);
    assert id in c.candidate ==> c.CandidateHolds(id);
    hide Cache.Consistent, Cache.Tracked;
  }

  lemma MarkKeeps(c: Cache, id: PageId)
    requires c.Consistent() && c.Tracked() && id in c.reservations
    ensures var next := c.(reservations := c.reservations[id := c.reservations[id].(written := true)]);
            next.Consistent() && next.Tracked()
  {
    ReservesKeeps(c, c.(reservations := c.reservations[id := c.reservations[id].(written := true)]), id);
  }

  /** That the device failed is no part of what is kept. */
  lemma FaultKeeps(c: Cache, after: Device)
    requires c.Consistent() && after == c.device.(faults := after.faults)
    ensures c.(device := after).Consistent() && (c.Tracked() ==> c.(device := after).Tracked())
    ensures c.Same(c.(device := after))
  {
    var next := c.(device := after);
    SameIndexed(c, next);
    hide Cache.Indexed;
    forall i | 0 <= i < |next.entries| ensures next.EntryHolds(next.entries[i]) {
      assert c.EntryHolds(c.entries[i]);
    }
    forall id | id in next.candidate ensures next.CandidateHolds(id) {
      assert c.CandidateHolds(id);
    }
    forall id | id in next.committed ensures next.CommittedHolds(id) {
      assert c.CommittedHolds(id);
    }
  }

  lemma FlushKeeps(c: Cache)
    requires c.Consistent()
    ensures c.(device := c.device.(pending := {}), unflushed := {}).Consistent()
    ensures c.(device := c.device.(pending := {}), unflushed := {}).Tracked()
  {
    var next := c.(device := c.device.(pending := {}), unflushed := {});
    forall id | id in next.candidate ensures next.CandidateHolds(id) {
      assert c.CandidateHolds(id);
    }
    forall id | id in next.committed ensures next.CommittedHolds(id) {
      assert c.CommittedHolds(id);
    }
  }

  /** An entry's page becomes the committed view's. */
  function Rekeyed(c: Cache, id: PageId): Cache
    requires id in c.reservations
    requires c.Cached((Candidate(c.reservations[id].candidate), id))
  {
    var key := (Candidate(c.reservations[id].candidate), id);
    var index := c.lookup[key];
    c.(entries := c.entries[index := c.entries[index].(owner := Committed, referenced := true)],
       lookup := (c.lookup - {key})[(Committed, id) := index])
  }

  lemma RekeyIndexed(c: Cache, id: PageId)
    requires c.Indexed() && id in c.reservations && (Committed, id) !in c.lookup
    requires c.Cached((Candidate(c.reservations[id].candidate), id))
    ensures Rekeyed(c, id).Indexed()
  {
    var key := (Candidate(c.reservations[id].candidate), id);
    var next, index := Rekeyed(c, id), c.lookup[key];
    forall i | 0 <= i < |next.entries|
      ensures next.entries[i].Key() in next.lookup && next.lookup[next.entries[i].Key()] == i
    {
      if i != index {
        DistinctKeys(c, i, index);
        assert next.entries[i].Key() == c.entries[i].Key();
      }
    }
    forall other | other in next.lookup
      ensures next.lookup[other] < |next.entries| && next.entries[next.lookup[other]].Key() == other
    {
      if other != (Committed, id) {
        assert c.entries[c.lookup[other]].Key() == other;
      }
    }
  }

  /** Where every entry and page is once the candidate's page `id` has become the committed view's. */
  ghost predicate Moves(c: Cache, next: Cache, id: PageId) {
    && id in c.reservations && id in c.candidate && c.CandidateHolds(id)
    && (Committed, id) !in c.lookup && next.Indexed()
    && var key := (Candidate(c.reservations[id].candidate), id);
    && (c.Cached(key) ==> c.EntryHolds(c.entries[c.lookup[key]]) && !c.entries[c.lookup[key]].dirty &&
                          c.entries[c.lookup[key]].Key() == key)
    && next == (if c.Cached(key) then Rekeyed(c, id) else c).(
                 reservations := c.reservations - {id}, candidate := c.candidate - {id},
                 committed := c.committed[id := Sent(c.digest, c.candidate[id])])
  }

  lemma MovesEntry(c: Cache, next: Cache, id: PageId, i: nat)
    requires c.Consistent() && Moves(c, next, id) && i < |c.entries|
    ensures next.EntryHolds(next.entries[i])
  {
    var key := (Candidate(c.reservations[id].candidate), id);
    assert c.EntryHolds(c.entries[i]);
    hide Cache.Consistent, Cache.EntryHolds, Cache.CandidateHolds;
    if c.Cached(key) && i == c.lookup[key] {
      MovedHolds(c, next, id, c.entries[i]);
    } else {
      OtherEntry(c, id, i);
      AwayHolds(c, next, id, c.entries[i]);
    }
  }

  lemma MovedHolds(c: Cache, next: Cache, id: PageId, entry: Entry)
    requires c.EntryHolds(entry) && !entry.dirty && entry.id == id && next.device == c.device &&
             id !in next.reservations
    ensures next.EntryHolds(entry.(owner := Committed))
  {
  }

  /** An entry other than the candidate's of a page is of another page, unless the page is cached as committed. */
  lemma OtherEntry(c: Cache, id: PageId, i: nat)
    requires c.Consistent() && i < |c.entries| && id in c.reservations && (Committed, id) !in c.lookup
    requires var key := (Candidate(c.reservations[id].candidate), id); !(c.Cached(key) && i == c.lookup[key])
    ensures c.entries[i].id != id
  {
    assert c.EntryHolds(c.entries[i]) && c.entries[i].Key() in c.lookup && c.lookup[c.entries[i].Key()] == i;
    hide Cache.Consistent;
    EntryOwned(c, c.entries[i]);
  }

  lemma AwayHolds(c: Cache, next: Cache, id: PageId, entry: Entry)
    requires c.EntryHolds(entry) && entry.id != id && next.device == c.device && next.digest == c.digest
    requires next.reservations == c.reservations - {id} && next.candidate == c.candidate - {id}
    ensures next.EntryHolds(entry)
  {
  }

  lemma MovesOther(c: Cache, next: Cache, id: PageId, other: PageId)
    requires Moves(c, next, id) && c.Tracked() && other in c.candidate && other != id && c.CandidateHolds(other)
    ensures next.CandidateHolds(other)
    ensures other in next.device.pending ==>
              var own := (Candidate(next.reservations[other].candidate), other);
              own.0 in next.unflushed || (next.Cached(own) && next.entries[next.lookup[own]].dirty)
  {
    hide Cache.Indexed;
  }

  lemma MovesCommitted(c: Cache, next: Cache, id: PageId, other: PageId)
    requires Moves(c, next, id) && other in next.committed && (other in c.committed ==> c.CommittedHolds(other))
    ensures next.CommittedHolds(other)
  {
    hide Cache.Indexed;
  }

  lemma MovesKeeps(c: Cache, next: Cache, id: PageId)
    requires c.Consistent() && c.Tracked() && Moves(c, next, id)
    ensures next.Consistent() && next.Tracked()
  {
    forall i | 0 <= i < |next.entries| ensures next.EntryHolds(next.entries[i]) {
      MovesEntry(c, next, id, i);
    }
    hide Cache.EntryHolds, Cache.Indexed, Cache.CandidateHolds;
    forall other | other in next.candidate
      ensures next.CandidateHolds(other)
      ensures other in next.device.pending && other in next.reservations ==>
                var own := (Candidate(next.reservations[other].candidate), other);
                own.0 in next.unflushed || (next.Cached(own) && next.entries[next.lookup[own]].dirty)
    {
      MovesOther(c, next, id, other);
    }
    forall other | other in next.committed ensures next.CommittedHolds(other) {
      MovesCommitted(c, next, id, other);
    }
  }

  /** Dirty sealed entries for consecutive pages, and their bytes. */
  ghost predicate RunReady(c: Cache, run: seq<nat>, bytes: seq<Page>) {
    && |run| == |bytes|
    && (forall k :: 0 <= k < |run| ==> run[k] < |c.entries|)
    && (forall k :: 0 <= k < |run| ==>
          var entry := c.entries[run[k]];
          entry.dirty && !entry.unsealed && entry.page == bytes[k] && entry.id == c.entries[run[0]].id + k)
  }

  lemma RunWritable(c: Cache, run: seq<nat>, bytes: seq<Page>)
    requires c.Consistent() && RunReady(c, run, bytes) && run != []
    ensures c.Writable(c.entries[run[0]].id, c.entries[run[0]].id + |run|)
  {
    var low := c.entries[run[0]].id;
    hide Cache.Consistent;
    forall id | low <= id < low + |run| ensures c.WritableAt(id) {
      var k := id - low;
      assert c.entries[run[k]].id == id;
      OwnWritable(c, run[k]);
    }
    WritableUnion(c, low, low + |run|);
  }

  lemma WritableUnion(c: Cache, low: PageId, high: PageId)
    requires forall id :: low <= id < high ==> c.WritableAt(id)
    ensures c.Writable(low, high)
  {
    forall id | id in c.committed ensures !(low <= id < high) {
      assert low <= id < high ==> c.WritableAt(id);
    }
    forall i | 0 <= i < |c.entries| && low <= c.entries[i].id < high ensures c.entries[i].dirty {
      assert c.WritableAt(c.entries[i].id);
    }
    forall id | id in c.candidate && low <= id < high && id in c.reservations
      ensures var key := (Candidate(c.reservations[id].candidate), id); c.Cached(key) && c.entries[c.lookup[key]].dirty
    {
      assert c.WritableAt(id);
    }
  }

  /** A cached page of either view is that view's page. */
  lemma CachedHolds(c: Cache, owner: Owner, id: PageId)
    requires c.Consistent() && (owner, id) in c.lookup
    ensures var index := c.lookup[(owner, id)];
            && index < |c.entries| && c.hand < |c.entries| && c.entries[index].Key() == (owner, id)
            && match owner
               case Committed => id in c.committed ==> c.entries[index].page == c.committed[id]
               case Candidate(_) => id in c.candidate && c.Copies(c.entries[index], c.candidate[id])
  {
    var entry := c.entries[c.lookup[(owner, id)]];
    assert c.EntryHolds(entry);
    assert id in c.committed ==> c.CommittedHolds(id);
  }

  /** What is not cached is on the device. */
  lemma DeviceHolds(c: Cache, owner: Owner, id: PageId)
    requires c.Consistent() && (owner, id) !in c.lookup
    requires if owner == Committed then id !in c.reservations
             else id in c.candidate && id in c.reservations && owner == Candidate(c.reservations[id].candidate)
    ensures match owner
            case Committed => id in c.committed ==>
                                id < |c.device.pages| && c.device.pages[id] == c.committed[id]
            case Candidate(_) => id < |c.device.pages| && c.device.pages[id] == Sent(c.digest, c.candidate[id])
  {
    assert id in c.candidate ==> c.CandidateHolds(id);
    assert id in c.committed ==> c.CommittedHolds(id);
  }

  lemma OneOwner(c: Cache)
    requires c.Consistent()
    ensures forall a, b :: a in c.reservations && b in c.reservations ==>
              c.reservations[a].candidate == c.reservations[b].candidate
  {
  }

  /** Without a reservation, a candidate has no cached page, and no write to flush. */
  lemma Unreserved(c: Cache, owner: CandidateId)
    requires c.Valid() && forall id :: id in c.reservations ==> c.reservations[id].candidate != owner
    ensures c.(unflushed := c.unflushed - {Candidate(owner)}).Valid()
    ensures forall id :: (Candidate(owner), id) !in c.lookup
  {
    var next := c.(unflushed := c.unflushed - {Candidate(owner)});
    SameIndexed(c, next);
    forall id ensures (Candidate(owner), id) !in c.lookup {
      if (Candidate(owner), id) in c.lookup {
        CachedHolds(c, Candidate(owner), id);
        EntryOwned(c, c.entries[c.lookup[(Candidate(owner), id)]]);
      }
    }
    hide Cache.Indexed;
    forall i | 0 <= i < |next.entries| ensures next.EntryHolds(next.entries[i]) {
      assert c.EntryHolds(c.entries[i]);
    }
    forall id | id in next.candidate ensures next.CandidateHolds(id) {
      assert c.CandidateHolds(id);
    }
    forall id | id in next.committed ensures next.CommittedHolds(id) {
      assert c.CommittedHolds(id);
    }
  }

  lemma IsIndexed(c: Cache)
    requires c.Consistent()
    ensures c.Indexed()
  {
  }

  lemma NoOverlap(c: Cache)
    requires c.Consistent()
    ensures forall id :: id in c.reservations ==> (Committed, id) !in c.lookup
  {
    forall id | (Committed, id) in c.lookup ensures id !in c.reservations {
      assert c.EntryHolds(c.entries[c.lookup[(Committed, id)]]);
    }
  }

  lemma UncommitKeeps(c: Cache, freed: set<PageId>)
    requires c.Valid()
    ensures c.(committed := c.committed - freed).Valid()
  {
    var next := c.(committed := c.committed - freed);
    SameIndexed(c, next);
    hide Cache.Indexed;
    forall i | 0 <= i < |next.entries| ensures next.EntryHolds(next.entries[i]) {
      assert c.EntryHolds(c.entries[i]);
    }
    forall id | id in next.candidate ensures next.CandidateHolds(id) {
      assert c.CandidateHolds(id);
    }
    forall id | id in next.committed ensures next.CommittedHolds(id) {
      assert c.CommittedHolds(id);
    }
  }

  /** A flushed candidate with no dirty page left has nothing the device may yet lose. */
  lemma Durable(c: Cache, owner: CandidateId)
    requires c.Tracked() && Candidate(owner) !in c.unflushed
    requires forall id :: id in c.reservations && c.reservations[id].candidate == owner ==>
               id in c.candidate &&
               !(c.Cached((Candidate(owner), id)) && c.entries[c.lookup[(Candidate(owner), id)]].dirty)
    ensures forall id :: id in c.reservations && c.reservations[id].candidate == owner ==> id !in c.device.pending
  {
  }

  lemma MovesHolds(c: Cache, id: PageId)
    requires c.Consistent() && id in c.reservations && id in c.candidate && (Committed, id) !in c.lookup
    requires var key := (Candidate(c.reservations[id].candidate), id);
             c.Cached(key) ==> !c.entries[c.lookup[key]].dirty
    ensures var key := (Candidate(c.reservations[id].candidate), id);
            && (key in c.lookup ==> c.Cached(key))
            && Moves(c, (if c.Cached(key) then Rekeyed(c, id) else c).(
                           reservations := c.reservations - {id}, candidate := c.candidate - {id},
                           committed := c.committed[id := Sent(c.digest, c.candidate[id])]), id)
  {
    var key := (Candidate(c.reservations[id].candidate), id);
    assert c.CandidateHolds(id);
    if key in c.lookup {
      assert c.EntryHolds(c.entries[c.lookup[key]]);
      RekeyIndexed(c, id);
      SameIndexed(Rekeyed(c, id),
                  Rekeyed(c, id).(reservations := c.reservations - {id}, candidate := c.candidate - {id},
                                                   committed := c.committed[id := Sent(c.digest, c.candidate[id])]));
    } else {
      SameIndexed(c, c.(reservations := c.reservations - {id}, candidate := c.candidate - {id},
                         committed := c.committed[id := Sent(c.digest, c.candidate[id])]));
    }
  }

  lemma InFile(c: Cache)
    requires c.Consistent()
    ensures forall id :: id in c.committed || (Committed, id) in c.lookup ==> id < |c.device.pages|
  {
    forall id | id in c.committed || (Committed, id) in c.lookup ensures id < |c.device.pages| {
      if id in c.committed {
        assert c.CommittedHolds(id);
      } else {
        assert c.EntryHolds(c.entries[c.lookup[(Committed, id)]]);
      }
    }
  }
}
