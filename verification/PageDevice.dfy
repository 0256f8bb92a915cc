/** Files of whole pages: a file's bytes, and the pages they make up (page-device.ts). */
module PageFiles {
  const PAGE_SIZE := 4096
  const MAX_PAGES := 65_536
  const MAX_DATABASE_BYTES := PAGE_SIZE * MAX_PAGES

  type Byte = b: int | 0 <= b < 256

  type Bytes = seq<Byte>

  /** Bytes over those at an offset, and past the end where they reach it. */
  function Put(bytes: Bytes, at: nat, data: Bytes): (after: Bytes)
    requires at <= |bytes|
    ensures |after| == if at + |data| <= |bytes| then |bytes| else at + |data|
    ensures forall i :: 0 <= i < |after| ==> after[i] == if at <= i < at + |data| then data[i - at] else bytes[i]
  {
    bytes[..at] + data + if at + |data| <= |bytes| then bytes[at + |data|..] else []
  }

  /** Only bytes from `low` up to `high` may differ, and the file may have grown up to `high`. */
  ghost predicate Disturbed(before: Bytes, after: Bytes, low: nat, high: nat) {
    && |before| <= |after| && (|after| > |before| ==> |after| <= high)
    && forall i :: 0 <= i < |before| && !(low <= i < high) ==> after[i] == before[i]
  }

  function Page(bytes: Bytes, i: nat): Bytes
    requires (i + 1) * PAGE_SIZE <= |bytes|
  {
    bytes[i * PAGE_SIZE..(i + 1) * PAGE_SIZE]
  }

  /** The whole pages of a file. */
  function Pages(bytes: Bytes): seq<Bytes> {
    seq(|bytes| / PAGE_SIZE, i requires 0 <= i < |bytes| / PAGE_SIZE => Page(bytes, i))
  }

  /** Pages over those from the first one named, and past the end where they reach it. */
  function Spliced(pages: seq<Bytes>, first: nat, more: seq<Bytes>): seq<Bytes>
    requires first <= |pages|
  {
    pages[..first] + more + if first + |more| <= |pages| then pages[first + |more|..] else []
  }

  lemma PagesLength(bytes: Bytes, n: nat)
    requires |bytes| == n * PAGE_SIZE
    ensures |Pages(bytes)| == n
  {
  }

  /** Slices whose bytes are the same, some way apart, are the same. */
  lemma SameSlice(a: Bytes, b: Bytes, low: nat, high: nat, shift: nat)
    requires shift <= low <= high <= |a| && high - shift <= |b|
    requires forall k :: low <= k < high ==> a[k] == b[k - shift]
    ensures a[low..high] == b[low - shift..high - shift]
  {
  }

  /** Whole pages put at a page's offset splice the sequence of pages. */
  lemma PutSplices(bytes: Bytes, first: nat, n: nat, data: Bytes, m: nat)
    requires |bytes| == n * PAGE_SIZE && |data| == m * PAGE_SIZE && first <= n
    ensures |Pages(bytes)| == n && |Pages(data)| == m
    ensures Pages(Put(bytes, first * PAGE_SIZE, data)) == Spliced(Pages(bytes), first, Pages(data))
  {
    hide Page;
    var at := first * PAGE_SIZE;
    var after := Put(bytes, at, data);
    var length := if first + m <= n then n else first + m;
    PagesLength(bytes, n);
    PagesLength(data, m);
    PagesLength(after, length);
    var left, right := Pages(after), Spliced(Pages(bytes), first, Pages(data));
    forall i | 0 <= i < length ensures left[i] == right[i] {
      if first <= i < first + m {
        PutPage(bytes, data, i, first);
      } else {
        KeptPage(bytes, data, i, first, m);
      }
    }
  }

  lemma PutPage(bytes: Bytes, data: Bytes, i: nat, first: nat)
    requires first * PAGE_SIZE <= |bytes| && first <= i && (i - first + 1) * PAGE_SIZE <= |data|
    ensures Page(Put(bytes, first * PAGE_SIZE, data), i) == Page(data, i - first)
  {
    var after := Put(bytes, first * PAGE_SIZE, data);
    hide Put;
    SameSlice(after, data, i * PAGE_SIZE, (i + 1) * PAGE_SIZE, first * PAGE_SIZE);
  }

  lemma KeptPage(bytes: Bytes, data: Bytes, i: nat, first: nat, m: nat)
    requires first * PAGE_SIZE <= |bytes| && |data| == m * PAGE_SIZE && !(first <= i < first + m)
    requires (i + 1) * PAGE_SIZE <= |bytes|
    ensures Page(Put(bytes, first * PAGE_SIZE, data), i) == Page(bytes, i)
  {
    var after := Put(bytes, first * PAGE_SIZE, data);
    hide Put;
    SameSlice(after, bytes, i * PAGE_SIZE, (i + 1) * PAGE_SIZE, 0);
  }

  /** Pages outside the bytes that may differ are as they were. */
  lemma DisturbedPages(before: Bytes, after: Bytes, n: nat, first: nat, m: nat)
    requires |before| == n * PAGE_SIZE && Disturbed(before, after, first * PAGE_SIZE, (first + m) * PAGE_SIZE)
    ensures |Pages(before)| == n <= |Pages(after)|
    ensures forall i :: 0 <= i < n && !(first <= i < first + m) ==> Pages(after)[i] == Pages(before)[i]
  {
    PagesLength(before, n);
    assert |after| / PAGE_SIZE >= n;
    forall i | 0 <= i < n && !(first <= i < first + m) ensures Pages(after)[i] == Pages(before)[i] {
      SameSlice(after, before, i * PAGE_SIZE, (i + 1) * PAGE_SIZE, 0);
    }
  }

  /** A torn tail is no page: dropping it leaves every page. */
  lemma TailDropped(bytes: Bytes)
    ensures Pages(bytes[..|bytes| - |bytes| % PAGE_SIZE]) == Pages(bytes)
  {
    var aligned := bytes[..|bytes| - |bytes| % PAGE_SIZE];
    forall i | 0 <= i < |Pages(bytes)| ensures Page(aligned, i) == Page(bytes, i) {
    }
  }

  lemma PutTwice(bytes: Bytes, at: nat, first: Bytes, second: Bytes)
    requires at <= |bytes|
    ensures Put(Put(bytes, at, first), at + |first|, second) == Put(bytes, at, first + second)
  {
  }

  lemma PutNothing(bytes: Bytes, at: nat, high: nat)
    requires at <= |bytes|
    ensures Put(bytes, at, []) == bytes && Disturbed(bytes, bytes, at, high)
  {
  }

  lemma DisturbedTwice(before: Bytes, between: Bytes, after: Bytes, low: nat, high: nat, start: nat)
    requires Disturbed(before, between, low, high) && Disturbed(between, after, start, high) && low <= start
    requires high <= |before|
    ensures Disturbed(before, after, low, high) && |after| == |before|
  {
  }

  lemma PutLength(bytes: Bytes, at: nat, data: Bytes)
    requires at <= |bytes|
    ensures |Put(bytes, at, data)| == if at + |data| <= |bytes| then |bytes| else at + |data|
  {
  }
}

/** A file behind a synchronous access handle, which may move fewer bytes than asked, or fail (page-device.ts). */
module FileHandles {
  import opened PageFiles

  datatype Moved = Threw | Count(count: int)

  /** Whether a transfer moved some of the bytes it was asked for. To move fewer than all is no fault. */
  predicate Moves(moved: Moved, length: nat) {
    moved.Count? && 0 < moved.count <= length
  }

  class Handle {
    var bytes: Bytes
    /** How often the file let its user down. */
    ghost var faults: nat

    method GetSize() returns (size: Moved)
      modifies this`faults
      ensures size.Count? && size.count >= 0 ==> size.count == |bytes|
      ensures faults == old(faults) + if size.Count? && size.count >= 0 then 0 else 1
    {
      size := *;
      if size.Count? && size.count >= 0 {
        size := Count(|bytes|);
      } else {
        faults := faults + 1;
      }
    }

    /** Some of the bytes asked for. A count that is not one of them says nothing of what was read. */
    method Read(at: nat, length: nat) returns (moved: Moved, data: Bytes)
      requires at + length <= |bytes|
      modifies this`faults
      ensures moved.Count? && 0 <= moved.count <= length ==> data == bytes[at..at + moved.count]
      ensures faults == old(faults) + if Moves(moved, length) then 0 else 1
    {
      moved := *;
      data := [];
      if moved.Count? && 0 <= moved.count <= length {
        data := bytes[at..at + moved.count];
      }
      if !Moves(moved, length) {
        faults := faults + 1;
      }
    }

    /** Some of the bytes given. Where it throws, or counts what it cannot have written, any of them may be there. */
    method Write(at: nat, view: Bytes) returns (moved: Moved)
      requires at <= |bytes|
      modifies this
      ensures Disturbed(old(bytes), bytes, at, at + |view|)
      ensures moved.Count? && 0 <= moved.count <= |view| ==> bytes == Put(old(bytes), at, view[..moved.count])
      ensures faults == old(faults) + if Moves(moved, |view|) then 0 else 1
    {
      moved := *;
      if moved.Count? && 0 <= moved.count <= |view| {
        bytes := Put(bytes, at, view[..moved.count]);
      } else {
        var some: Bytes := *;
        if |some| <= |view| {
          bytes := Put(bytes, at, some);
        }
      }
      if !Moves(moved, |view|) {
        faults := faults + 1;
      }
    }

    method Truncate(size: nat) returns (ok: bool)
      requires size <= |bytes|
      modifies this
      ensures bytes == if ok then old(bytes)[..size] else old(bytes)
      ensures faults == old(faults) + if ok then 0 else 1
    {
      ok := *;
      if ok {
        bytes := bytes[..size];
      } else {
        faults := faults + 1;
      }
    }

    method Flush() returns (ok: bool)
      modifies this`faults
      ensures faults == old(faults) + if ok then 0 else 1
    {
      ok := *;
      if !ok {
        faults := faults + 1;
      }
    }
  }
}

/** The page device over a file, and the one in memory (page-device.ts). */
module PageDevices {
  import opened PageFiles
  import opened FileHandles

  /** `Refused` changed nothing; `Failed` changed nothing but pages it was to write; after `Unknown` the file must be
      opened again. */
  datatype Result = Done | Refused | Failed | Unknown

  class OpfsPageDevice {
    const handle: Handle
    var pageCount: nat
    var closed: bool

    /** The count is followed from open on: it is the file's. */
    ghost predicate Valid()
      reads this, handle
    {
      |handle.bytes| == pageCount * PAGE_SIZE && pageCount <= MAX_PAGES
    }

    /** Opens a file, and drops the torn page at its end if it has one. */
    constructor (handle: Handle)
      modifies handle
      ensures this.handle == handle
      ensures !closed ==> Valid() && Pages(handle.bytes) == Pages(old(handle.bytes))
      ensures !closed ==> handle.bytes <= old(handle.bytes) && |old(handle.bytes)| - |handle.bytes| < PAGE_SIZE
      ensures closed ==> Pages(handle.bytes) == Pages(old(handle.bytes))
      ensures closed <==> handle.faults > old(handle.faults) || |old(handle.bytes)| > MAX_DATABASE_BYTES
    {
      this.handle, pageCount, closed := handle, 0, true;
      new;
      var size := handle.GetSize();
      if size.Threw? || size.count < 0 || size.count > MAX_DATABASE_BYTES {
        return;
      }
      TailDropped(handle.bytes);
      var aligned := size.count - size.count % PAGE_SIZE;
      if aligned != size.count {
        var ok := handle.Truncate(aligned);
        if ok {
          ok := handle.Flush();
        }
        if !ok {
          return;
        }
      }
      pageCount, closed := aligned / PAGE_SIZE, false;
    }

    /** Reads a page whole, whatever the handle moves at a time: it fails only if the handle does. */
    method ReadPage(id: nat) returns (result: Result, page: Bytes)
      requires Valid()
      modifies handle`faults
      ensures Valid() && (result == Failed <==> handle.faults > old(handle.faults))
      ensures result == Refused <==> closed || id >= pageCount
      ensures result in {Done, Refused, Failed}
      ensures result == Done ==> page == Pages(handle.bytes)[id]
    {
      page := [];
      if closed || id >= MAX_PAGES || id >= pageCount {
        return Refused, page;
      }
      var at := id * PAGE_SIZE;
      while |page| < PAGE_SIZE
        invariant |page| <= PAGE_SIZE && page == handle.bytes[at..at + |page|] && handle.faults == old(handle.faults)
        decreases PAGE_SIZE - |page|
      {
        var moved, data := handle.Read(at + |page|, PAGE_SIZE - |page|);
        if moved.Threw? || moved.count <= 0 || moved.count > PAGE_SIZE - |page| {
          return Failed, page;
        }
        page := page + data;
      }
      return Done, page;
    }

    /** Writes whole pages over those that are there and then past the end. */
    method WritePages(id: nat, source: Bytes) returns (result: Result)
      requires Valid()
      modifies this`pageCount, handle
      ensures result == Refused <==>
                closed || source == [] || |source| % PAGE_SIZE != 0 ||
                id + |source| / PAGE_SIZE > MAX_PAGES || id > old(pageCount)
      ensures result == Refused ==> handle.bytes == old(handle.bytes)
      ensures result == Failed || result == Unknown <==> handle.faults > old(handle.faults)
      ensures result != Unknown ==> Valid()
      ensures result == Done ==> Pages(handle.bytes) == Spliced(Pages(old(handle.bytes)), id, Pages(source))
      ensures result == Failed ==> pageCount == old(pageCount)
      ensures forall i :: 0 <= i < old(pageCount) && !(id <= i < id + |source| / PAGE_SIZE) ==>
                i < |Pages(handle.bytes)| && Pages(handle.bytes)[i] == Pages(old(handle.bytes))[i]
    {
      hide Pages, Put, Disturbed, Spliced;
      PagesLength(handle.bytes, pageCount);
      if closed || source == [] || |source| % PAGE_SIZE != 0 || id + |source| / PAGE_SIZE > MAX_PAGES ||
         id > pageCount {
        return Refused;
      }
      ghost var before, count := handle.bytes, pageCount;
      var pages := |source| / PAGE_SIZE;
      result := WriteAt(id * PAGE_SIZE, pageCount * PAGE_SIZE, source);
      DisturbedPages(before, handle.bytes, count, id, pages);
      if result == Done {
        if id + pages > pageCount {
          pageCount := id + pages;
        }
        PutSplices(before, id, count, source, pages);
        PutLength(before, id * PAGE_SIZE, source);
      }
    }

    /** Over the bytes that are there, and then past the end. */
    method WriteAt(at: nat, end: nat, source: Bytes) returns (result: Result)
      requires source != [] && at <= end == |handle.bytes|
      modifies handle
      ensures result in {Done, Failed, Unknown}
      ensures Disturbed(old(handle.bytes), handle.bytes, at, at + |source|)
      ensures handle.faults >= old(handle.faults) && (result != Done <==> handle.faults > old(handle.faults))
      ensures result == Done ==> handle.bytes == Put(old(handle.bytes), at, source)
      ensures result == Failed ==> |handle.bytes| == |old(handle.bytes)|
    {
      var inPlace := if |source| <= end - at then |source| else end - at;
      ghost var before := handle.bytes;
      assert before == Put(before, at, []);
      if inPlace > 0 {
        result := WriteExisting(at, source[..inPlace]);
        if result != Done {
          return;
        }
      }
      assert handle.bytes == Put(before, at, source[..inPlace]);
      if inPlace < |source| {
        result := Append(end, source[inPlace..]);
        if result != Done {
          return;
        }
        PutTwice(before, at, source[..inPlace], source[inPlace..]);
        assert source[..inPlace] + source[inPlace..] == source;
      } else {
        assert source[..inPlace] == source;
      }
      return Done;
    }

    /** A write over pages that are there may have changed them before it failed: only one that had not begun is known
        to have left them. */
    method WriteExisting(at: nat, source: Bytes) returns (result: Result)
      requires source != [] && at + |source| <= |handle.bytes|
      modifies handle
      ensures result in {Done, Failed, Unknown}
      ensures Disturbed(old(handle.bytes), handle.bytes, at, at + |source|) && |handle.bytes| == |old(handle.bytes)|
      ensures result == Done ==> handle.bytes == Put(old(handle.bytes), at, source)
      ensures result == Failed ==> handle.bytes == old(handle.bytes)
      ensures handle.faults >= old(handle.faults) && (result != Done <==> handle.faults > old(handle.faults))
    {
      hide Disturbed;
      var offset := 0;
      ghost var before := handle.bytes;
      PutNothing(before, at, at + |source|);
      while offset < |source|
        invariant offset <= |source| && handle.bytes == Put(before, at, source[..offset])
        invariant handle.faults == old(handle.faults)
        invariant Disturbed(before, handle.bytes, at, at + |source|)
        decreases |source| - offset
      {
        var view := source[offset..];
        ghost var between := handle.bytes;
        var moved := handle.Write(at + offset, view);
        DisturbedTwice(before, between, handle.bytes, at, at + |source|, at + offset);
        if moved.Threw? || moved.count < 0 || moved.count > |source| - offset {
          return Unknown;
        }
        PutTwice(before, at, source[..offset], view[..moved.count]);
        assert source[..offset] + view[..moved.count] == source[..offset + moved.count];
        if moved.count == 0 {
          return if offset == 0 then Failed else Unknown;
        }
        offset := offset + moved.count;
      }
      assert source[..offset] == source;
      return Done;
    }

    /** Pages past the end, or the file as long as it was. */
    method Append(end: nat, source: Bytes) returns (result: Result)
      requires end == |handle.bytes|
      modifies handle
      ensures result in {Done, Failed, Unknown}
      ensures result == Done ==> handle.bytes == Put(old(handle.bytes), end, source)
      ensures result == Failed ==> handle.bytes == old(handle.bytes)
      ensures Disturbed(old(handle.bytes), handle.bytes, end, end + |source|)
      ensures handle.faults >= old(handle.faults) && (result != Done <==> handle.faults > old(handle.faults))
    {
      var offset := 0;
      ghost var before := handle.bytes;
      while offset < |source|
        invariant offset <= |source| && handle.bytes == Put(before, end, source[..offset])
        invariant handle.faults == old(handle.faults)
        decreases |source| - offset
      {
        var view := source[offset..];
        var moved := handle.Write(end + offset, view);
        if moved.Threw? || moved.count <= 0 || moved.count > |source| - offset {
          var ok := handle.Truncate(end);
          if ok {
            assert handle.bytes == before;
            ok := handle.Flush();
          }
          return if ok then Failed else Unknown;
        }
        PutTwice(before, end, source[..offset], view[..moved.count]);
        assert source[..offset] + view[..moved.count] == source[..offset + moved.count];
        offset := offset + moved.count;
      }
      assert source[..offset] == source;
      return Done;
    }
  }

  /** The device in memory keeps each page by itself, and gives the same pages. */
  class MemoryPageDevice {
    var pages: seq<Bytes>
    var closed: bool

    ghost predicate Valid()
      reads this
    {
      |pages| <= MAX_PAGES && forall i :: 0 <= i < |pages| ==> |pages[i]| == PAGE_SIZE
    }

    constructor ()
      ensures Valid() && !closed && pages == []
    {
      pages, closed := [], false;
    }

    method ReadPage(id: nat) returns (result: Result, page: Bytes)
      requires Valid()
      ensures result == if closed || id >= |pages| then Refused else Done
      ensures result == Done ==> page == pages[id]
    {
      if closed || id >= MAX_PAGES || id >= |pages| {
        return Refused, [];
      }
      return Done, pages[id];
    }

    method WritePages(id: nat, source: Bytes) returns (result: Result)
      requires Valid()
      modifies this`pages
      ensures Valid()
      ensures result in {Done, Refused}
      ensures result == Refused <==>
                closed || source == [] || |source| % PAGE_SIZE != 0 || id + |source| / PAGE_SIZE > MAX_PAGES ||
                id > old(|pages|)
      ensures pages == if result == Done then Spliced(old(pages), id, Pages(source)) else old(pages)
    {
      if closed || source == [] || |source| % PAGE_SIZE != 0 || id + |source| / PAGE_SIZE > MAX_PAGES || id > |pages| {
        return Refused;
      }
      ghost var before, more := pages, Pages(source);
      for n := 0 to |source| / PAGE_SIZE
        invariant Valid() && pages == Spliced(before, id, more[..n])
      {
        var bytes := source[n * PAGE_SIZE..(n + 1) * PAGE_SIZE];
        assert bytes == more[n];
        if id + n < |pages| {
          pages := pages[id + n := bytes];
        } else {
          pages := pages + [bytes];
        }
      }
      assert more[..|source| / PAGE_SIZE] == more;
      return Done;
    }

    method Close()
      modifies this
      ensures closed && pages == []
    {
      closed, pages := true, [];
    }
  }
}
