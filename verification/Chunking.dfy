/** How bytes are cut into parts: the chunks of an S3 stage, regrouped on every
    Append so that all but the last are full, and the byte ranges of a multipart
    copy. Offsets are 64-bit: every `int64` below is one that does not overflow. */
module Chunking {
  import opened Basics
  import opened Hashing
  import opened Streams

  const MAX_PARTS := 10000
  const MIN_PART := 0x50_0000
  const MAX_PART := 0x1_4000_0000

  predicate PartSize(n: int) { MIN_PART <= n <= MAX_PART }

  /** What reading a manifest back requires of its chunk list. */
  predicate WellSized(n: int, chunks: seq<Bytes>) {
    && |chunks| <= MAX_PARTS
    && (forall i | 0 <= i < |chunks| :: 0 < |chunks[i]| <= n && (i < |chunks| - 1 ==> |chunks[i]| == n))
  }

  predicate AllFull(n: int, chunks: seq<Bytes>) {
    forall i | 0 <= i < |chunks| :: |chunks[i]| == n
  }

  /** How many parts of up to n bytes hold `size` bytes. */
  function PartCount(n: int, size: int): (r: nat)
    requires n > 0
    ensures r == 0 <==> size <= 0
  {
    if size <= 0 then 0 else 1 + PartCount(n, size - n)
  }

  lemma {:induction false} FullCount(n: int, full: seq<Bytes>, more: nat)
    requires n > 0 && AllFull(n, full)
    ensures PartCount(n, |Flatten(full)| + more) == |full| + PartCount(n, more)
  {
    if full != [] { FullCount(n, full[..|full| - 1], n + more); }
  }

  lemma {:induction false} FullLength(n: int, a: seq<Bytes>, b: seq<Bytes>)
    requires AllFull(n, a) && AllFull(n, b) && |a| == |b|
    ensures |Flatten(a)| == |Flatten(b)|
  {
    if a != [] { FullLength(n, a[..|a| - 1], b[..|b| - 1]); }
  }

  /** Nothing a manifest can list overflows 64 bits. */
  lemma {:induction false} LengthFits(n: int, chunks: seq<Bytes>)
    requires PartSize(n) && forall i | 0 <= i < |chunks| :: |chunks[i]| <= n
    ensures |Flatten(chunks)| <= |chunks| * MAX_PART
  {
    if chunks != [] { LengthFits(n, chunks[..|chunks| - 1]); }
  }

  /** A well-sized list has the fewest parts that can hold its bytes. */
  lemma WellSizedCount(n: int, chunks: seq<Bytes>)
    requires n > 0 && WellSized(n, chunks)
    ensures |chunks| == PartCount(n, |Flatten(chunks)|)
  {
    if chunks != [] {
      var k := |chunks| - 1;
      FullCount(n, chunks[..k], |chunks[k]|);
      assert PartCount(n, |chunks[k]| - n) == 0;
    }
  }

  /** The parts are a function of the bytes: however the same bytes came in, over
      however many Appends, the chunk boundaries are the same. */
  lemma {:induction false} GroupingIsUnique(n: int, a: seq<Bytes>, b: seq<Bytes>)
    requires n > 0 && WellSized(n, a) && WellSized(n, b) && Flatten(a) == Flatten(b)
    ensures a == b
  {
    WellSizedCount(n, a);
    WellSizedCount(n, b);
    if a != [] {
      var k := |a| - 1;
      FullLength(n, a[..k], b[..k]);
      var m := |Flatten(a[..k])|;
      assert Flatten(a)[..m] == Flatten(a[..k]) && Flatten(b)[..m] == Flatten(b[..k]);
      assert Flatten(a)[m..] == a[k] && Flatten(b)[m..] == b[k];
      GroupingIsUnique(n, a[..k], b[..k]);
    }
  }

  lemma KeptTail(n: int, chunks: seq<Bytes>)
    requires n > 0 && WellSized(n, chunks)
    ensures Kept(n, chunks) <= chunks && AllFull(n, Kept(n, chunks)) && WellSized(n, Kept(n, chunks))
    ensures Flatten(Kept(n, chunks)) + Flatten(chunks[|Kept(n, chunks)|..]) == Flatten(chunks)
  {
    SplitFlatten(chunks, |Kept(n, chunks)|);
  }

  lemma SplitFlatten(chunks: seq<Bytes>, k: nat)
    requires k == |chunks| || k + 1 == |chunks|
    ensures Flatten(chunks[..k]) + Flatten(chunks[k..]) == Flatten(chunks)
  {
    if k < |chunks| {
      assert chunks[k..] == [chunks[k]] && chunks[k..][..0] == [];
      assert Flatten(chunks[k..]) == chunks[k];
    } else {
      assert chunks[k..] == [] && chunks[..k] == chunks;
    }
  }

  /** The bucket's answers to the chunk writes: how many succeed before one fails. */
  datatype Puts = AllWork | FailAfter(n: nat)

  /** An Append's bytes: drop a short last chunk and read it back, then write full
      parts until the input ends. The input is `input` and then its end, or an
      error if `broken`. Nothing of this is part of the stage until its manifest is
      replaced, which needs an Ok. */
  method Regroup(n: int64, chunks: seq<Bytes>, offset: int64, input: Bytes, broken: bool, puts: Puts)
    returns (r: Result<(seq<Bytes>, int64)>)
    requires PartSize(n as int) && WellSized(n as int, chunks) && offset as int == |Flatten(chunks)|
    ensures r.Ok? <==>
              && !broken && PartCount(n as int, |Flatten(chunks)| + |input|) <= MAX_PARTS
              && (puts.FailAfter? ==>
                    PartCount(n as int, |Flatten(chunks)| + |input|) - |Kept(n as int, chunks)| <= puts.n)
    ensures r.Ok? ==>
              && WellSized(n as int, r.value.0) && Flatten(r.value.0) == Flatten(chunks) + input
              && r.value.1 as int == |Flatten(r.value.0)|
              && Kept(n as int, chunks) <= r.value.0
  {
    var kept := Kept(n as int, chunks);
    var tail := Flatten(chunks[|kept|..]);
    KeptTail(n as int, chunks);
    LengthFits(n as int, chunks);
    assert Flatten(kept) + (tail + input) == Flatten(chunks) + input;
    var c := CutParts(n, kept, tail + input, broken, puts);
    if c.Err? { return Err(c.error); }
    return Ok((c.value.0, offset + c.value.1 - |tail| as int64));
  }

  method CutParts(n: int64, kept: seq<Bytes>, bytes: Bytes, broken: bool, puts: Puts)
    returns (r: Result<(seq<Bytes>, int64)>)
    requires PartSize(n as int) && WellSized(n as int, kept) && AllFull(n as int, kept)
    ensures r.Ok? <==>
              && !broken && PartCount(n as int, |Flatten(kept)| + |bytes|) <= MAX_PARTS
              && (puts.FailAfter? ==> PartCount(n as int, |Flatten(kept)| + |bytes|) - |kept| <= puts.n)
    ensures r.Ok? ==>
              && WellSized(n as int, r.value.0) && Flatten(r.value.0) == Flatten(kept) + bytes
              && kept <= r.value.0
              && r.value.1 as int == |bytes| && |bytes| <= MAX_PARTS * MAX_PART
  {
    ghost var m := n as int;
    var next, rest, written, ended := kept, bytes, 0 as int64, false;
    while !ended
      invariant kept <= next && WellSized(m, next) && (!ended ==> AllFull(m, next))
      invariant Flatten(next) + rest == Flatten(kept) + bytes && (ended ==> rest == [])
      invariant written as int == |bytes| - |rest| && (ended ==> !broken)
      invariant puts.FailAfter? ==> |next| - |kept| <= puts.n
      decreases !ended, |rest|
    {
      Ahead(m, next, |rest|);
      var part := if |rest| < n as int then rest else rest[..n];
      ended := |rest| < n as int;
      if ended && broken {
        return Err(Failed);
      }
      if |part| > 0 {
        if |next| >= MAX_PARTS { return Err(Failed); }
        if puts == FailAfter(|next| - |kept|) { return Err(Failed); }
        PartTaken(m, next, rest, |part|);
        next := next + [part];
        written := written + |part| as int64;
      }
      rest := rest[|part|..];
    }
    WellSizedCount(m, next);
    LengthFits(m, next);
    return Ok((next, written));
  }

  lemma PartTaken(n: int, next: seq<Bytes>, rest: Bytes, k: nat)
    requires PartSize(n) && WellSized(n, next) && AllFull(n, next) && |next| < MAX_PARTS && 0 < k <= |rest| && k <= n
    ensures WellSized(n, next + [rest[..k]]) && (k == n ==> AllFull(n, next + [rest[..k]]))
    ensures Flatten(next + [rest[..k]]) + rest[k..] == Flatten(next) + rest
    ensures |Flatten(next)| + k <= MAX_PARTS * MAX_PART
  {
    LengthFits(n, next);
    JoinOne(next, rest, k);
  }

  lemma JoinOne(next: seq<Bytes>, rest: Bytes, k: nat)
    requires k <= |rest|
    ensures Flatten(next + [rest[..k]]) + rest[k..] == Flatten(next) + rest
  {
    FlattenSnoc(next, rest[..k]);
    assert rest == rest[..k] + rest[k..];
  }

  lemma Ahead(n: int, next: seq<Bytes>, more: nat)
    requires n > 0 && AllFull(n, next)
    ensures |next| <= PartCount(n, |Flatten(next)| + more)
    ensures more > 0 ==> |next| < PartCount(n, |Flatten(next)| + more)
  {
    FullCount(n, next, more);
  }

  /** The chunks an Append keeps: all the full ones. */
  function Kept(n: int, chunks: seq<Bytes>): seq<Bytes> {
    if |chunks| > 0 && |chunks[|chunks| - 1]| < n then chunks[..|chunks| - 1] else chunks
  }

  // -------------------------------------------------- copying a large object

  const COPY_PART: int64 := 0x4000_0000

  datatype Range = Range(first: int64, last: int64)

  function Length(r: Range): int { r.last as int - r.first as int + 1 }

  /** Range i starts where the one before it, which is a full one, ended. */
  predicate Follows(ranges: seq<Range>, i: nat)
    requires i < |ranges|
  {
    && 0 <= ranges[i].first <= ranges[i].last && Length(ranges[i]) <= COPY_PART as int
    && ranges[i].first as int == EndOf(ranges[..i])
    && (i > 0 ==> Length(ranges[i - 1]) == COPY_PART as int)
  }

  predicate Chained(ranges: seq<Range>) {
    forall i | 0 <= i < |ranges| :: Follows(ranges, i)
  }

  lemma ChainPrefix(ranges: seq<Range>, next: Range)
    ensures Chained(ranges + [next]) <==> Chained(ranges) && Follows(ranges + [next], |ranges|)
  {
    assert forall i | 0 <= i < |ranges| :: (ranges + [next])[..i] == ranges[..i];
    forall i | 0 <= i < |ranges| ensures Follows(ranges + [next], i) <==> Follows(ranges, i) {
    }
  }

  function EndOf(ranges: seq<Range>): int
  {
    if ranges == [] then 0 else ranges[|ranges| - 1].last as int + 1
  }

  /** 64-bit arithmetic wraps around. */
  function Wrap(x: int): int64 {
    ((x + 0x8000_0000_0000_0000) % 0x1_0000_0000_0000_0000 - 0x8000_0000_0000_0000) as int64
  }

  /** The ranges in which an object too large for one copy is copied. The service
      refuses a range that is not within the object; that happens exactly for sizes
      at which the sum of offset and part does not fit 64 bits. */
  method CopyRanges(size: int64) returns (r: Result<seq<Range>>)
    ensures r.Ok? <==> size as int <= 0x8000_0000_0000_0000 - COPY_PART as int
    ensures r.Ok? ==> Chained(r.value) && EndOf(r.value) == if size > 0 then size as int else 0
  {
    var ranges: seq<Range> := [];
    var offset: int64 := 0;
    while offset < size
      invariant offset as int == |ranges| * COPY_PART as int
      invariant Chained(ranges)
      invariant EndOf(ranges) == if offset < size then offset as int else if size > 0 then size as int else 0
      invariant ranges != [] && offset < size ==> Length(ranges[|ranges| - 1]) == COPY_PART as int
      decreases size as int - offset as int
    {
      var next := Wrap(offset as int + COPY_PART as int);
      var end := Wrap((if next < size then next else size) as int - 1);
      if end < offset || end >= size { return Err(Failed); }
      ChainPrefix(ranges, Range(offset, end));
      assert (ranges + [Range(offset, end)])[..|ranges|] == ranges;
      ranges := ranges + [Range(offset, end)];
      offset := next;
    }
    return Ok(ranges);
  }

  /** What the parts copied from src join to. */
  function Copied(src: Bytes, ranges: seq<Range>): Bytes
    requires Chained(ranges) && EndOf(ranges) <= |src|
  {
    if ranges == [] then []
    else
      var r := ranges[|ranges| - 1];
      assert Follows(ranges, |ranges| - 1);
      assert ranges == ranges[..|ranges| - 1] + [r];
      ChainPrefix(ranges[..|ranges| - 1], r);
      Copied(src, ranges[..|ranges| - 1]) + src[r.first as int..r.last as int + 1]
  }

  /** The copy is the object, and part i is what starts at i full parts, so no
      more parts are used than the size needs. */
  lemma {:induction false} CopyIsWhole(src: Bytes, ranges: seq<Range>)
    requires Chained(ranges) && 0 <= EndOf(ranges) <= |src|
    ensures Copied(src, ranges) == src[..EndOf(ranges)]
    ensures ranges != [] ==> ranges[|ranges| - 1].first as int == (|ranges| - 1) * COPY_PART as int
  {
    if ranges != [] {
      var before := ranges[..|ranges| - 1];
      assert ranges == before + [ranges[|before|]] && Follows(ranges, |before|);
      ChainPrefix(before, ranges[|before|]);
      CopyIsWhole(src, before);
    }
  }
}
