/** A remote blob read through ranged requests: what a Content-Range header says,
    which validators pin a representation (sections 8.8.3, 13.1.1 and 14.4 of RFC
    9110), and the reader that puts the responses together. */
module RangeReader {
  import opened Basics
  import opened Hashing
  import opened Streams
  import opened Text

  // ------------------------------------------------------------- the headers

  /** An entity tag that promises the same bytes, or nothing. */
  function StrongETag(etag: string): (r: string)
    ensures r == "" || r == etag
    ensures r != "" <==> exists tag :: etag == "\"" + tag + "\"" && TagText(tag)
  {
    if |etag| < 2 || etag[0] != '"' || etag[|etag| - 1] != '"' then
      NotQuoted(etag);
      ""
    else
      var tag := etag[1..|etag| - 1];
      assert etag == "\"" + tag + "\"";
      if TagText(tag) then etag
      else
        assert forall t: string :: etag == "\"" + t + "\"" ==> t == tag by {
          forall t: string | etag == "\"" + t + "\"" ensures t == tag {
            assert t == etag[1..|etag| - 1];
          }
        }
        ""
  }

  predicate TagText(tag: string) {
    forall c <- tag :: 0x21 <= c as int && c != '"' && c as int != 0x7f
  }

  lemma NotQuoted(etag: string)
    requires |etag| < 2 || etag[0] != '"' || etag[|etag| - 1] != '"'
    ensures forall t: string :: etag != "\"" + t + "\""
  {
    forall t: string ensures etag != "\"" + t + "\"" {
      var q := "\"" + t + "\"";
      assert q[0] == '"' && q[|q| - 1] == '"';
    }
  }

  predicate Digits(s: string) {
    forall i | 0 <= i < |s| :: '0' <= s[i] <= '9'
  }

  function Value(s: string): nat
    requires Digits(s)
  {
    if s == "" then 0 else 10 * Value(s[..|s| - 1]) + (s[|s| - 1] as int - '0' as int)
  }

  /** A decimal that fits 64 bits. */
  function Decimal(s: string): Option<int64> {
    if s != "" && Digits(s) && Value(s) <= MAX_INT64 as int then Some(Value(s) as int64) else None
  }

  datatype ContentRange = ContentRange(start: int64, last: int64, total: int64)

  /** The header's text for a range. */
  ghost predicate Denotes(value: string, r: ContentRange) {
    exists f, l, t :: Written(value, f, l, t) && Numbers(f, l, t, r)
  }

  predicate Written(value: string, f: string, l: string, t: string) {
    value == "bytes " + (f + "-" + l + "/" + t)
  }

  predicate Numbers(f: string, l: string, t: string, r: ContentRange) {
    && Decimal(f) == Some(r.start) && Decimal(l) == Some(r.last) && Decimal(t) == Some(r.total)
    && r.start <= r.last < r.total
  }

  function ParseContentRange(value: string): Option<ContentRange> {
    if |value| < 6 || value[..6] != "bytes " then None
    else match Cut(value[6..], '/')
      case None => None
      case Some(sized) => match Cut(sized.0, '-')
        case None => None
        case Some(bounds) =>
          var start, last, total := Decimal(bounds.0), Decimal(bounds.1), Decimal(sized.1);
          if start.Some? && last.Some? && total.Some? && start.value <= last.value < total.value
          then Some(ContentRange(start.value, last.value, total.value))
          else None
  }

  /** A header is accepted exactly if it names a range, and for that range. */
  lemma ContentRangeExact(value: string, r: ContentRange)
    ensures ParseContentRange(value) == Some(r) <==> Denotes(value, r)
  {
    if ParseContentRange(value) == Some(r) {
      var sized := Cut(value[6..], '/').value;
      var bounds := Cut(sized.0, '-').value;
      assert Written(value, bounds.0, bounds.1, sized.1) by {
        assert value == value[..6] + value[6..];
        assert bounds.0 + "-" + bounds.1 + "/" + sized.1 == (bounds.0 + ['-'] + bounds.1) + ['/'] + sized.1;
      }
      assert Numbers(bounds.0, bounds.1, sized.1, r);
    }
    if Denotes(value, r) {
      var f, l, t :| Written(value, f, l, t) && Numbers(f, l, t, r);
      assert value[..6] == "bytes " && value[6..] == f + "-" + l + "/" + t;
      assert f + "-" + l + "/" + t == (f + ['-'] + l) + ['/'] + t;
      CutAt(f + ['-'] + l, '/', t);
      CutAt(f, '-', l);
    }
  }

  // -------------------------------------------------------------- the reader

  /** A response: its body gives `bytes` and then ends, cleanly or not. */
  datatype Response = Response(
    status: int, url: string, etag: string, range: string, length: int, identity: bool,
    bytes: Bytes, clean: bool)

  datatype Body = Body(left: Bytes, clean: bool)

  /** When the reader is closed, or its context cancelled, during a Read. */
  datatype Interruption = Never | BeforeBody | AfterRead

  /** How many of `bytes` are for positions from `at` to `last`. */
  function Within(bytes: Bytes, at: int, last: int): nat {
    if last < at then 0 else if |bytes| <= last - at then |bytes| else last - at + 1
  }

  /** `bytes` are what `content` has from `at` on, as far as `last`. */
  predicate Follows(bytes: Bytes, content: Bytes, at: int, last: int) {
    var n := Within(bytes, at, last);
    n > 0 ==> 0 <= at && at + n <= |content| && bytes[..n] == content[at..at + n]
  }

  lemma FollowsTake(bytes: Bytes, content: Bytes, at: int, last: int, n: nat)
    requires Follows(bytes, content, at, last) && n <= |bytes| && at + n <= last + 1
    ensures n > 0 ==> 0 <= at && at + n <= |content| && bytes[..n] == content[at..at + n]
  {
    var all := Within(bytes, at, last);
    if n > 0 {
      assert bytes[..n] == bytes[..all][..n];
      assert content[at..at + n] == content[at..at + all][..n];
    }
  }

  lemma FollowsRest(bytes: Bytes, content: Bytes, at: int, last: int, n: nat)
    requires Follows(bytes, content, at, last) && n <= |bytes| && at + n <= last + 1
    ensures Follows(bytes[n..], content, at + n, last)
  {
    var (all, rest) := (Within(bytes, at, last), Within(bytes[n..], at + n, last));
    if rest > 0 {
      assert all == n + rest;
      assert bytes[n..][..rest] == bytes[..all][n..];
      assert content[at + n..at + all] == content[at..at + all][n..];
    }
  }

  /** A service that does not lie about what it sends: a part of a representation
      is that part of it, and all of it starts at its first byte. */
  predicate Honest(resp: Response, content: Bytes, size: int64) {
    match resp.status
    case 206 => var r := ParseContentRange(resp.range);
      r.Some? && r.value.total == size ==> Follows(resp.bytes, content, r.value.start as int, r.value.last as int)
    case 200 => Follows(resp.bytes, content, 0, size as int - 1)
    case _ => true
  }

  class Reader {
    const size: int64
    const getURL: string
    const headURL: string
    const conditionalFirst: bool
    var etag: string
    var url: string
    var fetched: bool
    var offset: int64
    var body: Option<Body>
    var end: int64          // the last byte of the response
    var closed: bool
    var readErr: Option<Error>
    ghost var content: Bytes   // the representation pinned by the first response

    ghost predicate Valid()
      reads this
    {
      && size >= 0 && offset >= 0
      && (body.Some? ==>
            && fetched && !closed && readErr == None && offset <= end < size
            && Follows(body.value.left, content, offset as int, end as int))
    }

    constructor (size: int64, getURL: string, headURL: string, etag: string, conditionalFirst: bool)
      requires size >= 0
      ensures Valid() && this.size == size && offset == 0 && !fetched && !closed && readErr == None && body == None
    {
      this.size, this.getURL, this.headURL, this.conditionalFirst := size, getURL, headURL, conditionalFirst;
      this.etag, url, fetched, offset, body, end := StrongETag(etag), "", false, 0, None, 0;
      closed, readErr, content := false, None, [];
    }

    /** What a later response has to be for the assumption about validators to be
        of use: the pinned resource with the pinned tag has one representation. */
    ghost predicate Pinned(resp: Response, shown: Bytes)
      reads `fetched, `url, `etag, `content
    {
      fetched && resp.url == url && etag != "" && StrongETag(resp.etag) == etag ==> shown == content
    }

    /** The last byte a response that can be used at this offset gives. */
    function Usable(resp: Response): (r: Option<int64>)
      requires size > 0 && 0 <= offset < size
      reads `offset
      ensures r.Some? ==> offset <= r.value < size
    {
      if !resp.identity then None
      else
        var end :=
          if resp.status == 206 then
            var r := ParseContentRange(resp.range);
            if r.Some? && r.value.start == offset && r.value.last < size && r.value.total == size
            then Some(r.value.last) else None
          else if resp.status == 200 && offset == 0 && resp.range == "" then Some(size - 1)
          else None;
        if end.Some? && (resp.length < 0 || resp.length == end.value as int - offset as int + 1) then end else None
    }

    /** The response gives the bytes from the offset up to `last`: it is a part with a
        Content-Range that says so, or all of the blob, asked for from its start and
        without one; it is not encoded, and as long as that if it says how long. */
    ghost predicate Gives(resp: Response, last: int64)
      reads `offset
    {
      && resp.identity && 0 <= offset <= last < size
      && (|| (resp.status == 206 && Denotes(resp.range, ContentRange(offset, last, size)))
          || (resp.status == 200 && offset == 0 && resp.range == "" && last == size - 1))
      && (resp.length < 0 || resp.length == last as int - offset as int + 1)
    }

    lemma UsableExact(resp: Response, last: int64)
      requires size > 0 && 0 <= offset < size
      ensures Usable(resp) == Some(last) <==> Gives(resp, last)
    {
      ContentRangeExact(resp.range, ContentRange(offset, last, size));
    }

    /** Is the response of the resource and representation it has to be of? */
    predicate SameRepresentation(resp: Response)
      reads `etag, `url, `fetched
    {
      && (fetched ==> resp.url == url)
      && (!fetched && conditionalFirst ==> resp.url == headURL)
      && (fetched || conditionalFirst || (headURL != "" && resp.url == headURL) ==>
            etag == "" || StrongETag(resp.etag) == etag)
    }

    method Open(fetch: Result<Response>, ghost shown: Bytes, interrupted: bool) returns (r: Result<()>)
      requires Valid() && !closed && body == None && readErr == None && offset < size
      requires fetch.Ok? ==> Honest(fetch.value, shown, size) && Pinned(fetch.value, shown)
      modifies `etag, `url, `fetched, `body, `end, `content, `closed
      ensures Valid()
      ensures old(fetched) ==> fetched && url == old(url) && etag == old(etag) && content == old(content)
      ensures fetched && !old(fetched) ==>
                fetch.Ok? && url == fetch.value.url && etag == StrongETag(fetch.value.etag) && content == shown
      ensures r.Ok? <==> body.Some?
      ensures r.Ok? <==>
                && !interrupted && fetch.Ok? && !(old(fetched) && old(etag) == "")
                && old(Usable(fetch.value)).Some? && old(SameRepresentation(fetch.value))
      ensures r.Ok? ==>
                && old(Usable(fetch.value)) == Some(end)
                && body == Some(Body(fetch.value.bytes, fetch.value.clean))
      // Of the pinned resource and tag, once there is one; before, of the resource and
      // tag that were looked at, if it has to be or says it is.
      ensures r.Ok? && old(fetched) ==> fetch.value.url == old(url) && StrongETag(fetch.value.etag) == old(etag) != ""
      ensures r.Ok? && !old(fetched) ==>
                && (conditionalFirst ==> fetch.value.url == headURL)
                && (conditionalFirst || (headURL != "" && fetch.value.url == headURL) ==>
                      old(etag) == "" || StrongETag(fetch.value.etag) == old(etag))
                && url == fetch.value.url && etag == StrongETag(fetch.value.etag)
      ensures closed ==> interrupted
    {
      if fetched && etag == "" { return Err(Failed); }
      if fetch.Err? { return Err(fetch.error); }
      var resp := fetch.value;
      if resp.status == 404 { return Err(NotExist); }
      var last := Usable(resp);
      if last.None? || !SameRepresentation(resp) { return Err(Failed); }
      if !fetched {
        etag, url, fetched, content := StrongETag(resp.etag), resp.url, true, shown;
      }
      if interrupted {
        closed := true;
        return Err(Failed);
      }
      body, end := Some(Body(resp.bytes, resp.clean)), last.value;
      return Ok(());
    }

    /** Read up to `room` bytes, of which the body gives `gives` at once; `tells` if
        it says with its last bytes that they are the last. */
    method Read(room: nat, gives: nat, tells: bool, fetch: Result<Response>, ghost shown: Bytes, stop: Interruption)
      returns (bytes: Bytes, ending: Ending)
      requires Valid()
      requires fetch.Ok? ==> Honest(fetch.value, shown, size) && Pinned(fetch.value, shown)
      modifies this
      ensures Valid()
      ensures |bytes| <= room && offset as int == old(offset) as int + |bytes|
      // The representation's bytes at the offset, which stays the pinned one.
      ensures bytes != [] ==> offset as int <= |content| && offset <= size && bytes == content[old(offset)..offset]
      ensures old(fetched) ==> fetched && url == old(url) && etag == old(etag) && content == old(content)
      ensures fetched && !old(fetched) ==>
                fetch.Ok? && url == fetch.value.url && etag == StrongETag(fetch.value.etag) && content == shown
      ensures bytes != [] ==> fetched
      ensures ending.Eof? <==> room > 0 && !old(closed) && old(readErr).None? && old(offset) >= size
      // A response that is used up has brought something.
      ensures ending.More? && room > 0 && body.None? ==> offset > old(offset)
      // An error stays until a seek.
      ensures old(readErr).Some? && room > 0 && !old(closed) ==>
                ending == Fault(old(readErr).value) && offset == old(offset)
    {
      bytes := [];
      if closed { return bytes, Fault(Failed); }
      if room == 0 { return bytes, More; }
      if readErr.Some? { return bytes, Fault(readErr.value); }
      if offset >= size { return bytes, Eof; }
      if body.None? {
        var o := Open(fetch, shown, stop.BeforeBody?);
        if o.Err? { return bytes, Fault(o.error); }
      }
      bytes, ending := Take(room, gives, tells, stop.AfterRead?);
    }

    /** How much a read gives: what the body has ready, within the room and the
        response. */
    function Count(room: nat, gives: nat, left: nat): (n: nat)
      requires offset <= end < size && 0 <= offset
      reads `offset, `end
      ensures n <= room && n <= left && offset as int + n <= end as int + 1
    {
      var most := if room < (end - offset + 1) as int then room else (end - offset + 1) as int;
      var ready := if gives < most then gives else most;
      if left < ready then left else ready
    }

    method Take(room: nat, gives: nat, tells: bool, interrupted: bool) returns (bytes: Bytes, ending: Ending)
      requires Valid() && body.Some? && room > 0
      modifies `offset, `body, `readErr, `closed
      ensures Valid() && |bytes| <= room
      ensures offset as int == old(offset) as int + |bytes| && offset <= end + 1
      ensures bytes != [] ==> offset as int <= |content| && bytes == content[old(offset)..offset]
      ensures !ending.Eof? && (ending.More? && body.None? ==> offset > old(offset))
    {
      var b := body.value;
      var n := Count(room, gives, |b.left|);
      bytes := b.left[..n];
      FollowsTake(b.left, content, offset as int, end as int, n);
      FollowsRest(b.left, content, offset as int, end as int, n);
      offset := offset + n as int64;
      ending := Settle(Body(b.left[n..], b.clean), tells, interrupted);
    }

    /** After reading up to the offset: keep the body if there is more of it to
        come. A response has to be as long as it says: at its last byte the body has
        to end, and before it has not to. */
    method Settle(rest: Body, tells: bool, interrupted: bool) returns (ending: Ending)
      requires end < size && 0 <= offset <= end + 1 && fetched && !closed && readErr == None
      requires Follows(rest.left, content, offset as int, end as int)
      modifies `body, `readErr, `closed
      ensures Valid() && !ending.Eof?
      ensures ending.More? <==>
                && !interrupted
                && (if offset <= end then !(rest.left == [] && tells) else rest.left == [] && rest.clean)
      ensures ending.More? ==> body == if offset <= end then Some(rest) else None
    {
      if interrupted {
        closed, ending := true, Fault(Failed);
      } else if offset <= end {
        ending := if rest.left == [] && tells then Fault(Failed) else More;
      } else {
        ending := if rest.left == [] && rest.clean then More else Fault(Failed);
      }
      body := if offset <= end then Some(rest) else None;
      if ending.Fault? {
        readErr, body := Some(ending.error), None;
      }
    }

    method Seek(delta: int64, whence: Whence) returns (r: Result<int64>)
      requires Valid()
      modifies `offset, `body, `readErr
      ensures Valid()
      ensures r.Ok? <==> !closed && !whence.Unknown? && 0 <= old(Base(whence)) as int + delta as int <= MAX_INT64 as int
      ensures r.Ok? ==> r.value == offset && offset as int == old(Base(whence)) as int + delta as int
      ensures r.Err? ==> offset == old(offset) && body == old(body) && readErr == old(readErr)
      // Staying in place keeps the response and its error.
      ensures offset == old(offset) ==> body == old(body) && readErr == old(readErr)
      ensures offset != old(offset) ==> body == None && readErr == None
    {
      if closed || whence.Unknown? { return Err(Failed); }
      var base := Base(whence);
      if delta < -base || delta > MAX_INT64 - base { return Err(Failed); }
      var next := base + delta;
      if next != offset {
        body, offset, readErr := None, next, None;
      }
      return Ok(next);
    }

    function Base(whence: Whence): int64
      reads `offset
    {
      if whence.FromCurrent? then offset else if whence.FromEnd? then size else 0
    }

    method Close()
      requires Valid()
      modifies `closed, `body
      ensures Valid() && closed && body == None
    {
      closed, body := true, None;
    }
  }

  datatype Call = Call(room: nat, gives: nat, tells: bool, fetch: Result<Response>, stop: Interruption)

  /** Every response is of the one representation its URL and strong tag stand for. */
  ghost predicate Faithful(calls: seq<Call>, world: (string, string) -> Bytes, size: int64) {
    forall c <- calls :: c.fetch.Ok? ==>
      var resp := c.fetch.value; Honest(resp, world(resp.url, StrongETag(resp.etag)), size)
  }

  lemma Adjoin(content: Bytes, a: int, b: int, c: int)
    requires 0 <= a <= b <= c <= |content|
    ensures content[a..b] + content[b..c] == content[a..c]
  {
  }

  /** Reading on, through any number of short reads and short responses, until the
      calls are used up or one does not just give more: the bytes are a contiguous
      piece of one representation, up to its size if the end was reached. */
  method ReadOn(r: Reader, calls: seq<Call>, ghost world: (string, string) -> Bytes)
    returns (data: Bytes, ending: Ending)
    requires r.Valid() && r.offset <= r.size && Faithful(calls, world, r.size)
    requires r.fetched && r.etag != "" ==> r.content == world(r.url, r.etag)
    modifies r
    ensures r.Valid() && r.offset as int == old(r.offset) as int + |data| && r.offset <= r.size
    ensures data != [] ==> r.offset as int <= |r.content| && data == r.content[old(r.offset)..r.offset]
    ensures r.fetched && r.etag != "" ==> r.content == world(r.url, r.etag)
    ensures ending.Eof? ==> r.offset == r.size && |data| == r.size as int - old(r.offset) as int
  {
    data, ending := [], More;
    for i := 0 to |calls|
      invariant r.Valid() && r.offset as int == old(r.offset) as int + |data| && r.offset <= r.size
      invariant data != [] ==> r.fetched && r.offset as int <= |r.content| && data == r.content[old(r.offset)..r.offset]
      invariant r.fetched && r.etag != "" ==> r.content == world(r.url, r.etag)
      invariant ending.More?
    {
      var c := calls[i];
      assert c in calls;
      ghost var shown := if c.fetch.Ok? then world(c.fetch.value.url, StrongETag(c.fetch.value.etag)) else [];
      ghost var (from, at) := (old(r.offset) as int, r.offset as int);
      var bytes;
      bytes, ending := r.Read(c.room, c.gives, c.tells, c.fetch, shown, c.stop);
      if bytes != [] { Adjoin(r.content, from, at, r.offset as int); }
      data := data + bytes;
      if !ending.More? { return; }
    }
  }

  datatype Move = Reads(call: Call) | Seeks(delta: int64, whence: Whence)

  /** What one Read gave, and where. */
  datatype Piece = Piece(at: int64, bytes: Bytes, ending: Ending)

  predicate PieceOk(p: Piece, content: Bytes, size: int64) {
    && (p.bytes != [] ==>
          && 0 <= p.at && p.at as int + |p.bytes| <= |content| && p.at as int + |p.bytes| <= size as int
          && p.bytes == content[p.at as int..p.at as int + |p.bytes|])
    && (p.ending.Eof? ==> p.at >= size && p.bytes == [])
  }

  ghost predicate AllFaithful(moves: seq<Move>, world: (string, string) -> Bytes, size: int64) {
    forall i | 0 <= i < |moves| :: moves[i].Reads? && moves[i].call.fetch.Ok? ==>
      var resp := moves[i].call.fetch.value;
      Honest(resp, world(resp.url, StrongETag(resp.etag)), size)
  }

  /** Any run of reads and seeks, through failures, short reads and short responses:
      every read gives the bytes of one representation at the offset it was made at,
      and the end of file only at or past the size. */
  method ReadAndSeek(r: Reader, moves: seq<Move>, ghost world: (string, string) -> Bytes) returns (pieces: seq<Piece>)
    requires r.Valid() && AllFaithful(moves, world, r.size)
    requires r.fetched && r.etag != "" ==> r.content == world(r.url, r.etag)
    modifies r
    ensures r.Valid() && (r.fetched && r.etag != "" ==> r.content == world(r.url, r.etag))
    ensures old(r.fetched) ==> r.fetched && r.content == old(r.content)
    ensures forall i | 0 <= i < |pieces| :: PieceOk(pieces[i], r.content, r.size)
  {
    pieces := [];
    for i := 0 to |moves|
      invariant r.Valid() && (r.fetched && r.etag != "" ==> r.content == world(r.url, r.etag))
      invariant old(r.fetched) ==> r.fetched && r.content == old(r.content)
      invariant forall k | 0 <= k < |pieces| :: PieceOk(pieces[k], r.content, r.size)
      invariant forall k | 0 <= k < |pieces| :: pieces[k].bytes != [] ==> r.fetched
    {
      match moves[i] {
        case Seeks(delta, whence) =>
          var at := r.Seek(delta, whence);
        case Reads(c) =>
          var p := ReadPiece(r, c, world);
          pieces := pieces + [p];
      }
    }
  }

  method ReadPiece(r: Reader, c: Call, ghost world: (string, string) -> Bytes) returns (p: Piece)
    requires r.Valid() && (r.fetched && r.etag != "" ==> r.content == world(r.url, r.etag))
    requires c.fetch.Ok? ==>
               var resp := c.fetch.value; Honest(resp, world(resp.url, StrongETag(resp.etag)), r.size)
    modifies r
    ensures r.Valid() && (r.fetched && r.etag != "" ==> r.content == world(r.url, r.etag))
    ensures old(r.fetched) ==> r.fetched && r.content == old(r.content)
    ensures p.at == old(r.offset) && PieceOk(p, r.content, r.size) && (p.bytes != [] ==> r.fetched)
  {
    ghost var shown := if c.fetch.Ok? then world(c.fetch.value.url, StrongETag(c.fetch.value.etag)) else [];
    var at := r.offset;
    var bytes, ending := r.Read(c.room, c.gives, c.tells, c.fetch, shown, c.stop);
    p := Piece(at, bytes, ending);
  }
}
