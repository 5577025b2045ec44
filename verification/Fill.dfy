/** A blob being added while it is read: one writer writes it in order, any number
    of readers follow.

    Each method is one critical section, or one step between two of them, so any
    interleaving of the writer and the readers is a sequence of calls, and what
    `Valid` says holds at every point of it. A wake channel is the number of
    notifications before it; it is closed once there has been another one. */
module Fill {
  import opened Basics
  import opened Hashing
  import opened Streams

  /** While bytes are expected; all written and verified; or why the fill failed. */
  datatype State = Expecting | Complete | Broken(error: Error)

  /** What a reader has seen under the lock, until it acts on it. */
  datatype Seen = Seen(written: int, state: State, wake: nat)

  /** A reader: its offset, and what it has got since it was at `from`. */
  datatype Reader = Reader(off: int, closed: bool, look: Option<Seen>, from: int, got: Bytes)

  const NEW_READER := Reader(0, false, None, 0, [])

  datatype Outcome = Got(bytes: Bytes, fails: bool) | End | Refused(error: Error) | Blocked

  function OpenReaders(readers: map<nat, Reader>): set<nat> {
    set id | id in readers && !readers[id].closed
  }

  lemma OneCloses(readers: map<nat, Reader>, id: nat)
    requires id in readers && !readers[id].closed
    ensures |OpenReaders(readers[id := readers[id].(closed := true)])| == |OpenReaders(readers)| - 1
  {
    assert OpenReaders(readers) == OpenReaders(readers[id := readers[id].(closed := true)]) + {id};
  }

  /** What a reader has got is what was written there. */
  predicate HasGot(r: Reader, data: Bytes, written: nat) {
    && 0 <= r.from && r.off == r.from + |r.got|
    && (r.got != [] ==> r.off <= written <= |data| && r.got == data[r.from..r.off])
  }

  /** What holds of a reader's last look at the fill. */
  predicate ReaderOk(r: Reader, data: Bytes, written: nat, state: State, wake: nat) {
    && HasGot(r, data, written)
    && (r.look.Some? ==>
          && 0 <= r.look.value.written <= written && r.look.value.wake <= wake
          && (!r.look.value.state.Expecting? ==> state == r.look.value.state && r.look.value.written == written)
          // An unclosed channel: nothing has changed since.
          && (r.look.value.wake == wake ==> r.look.value.written == written && r.look.value.state == state))
  }

  predicate ReadersOk(readers: map<nat, Reader>, data: Bytes, written: nat, state: State, wake: nat) {
    forall id <- readers :: ReaderOk(readers[id], data, written, state, wake)
  }

  lemma ReadersSeeMore(readers: map<nat, Reader>, data: Bytes, more: Bytes, written: nat, state: State, wake: nat)
    requires ReadersOk(readers, data, written, state, wake)
    ensures ReadersOk(readers, data + more, written, state, wake)
  {
    forall id <- readers ensures ReaderOk(readers[id], data + more, written, state, wake) {
      GotStays(readers[id], data, more, written);
    }
  }

  lemma GotStays(r: Reader, data: Bytes, more: Bytes, written: nat)
    requires HasGot(r, data, written)
    ensures HasGot(r, data + more, written)
  {
    if r.got != [] { assert (data + more)[r.from..r.off] == data[r.from..r.off]; }
  }

  /** A reader gets the n bytes at its offset. */
  function Gets(r: Reader, data: Bytes, n: nat): Reader
    requires 0 <= r.off && r.off + n <= |data|
  {
    r.(look := None, off := r.off + n, got := r.got + data[r.off..r.off + n])
  }

  lemma GetsMore(r: Reader, data: Bytes, written: nat, n: nat)
    requires HasGot(r, data, written) && 0 <= r.off && r.off + n <= written <= |data|
    ensures HasGot(Gets(r, data, n), data, written)
  {
    if r.got != [] { assert data[r.from..r.off] + data[r.off..r.off + n] == data[r.from..r.off + n]; }
  }

  /** What a Read with room for some bytes may do, for a reader that has looked. */
  predicate Serves(h: Hasher, want: Digest, size: int, data: Bytes, written: nat, state: State, wake: nat,
                   r: Reader, r': Reader, o: Outcome, room: nat, fails: bool, cancelled: bool)
    requires r.look.Some?
  {
    && r'.closed == r.closed && r'.from == r.from && r'.got == r.got + (if o.Got? then o.bytes else [])
    && (if o.Got? then
          // Only written bytes, the ones at its offset, and some if it can.
          && 0 <= r.off && r'.off == r.off + |o.bytes| <= written <= |data| && |o.bytes| <= room && o.fails == fails
          && o.bytes == data[r.off..r'.off] && (o.bytes == [] ==> room == 0 || fails)
        else r'.off == r.off)
    // The end is the end of the verified blob, and who has read from its start to
    // the end has the blob.
    && (o.End? ==> state.Complete? && |data| == size <= r.off && h.DigestOf(data) == want)
    && (o.End? && r.from == 0 ==> r.got == data)
    && (o.Refused? ==> r.closed || cancelled || state == Broken(o.error))
    // It waits only for something that is not there yet.
    && (o.Blocked? ==>
          && r' == r && r.look.value.state.Expecting? && !cancelled
          && (r.look.value.wake == wake ==> state.Expecting? && r.off >= written))
    && (!o.Blocked? ==> r'.look == None)
  }

  /** It does what it can with what it has seen. */
  predicate Tries(r: Reader, size: int, o: Outcome, room: nat, fails: bool)
    requires r.look.Some?
  {
    var seen := r.look.value;
    && (seen.state.Broken? ==> o == Refused(seen.state.error))
    && (seen.state.Complete? && r.off >= size ==> o.End?)
    && (!seen.state.Broken? && 0 <= r.off < seen.written && (seen.state.Complete? ==> r.off < size) ==>
          && o.Got?
          && (!fails ==> |o.bytes| == if room < seen.written - r.off then room else seen.written - r.off))
  }

  lemma DecideTries(r: Reader, data: Bytes, size: int, room: nat, got: nat, fails: bool, cancelled: bool)
    requires r.look.Some? && 0 <= r.off && r.look.value.written <= |data|
    ensures Tries(r, size, Decide(r, data, size, room, got, fails, cancelled).0, room, fails)
  {
  }

  function Decide(r: Reader, data: Bytes, size: int, room: nat, got: nat, fails: bool, cancelled: bool)
    : (Outcome, Reader)
    requires r.look.Some? && 0 <= r.off && r.look.value.written <= |data|
  {
    var seen, next := r.look.value, r.(look := None);
    if seen.state.Broken? then (Refused(seen.state.error), next)
    else if r.off >= size && seen.state.Complete? then (End, next)
    else if r.off < seen.written then
      var most := if room < seen.written - r.off then room else seen.written - r.off;
      var n := if fails && got < most then got else most;
      (Got(data[r.off..r.off + n], fails), Gets(r, data, n))
    else if cancelled || r.closed then (Refused(Failed), next)
    else (Blocked, r)
  }

  lemma DecideOk(h: Hasher, want: Digest, size: int, data: Bytes, written: nat, state: State, wake: nat,
                 r: Reader, r': Reader, o: Outcome, room: nat, got: nat, fails: bool, cancelled: bool)
    requires r.look.Some? && ReaderOk(r, data, written, state, wake) && written <= |data| && written <= size
    requires state.Complete? ==> written == size == |data| && h.DigestOf(data) == want
    requires (o, r') == Decide(r, data, size, room, got, fails, cancelled)
    ensures Serves(h, want, size, data, written, state, wake, r, r', o, room, fails, cancelled)
    ensures ReaderOk(r', data, written, state, wake)
  {
    if o.Got? {
      GetsMore(r, data, written, |o.bytes|);
    } else if o.End? && r.got != [] && r.from == 0 {
      assert data[0..|data|] == data;
    }
  }

  class Tracker {
    const h: Hasher
    const size: int
    const want: Digest
    var data: Bytes                  // what the source can be read at
    var hash: Checkpoint
    var pending: nat                 // stored by a Write that has not settled
    var written: nat
    var state: State
    var wake: nat
    var ended: bool
    var count: int                   // readers
    var released: bool
    ghost var releases: nat
    var readers: map<nat, Reader>

    /** What holds of the writer's side. */
    ghost predicate WriterValid()
      reads `data, `hash, `pending, `written, `state
    {
      && h.Lawful() && size >= 0
      && |data| == written + pending <= size && hash == h.Of(data)
      && (state.Complete? ==> written == size && h.DigestOf(data) == want)
      && (state.Expecting? ==> written < size)
      && (pending > 0 ==> state.Expecting?)
      && (written == size ==> state == Verdict())
    }

    function Verdict(): State
      reads `hash
    {
      if h.sum(hash) == want then Complete else Broken(DigestMismatch)
    }

    ghost predicate Valid()
      reads this
    {
      && WriterValid()
      && ReadersOk(readers, data, written, state, wake)
      && count == |OpenReaders(readers)|
      && (released <==> ended && count == 0)
      && releases == (if released then 1 else 0)
    }

    constructor (h: Hasher, size: int, want: Digest)
      requires h.Lawful() && size >= 0
      ensures Valid() && this.h == h && this.size == size && this.want == want
      ensures data == [] && readers == map[] && !ended
      ensures state ==
                if size > 0 then Expecting else if h.DigestOf([]) == want then Complete else Broken(DigestMismatch)
    {
      this.h, this.size, this.want := h, size, want;
      data, hash, pending, written := [], h.start, 0, 0;
      wake, ended, count, released, releases, readers := 0, false, 0, false, 0, map[];
      state := if size > 0 then Expecting else if h.sum(h.start) == want then Complete else Broken(DigestMismatch);
    }

    // ------------------------------------------------------------- the writer

    /** Store the next bytes of p: all there is room for, or the first `stored` of
        them if the store fails. Nobody sees them yet. */
    method Store(p: Bytes, stored: nat, fails: bool) returns (n: nat, r: Result<()>)
      requires Valid() && pending == 0
      modifies `data, `hash, `pending
      ensures Valid() && n == pending <= |p| && data == old(data) + p[..n]
      ensures r.Ok? <==> state.Expecting? && !fails && |p| <= size - written
      ensures r.Ok? ==> n == |p|
      ensures !state.Expecting? ==> n == 0
      ensures state.Expecting? && !fails ==> n == if |p| <= size - written then |p| else size - written
    {
      n := 0;
      if !state.Expecting? {
        assert data + p[..0] == data;
        return 0, Err(if state.Complete? then Failed else state.error);
      }
      var room := size - written;
      var fits := if |p| > room then p[..room] else p;
      n := if fails && stored < |fits| then stored else |fits|;
      assert fits[..n] == p[..n];
      ReadersSeeMore(readers, data, fits[..n], written, state, wake);
      data := data + fits[..n];
      hash := h.feed(hash, fits[..n]);
      pending := n;
      r := if fails || |p| > room then Err(Failed) else Ok(());
    }

    /** Let the readers see what was stored. */
    method Settle()
      requires Valid() && state.Expecting?
      modifies `pending, `written, `state, `wake
      ensures Valid() && pending == 0 && written == |data| && wake == old(wake) + 1
      ensures state == if written == size then Verdict() else Expecting
    {
      written := written + pending;
      pending := 0;
      if written == size { state := Verdict(); }
      wake := wake + 1;
    }

    /** Is every byte there, and the right one? Ends the fill either way. */
    method Commit() returns (r: Result<()>)
      requires Valid() && pending == 0
      modifies `ended, `released, `releases
      ensures Valid() && ended
      ensures r.Ok? <==> |data| == size && h.DigestOf(data) == want && state.Complete?
    {
      r := if state.Complete? then Ok(()) else Err(if state.Broken? then state.error else Failed);
      ended := true;
      MaybeRelease();
    }

    method Abort(error: Error)
      requires Valid() && pending == 0
      modifies `state, `wake, `ended, `released, `releases
      ensures Valid() && ended && wake == old(wake) + 1
      ensures state == if old(state).Expecting? then Broken(error) else old(state)
    {
      if state.Expecting? { state := Broken(error); }
      ended := true;
      wake := wake + 1;
      MaybeRelease();
    }

    method MaybeRelease()
      requires releases == (if released then 1 else 0)
      modifies `released, `releases
      ensures released == (old(released) || (ended && count == 0))
      ensures releases == (if released then 1 else 0)
    {
      if ended && count == 0 && !released {
        released := true;
        releases := releases + 1;
      }
    }

    // ------------------------------------------------------------ the readers

    method Follow(id: nat) returns (ok: bool)
      requires Valid() && id !in readers
      modifies `count, `readers
      ensures Valid()
      ensures ok <==> !(ended && old(count) == 0)
      ensures readers == if ok then old(readers)[id := NEW_READER] else old(readers)
    {
      ok := !released;
      if !ok { return; }
      count := count + 1;
      readers := readers[id := NEW_READER];
      assert OpenReaders(readers) == OpenReaders(old(readers)) + {id};
    }

    /** What Read sees under the lock. */
    method Look(id: nat) returns (seen: Seen)
      requires Valid() && id in readers && !readers[id].closed
      modifies `readers
      ensures Valid() && readers == old(readers)[id := old(readers)[id].(look := Some(seen))]
      ensures seen == Seen(written, state, wake)
    {
      seen := Seen(written, state, wake);
      SetReader(id, readers[id].(look := Some(seen)));
    }

    /** What Read does with what it saw. Its ReadAt may give `got` bytes and fail;
        instead of waiting it gives up if its context is cancelled. */
    method Act(id: nat, room: nat, got: nat, fails: bool, cancelled: bool) returns (o: Outcome)
      requires Valid() && id in readers && readers[id].look.Some?
      modifies `readers
      ensures Valid() && readers.Keys == old(readers).Keys
      ensures readers == old(readers)[id := readers[id]]
      ensures Serves(h, want, size, data, written, state, wake,
                     old(readers)[id], readers[id], o, room, fails, cancelled)
      ensures Tries(old(readers)[id], size, o, room, fails)
    {
      var r := readers[id];
      var decided := Decide(r, data, size, room, got, fails, cancelled);
      o := decided.0;
      var next := decided.1;
      DecideTries(r, data, size, room, got, fails, cancelled);
      DecideOk(h, want, size, data, written, state, wake, r, next, o, room, got, fails, cancelled);
      SetReader(id, next);
    }

    method SetReader(id: nat, r: Reader)
      requires Valid() && id in readers && ReaderOk(r, data, written, state, wake) && r.closed == readers[id].closed
      modifies `readers
      ensures Valid() && readers == old(readers)[id := r]
    {
      readers := readers[id := r];
      assert OpenReaders(readers) == OpenReaders(old(readers));
    }

    function Base(whence: Whence, off: int): int {
      if whence.FromCurrent? then off else if whence.FromEnd? then size else 0
    }

    method Seek(id: nat, offset: int, whence: Whence) returns (r: Result<int>)
      requires Valid() && id in readers
      modifies `readers
      ensures Valid() && id in readers && readers[id].off == readers[id].from + |readers[id].got|
      ensures var (r, r') := (old(readers)[id], readers[id]);
              readers == old(readers)[id := r.(off := r'.off, from := r'.from, got := r'.got)]
      ensures if r.Ok? then readers[id].got == [] else readers == old(readers)
      ensures readers[id].off == if r.Ok? then r.value else old(readers)[id].off
      ensures r.Ok? ==> 0 <= r.value == offset + Base(whence, old(readers)[id].off)
      ensures r.Err? <==> whence.Unknown? || offset + Base(whence, old(readers)[id].off) < 0
    {
      var at := offset;
      match whence {
        case FromStart =>
        case FromCurrent => at := at + readers[id].off;
        case FromEnd => at := at + size;
        case Unknown => return Err(Failed);
      }
      if at < 0 { return Err(Failed); }
      SetReader(id, readers[id].(off := at, from := at, got := []));
      return Ok(at);
    }

    method Close(id: nat)
      requires Valid() && id in readers
      modifies `readers, `count, `released, `releases
      ensures Valid() && readers == old(readers)[id := old(readers)[id].(closed := true)]
    {
      if readers[id].closed { return; }
      OneCloses(readers, id);
      readers := readers[id := readers[id].(closed := true)];
      count := count - 1;
      MaybeRelease();
    }
  }
}
