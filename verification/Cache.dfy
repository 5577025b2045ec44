/** Reading through a cache: what is read from the origin goes into the primary
    store on the way, or is read from a fill that somebody else is writing. */
module Cache {
  import opened Basics
  import opened Hashing
  import opened Streams
  import opened Fill

  /** How the sink's stream ends. */
  datatype SinkEnd = Clean | Cut(error: Error)

  /** What one write to the sink does: how much it takes, and whether it fails. A
      stop from outside closes the sink, so a write racing with one fails. */
  datatype SinkWrite = SinkWrite(takes: nat, fails: bool, raced: bool)

  /** The reader a cache hands out on a miss, copying a blob into the primary as it
      is read: what it forwards has to be a prefix, whatever its caller does. */
  class BlobTap {
    const src: Bytes         // what the origin serves
    const size: int          // what it says its size is
    var pos: int             // where the origin's reader is
    var offset: int
    var forwarded: int
    var stopped: bool
    ghost var sent: Bytes
    ghost var end: Option<SinkEnd>

    ghost predicate Valid()
      reads this
    {
      && 0 <= pos && (!stopped ==> offset == pos)
      && 0 <= forwarded <= |src| && sent == src[..forwarded]
      && (stopped <==> end.Some?)
      && (end == Some(Clean) ==> forwarded == size)
      && (!stopped ==> forwarded < size)
    }

    constructor (src: Bytes, size: int)
      ensures Valid() && this.src == src && this.size == size && sent == [] && pos == offset == 0
      ensures end == if size == 0 then Some(Clean) else if size < 0 then Some(Cut(Failed)) else None
    {
      this.src, this.size, pos, offset, forwarded, sent := src, size, 0, 0, 0, [];
      stopped := size <= 0;
      end := if size == 0 then Some(Clean) else if size < 0 then Some(Cut(Failed)) else None;
    }

    /** End the sink's stream, once. */
    method Stop(e: SinkEnd)
      requires stopped <==> end.Some?
      modifies `stopped, `end
      ensures stopped && end == if old(stopped) then old(end) else Some(e)
    {
      if !stopped { stopped, end := true, Some(e); }
    }

    /** Where forwarding stands after reading [start, start + n). */
    function Reached(start: int, n: int): int
      reads `forwarded
    {
      if start + n > forwarded then start + n else forwarded
    }

    /** Read n bytes of the source, which ends the read as `ending` says. */
    method Read(n: nat, ending: Ending, sink: SinkWrite) returns (bytes: Bytes)
      requires Valid() && (n > 0 ==> pos + n <= |src|)
      modifies this
      ensures Valid() && pos == old(pos) + n
      ensures |bytes| == n && (n > 0 ==> bytes == src[old(pos)..pos])
      // The sink's bytes only ever grow, and not after its end.
      ensures old(sent) <= sent && (old(stopped) ==> sent == old(sent) && end == old(end))
      // Undisturbed reading from within the prefix forwards all of it.
      ensures !old(stopped) && !ending.Fault? && !sink.fails && !sink.raced && old(pos) <= old(forwarded) && pos <= size
                && (ending.More? || pos == size) ==>
                && forwarded == old(Reached(pos, n))
                && end == if forwarded == size then Some(Clean) else None
    {
      bytes := if n > 0 then src[pos..pos + n] else [];
      var start := offset;
      pos, offset := pos + n, offset + n;
      if stopped { return; }
      if ending.Fault? { Stop(Cut(ending.error)); return; }
      if n > 0 && offset > size { Stop(Cut(Failed)); return; }
      if ending.Eof? && start <= forwarded && offset < size { Stop(Cut(Failed)); return; }
      if n > 0 {
        if start > forwarded { Stop(Cut(Failed)); return; }
        if offset > forwarded {
          var skip := forwarded - start;
          var failed := Forward(bytes[skip..], sink);
          if failed { return; }
        }
      }
      if forwarded == size { Stop(Clean); }
    }

    /** Write the next bytes of the prefix to the sink; stop if it does not take
        them all. */
    method Forward(next: Bytes, sink: SinkWrite) returns (failed: bool)
      requires !stopped && end == None && 0 <= forwarded && forwarded + |next| <= |src|
      requires sent == src[..forwarded] && next == src[forwarded..forwarded + |next|]
      modifies `sent, `forwarded, `stopped, `end
      ensures old(forwarded) <= forwarded <= old(forwarded) + |next|
      ensures sent == src[..forwarded] && old(sent) <= sent
      ensures failed <==> sink.fails || sink.raced
      ensures if failed then stopped && end.Some? && end.value.Cut?
              else !stopped && end == None && forwarded == old(forwarded) + |next|
    {
      failed := sink.fails || sink.raced;
      if sink.raced { Stop(Cut(Failed)); }
      var written := if failed && sink.takes < |next| then sink.takes else |next|;
      assert src[..forwarded] + next[..written] == src[..forwarded + written];
      sent := sent + next[..written];
      forwarded := forwarded + written;
      if failed { Stop(Cut(Failed)); }
    }

    /** The source moves to `to`; a seek that fails may leave it anywhere. */
    method Seek(to: int, ok: bool)
      requires Valid() && to >= 0
      modifies `pos, `offset, `stopped, `end
      ensures Valid() && pos == to && (ok ==> stopped == old(stopped)) && (!ok ==> stopped)
    {
      pos := to;
      if ok { offset := to; } else { Stop(Cut(Failed)); }
    }

    /** A cancelled caller, a sink that gave up, or Close. */
    method Interrupt(error: Error)
      requires Valid()
      modifies `stopped, `end
      ensures Valid() && stopped && (!old(stopped) ==> end == Some(Cut(error)))
    {
      Stop(Cut(error));
    }
  }

  /** What a caller gets from one read. A read that is to wait gives Waits, and is
      called again. */
  datatype Answer = Gave(bytes: Bytes, ending: Ending) | Waits

  /** What a read may give at a position: the blob's bytes there, and its end only at
      or past its size. */
  predicate Right(blob: Bytes, at: nat, r: Answer, now: int) {
    if r.Waits? then now == at
    else
      && now == at + |r.bytes|
      && (r.bytes != [] ==> now <= |blob| && r.bytes == blob[at..now])
      && (r.ending.Eof? ==> now >= |blob|)
  }

  function AnswerOf(o: Outcome): Answer {
    match o
    case Got(bytes, fails) => Gave(bytes, if fails then Fault(Failed) else More)
    case End => Gave([], Eof)
    case Refused(e) => Gave([], Fault(e))
    case Blocked => Waits
  }

  /** What a fill gives is right for whoever wants the blob it is filled with. */
  lemma FillIsRight(t: Tracker, blob: Bytes, r: Reader, r': Reader, o: Outcome, room: nat, fails: bool, cancelled: bool)
    requires t.data <= blob && t.size == |blob| && r.look.Some? && r.off >= 0
    requires Serves(t.h, t.want, t.size, t.data, t.written, t.state, t.wake, r, r', o, room, fails, cancelled)
    ensures Right(blob, r.off, AnswerOf(o), r'.off)
  {
    if o.Got? { assert blob[r.off..r'.off] == t.data[r.off..r'.off]; }
  }

  /** How the origin answers: whether it opens and seeks, and what its reader does. */
  datatype Origin = Origin(opens: bool, seeks: bool, gives: nat, ending: Ending)

  /** A caller following a fill, which goes on from the origin if the fill fails. */
  class Follower {
    const fill: Tracker
    const id: nat
    const blob: Bytes
    var off: int
    var resumed: bool
    var originPos: int
    var originOpen: bool
    var closed: bool
    ghost var switches: nat   // readers of the origin it went on with

    /** The fill is being written with the origin's bytes. */
    ghost predicate Valid()
      reads this, fill
    {
      && fill.Valid() && fill.size == |blob| && fill.data <= blob
      && id in fill.readers && off >= 0
      && (closed || resumed <==> fill.readers[id].closed)
      && (if resumed then originPos == off else fill.readers[id].off == off && !originOpen)
      && switches == (if resumed then 1 else 0)
    }

    constructor (fill: Tracker, id: nat, blob: Bytes)
      requires fill.Valid() && fill.size == |blob| && fill.data <= blob
      requires id in fill.readers && fill.readers[id] == NEW_READER
      ensures Valid() && this.fill == fill && this.id == id && this.blob == blob && off == 0 && !resumed && !closed
    {
      this.fill, this.id, this.blob := fill, id, blob;
      off, resumed, originPos, originOpen, closed, switches := 0, false, 0, false, false, 0;
    }

    /** The origin says that it has ended only where it ends. */
    predicate Honest(o: Origin, room: nat)
      reads `off
    {
      o.ending.Eof? ==> |blob| - off <= o.gives && |blob| - off <= room
    }

    method ReadFill(room: nat, got: nat, fails: bool, cancelled: bool) returns (r: Answer)
      requires Valid() && !resumed
      modifies fill`readers, `off
      ensures Valid() && Right(blob, old(off), r, off)
      ensures r.Waits? ==> fill.state.Expecting? && off >= fill.written && !cancelled
      ensures closed ==> r == Gave([], Fault(Failed))
      ensures !closed && fill.state.Broken? ==> r == Gave([], Fault(fill.state.error))
      ensures r.Gave? && r.ending.Fault? && !closed && !fails && !cancelled ==> fill.state == Broken(r.ending.error)
      ensures r.Gave? && r.ending.Fault? && r.bytes == [] ==> off == old(off)
    {
      if closed {
        return Gave([], Fault(Failed));
      }
      var seen := fill.Look(id);
      ghost var was := fill.readers[id];
      assert !was.closed && was.off == off && was.look == Some(seen);
      var o := fill.Act(id, room, got, fails, cancelled);
      FillIsRight(fill, blob, was, fill.readers[id], o, room, fails, cancelled);
      if o.Got? { off := off + |o.bytes|; }
      r := AnswerOf(o);
    }

    method ReadOrigin(room: nat, o: Origin) returns (r: Answer)
      requires Valid() && resumed && Honest(o, room)
      modifies `originPos, `off
      ensures Valid() && Right(blob, old(off), r, off) && !r.Waits?
    {
      if !originOpen {
        return Gave([], Fault(Failed));
      }
      var left := if originPos < |blob| then |blob| - originPos else 0;
      var n := if o.gives < room then o.gives else room;
      if n > left { n := left; }
      var bytes := if n > 0 then blob[originPos..originPos + n] else [];
      originPos := originPos + n;
      off := off + n;
      r := Gave(bytes, o.ending);
    }

    /** Read: a fill that fails, or a Close that came before, sends it to the origin. */
    method Read(room: nat, got: nat, fails: bool, o: Origin, cancelled: bool) returns (r: Answer)
      requires Valid() && Honest(o, room)
      modifies fill, this
      ensures Valid() && Right(blob, old(off), r, off) && closed == old(closed)
      ensures old(resumed) ==> resumed && switches == old(switches)
      // It goes over to the origin only for a failure it can do something about.
      ensures resumed && !old(resumed) ==>
                && o.opens && o.seeks && !cancelled && (closed || fails || fill.state.Broken?)
                && (!closed && !fails ==> fill.state != Broken(DigestMismatch))
      ensures closed && o.opens && o.seeks && !cancelled ==> resumed
      // And for every one, if the origin can be used.
      ensures o.opens && o.seeks && !cancelled && fill.state.Broken? && fill.state != Broken(DigestMismatch) ==> resumed
    {
      if resumed {
        r := ReadOrigin(room, o);
        return;
      }
      r := ReadFill(room, got, fails, cancelled);
      if r.Waits? || !r.ending.Fault? || r.ending.error == DigestMismatch || cancelled { return; }
      if !o.opens || !o.seeks { return; }
      GoOver();
      if r.bytes != [] {
        r := Gave(r.bytes, More);
        return;
      }
      r := ReadOrigin(room, o);
    }

    method GoOver()
      requires Valid() && !resumed
      modifies fill, this
      ensures Valid() && resumed && off == old(off) && closed == old(closed)
      ensures fill.state == old(fill.state)
    {
      fill.Close(id);
      resumed, originPos, originOpen := true, off, true;
      switches := switches + 1;
    }

    method Seek(offset: int, whence: Whence) returns (r: Result<int>)
      requires Valid()
      modifies fill`readers, `off, `originPos
      ensures Valid()
      ensures off == if r.Ok? then r.value else old(off)
      ensures r.Ok? ==> r.value == offset + fill.Base(whence, old(off))
    {
      if resumed {
        var at := offset + fill.Base(whence, off);
        if !originOpen || whence.Unknown? || at < 0 { return Err(Failed); }
        originPos := at;
        r := Ok(at);
      } else {
        r := fill.Seek(id, offset, whence);
      }
      if r.Ok? { off := r.value; }
    }

    method Close()
      requires Valid()
      modifies fill, `closed, `originOpen
      ensures Valid() && closed && fill.readers[id].closed
      ensures !old(closed) ==> !originOpen
    {
      if closed { return; }
      closed := true;
      originOpen := false;
      if !resumed { fill.Close(id); }
    }
  }
}
