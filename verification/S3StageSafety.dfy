/** What every run of the S3 stage protocol keeps. */
module S3StageSafety {
  import opened Basics
  import opened Hashing
  import opened StageSpec
  import opened S3Stage
  import Chunking

  // ------------------------------------------------------------ chunk lists

  lemma {:induction false} JoinFrame(w: map<Key, Bytes>, w': map<Key, Bytes>, chunks: seq<Chunk>)
    requires Keys(chunks) <= w.Keys <= w'.Keys
    requires forall k <- w.Keys :: w'[k] == w[k]
    ensures Join(w', chunks) == Join(w, chunks)
  {
    if chunks != [] {
      var init := chunks[..|chunks| - 1];
      assert Keys(init) <= Keys(chunks) && chunks[|chunks| - 1].key in Keys(chunks);
      JoinFrame(w, w', init);
    }
  }

  lemma JoinSnoc(w: map<Key, Bytes>, chunks: seq<Chunk>, last: Chunk)
    ensures Join(w, chunks + [last]) == Join(w, chunks) + Content(w, last)
  {
    assert (chunks + [last])[..|chunks|] == chunks;
  }

  lemma KeysSnoc(chunks: seq<Chunk>, last: Chunk)
    ensures Keys(chunks + [last]) == Keys(chunks) + {last.key}
  {
    assert forall c :: c in chunks + [last] <==> c in chunks || c == last;
  }

  /** Putting the part chunks of an upload together gives what the list stands for. */
  lemma {:induction false} PartsJoin(w: map<Key, Bytes>, chunks: seq<Chunk>, parts: map<int, Bytes>, n: nat)
    requires n <= |chunks|
    requires forall i | 0 <= i < n :: i in parts && parts[i] == Content(w, chunks[i])
    ensures Flatten(Parts(parts, n)) == Join(w, chunks[..n])
  {
    if n > 0 {
      PartsJoin(w, chunks, parts, n - 1);
      assert chunks[..n][..n - 1] == chunks[..n - 1];
      assert Parts(parts, n)[..n - 1] == Parts(parts, n - 1);
    }
  }

  // ------------------------------------------------------------ invariants

  predicate HasNonce(pc: Pc) { (pc.Leasing? && pc.held.lease.Some?) || (Holds(pc) && Tag(pc).lease.Some?) }

  function Nonce(pc: Pc): nat
    requires HasNonce(pc)
  {
    if pc.Leasing? then pc.held.lease.value else Tag(pc).lease.value
  }

  predicate SameBut(m: Manifest, m': Manifest) { m'.rec == m.rec && m'.chunks == m.chunks }

  /** Fencing: content under a lease is what its holder saved last, and while a
      holder's timeout runs nobody else has taken the stage over. */
  predicate LeaseOk(s: State, op: Op) {
    && s.manifest.Some?
    && (op.pc.Leasing? ==>
          && HasNonce(op.pc) && Nonce(op.pc) in s.used && SameBut(op.pc.prior, op.pc.held)
          && Current(s).lease != op.pc.held.lease
          && (forall k <- s.written.Keys :: k.nonce != Nonce(op.pc))
          && op.pc.held.leaseUntil >= op.deadline
          && (op.pc.prior.lease.Some? ==> op.pc.prior.leaseUntil <= s.now))
    && (Holds(op.pc) ==>
          && HasNonce(op.pc) && Nonce(op.pc) in s.used
          && (Current(s).lease == Tag(op.pc).lease ==> Current(s) == Tag(op.pc))
          && (!op.pc.Releasing? ==>
                && Tag(op.pc).leaseUntil >= op.deadline
                && (s.now < op.deadline ==> Current(s) == Tag(op.pc))))
  }

  /** A commit under way acts on what is frozen. */
  predicate FrozenOk(s: State, m: Manifest) {
    && s.manifest.Some? && m.rec.phase.Committing? && Frozen(Current(s))
    && Current(s).chunks == m.chunks && Current(s).rec.commit == m.rec.commit
    && Current(s).rec.hash == m.rec.hash && Current(s).rec.offset == m.rec.offset
  }

  predicate Full(c: Config, chunks: seq<Chunk>) {
    forall i | 0 <= i < |chunks| :: chunks[i].size == c.partSize
  }

  predicate FillOk(c: Config, s: State, op: Op) {
    && op.pc.Filling? && op.kind.AppendOp? && op.pc.m.rec.phase.Active? && op.pc.m.lease.Some?
    && Keys(op.pc.m.chunks) <= s.written.Keys
    && ChunksSized(c, s.written, op.pc.chunks)
    && (op.pc.rest != [] ==> Full(c, op.pc.chunks))
    && Join(s.written, op.pc.chunks) + op.pc.rest == Join(s.written, op.pc.m.chunks) + op.kind.input
    && (forall k <- s.written.Keys :: k.nonce == op.pc.m.lease.value ==> k.index < |op.pc.chunks|)
    && (s.now < op.deadline ==> Keys(op.pc.chunks) <= s.live.Keys)
  }

  predicate ExtendOk(c: Config, s: State, op: Op) {
    && op.pc.Extending? && op.kind.AppendOp?
    && var (m, next) := (op.pc.m, op.pc.next);
       && m.rec.phase.Active? && next.lease == None
       && next.rec == m.rec.(offset := m.rec.offset + |op.kind.input|,
                             hash := c.h.feed(m.rec.hash, op.kind.input), expires := next.rec.expires)
       && Keys(m.chunks) <= s.written.Keys
       && ChunksSized(c, s.written, next.chunks)
       && Join(s.written, next.chunks) == Join(s.written, m.chunks) + op.kind.input
       && (s.now < op.deadline ==> Keys(next.chunks) <= s.live.Keys)
  }

  /** A save that settles the outcome: aborted, or committed with a receipt. */
  predicate SettleOk(m: Manifest, next: Manifest) {
    && next.chunks == m.chunks && (next.lease == None || (next.lease == m.lease && next.leaseUntil == m.leaseUntil))
    && (|| (m.rec.phase.Active? && next.rec == m.rec.(phase := Aborted, expires := next.rec.expires))
        || (m.rec.phase.Committing?
            && next.rec == m.rec.(phase := Committed, result := next.rec.result, expires := next.rec.expires)
            && next.rec.result.digest == m.rec.commit.digest && next.rec.result.size == m.rec.offset))
  }

  predicate FreezeOk(c: Config, m: Manifest, next: Manifest) {
    && m.rec.phase.Active? && next == m.(rec := m.rec.(phase := Committing, commit := next.rec.commit))
    && next.rec.commit.digest == c.h.sum(m.rec.hash) && next.rec.commit.size == m.rec.offset
  }

  /** What an operation's place in the code guarantees. */
  predicate PcOk(c: Config, s: State, op: Op) {
    match op.pc
    case Held(m) => m.lease.Some? && forall k <- s.written.Keys :: k.nonce != m.lease.value
    case Filling(_, _, _) => FillOk(c, s, op)
    case Extending(_, _) => ExtendOk(c, s, op)
    case Freezing(m, next) => FreezeOk(c, m, next) && (s.now < op.deadline ==> Keys(m.chunks) <= s.live.Keys)
    case Publishing(m) => FrozenOk(s, m)
    case Heading(m) => FrozenOk(s, m)
    case Recording(m, next) => FrozenOk(s, m) && next == m.(upload := next.upload)
    case Assembling(m, copied) => FrozenOk(s, m) && copied <= |m.chunks|
    case Referring(m) => FrozenOk(s, m)
    case Settling(m, next) => SettleOk(m, next)
    case Cleaning(m, _, expired) => !m.rec.phase.Committing? && (expired ==> m.rec.Expired(s.now))
    case Deleting(m) => !m.rec.phase.Committing? && m.rec.Expired(s.now)
    case Releasing(m, next) => next == Unlease(m)
    case _ => true
  }

  predicate OpOk(c: Config, s: State, op: Op) {
    op.deadline <= s.now + c.timeout && LeaseOk(s, op) && PcOk(c, s, op)
  }

  predicate OpsOk(c: Config, s: State) {
    && (forall id <- s.ops.Keys :: OpOk(c, s, s.ops[id]))
    && (forall i <- s.ops.Keys, j <- s.ops.Keys ::
          i != j && HasNonce(s.ops[i].pc) && HasNonce(s.ops[j].pc) ==> Nonce(s.ops[i].pc) != Nonce(s.ops[j].pc))
  }

  /** Its chunks are still needed: a commit is to be finished, or an Append may come. */
  predicate Needed(s: State) {
    && s.manifest.Some?
    && var rec := Current(s).rec; rec.phase.Committing? || (rec.phase.Active? && s.now < rec.expires)
  }

  ghost predicate ManifestOk(c: Config, s: State) {
    && s.manifest.Some?
    && Current(s).rec.Valid(c.h)
    && Current(s).rec.hash == c.h.Of(Flatten(s.log))
    && ChunksSized(c, s.written, Current(s).chunks)
    && Join(s.written, Current(s).chunks) == Flatten(s.log)
    && (Current(s).lease.Some? ==> Current(s).lease.value in s.used)
    && (Needed(s) ==> Keys(Current(s).chunks) <= s.live.Keys)
  }

  predicate KeysOk(s: State) {
    s.live.Keys <= s.written.Keys && forall k <- s.written.Keys :: k.nonce in s.used
  }

  /** Every part copied so far is the chunk it stands for. */
  predicate PartsOk(w: map<Key, Bytes>, chunks: seq<Chunk>, parts: map<int, Bytes>) {
    forall i <- parts.Keys :: 0 <= i < |chunks| && parts[i] == Content(w, chunks[i])
  }

  predicate BucketOk(c: Config, s: State) {
    && s.manifest.Some?
    && (!Frozen(Current(s)) ==> s.blob == None && s.entry == None && s.uploads == map[])
    && (s.entry.Some? ==> s.entry.value.size == Current(s).rec.commit.size)
    && (s.blob.Some? ==> c.h.DigestOf(s.blob.value) == Current(s).rec.commit.digest)
    && (forall u <- s.uploads.Keys :: PartsOk(s.written, Current(s).chunks, s.uploads[u]))
  }

  ghost predicate Inv(c: Config, s: State) {
    ManifestOk(c, s) && KeysOk(s) && BucketOk(c, s) && OpsOk(c, s)
  }

  lemma InitInv(c: Config, now: int)
    requires c.Valid()
    ensures Inv(c, Init(c, now))
  {
  }

  // ------------------------------------------- steps that leave the bucket alone

  /** Time passing and nonces handed out disturb nobody. */
  lemma OpFrame(c: Config, s: State, s': State, op: Op)
    requires OpOk(c, s, op) && s.now <= s'.now && s.used <= s'.used
    requires s'.manifest == s.manifest && s'.live == s.live && s'.written == s.written
    ensures OpOk(c, s', op)
  {
  }

  lemma TickInv(c: Config, s: State, dt: nat)
    requires c.Valid() && Inv(c, s)
    ensures Inv(c, TickStep(s, dt))
  {
    var s' := TickStep(s, dt);
    forall id <- s.ops.Keys ensures OpOk(c, s', s'.ops[id]) { OpFrame(c, s, s', s.ops[id]); }
  }

  /** One operation starts, moves on or ends, and the bucket stays as it is. */
  lemma MoveInv(c: Config, s: State, s': State, id: nat)
    requires Inv(c, s) && s' == s.(ops := s'.ops, used := s'.used) && s.used <= s'.used
    requires forall j :: j != id ==> (j in s'.ops <==> j in s.ops) && (j in s.ops ==> s'.ops[j] == s.ops[j])
    requires id in s'.ops ==> OpOk(c, s', s'.ops[id])
    requires id in s'.ops && HasNonce(s'.ops[id].pc) ==>
               || Nonce(s'.ops[id].pc) !in s.used
               || (id in s.ops && HasNonce(s.ops[id].pc) && Nonce(s'.ops[id].pc) == Nonce(s.ops[id].pc))
    ensures Inv(c, s')
  {
    forall j <- s'.ops.Keys ensures OpOk(c, s', s'.ops[j]) {
      if j != id { OpFrame(c, s, s', s.ops[j]); }
    }
    forall i <- s'.ops.Keys, j <- s'.ops.Keys |
      i != j && HasNonce(s'.ops[i].pc) && HasNonce(s'.ops[j].pc)
      ensures Nonce(s'.ops[i].pc) != Nonce(s'.ops[j].pc)
    {
      if i != id { assert OpOk(c, s, s.ops[i]); }
      if j != id { assert OpOk(c, s, s.ops[j]); }
    }
    assert ManifestOk(c, s') && BucketOk(c, s');
  }

  lemma DriveInv(c: Config, s: State, id: nat, l: RunLabel)
    requires c.Valid() && Inv(c, s) && RunCan(c, s, id, l)
    ensures Inv(c, RunStep(c, s, id, l))
  {
    var s' := RunStep(c, s, id, l);
    if id in s.ops { assert OpOk(c, s, s.ops[id]); }
    if id in s'.ops { assert OpOk(c, s', s'.ops[id]); }
    MoveInv(c, s, s', id);
  }

  // ------------------------------------------------------------------ saves

  /** How a save may change the record and the chunks it names. */
  predicate Carries(m: Manifest, next: Manifest) {
    || SameBut(m, next)
    || m.rec.phase.Active?
    || (m.rec.phase.Committing? && next.chunks == m.chunks
        && next.rec == m.rec.(phase := Committed, result := next.rec.result, expires := next.rec.expires))
  }

  lemma SaveCarries(c: Config, s: State, id: nat)
    requires id in s.ops && OpOk(c, s, s.ops[id]) && Saves(s.ops[id].pc)
    ensures var w := WriteOf(s.ops[id].pc);
            && Carries(w.tag, w.next) && (w.next.lease == None || w.next.lease == Some(Nonce(s.ops[id].pc)))
  {
  }

  /** A save that lands takes nothing from anybody else: no other operation's
      timeout is still running, and no other operation's lease comes back. */
  lemma OthersAfterSave(c: Config, s: State, s': State, id: nat, j: nat)
    requires Inv(c, s) && SaveCan(s, id, true, false) && j in s.ops && j != id
    requires s' == s.(ops := s'.ops, log := s'.log, manifest := Some(WriteOf(s.ops[id].pc).next))
    ensures OpOk(c, s', s.ops[j])
  {
    var (p, q) := (s.ops[id], s.ops[j]);
    assert OpOk(c, s, p) && OpOk(c, s, q);
    SaveCarries(c, s, id);
    assert HasNonce(p.pc);
  }

  /** A save that keeps the record keeps everything said of it. */
  lemma SameAfterSave(c: Config, s: State, m: Manifest, s': State)
    requires ManifestOk(c, s) && BucketOk(c, s) && SameBut(Current(s), m)
    requires m.lease.Some? ==> m.lease.value in s.used
    requires s' == s.(ops := s'.ops, manifest := Some(m))
    ensures ManifestOk(c, s') && BucketOk(c, s')
  {
  }

  lemma AppendLands(c: Config, s: State, op: Op, s': State)
    requires c.Valid() && ManifestOk(c, s) && BucketOk(c, s) && ExtendOk(c, s, op) && Current(s) == op.pc.m
    requires s.now < op.deadline
    requires s' == s.(ops := s'.ops, manifest := Some(op.pc.next), log := s.log + [op.kind.input])
    ensures ManifestOk(c, s') && BucketOk(c, s')
  {
    FlattenSnoc(s.log, op.kind.input);
  }

  lemma FreezeLands(c: Config, s: State, next: Manifest, s': State)
    requires ManifestOk(c, s) && BucketOk(c, s) && FreezeOk(c, Current(s), next) && Keys(next.chunks) <= s.live.Keys
    requires s' == s.(ops := s'.ops, manifest := Some(next))
    ensures ManifestOk(c, s') && BucketOk(c, s')
  {
  }

  lemma SettleLands(c: Config, s: State, next: Manifest, s': State)
    requires ManifestOk(c, s) && BucketOk(c, s) && SettleOk(Current(s), next)
    requires s' == s.(ops := s'.ops, manifest := Some(next))
    ensures ManifestOk(c, s') && BucketOk(c, s')
  {
  }

  lemma ManifestAfterSave(c: Config, s: State, id: nat, reported: bool)
    requires c.Valid() && Inv(c, s) && SaveCan(s, id, true, reported)
    ensures var s' := SaveStep(s, id, true, reported); ManifestOk(c, s') && BucketOk(c, s')
  {
    var pc := s.ops[id].pc;
    if pc.Extending? || pc.Freezing? || pc.Settling? {
      RecordLands(c, s, id, reported);
    } else {
      LeaseLands(c, s, id, reported);
    }
  }

  lemma RecordLands(c: Config, s: State, id: nat, reported: bool)
    requires c.Valid() && Inv(c, s) && SaveCan(s, id, true, reported)
    requires s.ops[id].pc.Extending? || s.ops[id].pc.Freezing? || s.ops[id].pc.Settling?
    ensures var s' := SaveStep(s, id, true, reported); ManifestOk(c, s') && BucketOk(c, s')
  {
    var (pc, s') := (s.ops[id].pc, SaveStep(s, id, true, reported));
    assert OpOk(c, s, s.ops[id]);
    if pc.Extending? {
      AppendLands(c, s, s.ops[id], s');
    } else if pc.Freezing? {
      FreezeLands(c, s, pc.next, s');
    } else {
      SettleLands(c, s, pc.next, s');
    }
  }

  /** Taking the lease, giving it back and recording an upload change nothing else. */
  lemma LeaseLands(c: Config, s: State, id: nat, reported: bool)
    requires c.Valid() && Inv(c, s) && SaveCan(s, id, true, reported)
    requires s.ops[id].pc.Leasing? || s.ops[id].pc.Recording? || s.ops[id].pc.Releasing?
    ensures var s' := SaveStep(s, id, true, reported); ManifestOk(c, s') && BucketOk(c, s')
  {
    assert OpOk(c, s, s.ops[id]);
    SameAfterSave(c, s, WriteOf(s.ops[id].pc).next, SaveStep(s, id, true, reported));
  }

  /** Where a save leaves the operation that made it. */
  lemma SelfAfterSave(c: Config, s: State, s': State, op: Op, lands: bool, reported: bool)
    requires OpOk(c, s, op) && Saves(op.pc) && (reported ==> lands)
    requires s'.now == s.now && s'.live == s.live && s'.written == s.written && s'.used == s.used
    requires if lands then Current(s) == WriteOf(op.pc).tag && s'.manifest == Some(WriteOf(op.pc).next)
             else s'.manifest == s.manifest
    requires AfterSave(op.pc, reported).Some?
    ensures var pc := AfterSave(op.pc, reported).value;
            HasNonce(pc) && Nonce(pc) == Nonce(op.pc) && OpOk(c, s', op.(pc := pc))
  {
  }

  lemma SaveFailsInv(c: Config, s: State, id: nat)
    requires c.Valid() && Inv(c, s) && SaveCan(s, id, false, false)
    ensures Inv(c, SaveStep(s, id, false, false))
  {
    var s' := SaveStep(s, id, false, false);
    var op := s.ops[id];
    assert OpOk(c, s, op);
    if AfterSave(op.pc, false).Some? { SelfAfterSave(c, s, s', op, false, false); }
    MoveInv(c, s, s', id);
  }

  lemma SaveLandsInv(c: Config, s: State, id: nat, reported: bool)
    requires c.Valid() && Inv(c, s) && SaveCan(s, id, true, reported)
    ensures Inv(c, SaveStep(s, id, true, reported))
  {
    var s' := SaveStep(s, id, true, reported);
    var op := s.ops[id];
    assert OpsOk(c, s') by {
      assert OpOk(c, s, op);
      if AfterSave(op.pc, reported).Some? { SelfAfterSave(c, s, s', op, true, reported); }
      OpsAfterSave(c, s, s', id);
    }
    ManifestAfterSave(c, s, id, reported);
    assert KeysOk(s');
  }

  lemma SaveInv(c: Config, s: State, id: nat, lands: bool, reported: bool)
    requires c.Valid() && Inv(c, s) && SaveCan(s, id, lands, reported)
    ensures Inv(c, SaveStep(s, id, lands, reported))
  {
    if lands {
      SaveLandsInv(c, s, id, reported);
    } else {
      SaveFailsInv(c, s, id);
    }
  }

  lemma OpsAfterSave(c: Config, s: State, s': State, id: nat)
    requires Inv(c, s) && SaveCan(s, id, true, false)
    requires s' == s.(ops := s'.ops, log := s'.log, manifest := Some(WriteOf(s.ops[id].pc).next))
    requires forall j :: j != id ==> (j in s'.ops <==> j in s.ops) && (j in s.ops ==> s'.ops[j] == s.ops[j])
    requires id in s'.ops ==> OpOk(c, s', s'.ops[id])
    requires id in s'.ops && HasNonce(s'.ops[id].pc) ==>
               HasNonce(s.ops[id].pc) && Nonce(s'.ops[id].pc) == Nonce(s.ops[id].pc)
    ensures OpsOk(c, s')
  {
    forall j <- s'.ops.Keys ensures OpOk(c, s', s'.ops[j]) {
      if j != id { OthersAfterSave(c, s, s', id, j); }
    }
    forall i <- s'.ops.Keys, j <- s'.ops.Keys |
      i != j && HasNonce(s'.ops[i].pc) && HasNonce(s'.ops[j].pc)
      ensures Nonce(s'.ops[i].pc) != Nonce(s'.ops[j].pc)
    {
      assert HasNonce(s.ops[i].pc) && HasNonce(s.ops[j].pc);
    }
  }

  // ----------------------------------------------------------------- Append

  /** What an Append takes over stands for the same bytes. */
  lemma TakeOver(c: Config, s: State, m: Manifest)
    requires ChunksSized(c, s.written, m.chunks)
    ensures ChunksSized(c, s.written, KeptChunks(c, m.chunks)) && Full(c, KeptChunks(c, m.chunks))
    ensures Keys(KeptChunks(c, m.chunks)) <= Keys(m.chunks) <= s.written.Keys
    ensures Join(s.written, KeptChunks(c, m.chunks)) + Tail(c, s, m.chunks) == Join(s.written, m.chunks)
  {
  }

  lemma StartFillOk(c: Config, s: State, op: Op)
    requires ManifestOk(c, s) && OpOk(c, s, op) && op.kind.AppendOp? && op.pc.Held? && Needed(s)
    requires op.pc.m == Current(s) && op.pc.m.rec.phase.Active?
    ensures var m := op.pc.m;
            FillOk(c, s, op.(pc := Filling(m, KeptChunks(c, m.chunks), Tail(c, s, m.chunks) + op.kind.input)))
  {
    var m := op.pc.m;
    TakeOver(c, s, m);
    assert Join(s.written, KeptChunks(c, m.chunks)) + (Tail(c, s, m.chunks) + op.kind.input)
        == Join(s.written, KeptChunks(c, m.chunks)) + Tail(c, s, m.chunks) + op.kind.input;
  }

  lemma StartFillInv(c: Config, s: State, id: nat)
    requires c.Valid() && Inv(c, s) && FillCan(c, s, id, StartFill)
    ensures Inv(c, FillStep(c, s, id, StartFill))
  {
    var s' := FillStep(c, s, id, StartFill);
    var op := s.ops[id];
    assert OpOk(c, s, op) && Current(s) == op.pc.m && Needed(s);
    StartFillOk(c, s, op);
    OpFrame(c, s, s', s'.ops[id]);
    MoveInv(c, s, s', id);
  }

  /** A new chunk under somebody's nonce disturbs nobody else. */
  lemma OpAfterPut(c: Config, s: State, s': State, op: Op, key: Key)
    requires OpOk(c, s, op) && (HasNonce(op.pc) ==> Nonce(op.pc) != key.nonce) && key !in s.written
    requires s'.now == s.now && s'.manifest == s.manifest && s'.used == s.used
    requires s'.live.Keys == s.live.Keys + {key} && s'.written.Keys == s.written.Keys + {key}
    requires forall k <- s.written.Keys :: s'.written[k] == s.written[k]
    ensures OpOk(c, s', op)
  {
    LeaseAfterPut(s, s', op, key);
    if op.pc.Filling? {
      FillingAfterPut(c, s, s', op, key);
    } else if op.pc.Extending? {
      ExtendingAfterPut(c, s, s', op, key);
    }
  }

  lemma LeaseAfterPut(s: State, s': State, op: Op, key: Key)
    requires LeaseOk(s, op) && (HasNonce(op.pc) ==> Nonce(op.pc) != key.nonce)
    requires s'.now == s.now && s'.manifest == s.manifest && s'.used == s.used
    requires s'.written.Keys == s.written.Keys + {key}
    ensures LeaseOk(s', op)
  {
  }

  lemma FillingAfterPut(c: Config, s: State, s': State, op: Op, key: Key)
    requires FillOk(c, s, op) && op.pc.m.lease.value != key.nonce && key !in s.written
    requires s'.now == s.now && s'.live.Keys == s.live.Keys + {key} && s'.written.Keys == s.written.Keys + {key}
    requires forall k <- s.written.Keys :: s'.written[k] == s.written[k]
    ensures FillOk(c, s', op)
  {
    KeysIn(c, s.written, op.pc.chunks);
    JoinFrame(s.written, s'.written, op.pc.chunks);
    JoinFrame(s.written, s'.written, op.pc.m.chunks);
  }

  lemma ExtendingAfterPut(c: Config, s: State, s': State, op: Op, key: Key)
    requires ExtendOk(c, s, op) && key !in s.written
    requires s'.now == s.now && s'.live.Keys == s.live.Keys + {key} && s'.written.Keys == s.written.Keys + {key}
    requires forall k <- s.written.Keys :: s'.written[k] == s.written[k]
    ensures ExtendOk(c, s', op)
  {
    KeysIn(c, s.written, op.pc.next.chunks);
    JoinFrame(s.written, s'.written, op.pc.next.chunks);
    JoinFrame(s.written, s'.written, op.pc.m.chunks);
  }

  lemma KeysIn(c: Config, w: map<Key, Bytes>, chunks: seq<Chunk>)
    requires ChunksSized(c, w, chunks)
    ensures Keys(chunks) <= w.Keys
  {
  }

  lemma SizedAfterPut(c: Config, w: map<Key, Bytes>, chunks: seq<Chunk>, key: Key, part: Bytes)
    requires ChunksSized(c, w, chunks) && Full(c, chunks) && |chunks| < MAX_PARTS && key !in w
    requires 0 < |part| <= c.partSize
    ensures var chunks' := chunks + [Chunk(key, |part|)];
            ChunksSized(c, w[key := part], chunks') && (|part| == c.partSize ==> Full(c, chunks'))
  {
  }

  lemma JoinAfterPut(w: map<Key, Bytes>, chunks: seq<Chunk>, key: Key, part: Bytes, rest: Bytes)
    requires Keys(chunks) <= w.Keys && key !in w
    ensures Join(w[key := part], chunks + [Chunk(key, |part|)]) + rest == Join(w, chunks) + (part + rest)
  {
    var w' := w[key := part];
    JoinFrame(w, w', chunks);
    JoinSnoc(w', chunks, Chunk(key, |part|));
    Associate(Join(w, chunks), part, rest);
  }

  lemma Associate(a: Bytes, b: Bytes, c: Bytes)
    ensures (a + b) + c == a + (b + c)
  {
  }

  /** The Append that put the chunk: its list grows by it, its rest shrinks. */
  lemma FillAfterPut(c: Config, s: State, s': State, op: Op, key: Key, n: int)
    requires c.Valid() && FillOk(c, s, op) && op.pc.rest != [] && |op.pc.chunks| < MAX_PARTS
    requires n == PartLength(c, op.pc.rest) && key == Key(op.pc.m.lease.value, |op.pc.chunks|)
    requires s'.now == s.now && s'.live.Keys == s.live.Keys + {key}
    requires s'.written == s.written[key := op.pc.rest[..n]]
    ensures FillOk(c, s', op.(pc := Filling(op.pc.m, op.pc.chunks + [Chunk(key, n)], op.pc.rest[n..])))
  {
    var (part, rest) := (op.pc.rest[..n], op.pc.rest[n..]);
    assert op.pc.rest == part + rest;
    PartMoves(c, s, s', op, key, part, rest);
  }

  lemma PartMoves(c: Config, s: State, s': State, op: Op, key: Key, part: Bytes, rest: Bytes)
    requires FillOk(c, s, op) && op.pc.rest == part + rest && |op.pc.chunks| < MAX_PARTS && Full(c, op.pc.chunks)
    requires 0 < |part| <= c.partSize && (rest != [] ==> |part| == c.partSize)
    requires key == Key(op.pc.m.lease.value, |op.pc.chunks|) && s'.written == s.written[key := part]
    requires s'.now == s.now && s'.live.Keys == s.live.Keys + {key}
    ensures FillOk(c, s', op.(pc := Filling(op.pc.m, op.pc.chunks + [Chunk(key, |part|)], rest)))
  {
    KeysIn(c, s.written, op.pc.chunks);
    SizedAfterPut(c, s.written, op.pc.chunks, key, part);
    JoinAfterPut(s.written, op.pc.chunks, key, part, rest);
    JoinFrame(s.written, s'.written, op.pc.m.chunks);
    KeysSnoc(op.pc.chunks, Chunk(key, |part|));
  }

  lemma BucketAfterPut(c: Config, s: State, s': State, key: Key)
    requires ManifestOk(c, s) && KeysOk(s) && BucketOk(c, s) && key !in s.written && key.nonce in s.used
    requires s' == s.(ops := s'.ops, live := s'.live, written := s'.written)
    requires s'.live.Keys == s.live.Keys + {key} && s'.written.Keys == s.written.Keys + {key}
    requires forall k <- s.written.Keys :: s'.written[k] == s.written[k]
    ensures ManifestOk(c, s') && KeysOk(s') && BucketOk(c, s')
  {
    KeysIn(c, s.written, Current(s).chunks);
    JoinFrame(s.written, s'.written, Current(s).chunks);
  }

  lemma SelfAfterPut(c: Config, s: State, s': State, op: Op, key: Key)
    requires c.Valid() && OpOk(c, s, op) && op.pc.Filling? && op.pc.rest != [] && |op.pc.chunks| < MAX_PARTS
    requires key == Key(op.pc.m.lease.value, |op.pc.chunks|)
    requires s'.now == s.now && s'.manifest == s.manifest && s'.used == s.used
    requires s'.live.Keys == s.live.Keys + {key}
    requires s'.written == s.written[key := op.pc.rest[..PartLength(c, op.pc.rest)]]
    ensures var n := PartLength(c, op.pc.rest);
            OpOk(c, s', op.(pc := Filling(op.pc.m, op.pc.chunks + [Chunk(key, n)], op.pc.rest[n..])))
  {
    FillAfterPut(c, s, s', op, key, PartLength(c, op.pc.rest));
  }

  lemma PutChunkFacts(c: Config, s: State, id: nat)
    requires Inv(c, s) && FillCan(c, s, id, PutChunk)
    ensures var op := s.ops[id];
            && OpOk(c, s, op) && HasNonce(op.pc) && Nonce(op.pc) == op.pc.m.lease.value && Nonce(op.pc) in s.used
            && Key(op.pc.m.lease.value, |op.pc.chunks|) !in s.written
  {
    assert OpOk(c, s, s.ops[id]);
  }

  lemma PutChunkSelf(c: Config, s: State, id: nat)
    requires c.Valid() && FillCan(c, s, id, PutChunk) && OpOk(c, s, s.ops[id])
    ensures var s' := FillStep(c, s, id, PutChunk); OpOk(c, s', s'.ops[id])
  {
    var s' := FillStep(c, s, id, PutChunk);
    SelfAfterPut(c, s, s', s.ops[id], Key(s.ops[id].pc.m.lease.value, |s.ops[id].pc.chunks|));
  }

  lemma PutChunkOthers(c: Config, s: State, id: nat)
    requires Inv(c, s) && FillCan(c, s, id, PutChunk)
    ensures var s' := FillStep(c, s, id, PutChunk); forall j <- s.ops.Keys :: j != id ==> OpOk(c, s', s.ops[j])
  {
    var s' := FillStep(c, s, id, PutChunk);
    PutChunkFacts(c, s, id);
    OthersAfterPut(c, s, s', id, Key(s.ops[id].pc.m.lease.value, |s.ops[id].pc.chunks|));
  }

  lemma PutChunkInv(c: Config, s: State, id: nat)
    requires c.Valid() && Inv(c, s) && FillCan(c, s, id, PutChunk)
    ensures Inv(c, FillStep(c, s, id, PutChunk))
  {
    var s' := FillStep(c, s, id, PutChunk);
    PutChunkOps(c, s, id);
    PutChunkBucket(c, s, id);
  }

  lemma PutChunkBucket(c: Config, s: State, id: nat)
    requires c.Valid() && Inv(c, s) && FillCan(c, s, id, PutChunk)
    ensures var s' := FillStep(c, s, id, PutChunk); ManifestOk(c, s') && KeysOk(s') && BucketOk(c, s')
  {
    var s' := FillStep(c, s, id, PutChunk);
    PutChunkFacts(c, s, id);
    BucketAfterPut(c, s, s', Key(s.ops[id].pc.m.lease.value, |s.ops[id].pc.chunks|));
  }

  lemma PutChunkOps(c: Config, s: State, id: nat)
    requires c.Valid() && Inv(c, s) && FillCan(c, s, id, PutChunk)
    ensures OpsOk(c, FillStep(c, s, id, PutChunk))
  {
    var s' := FillStep(c, s, id, PutChunk);
    PutChunkSelf(c, s, id);
    PutChunkOthers(c, s, id);
    assert HasNonce(s.ops[id].pc) by { PutChunkFacts(c, s, id); }
    OpsUpdate(c, s, s', id, s'.ops[id]);
  }

  lemma OthersAfterPut(c: Config, s: State, s': State, id: nat, key: Key)
    requires OpsOk(c, s) && id in s.ops && HasNonce(s.ops[id].pc) && Nonce(s.ops[id].pc) == key.nonce
    requires key !in s.written && s'.now == s.now && s'.manifest == s.manifest && s'.used == s.used
    requires s'.live.Keys == s.live.Keys + {key} && s'.written.Keys == s.written.Keys + {key}
    requires forall k <- s.written.Keys :: s'.written[k] == s.written[k]
    ensures forall j <- s.ops.Keys :: j != id ==> OpOk(c, s', s.ops[j])
  {
    forall j <- s.ops.Keys | j != id ensures OpOk(c, s', s.ops[j]) {
      assert OpOk(c, s, s.ops[j]);
      OpAfterPut(c, s, s', s.ops[j], key);
    }
  }

  /** One operation moves on and keeps its nonce, the others are as they were. */
  lemma OpsUpdate(c: Config, s: State, s': State, id: nat, op: Op)
    requires OpsOk(c, s) && id in s.ops && s'.ops == s.ops[id := op] && OpOk(c, s', op)
    requires HasNonce(s.ops[id].pc) && HasNonce(op.pc) && Nonce(op.pc) == Nonce(s.ops[id].pc)
    requires forall j <- s.ops.Keys :: j != id ==> OpOk(c, s', s.ops[j])
    ensures OpsOk(c, s')
  {
    forall i <- s'.ops.Keys, j <- s'.ops.Keys |
      i != j && HasNonce(s'.ops[i].pc) && HasNonce(s'.ops[j].pc)
      ensures Nonce(s'.ops[i].pc) != Nonce(s'.ops[j].pc)
    {
      assert HasNonce(s.ops[i].pc) && HasNonce(s.ops[j].pc);
    }
  }

  lemma EndFillInv(c: Config, s: State, id: nat)
    requires c.Valid() && Inv(c, s) && FillCan(c, s, id, EndFill)
    ensures Inv(c, FillStep(c, s, id, EndFill))
  {
    EndFillOk(c, s, id);
    MoveInv(c, s, FillStep(c, s, id, EndFill), id);
  }

  lemma EndFillOk(c: Config, s: State, id: nat)
    requires c.Valid() && FillCan(c, s, id, EndFill) && OpOk(c, s, s.ops[id])
    ensures var s' := FillStep(c, s, id, EndFill); id in s'.ops && OpOk(c, s', s'.ops[id])
  {
    var s' := FillStep(c, s, id, EndFill);
    assert ExtendOk(c, s', s'.ops[id]);
  }

  lemma FillInv(c: Config, s: State, id: nat, l: FillLabel)
    requires c.Valid() && Inv(c, s) && FillCan(c, s, id, l)
    ensures Inv(c, FillStep(c, s, id, l))
  {
    match l
    case StartFill => StartFillInv(c, s, id);
    case PutChunk => PutChunkInv(c, s, id);
    case EndFill => EndFillInv(c, s, id);
  }

  // ----------------------------------------------------- Commit and Abort

  /** The shared object, the marker and the uploads may change as long as what
      they hold stays right. */
  lemma BucketInv(c: Config, s: State, s': State)
    requires Inv(c, s) && BucketOk(c, s') && s' == s.(blob := s'.blob, entry := s'.entry, uploads := s'.uploads)
    ensures Inv(c, s')
  {
    forall id <- s'.ops.Keys ensures OpOk(c, s', s'.ops[id]) { OpFrame(c, s, s', s.ops[id]); }
  }

  /** A step of a commit that only decides what to do next. */
  predicate Decides(l: PublishLabel) {
    || l.Freeze? || l.Resume? || l.Close? || l.StatEntry? || l.HeadBlob? || l.LostUpload?
  }

  lemma HeldDecideOk(c: Config, s: State, id: nat, l: PublishLabel)
    requires ManifestOk(c, s) && PublishCan(c, s, id, l) && OpOk(c, s, s.ops[id])
    requires l.Freeze? || l.Resume? || l.Close?
    ensures Continues(c, s, id, PublishStep(c, s, id, l).ops[id].pc)
  {
  }

  lemma FrozenDecideOk(c: Config, s: State, id: nat, l: PublishLabel)
    requires ManifestOk(c, s) && PublishCan(c, s, id, l) && (l.HeadBlob? || l.LostUpload?) && OpOk(c, s, s.ops[id])
    ensures Continues(c, s, id, PublishStep(c, s, id, l).ops[id].pc)
  {
  }

  lemma SettledOk(c: Config, s: State, id: nat, m: Manifest, entry: Meta)
    requires id in s.ops && OpOk(c, s, s.ops[id]) && FrozenOk(s, m) && entry.size == m.rec.offset
    requires Holds(s.ops[id].pc) && !s.ops[id].pc.Releasing? && Tag(s.ops[id].pc) == m
    ensures Continues(c, s, id, Settled(c, s, id, m, Receipt(m, entry)))
  {
  }

  lemma StatDecideOk(c: Config, s: State, id: nat)
    requires ManifestOk(c, s) && BucketOk(c, s) && PublishCan(c, s, id, StatEntry) && OpOk(c, s, s.ops[id])
    ensures Continues(c, s, id, PublishStep(c, s, id, StatEntry).ops[id].pc)
  {
    if s.entry.Some? { SettledOk(c, s, id, s.ops[id].pc.m, s.entry.value); }
  }

  /** An operation may move on to pc: it keeps its lease, and pc is right for it. */
  predicate Continues(c: Config, s: State, id: nat, pc: Pc) {
    && id in s.ops && OpOk(c, s, s.ops[id].(pc := pc))
    && HasNonce(pc) && HasNonce(s.ops[id].pc) && Nonce(pc) == Nonce(s.ops[id].pc)
  }

  lemma MoveTo(c: Config, s: State, id: nat, pc: Pc)
    requires Inv(c, s) && Continues(c, s, id, pc)
    ensures Inv(c, SetPc(s, id, pc))
  {
    var s' := SetPc(s, id, pc);
    OpFrame(c, s, s', s'.ops[id]);
    MoveInv(c, s, s', id);
  }

  lemma DecideOk(c: Config, s: State, id: nat, l: PublishLabel)
    requires ManifestOk(c, s) && BucketOk(c, s) && PublishCan(c, s, id, l) && Decides(l) && OpOk(c, s, s.ops[id])
    ensures Continues(c, s, id, PublishStep(c, s, id, l).ops[id].pc)
  {
    if l.StatEntry? {
      StatDecideOk(c, s, id);
    } else if l.HeadBlob? || l.LostUpload? {
      FrozenDecideOk(c, s, id, l);
    } else {
      HeldDecideOk(c, s, id, l);
    }
  }

  lemma DecideMoves(c: Config, s: State, id: nat, l: PublishLabel)
    requires PublishCan(c, s, id, l) && Decides(l)
    ensures PublishStep(c, s, id, l) == SetPc(s, id, PublishStep(c, s, id, l).ops[id].pc)
  {
  }

  lemma DecideInv(c: Config, s: State, id: nat, l: PublishLabel)
    requires Inv(c, s) && PublishCan(c, s, id, l) && Decides(l)
    ensures Inv(c, PublishStep(c, s, id, l))
  {
    assert OpOk(c, s, s.ops[id]);
    DecideOk(c, s, id, l);
    DecideMoves(c, s, id, l);
    MoveTo(c, s, id, PublishStep(c, s, id, l).ops[id].pc);
  }

  /** The object a commit puts together is what was appended. */
  lemma AssembledOk(c: Config, s: State, m: Manifest, parts: map<int, Bytes>)
    requires c.Valid() && ManifestOk(c, s) && FrozenOk(s, m) && PartsOk(s.written, m.chunks, parts)
    requires forall i | 0 <= i < |m.chunks| :: i in parts
    ensures Flatten(Parts(parts, |m.chunks|)) == Flatten(s.log)
    ensures c.h.DigestOf(Flatten(s.log)) == Current(s).rec.commit.digest
  {
    PartsJoin(s.written, m.chunks, parts, |m.chunks|);
    assert m.chunks[..|m.chunks|] == m.chunks;
  }

  /** The bucket after a step of a commit, without the move of the operation. */
  ghost function Uploaded(s: State, s': State): State {
    s.(blob := s'.blob, entry := s'.entry, uploads := s'.uploads)
  }

  lemma CompletedOk(c: Config, s: State, id: nat)
    requires c.Valid() && Inv(c, s) && PublishCan(c, s, id, Complete)
    ensures BucketOk(c, Uploaded(s, PublishStep(c, s, id, Complete)))
  {
    var m := s.ops[id].pc.m;
    assert OpOk(c, s, s.ops[id]);
    assert PartsOk(s.written, Current(s).chunks, s.uploads[m.upload.value]);
    AssembledOk(c, s, m, s.uploads[m.upload.value]);
  }

  lemma UploadedOk(c: Config, s: State, id: nat, l: PublishLabel)
    requires c.Valid() && Inv(c, s) && PublishCan(c, s, id, l) && !Decides(l)
    ensures BucketOk(c, Uploaded(s, PublishStep(c, s, id, l)))
  {
    if l.Complete? {
      CompletedOk(c, s, id);
    } else if l.PutEmpty? {
      EmptyOk(c, s, id);
    } else if l.CopyPart? {
      CopiedOk(c, s, id);
    } else {
      EnteredOk(c, s, id, l);
    }
  }

  lemma EnteredOk(c: Config, s: State, id: nat, l: PublishLabel)
    requires Inv(c, s) && PublishCan(c, s, id, l) && (l.OpenUpload? || l.PutEntry?)
    ensures BucketOk(c, Uploaded(s, PublishStep(c, s, id, l)))
  {
    assert OpOk(c, s, s.ops[id]);
  }

  lemma EmptyOk(c: Config, s: State, id: nat)
    requires c.Valid() && Inv(c, s) && PublishCan(c, s, id, PutEmpty)
    ensures BucketOk(c, Uploaded(s, PublishStep(c, s, id, PutEmpty)))
  {
    assert OpOk(c, s, s.ops[id]);
    assert |Flatten(s.log)| == 0;
    assert Flatten(s.log) == [];
  }

  lemma CopiedOk(c: Config, s: State, id: nat)
    requires c.Valid() && Inv(c, s) && PublishCan(c, s, id, CopyPart)
    ensures BucketOk(c, Uploaded(s, PublishStep(c, s, id, CopyPart)))
  {
    assert OpOk(c, s, s.ops[id]);
    assert PartsOk(s.written, Current(s).chunks, s.uploads[s.ops[id].pc.m.upload.value]);
  }

  lemma UploadMoves(c: Config, s: State, id: nat, l: PublishLabel)
    requires ManifestOk(c, s) && BucketOk(c, s) && PublishCan(c, s, id, l) && !Decides(l) && OpOk(c, s, s.ops[id])
    ensures Continues(c, s, id, PublishStep(c, s, id, l).ops[id].pc)
  {
    if l.PutEntry? {
      EntryMoves(c, s, id);
    } else if l.OpenUpload? {
      OpenMoves(c, s, id, l.u);
    } else if l.CopyPart? {
      CopyMoves(c, s, id);
    } else {
      BlobMoves(c, s, id, l);
    }
  }

  lemma OpenMoves(c: Config, s: State, id: nat, u: nat)
    requires ManifestOk(c, s) && PublishCan(c, s, id, OpenUpload(u)) && OpOk(c, s, s.ops[id])
    ensures Continues(c, s, id, PublishStep(c, s, id, OpenUpload(u)).ops[id].pc)
  {
  }

  lemma CopyMoves(c: Config, s: State, id: nat)
    requires ManifestOk(c, s) && PublishCan(c, s, id, CopyPart) && OpOk(c, s, s.ops[id])
    ensures Continues(c, s, id, PublishStep(c, s, id, CopyPart).ops[id].pc)
  {
  }

  lemma BlobMoves(c: Config, s: State, id: nat, l: PublishLabel)
    requires ManifestOk(c, s) && PublishCan(c, s, id, l) && (l.PutEmpty? || l.Complete?) && OpOk(c, s, s.ops[id])
    ensures Continues(c, s, id, PublishStep(c, s, id, l).ops[id].pc)
  {
  }

  lemma EntryMoves(c: Config, s: State, id: nat)
    requires ManifestOk(c, s) && BucketOk(c, s) && PublishCan(c, s, id, PutEntry) && OpOk(c, s, s.ops[id])
    ensures Continues(c, s, id, PublishStep(c, s, id, PutEntry).ops[id].pc)
  {
    var m := s.ops[id].pc.m;
    SettledOk(c, s, id, m, if s.entry.Some? then s.entry.value else m.rec.commit);
  }

  lemma PublishInv(c: Config, s: State, id: nat, l: PublishLabel)
    requires c.Valid() && Inv(c, s) && PublishCan(c, s, id, l)
    ensures Inv(c, PublishStep(c, s, id, l))
  {
    if Decides(l) {
      DecideInv(c, s, id, l);
    } else {
      var s' := PublishStep(c, s, id, l);
      var t := Uploaded(s, s');
      UploadedOk(c, s, id, l);
      BucketInv(c, s, t);
      UploadMoves(c, s, id, l);
      OpFrame(c, s, t, s'.ops[id]);
      MoveTo(c, t, id, s'.ops[id].pc);
    }
  }

  // ---------------------------------------------------------------- cleanup

  /** A chunk that goes while somebody holds the stage is one nobody else counts on. */
  lemma OthersAfterDelete(c: Config, s: State, s': State, id: nat, j: nat)
    requires OpsOk(c, s) && id in s.ops && j in s.ops && j != id && InTime(s, id) && s.ops[id].pc.Cleaning?
    requires s' == s.(live := s'.live)
    ensures OpOk(c, s', s.ops[j])
  {
    assert OpOk(c, s, s.ops[id]) && OpOk(c, s, s.ops[j]);
    assert HasNonce(s.ops[id].pc);
  }

  lemma DeleteChunkInv(c: Config, s: State, id: nat, k: Key)
    requires Inv(c, s) && CleanCan(c, s, id, DeleteChunk(k))
    ensures Inv(c, CleanStep(c, s, id, DeleteChunk(k)))
  {
    var s' := CleanStep(c, s, id, DeleteChunk(k));
    assert OpOk(c, s, s.ops[id]);
    forall j <- s'.ops.Keys ensures OpOk(c, s', s'.ops[j]) {
      if j != id { OthersAfterDelete(c, s, s', id, j); }
    }
    assert Current(s) == s.ops[id].pc.m;
    assert ManifestOk(c, s') && BucketOk(c, s') && KeysOk(s');
  }

  lemma StartCleanOk(c: Config, s: State, id: nat, l: CleanLabel)
    requires Inv(c, s) && CleanCan(c, s, id, l) && l.StartClean?
    ensures var s' := CleanStep(c, s, id, l); id in s'.ops ==> OpOk(c, s', s'.ops[id])
  {
    assert OpOk(c, s, s.ops[id]);
  }

  lemma EndCleanOk(c: Config, s: State, id: nat, l: CleanLabel)
    requires Inv(c, s) && CleanCan(c, s, id, l) && l.EndClean?
    ensures var s' := CleanStep(c, s, id, l); id in s'.ops ==> OpOk(c, s', s'.ops[id])
  {
    assert OpOk(c, s, s.ops[id]);
  }

  lemma CleanInv(c: Config, s: State, id: nat, l: CleanLabel)
    requires Inv(c, s) && CleanCan(c, s, id, l) && !l.DeleteManifest?
    ensures Inv(c, CleanStep(c, s, id, l))
  {
    var s' := CleanStep(c, s, id, l);
    if l.DeleteChunk? {
      DeleteChunkInv(c, s, id, l.k);
    } else {
      if l.StartClean? { StartCleanOk(c, s, id, l); } else { EndCleanOk(c, s, id, l); }
      MoveInv(c, s, s', id);
    }
  }

  lemma WorldInv(c: Config, s: State, l: WorldLabel)
    requires Inv(c, s) && WorldCan(c, s, l)
    ensures Inv(c, WorldStep(c, s, l))
  {
    BucketInv(c, s, WorldStep(c, s, l));
  }

  /** Every step keeps the invariant, up to the deletion of the manifest. */
  lemma StepInv(c: Config, s: State, l: Label)
    requires c.Valid() && Inv(c, s) && Enabled(c, s, l) && Apply(c, s, l).manifest.Some?
    ensures Inv(c, Apply(c, s, l))
  {
    if l.Save? {
      SaveInv(c, s, l.id, l.lands, l.reported);
      assert Apply(c, s, l) == SaveStep(s, l.id, l.lands, l.reported);
    } else if l.Tick? {
      TickStepInv(c, s, l);
    } else if l.Drive? {
      DriveStepInv(c, s, l);
    } else {
      OtherStepInv(c, s, l);
    }
  }

  lemma TickStepInv(c: Config, s: State, l: Label)
    requires c.Valid() && Inv(c, s) && Enabled(c, s, l) && l.Tick?
    ensures Inv(c, Apply(c, s, l))
  {
    TickInv(c, s, l.dt);
  }

  lemma DriveStepInv(c: Config, s: State, l: Label)
    requires c.Valid() && Inv(c, s) && Enabled(c, s, l) && l.Drive?
    ensures Inv(c, Apply(c, s, l))
  {
    DriveInv(c, s, l.id, l.run);
    assert Apply(c, s, l) == RunStep(c, s, l.id, l.run);
  }

  lemma OtherStepInv(c: Config, s: State, l: Label)
    requires c.Valid() && Inv(c, s) && Enabled(c, s, l) && Apply(c, s, l).manifest.Some?
    requires l.Fill? || l.Publish? || l.Clean? || l.World?
    ensures Inv(c, Apply(c, s, l))
  {
    match l
    case Fill(id, x) => FillInv(c, s, id, x);
    case Publish(id, x) => PublishInv(c, s, id, x);
    case Clean(id, x) => CleanInv(c, s, id, x);
    case World(x) => WorldInv(c, s, x);
  }

  // --------------------------------------------------------------- theorems

  ghost predicate Step(c: Config, s: State, s': State) {
    exists l :: Enabled(c, s, l) && s' == Apply(c, s, l)
  }

  ghost predicate StepAt(c: Config, run: seq<State>, i: nat)
    requires i + 1 < |run|
  {
    Step(c, run[i], run[i + 1])
  }

  /** A run, up to the deletion of the manifest. */
  ghost predicate Trace(c: Config, run: seq<State>) {
    && |run| > 0 && run[0] == Init(c, run[0].now)
    && (forall s <- run :: s.manifest.Some?)
    && (forall i: nat :: i + 1 < |run| ==> StepAt(c, run, i))
  }

  lemma {:induction false} TraceInv(c: Config, run: seq<State>, i: nat)
    requires c.Valid() && Trace(c, run) && i < |run|
    ensures Inv(c, run[i])
  {
    if i == 0 {
      InitInv(c, run[0].now);
    } else {
      TraceInv(c, run, i - 1);
      assert StepAt(c, run, i - 1);
      var l :| Enabled(c, run[i - 1], l) && run[i] == Apply(c, run[i - 1], l);
      assert run[i] in run;
      StepInv(c, run[i - 1], l);
    }
  }

  /** In every state of every run, each chunk of a manifest that is committing, or
      active and not expired, is in the bucket; its chunks are whole, their total
      is its offset and their bytes are exactly the accepted inputs in order. */
  lemma ChunksExist(c: Config, run: seq<State>, i: nat)
    requires c.Valid() && Trace(c, run) && i < |run|
    ensures Needed(run[i]) ==> Keys(Current(run[i]).chunks) <= run[i].live.Keys
    ensures ChunksSized(c, run[i].written, Current(run[i]).chunks)
    ensures Join(run[i].written, Current(run[i]).chunks) == Flatten(run[i].log)
    ensures Current(run[i]).rec.offset == |Flatten(run[i].log)|
  {
    TraceInv(c, run, i);
  }

  function Contents(w: map<Key, Bytes>, chunks: seq<Chunk>): seq<Bytes> {
    seq(|chunks|, i requires 0 <= i < |chunks| => Content(w, chunks[i]))
  }

  lemma {:induction false} JoinIsFlatten(w: map<Key, Bytes>, chunks: seq<Chunk>)
    ensures Join(w, chunks) == Flatten(Contents(w, chunks))
  {
    if chunks != [] {
      var n := |chunks| - 1;
      JoinIsFlatten(w, chunks[..n]);
      FlattenSnoc(Contents(w, chunks[..n]), Content(w, chunks[n]));
      assert Contents(w, chunks) == Contents(w, chunks[..n]) + [Content(w, chunks[n])];
    }
  }

  /** The chunks depend on the accepted bytes alone: two uploads of the same bytes,
      however they were cut into Appends, interrupted or taken over, are chunked in
      the same way. */
  lemma ChunksAreCanonical(c: Config, run: seq<State>, i: nat, run': seq<State>, j: nat)
    requires c.Valid() && Trace(c, run) && i < |run| && Trace(c, run') && j < |run'|
    requires Flatten(run[i].log) == Flatten(run'[j].log)
    ensures Contents(run[i].written, Current(run[i]).chunks) == Contents(run'[j].written, Current(run'[j]).chunks)
  {
    ChunksExist(c, run, i);
    ChunksExist(c, run', j);
    JoinIsFlatten(run[i].written, Current(run[i]).chunks);
    JoinIsFlatten(run'[j].written, Current(run'[j]).chunks);
    Chunking.GroupingIsUnique(c.partSize, Contents(run[i].written, Current(run[i]).chunks),
                           Contents(run'[j].written, Current(run'[j]).chunks));
  }

  /** Any object a commit finds or puts at the frozen digest is what was appended. */
  lemma PublishedIsAppended(c: Config, run: seq<State>, i: nat)
    requires c.Valid() && Trace(c, run) && i < |run| && Frozen(Current(run[i]))
    ensures Current(run[i]).rec.commit.digest == c.h.DigestOf(Flatten(run[i].log))
    ensures run[i].blob.Some? ==> c.h.DigestOf(run[i].blob.value) == c.h.DigestOf(Flatten(run[i].log))
  {
    TraceInv(c, run, i);
  }

  // ---- fencing

  /** The manifest is no longer what this operation saved. */
  predicate Overtaken(s: State, id: nat) {
    s.manifest.Some? && id in s.ops && Holds(s.ops[id].pc) && Current(s) != Tag(s.ops[id].pc)
  }

  lemma OvertakenCannotSave(s: State, id: nat, reported: bool)
    requires Overtaken(s, id)
    ensures !SaveCan(s, id, true, reported)
  {
  }

  /** An operation's tag and the manifest are as they were. */
  predicate SameTag(s: State, s': State, id: nat) {
    && s'.manifest == s.manifest
    && (id in s.ops && Holds(s.ops[id].pc) && id in s'.ops && Holds(s'.ops[id].pc) ==>
          Tag(s'.ops[id].pc) == Tag(s.ops[id].pc))
  }

  lemma DriveKeepsTags(c: Config, s: State, j: nat, l: RunLabel, id: nat)
    requires RunCan(c, s, j, l) && id in s.ops && Holds(s.ops[id].pc)
    ensures SameTag(s, RunStep(c, s, j, l), id)
  {
  }

  lemma FillKeepsTags(c: Config, s: State, j: nat, l: FillLabel, id: nat)
    requires FillCan(c, s, j, l) && id in s.ops && Holds(s.ops[id].pc)
    ensures SameTag(s, FillStep(c, s, j, l), id)
  {
  }

  lemma PublishKeepsTags(c: Config, s: State, j: nat, l: PublishLabel, id: nat)
    requires PublishCan(c, s, j, l) && id in s.ops && Holds(s.ops[id].pc)
    ensures SameTag(s, PublishStep(c, s, j, l), id)
  {
  }

  lemma CleanKeepsTags(c: Config, s: State, j: nat, l: CleanLabel, id: nat)
    requires CleanCan(c, s, j, l) && !l.DeleteManifest? && id in s.ops && Holds(s.ops[id].pc)
    ensures SameTag(s, CleanStep(c, s, j, l), id)
  {
  }

  lemma FailedSaveKeepsTags(s: State, j: nat, id: nat)
    requires SaveCan(s, j, false, false) && id in s.ops && Holds(s.ops[id].pc)
    ensures SameTag(s, SaveStep(s, j, false, false), id)
  {
  }

  /** Content somebody else saved is under somebody else's lease, or none. */
  lemma SavedByAnother(c: Config, s: State, j: nat, id: nat)
    requires OpsOk(c, s) && j in s.ops && Saves(s.ops[j].pc) && id in s.ops && Holds(s.ops[id].pc) && j != id
    ensures WriteOf(s.ops[j].pc).next != Tag(s.ops[id].pc)
  {
    assert OpOk(c, s, s.ops[id]) && OpOk(c, s, s.ops[j]);
    assert HasNonce(s.ops[id].pc) && HasNonce(s.ops[j].pc);
    SaveCarries(c, s, j);
  }

  lemma SaveKeepsOvertaken(c: Config, s: State, j: nat, lands: bool, reported: bool, id: nat)
    requires OpsOk(c, s) && SaveCan(s, j, lands, reported) && Overtaken(s, id)
    requires var s' := SaveStep(s, j, lands, reported); id in s'.ops && Holds(s'.ops[id].pc)
    ensures Overtaken(SaveStep(s, j, lands, reported), id)
  {
    if lands { SavedByAnother(c, s, j, id); } else { FailedSaveKeepsTags(s, j, id); }
  }

  lemma OthersKeepTags(c: Config, s: State, l: Label, id: nat)
    requires Enabled(c, s, l) && !l.Save? && Apply(c, s, l).manifest.Some? && id in s.ops && Holds(s.ops[id].pc)
    ensures SameTag(s, Apply(c, s, l), id)
  {
    match l
    case Drive(j, x) => DriveKeepsTags(c, s, j, x, id);
    case Fill(j, x) => FillKeepsTags(c, s, j, x, id);
    case Publish(j, x) => PublishKeepsTags(c, s, j, x, id);
    case Clean(j, x) => CleanKeepsTags(c, s, j, x, id);
    case _ =>
  }

  lemma OvertakenStep(c: Config, s: State, l: Label, id: nat)
    requires Inv(c, s) && Enabled(c, s, l) && Overtaken(s, id)
    requires var s' := Apply(c, s, l); s'.manifest.Some? && id in s'.ops && Holds(s'.ops[id].pc)
    ensures Overtaken(Apply(c, s, l), id)
  {
    if l.Save? {
      SaveKeepsOvertaken(c, s, l.id, l.lands, l.reported, id);
    } else {
      OthersKeepTags(c, s, l, id);
    }
  }

  /** Once somebody else has taken the stage over, no save of an earlier holder
      lands, for as long as the run lasts. */
  lemma {:induction false} Fenced(c: Config, run: seq<State>, id: nat, i: nat, j: nat)
    requires c.Valid() && Trace(c, run) && i <= j < |run| && Overtaken(run[i], id)
    requires forall k | i <= k <= j :: id in run[k].ops && Holds(run[k].ops[id].pc)
    ensures Overtaken(run[j], id)
    ensures !SaveCan(run[j], id, true, true) && !SaveCan(run[j], id, true, false)
  {
    if i < j {
      Fenced(c, run, id, i, j - 1);
      TraceInv(c, run, j - 1);
      assert StepAt(c, run, j - 1);
      var l :| Enabled(c, run[j - 1], l) && run[j] == Apply(c, run[j - 1], l);
      assert run[j] in run;
      OvertakenStep(c, run[j - 1], l, id);
    }
    OvertakenCannotSave(run[j], id, true);
    OvertakenCannotSave(run[j], id, false);
  }

  lemma OthersKeepManifest(c: Config, s: State, l: Label)
    requires Enabled(c, s, l) && (l.Save? ==> !l.lands) && Apply(c, s, l).manifest.Some?
    ensures Apply(c, s, l).manifest == s.manifest && Apply(c, s, l).log == s.log
  {
    match l
    case Drive(j, x) => DriveKeepsManifest(c, s, j, x);
    case Fill(j, x) => FillKeepsManifest(c, s, j, x);
    case Publish(j, x) => PublishKeepsManifest(c, s, j, x);
    case Clean(j, x) => CleanKeepsManifest(c, s, j, x);
    case Save(j, lands, reported) => FailedSaveKeepsManifest(s, j);
    case World(x) => WorldKeepsManifest(c, s, x);
    case Tick(_) =>
  }

  lemma CleanKeepsManifest(c: Config, s: State, j: nat, l: CleanLabel)
    requires CleanCan(c, s, j, l) && !l.DeleteManifest?
    ensures CleanStep(c, s, j, l).manifest == s.manifest && CleanStep(c, s, j, l).log == s.log
  {
  }

  lemma FailedSaveKeepsManifest(s: State, j: nat)
    requires SaveCan(s, j, false, false)
    ensures SaveStep(s, j, false, false).manifest == s.manifest && SaveStep(s, j, false, false).log == s.log
  {
  }

  lemma WorldKeepsManifest(c: Config, s: State, l: WorldLabel)
    requires WorldCan(c, s, l)
    ensures WorldStep(c, s, l).manifest == s.manifest && WorldStep(c, s, l).log == s.log
  {
  }

  /** Only a save that lands replaces the manifest, and only the content it names. */
  lemma ReplacedBySave(c: Config, s: State, l: Label)
    requires Enabled(c, s, l) && Apply(c, s, l).manifest.Some? && Apply(c, s, l).manifest != s.manifest
    ensures l.Save? && l.lands && l.id in s.ops && Saves(s.ops[l.id].pc)
    ensures Knows(s, l.id, Current(s)) && Current(Apply(c, s, l)) == WriteOf(s.ops[l.id].pc).next
  {
    if l.Save? ==> !l.lands { OthersKeepManifest(c, s, l); }
  }

  /** The operation is past its read, and m is the content it would replace. */
  predicate Knows(s: State, id: nat, m: Manifest) {
    && id in s.ops && !s.ops[id].pc.Start?
    && m == Basis(s.ops[id].pc)
  }

  function Basis(pc: Pc): Manifest
    requires !pc.Start?
  {
    if pc.Seen? then pc.m else if pc.Leasing? then pc.prior else Tag(pc)
  }

  /** In this step the operation reads m, or writes it. */
  ghost predicate Learns(c: Config, s: State, s': State, id: nat, m: Manifest) {
    exists l ::
      && Enabled(c, s, l) && s' == Apply(c, s, l) && s'.manifest == Some(m)
      && (l == Drive(id, Read) || (l.Save? && l.id == id && l.lands))
  }

  lemma DriveKnows(c: Config, s: State, j: nat, l: RunLabel, id: nat, m: Manifest)
    requires RunCan(c, s, j, l) && s.manifest.Some? && Knows(RunStep(c, s, j, l), id, m)
    ensures Knows(s, id, m) || (j == id && l.Read? && RunStep(c, s, j, l).manifest == Some(m))
  {
  }

  lemma FillKnows(c: Config, s: State, j: nat, l: FillLabel, id: nat, m: Manifest)
    requires FillCan(c, s, j, l) && Knows(FillStep(c, s, j, l), id, m)
    ensures Knows(s, id, m)
  {
  }

  lemma PublishKnows(c: Config, s: State, j: nat, l: PublishLabel, id: nat, m: Manifest)
    requires PublishCan(c, s, j, l) && Knows(PublishStep(c, s, j, l), id, m)
    ensures Knows(s, id, m)
  {
  }

  lemma CleanKnows(c: Config, s: State, j: nat, l: CleanLabel, id: nat, m: Manifest)
    requires CleanCan(c, s, j, l) && Knows(CleanStep(c, s, j, l), id, m)
    ensures Knows(s, id, m)
  {
  }

  lemma SaveKnows(s: State, j: nat, lands: bool, reported: bool, id: nat, m: Manifest)
    requires SaveCan(s, j, lands, reported) && Knows(SaveStep(s, j, lands, reported), id, m)
    ensures Knows(s, id, m) || (j == id && lands && SaveStep(s, j, lands, reported).manifest == Some(m))
  {
  }

  /** What an operation knows it knew before, or learns in this step. */
  lemma StepKnows(c: Config, s: State, l: Label, id: nat, m: Manifest)
    requires Enabled(c, s, l) && Knows(Apply(c, s, l), id, m)
    ensures Knows(s, id, m) || Learns(c, s, Apply(c, s, l), id, m)
  {
    match l
    case Drive(j, x) => DriveKnows(c, s, j, x, id, m);
    case Save(j, lands, reported) => SaveKnows(s, j, lands, reported, id, m);
    case Fill(j, x) => FillKnows(c, s, j, x, id, m);
    case Publish(j, x) => PublishKnows(c, s, j, x, id, m);
    case Clean(j, x) => CleanKnows(c, s, j, x, id, m);
    case _ =>
  }

  /** Whatever an operation knows at i, it learnt in a step of its own before, and
      has known since. */
  lemma {:induction false} KnownSince(c: Config, run: seq<State>, id: nat, m: Manifest, i: nat) returns (k: nat)
    requires Trace(c, run) && i < |run| && Knows(run[i], id, m)
    ensures k < i && Learns(c, run[k], run[k + 1], id, m)
    ensures forall j | k < j <= i :: Knows(run[j], id, m)
    decreases i
  {
    assert i > 0;
    assert StepAt(c, run, i - 1);
    var l :| Enabled(c, run[i - 1], l) && run[i] == Apply(c, run[i - 1], l);
    StepKnows(c, run[i - 1], l, id, m);
    if Knows(run[i - 1], id, m) {
      k := KnownSince(c, run, id, m, i - 1);
    } else {
      k := i - 1;
    }
  }

  /** Manifests form one chain: whatever replaces the manifest in a run is saved by
      an operation that read exactly the content it replaces, or wrote it, in an
      earlier step of its own, and has held on to it since. */
  lemma OneChain(c: Config, run: seq<State>, i: nat) returns (id: nat, k: nat)
    requires Trace(c, run) && i + 1 < |run| && run[i + 1].manifest != run[i].manifest
    ensures k < i && run[i].manifest.Some? && Learns(c, run[k], run[k + 1], id, Current(run[i]))
    ensures forall j | k < j <= i :: Knows(run[j], id, Current(run[i]))
    ensures id in run[i].ops && Saves(run[i].ops[id].pc) && run[i + 1].manifest == Some(WriteOf(run[i].ops[id].pc).next)
  {
    assert run[i] in run && run[i + 1] in run && StepAt(c, run, i);
    var l :| Enabled(c, run[i], l) && run[i + 1] == Apply(c, run[i], l);
    ReplacedBySave(c, run[i], l);
    id := l.id;
    k := KnownSince(c, run, id, Current(run[i]), i);
  }

  lemma DriveKeepsManifest(c: Config, s: State, j: nat, l: RunLabel)
    requires RunCan(c, s, j, l)
    ensures RunStep(c, s, j, l).manifest == s.manifest && RunStep(c, s, j, l).log == s.log
  {
  }

  lemma FillKeepsManifest(c: Config, s: State, j: nat, l: FillLabel)
    requires FillCan(c, s, j, l)
    ensures FillStep(c, s, j, l).manifest == s.manifest && FillStep(c, s, j, l).log == s.log
  {
  }

  lemma PublishKeepsManifest(c: Config, s: State, j: nat, l: PublishLabel)
    requires PublishCan(c, s, j, l)
    ensures PublishStep(c, s, j, l).manifest == s.manifest && PublishStep(c, s, j, l).log == s.log
  {
  }

  // ---- refinement

  function Abs(s: State): Upload
    requires s.manifest.Some?
  {
    View(Current(s).rec, s.log)
  }

  lemma SaveRefines(c: Config, s: State, id: nat, reported: bool)
    requires c.Valid() && Inv(c, s) && SaveCan(s, id, true, reported)
    ensures Next(c.h, Abs(s), Abs(SaveStep(s, id, true, reported)))
  {
    var (s', op) := (SaveStep(s, id, true, reported), s.ops[id]);
    var (u, u') := (Abs(s), Abs(s'));
    assert OpOk(c, s, op);
    if op.pc.Extending? {
      assert Accepts(u, u');
    } else if op.pc.Freezing? {
      assert Freezes(c.h, u, u');
    } else if op.pc.Settling? {
      assert if op.pc.m.rec.phase.Active? then Aborts(u, u') else Finishes(c.h, u, u');
    }
  }

  /** Every step is a move of the abstract upload, or none. */
  lemma StepRefines(c: Config, s: State, l: Label)
    requires c.Valid() && Inv(c, s) && Enabled(c, s, l) && Apply(c, s, l).manifest.Some?
    ensures Next(c.h, Abs(s), Abs(Apply(c, s, l)))
  {
    if l.Save? && l.lands { SaveRefines(c, s, l.id, l.reported); } else { OthersKeepManifest(c, s, l); }
  }

  /** A run of the S3 protocol is a run of the abstract upload. */
  lemma Refines(c: Config, run: seq<State>) returns (uploads: seq<Upload>)
    requires c.Valid() && Trace(c, run)
    ensures |uploads| == |run| && StageSpec.Run(c.h, uploads)
    ensures forall i | 0 <= i < |run| :: run[i].manifest.Some? && uploads[i] == Abs(run[i])
  {
    uploads := seq(|run|, i requires 0 <= i < |run| => assert run[i] in run; Abs(run[i]));
    forall i: nat | i + 1 < |uploads| ensures NextAt(c.h, uploads, i) {
      TraceInv(c, run, i);
      assert StepAt(c, run, i) && run[i + 1] in run;
      var l :| Enabled(c, run[i], l) && run[i + 1] == Apply(c, run[i], l);
      StepRefines(c, run[i], l);
    }
  }
}
