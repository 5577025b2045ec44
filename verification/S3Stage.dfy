/** Staged uploads on S3.

    A stage is one manifest object, replaced only by compare-and-swap on its
    ETag, and immutable chunk objects. Any number of operations (Append, Commit,
    Abort, and the two kinds of cleanup) run against it from any number of
    processes; each bucket request is one step, a save may land and still report
    an error, and a process may stop anywhere. An ETag is taken to be the content
    it stands for, and a nonce is new. Runs end when the manifest is deleted. */
module S3Stage {
  import opened Basics
  import opened Hashing
  import opened StageSpec
  import Chunking

  const MAX_PARTS := Chunking.MAX_PARTS

  /** chunks/<lease nonce>/<index> */
  datatype Key = Key(nonce: nat, index: nat)

  datatype Chunk = Chunk(key: Key, size: int)

  datatype Manifest = Manifest(
    rec: Record,
    chunks: seq<Chunk>,
    lease: Option<nat>,
    leaseUntil: int,
    upload: Option<nat>)

  datatype Kind =
    | AppendOp(expected: int, input: Bytes)
    | CommitOp(wanted: Meta)
    | AbortOp
    | PruneOp(listed: set<Key>)   // chunk keys its listing found before it leased
    | CleanOp                     // the cleanup an Abort ends with

  /** Where an operation is. `m` is the manifest it saved last, and so its tag. */
  datatype Pc =
    | Start
    | Seen(m: Manifest)
    | Leasing(prior: Manifest, held: Manifest)
    | Held(m: Manifest)
    | Filling(m: Manifest, chunks: seq<Chunk>, rest: Bytes)
    | Extending(m: Manifest, next: Manifest)     // Append publishes
    | Freezing(m: Manifest, next: Manifest)      // Commit freezes its parameters
    | Publishing(m: Manifest)                    // is the entry there?
    | Heading(m: Manifest)                       // is the blob there?
    | Recording(m: Manifest, next: Manifest)     // saves a new upload id
    | Assembling(m: Manifest, copied: nat)
    | Referring(m: Manifest)                     // writes the entry
    | Settling(m: Manifest, next: Manifest)      // records the outcome
    | Cleaning(m: Manifest, objects: set<Key>, expired: bool)
    | Deleting(m: Manifest)
    | Releasing(m: Manifest, next: Manifest)     // outside the operation's timeout

  datatype Op = Op(kind: Kind, deadline: int, pc: Pc)

  datatype State = State(
    now: int,
    manifest: Option<Manifest>,
    live: map<Key, int>,                 // chunk objects and when they were written
    written: map<Key, Bytes>,            // what was ever written under a key (history)
    used: set<nat>,                      // nonces handed out
    log: seq<Bytes>,                     // inputs of Appends whose save landed (history)
    ops: map<nat, Op>,
    blob: Option<Bytes>,                 // the shared object of the frozen digest
    entry: Option<Meta>,                 // this namespace's marker for it
    uploads: map<nat, map<int, Bytes>>)  // multipart uploads and their parts

  datatype Config = Config(h: Hasher, partSize: int, timeout: int, ttl: int, retention: int) {
    ghost predicate Valid() {
      h.Lawful() && 0x50_0000 <= partSize <= 0x1_4000_0000 && timeout > 0 && ttl > 0 && retention > 0
    }
  }

  function Unlease(m: Manifest): Manifest { m.(lease := None, leaseUntil := 0) }

  function Content(written: map<Key, Bytes>, c: Chunk): Bytes {
    if c.key in written then written[c.key] else []
  }

  /** The bytes a chunk list stands for. */
  function Join(written: map<Key, Bytes>, chunks: seq<Chunk>): Bytes {
    if chunks == [] then []
    else Join(written, chunks[..|chunks| - 1]) + Content(written, chunks[|chunks| - 1])
  }

  function Keys(chunks: seq<Chunk>): set<Key> { set c <- chunks :: c.key }

  /** All chunks but the last one are full, the last one is not empty. */
  predicate ChunksSized(c: Config, written: map<Key, Bytes>, chunks: seq<Chunk>) {
    && |chunks| <= MAX_PARTS
    && (forall i | 0 <= i < |chunks| ::
          && chunks[i].key in written && |written[chunks[i].key]| == chunks[i].size
          && 0 < chunks[i].size <= c.partSize
          && (i < |chunks| - 1 ==> chunks[i].size == c.partSize))
  }

  // ------------------------------------------------------------ the steps

  datatype Label =
    | Tick(dt: nat)
    | Drive(id: nat, run: RunLabel)
    | Save(id: nat, lands: bool, reported: bool)
    | Fill(id: nat, fill: FillLabel)
    | Publish(id: nat, publish: PublishLabel)
    | Clean(id: nat, clean: CleanLabel)
    | World(world: WorldLabel)

  datatype RunLabel =
    | Begin(kind: Kind)
    | Read
    | Lease(nonce: nat)
    | GiveUp        // any refusal or failed request of an operation holding the lease
    | Crash

  datatype FillLabel = StartFill | PutChunk | EndFill

  datatype PublishLabel =
    | Freeze
    | Resume            // the parameters are frozen already
    | Close             // Abort of an active stage
    | StatEntry | HeadBlob | PutEmpty
    | OpenUpload(u: nat) | CopyPart | LostUpload | Complete
    | PutEntry

  datatype CleanLabel = StartClean | DeleteChunk(k: Key) | EndClean | DeleteManifest

  /** Everybody else: the same digest added, labelled, erased or reclaimed
      through other calls, and abandoned uploads aborted. */
  datatype WorldLabel =
    | SetEntry(m: Meta) | EraseEntry | SetBlob(bytes: Bytes) | DropBlob | AbortUpload(u: nat)

  function Current(s: State): Manifest
    requires s.manifest.Some?
  {
    s.manifest.value
  }

  predicate InTime(s: State, id: nat) { id in s.ops && s.now < s.ops[id].deadline }

  function SetPc(s: State, id: nat, pc: Pc): State
    requires id in s.ops
  {
    s.(ops := s.ops[id := s.ops[id].(pc := pc)])
  }

  function TickStep(s: State, dt: nat): State { s.(now := s.now + dt) }

  function Done(s: State, id: nat): State { s.(ops := s.ops - {id}) }

  predicate Holds(pc: Pc) { !pc.Start? && !pc.Seen? && !pc.Leasing? }

  /** The manifest an operation holding the lease saved last. */
  function Tag(pc: Pc): Manifest
    requires Holds(pc)
  {
    match pc
    case Held(m) => m
    case Filling(m, _, _) => m
    case Extending(m, _) => m
    case Freezing(m, _) => m
    case Publishing(m) => m
    case Heading(m) => m
    case Recording(m, _) => m
    case Assembling(m, _) => m
    case Referring(m) => m
    case Settling(m, _) => m
    case Cleaning(m, _, _) => m
    case Deleting(m) => m
    case Releasing(m, _) => m
  }

  predicate RunCan(c: Config, s: State, id: nat, l: RunLabel) {
    match l
    case Begin(kind) => id !in s.ops
    case Read => InTime(s, id) && s.ops[id].pc.Start? && s.manifest.Some?
    case Lease(nonce) =>
      && InTime(s, id) && s.ops[id].pc.Seen? && nonce !in s.used
      && var m := s.ops[id].pc.m; (m.lease.Some? ==> m.leaseUntil <= s.now)
    case GiveUp =>
      && id in s.ops && Holds(s.ops[id].pc)
      && !s.ops[id].pc.Freezing? && !s.ops[id].pc.Recording? && !s.ops[id].pc.Settling?
    case Crash => id in s.ops
  }

  function RunStep(c: Config, s: State, id: nat, l: RunLabel): State
    requires RunCan(c, s, id, l)
  {
    match l
    case Begin(kind) => s.(ops := s.ops[id := Op(kind, s.now + c.timeout, Start)])
    case Read => SetPc(s, id, Seen(Current(s)))
    case Lease(nonce) =>
      var m := s.ops[id].pc.m;
      SetPc(s, id, Leasing(m, m.(lease := Some(nonce), leaseUntil := s.now + c.timeout))).(used := s.used + {nonce})
    case GiveUp =>
      var m := Tag(s.ops[id].pc);
      SetPc(s, id, Releasing(m, Unlease(m)))
    case Crash => Done(s, id)
  }

  /** A save under way: what it replaces, what it writes, and whether the
      operation's timeout bounds it. */
  datatype Write = Write(tag: Manifest, next: Manifest, bounded: bool)

  predicate Saves(pc: Pc) {
    pc.Leasing? || pc.Extending? || pc.Freezing? || pc.Recording? || pc.Settling? || pc.Releasing?
  }

  function WriteOf(pc: Pc): Write
    requires Saves(pc)
  {
    match pc
    case Leasing(prior, held) => Write(prior, held, true)
    case Extending(m, next) => Write(m, next, true)
    case Freezing(m, next) => Write(m, next, true)
    case Recording(m, next) => Write(m, next, true)
    case Settling(m, next) => Write(m, next, true)
    case Releasing(m, next) => Write(m, next, false)
  }

  /** A save lands only on the content it names; whether it landed or not, it may
      be reported as failed. */
  predicate SaveCan(s: State, id: nat, lands: bool, reported: bool) {
    && id in s.ops && Saves(s.ops[id].pc) && s.manifest.Some?
    && (reported ==> lands)
    && (lands ==>
          && Current(s) == WriteOf(s.ops[id].pc).tag
          && (WriteOf(s.ops[id].pc).bounded ==> InTime(s, id)))
  }

  /** Where an operation goes once a save of its own succeeded or failed. A
      failed save in a commit loses the tag, so its deferred release can only
      create a manifest that is there already: it does nothing. */
  function AfterSave(pc: Pc, reported: bool): Option<Pc>
    requires Saves(pc)
  {
    match pc
    case Leasing(_, held) => if reported then Some(Held(held)) else None
    case Extending(m, _) => if reported then None else Some(Releasing(m, Unlease(m)))
    case Freezing(_, next) => if reported then Some(Publishing(next)) else None
    case Recording(_, next) =>
      if !reported then None
      else if next.upload.Some? then Some(Assembling(next, 0))
      else Some(Releasing(next, Unlease(next)))
    case Settling(_, next) =>
      if reported && next.lease.Some? then Some(Releasing(next, Unlease(next))) else None
    case Releasing(_, _) => None
  }

  function SaveStep(s: State, id: nat, lands: bool, reported: bool): State
    requires SaveCan(s, id, lands, reported)
  {
    var op := s.ops[id];
    var pc := AfterSave(op.pc, reported);
    var s' := if pc.Some? then SetPc(s, id, pc.value) else Done(s, id);
    if !lands then s'
    else
      s'.(manifest := Some(WriteOf(op.pc).next),
      log := if op.pc.Extending? && op.kind.AppendOp? then s.log + [op.kind.input] else s.log)
  }

  /** The chunks an Append keeps, without a last chunk that is not full. */
  function KeptChunks(c: Config, chunks: seq<Chunk>): seq<Chunk> {
    if |chunks| > 0 && chunks[|chunks| - 1].size < c.partSize then chunks[..|chunks| - 1] else chunks
  }

  /** The bytes of the last chunk, if it is not full. */
  function Tail(c: Config, s: State, chunks: seq<Chunk>): Bytes {
    if |chunks| > 0 && chunks[|chunks| - 1].size < c.partSize then Content(s.written, chunks[|chunks| - 1]) else []
  }

  function PartLength(c: Config, rest: Bytes): int { if |rest| < c.partSize then |rest| else c.partSize }

  predicate FillCan(c: Config, s: State, id: nat, l: FillLabel) {
    && InTime(s, id) && s.ops[id].kind.AppendOp?
    && var pc := s.ops[id].pc;
       match l
       case StartFill =>
         && pc.Held? && pc.m.rec.phase.Active? && !pc.m.rec.Expired(s.now)
         && pc.m.rec.offset == s.ops[id].kind.expected
         && (KeptChunks(c, pc.m.chunks) != pc.m.chunks ==> pc.m.chunks[|pc.m.chunks| - 1].key in s.live)
       case PutChunk =>
         && pc.Filling? && pc.rest != [] && |pc.chunks| < MAX_PARTS && 0 < c.partSize && pc.m.lease.Some?
         && Key(pc.m.lease.value, |pc.chunks|) !in s.live
       case EndFill => pc.Filling? && pc.rest == []
  }

  function FillStep(c: Config, s: State, id: nat, l: FillLabel): State
    requires FillCan(c, s, id, l)
  {
    var pc := s.ops[id].pc;
    var input := s.ops[id].kind.input;
    match l
    case StartFill => SetPc(s, id, Filling(pc.m, KeptChunks(c, pc.m.chunks), Tail(c, s, pc.m.chunks) + input))
    case PutChunk =>
      var n := PartLength(c, pc.rest);
      var key := Key(pc.m.lease.value, |pc.chunks|);
      SetPc(s, id, Filling(pc.m, pc.chunks + [Chunk(key, n)], pc.rest[n..])).(
        live := s.live[key := s.now], written := s.written[key := pc.rest[..n]])
    case EndFill =>
      var checkpoint := c.h.feed(pc.m.rec.hash, input);
      var rec := pc.m.rec.(offset := pc.m.rec.offset + |input|, hash := checkpoint, expires := s.now + c.ttl);
      SetPc(s, id, Extending(pc.m, Unlease(pc.m.(rec := rec, chunks := pc.chunks))))
  }

  /** The receipt: what the marker that is there says, under the frozen digest. */
  function Receipt(m: Manifest, entry: Meta): Meta { Meta(m.rec.commit.digest, entry.size, entry.labels) }

  function Settled(c: Config, s: State, id: nat, m: Manifest, result: Meta): Pc
    requires id in s.ops
  {
    var next := m.(rec := m.rec.(phase := Committed, result := result, expires := s.now + c.retention));
    Settling(m, if s.ops[id].kind.AbortOp? then Unlease(next) else next)
  }

  function Parts(parts: map<int, Bytes>, n: nat): seq<Bytes>
    requires forall i | 0 <= i < n :: i in parts
  {
    seq(n, i requires 0 <= i < n => parts[i])
  }

  ghost predicate PublishCan(c: Config, s: State, id: nat, l: PublishLabel) {
    && InTime(s, id)
    && var op := s.ops[id];
       var pc := op.pc;
       match l
       case Freeze =>
         && op.kind.CommitOp? && pc.Held? && pc.m.rec.phase.Active? && !pc.m.rec.Expired(s.now)
         && pc.m.rec.PrepareCommit(c.h, op.kind.wanted).Ok?
       case Resume =>
         && pc.Held? && pc.m.rec.phase.Committing?
         && (op.kind.AbortOp?
             || (op.kind.CommitOp? && pc.m.rec.PrepareCommit(c.h, op.kind.wanted) == Ok(pc.m.rec.commit)))
       case Close => op.kind.AbortOp? && pc.Held? && pc.m.rec.phase.Active?
       case StatEntry => pc.Publishing?
       case HeadBlob => pc.Heading?
       case PutEmpty => pc.Assembling? && pc.m.rec.offset == 0
       case OpenUpload(u) => pc.Assembling? && pc.m.rec.offset != 0 && pc.m.upload == None && u !in s.uploads
       case CopyPart =>
         && pc.Assembling? && pc.m.upload.Some? && pc.m.upload.value in s.uploads
         && pc.copied < |pc.m.chunks| && pc.m.chunks[pc.copied].key in s.live
       case LostUpload =>
         && pc.Assembling? && pc.m.upload.Some? && pc.copied < |pc.m.chunks|
         && (pc.m.upload.value !in s.uploads || pc.m.chunks[pc.copied].key !in s.live)
       case Complete =>
         && pc.Assembling? && pc.m.rec.offset != 0 && pc.m.upload.Some? && pc.copied == |pc.m.chunks|
         && pc.m.upload.value in s.uploads
         && forall i | 0 <= i < |pc.m.chunks| :: i in s.uploads[pc.m.upload.value]
       case PutEntry => pc.Referring?
  }

  ghost function PublishStep(c: Config, s: State, id: nat, l: PublishLabel): State
    requires PublishCan(c, s, id, l)
  {
    var op := s.ops[id];
    var pc := op.pc;
    match l
    case Freeze =>
      var prepared := pc.m.rec.PrepareCommit(c.h, op.kind.wanted).value;
      SetPc(s, id, Freezing(pc.m, pc.m.(rec := pc.m.rec.(phase := Committing, commit := prepared))))
    case Resume => SetPc(s, id, Publishing(pc.m))
    case Close =>
      SetPc(s, id, Settling(pc.m, Unlease(pc.m.(rec := pc.m.rec.(phase := Aborted, expires := s.now + c.retention)))))
    case StatEntry =>
      if s.entry.Some? then SetPc(s, id, Settled(c, s, id, pc.m, Receipt(pc.m, s.entry.value)))
      else SetPc(s, id, Heading(pc.m))
    case HeadBlob => SetPc(s, id, if s.blob.Some? then Referring(pc.m) else Assembling(pc.m, 0))
    case PutEmpty => SetPc(s, id, Referring(pc.m)).(blob := Some([]))
    case OpenUpload(u) => SetPc(s, id, Recording(pc.m, pc.m.(upload := Some(u)))).(uploads := s.uploads[u := map[]])
    case CopyPart =>
      var u := pc.m.upload.value;
      SetPc(s, id, Assembling(pc.m, pc.copied + 1)).(
        uploads := s.uploads[u := s.uploads[u][pc.copied := Content(s.written, pc.m.chunks[pc.copied])]])
    case LostUpload => SetPc(s, id, Recording(pc.m, pc.m.(upload := None)))
    case Complete =>
      var u := pc.m.upload.value;
      SetPc(s, id, Referring(pc.m)).(
        blob := Some(Flatten(Parts(s.uploads[u], |pc.m.chunks|))), uploads := s.uploads - {u})
    case PutEntry =>
      var entry := if s.entry.Some? then s.entry.value else pc.m.rec.commit;
      SetPc(s, id, Settled(c, s, id, pc.m, Receipt(pc.m, entry))).(entry := Some(entry))
  }

  predicate Terminal(m: Manifest) { m.rec.phase.Committed? || m.rec.phase.Aborted? }

  predicate CleanCan(c: Config, s: State, id: nat, l: CleanLabel) {
    && InTime(s, id) && s.manifest.Some?
    && var op := s.ops[id];
       var pc := op.pc;
       match l
       case StartClean =>
         && pc.Held? && !pc.m.rec.phase.Committing?
         && (op.kind.PruneOp? || (op.kind.CleanOp? && Terminal(pc.m)))
       case DeleteChunk(k) =>
         && pc.Cleaning? && k in pc.objects && k in s.live
         && (Terminal(pc.m) || pc.expired || (k !in Keys(pc.m.chunks) && s.live[k] < s.now - c.timeout))
       // A delete that fails ends the cleanup in GiveUp.
       case EndClean => pc.Cleaning? && (Terminal(pc.m) || pc.expired ==> pc.objects !! s.live.Keys)
       case DeleteManifest => pc.Deleting? && Current(s) == pc.m
  }

  function CleanStep(c: Config, s: State, id: nat, l: CleanLabel): State
    requires CleanCan(c, s, id, l)
  {
    var op := s.ops[id];
    var pc := op.pc;
    match l
    case StartClean =>
      var objects := if op.kind.PruneOp? then op.kind.listed else s.live.Keys;
      SetPc(s, id, Cleaning(pc.m, objects, op.kind.PruneOp? && pc.m.rec.Expired(s.now)))
    case DeleteChunk(k) => s.(live := s.live - {k})
    case EndClean =>
      if pc.expired then SetPc(s, id, Deleting(pc.m))
      else SetPc(s, id, Releasing(pc.m, Unlease(pc.m)))
    case DeleteManifest => Done(s, id).(manifest := None)
  }

  predicate Frozen(m: Manifest) { m.rec.phase.Committing? || m.rec.phase.Committed? }

  predicate WorldCan(c: Config, s: State, l: WorldLabel) {
    match l
    // Whoever writes a marker writes the size of the bytes of its digest into it.
    case SetEntry(m) => s.manifest.Some? && Frozen(Current(s)) && m.size == Current(s).rec.commit.size
    case EraseEntry => true
    case SetBlob(bytes) => s.manifest.Some? && Frozen(Current(s)) && c.h.DigestOf(bytes) == Current(s).rec.commit.digest
    case DropBlob => true
    case AbortUpload(u) => true
  }

  function WorldStep(c: Config, s: State, l: WorldLabel): State
    requires WorldCan(c, s, l)
  {
    match l
    case SetEntry(m) => s.(entry := Some(m))
    case EraseEntry => s.(entry := None)
    case SetBlob(bytes) => s.(blob := Some(bytes))
    case DropBlob => s.(blob := None)
    case AbortUpload(u) => s.(uploads := s.uploads - {u})
  }

  ghost predicate Enabled(c: Config, s: State, l: Label) {
    && s.manifest.Some?
    && match l
       case Tick(_) => true
       case Drive(id, x) => RunCan(c, s, id, x)
       case Save(id, lands, reported) => SaveCan(s, id, lands, reported)
       case Fill(id, x) => FillCan(c, s, id, x)
       case Publish(id, x) => PublishCan(c, s, id, x)
       case Clean(id, x) => CleanCan(c, s, id, x)
       case World(x) => WorldCan(c, s, x)
  }

  ghost function Apply(c: Config, s: State, l: Label): State
    requires Enabled(c, s, l)
  {
    match l
    case Tick(dt) => TickStep(s, dt)
    case Drive(id, x) => RunStep(c, s, id, x)
    case Save(id, lands, reported) => SaveStep(s, id, lands, reported)
    case Fill(id, x) => FillStep(c, s, id, x)
    case Publish(id, x) => PublishStep(c, s, id, x)
    case Clean(id, x) => CleanStep(c, s, id, x)
    case World(x) => WorldStep(c, s, x)
  }

  /** Begin has written the first manifest. */
  function Init(c: Config, now: int): State {
    State(now, Some(Manifest(NewRecord(c.h, now + c.ttl), [], None, 0, None)),
          map[], map[], {}, [], map[], None, None, map[])
  }
}
