/** The S3 two-phase sweep against in-flight Adds.

    One bucket, a clock that never goes back, any number of Adds and Erases, and
    one sweeper that may stop after any request. Every request is one step, and
    the two requests that put a blob aside (copy to trash/, delete blob/) are
    two steps that anything may run between. No lock exists in this protocol;
    what protects it is time. */
module S3Reclaim {
  import opened Hashing

  type Namespace = string
  type AddId = nat

  /** A reference marker's key: the digest and the namespace it is in. */
  datatype Key = Key(d: Digest, ns: Namespace)

  /** An object's bytes and its LastModified. */
  datatype Object = Object(bytes: Bytes, modified: int)

  /** When the Add that wrote a marker last asked for the blob, and when it
      wrote the marker. The bucket keeps only the marker; the times are history. */
  datatype Marker = Marker(seen: int, written: int)

  /** Where an Add is. `seen` is the time of its last HEAD of the blob key. */
  datatype AddPc =
    | CheckRef
    | HeadBlob
    | Verify(seen: int)   // the blob was there: read the input only to check it
    | Upload(seen: int)   // it was not: upload the input
    | PutRef(seen: int)   // the bytes are in the bucket: write the marker

  datatype Add = Add(d: Digest, ns: Namespace, input: Bytes, pc: AddPc)

  /** What a sweep carries from its first listing on: when it started, and the
      digests that listing found referenced. */
  datatype Plan = Plan(started: int, live: set<Digest>)

  /** Where a listing is: keys it still owes, and listed entries with the
      LastModified the page gave them. */
  datatype Listing = Listing(owed: set<Digest>, page: map<Digest, int>)

  datatype Sweep =
    | Idle(completed: bool)
      // Markers present from the start, and markers present at some time since.
    | ListRefs(started: int, must: set<Key>, may: set<Key>)
    | Trash(plan: Plan, todo: Listing)
    | TrashHead(plan: Plan, todo: Listing, d: Digest)
    | TrashRestore(plan: Plan, todo: Listing, d: Digest)
    | TrashDrop(plan: Plan, todo: Listing, d: Digest)
    | Blobs(plan: Plan, todo: Listing)
    | BlobDrop(plan: Plan, todo: Listing, d: Digest)

  datatype State = State(
    now: int,
    blob: map<Digest, Object>,
    trash: map<Digest, Object>,
    refs: map<Key, Marker>,
    adds: map<AddId, Add>,
    sweep: Sweep)

  /** `addTime` bounds an Add from its last HEAD of the blob to its marker;
      `dropTime` bounds a put-aside from the trash copy's LastModified to the
      delete of blob/. */
  datatype Config = Config(h: Hasher, grace: int, addTime: int, dropTime: int) {
    predicate Valid() { grace > 0 && addTime >= 0 && dropTime >= 0 }

    /** Old enough for a sweep that started at `started` to act on. */
    predicate Old(started: int, modified: int) { modified < started - grace }
  }

  /** A step of the clock, an Add or an Erase. */
  datatype ClientLabel =
    | Tick(dt: nat)
    | AddBegin(id: AddId, d: Digest, ns: Namespace, input: Bytes)
    | AddCheckRef(id: AddId)
    | AddHead(id: AddId)
    | AddHeadAgain(id: AddId)            // spool asks once more before uploading
    | AddVerify(id: AddId)
    | AddUpload(id: AddId, modified: int)
    | AddPutRef(id: AddId)
    | AddFail(id: AddId)
    | Erase(d: Digest, ns: Namespace)

  /** A step of the sweeper. */
  datatype SweepLabel =
    | SweepStart
    | RefsListed(found: set<Key>)
    | TrashPage(keys: set<Digest>)
    | TrashSkip(d: Digest)               // not old enough
    | TrashLive(d: Digest)               // old, and something references it
    | TrashDead(d: Digest)               // old, and nothing does
    | TrashHeadBlob
    | TrashCopyBack(modified: int)
    | TrashDelete
    | TrashDone
    | BlobPage(keys: set<Digest>)
    | BlobSkip(d: Digest)
    | BlobCopy(d: Digest, modified: int)
    | BlobDelete
    | SweepDone
    | SweepStop

  datatype Label = Client(client: ClientLabel) | Sweeper(sweeper: SweepLabel)

  function Init(now: int): State {
    State(now, map[], map[], map[], map[], Idle(false))
  }

  /** One more page of a listing of `objects`: any keys still unlisted. */
  function Page(todo: Listing, objects: map<Digest, Object>, keys: set<Digest>): Listing
    requires keys <= objects.Keys
  {
    Listing(todo.owed - keys, todo.page + map d | d in keys :: objects[d].modified)
  }

  function Processed(todo: Listing, d: Digest): Listing {
    todo.(page := todo.page - {d})
  }

  /** Which steps the code can take in which state. */
  predicate ClientCan(c: Config, s: State, l: ClientLabel) {
    match l
    case Tick(_) => true
    case AddBegin(id, _, _, _) => id !in s.adds
    case AddCheckRef(id) => id in s.adds && s.adds[id].pc.CheckRef?
    case AddHead(id) => id in s.adds && s.adds[id].pc.HeadBlob?
    case AddHeadAgain(id) => id in s.adds && s.adds[id].pc.Upload?
    case AddVerify(id) => id in s.adds && s.adds[id].pc.Verify?
    case AddUpload(id, modified) =>
      && id in s.adds && s.adds[id].pc.Upload?
      && c.h.DigestOf(s.adds[id].input) == s.adds[id].d && modified <= s.now
    case AddPutRef(id) =>
      && id in s.adds && s.adds[id].pc.PutRef?
      && s.now <= s.adds[id].pc.seen + c.addTime
    case AddFail(id) => id in s.adds
    case Erase(_, _) => true
  }

  predicate SweeperCan(c: Config, s: State, l: SweepLabel) {
    match l
    case SweepStart => s.sweep.Idle?
    case RefsListed(found) => s.sweep.ListRefs? && s.sweep.must <= found <= s.sweep.may
    case TrashPage(keys) => s.sweep.Trash? && keys <= s.sweep.todo.owed && keys <= s.trash.Keys
    case TrashSkip(d) =>
      && s.sweep.Trash? && d in s.sweep.todo.page
      && !c.Old(s.sweep.plan.started, s.sweep.todo.page[d])
    case TrashLive(d) =>
      && s.sweep.Trash? && d in s.sweep.todo.page
      && c.Old(s.sweep.plan.started, s.sweep.todo.page[d]) && d in s.sweep.plan.live
    case TrashDead(d) =>
      && s.sweep.Trash? && d in s.sweep.todo.page
      && c.Old(s.sweep.plan.started, s.sweep.todo.page[d]) && d !in s.sweep.plan.live
    case TrashHeadBlob => s.sweep.TrashHead?
    case TrashCopyBack(modified) => s.sweep.TrashRestore? && s.sweep.d in s.trash && modified <= s.now
    case TrashDelete => s.sweep.TrashDrop?
    case TrashDone => s.sweep.Trash? && s.sweep.todo.owed == {} && s.sweep.todo.page == map[]
    case BlobPage(keys) => s.sweep.Blobs? && keys <= s.blob.Keys
    case BlobSkip(d) =>
      && s.sweep.Blobs? && d in s.sweep.todo.page
      && (d in s.sweep.plan.live || !c.Old(s.sweep.plan.started, s.sweep.todo.page[d]))
    case BlobCopy(d, modified) =>
      && s.sweep.Blobs? && d in s.sweep.todo.page && d in s.blob && modified <= s.now
      && d !in s.sweep.plan.live && c.Old(s.sweep.plan.started, s.sweep.todo.page[d])
    case BlobDelete =>
      && s.sweep.BlobDrop?
      && (s.sweep.d in s.trash ==> s.now <= s.trash[s.sweep.d].modified + c.dropTime)
    case SweepDone => s.sweep.Blobs? && s.sweep.todo.owed == {} && s.sweep.todo.page == map[]
    case SweepStop => !s.sweep.Idle?
  }

  function SetPc(s: State, id: AddId, pc: AddPc): State
    requires id in s.adds
  {
    s.(adds := s.adds[id := s.adds[id].(pc := pc)])
  }

  function DropAdd(s: State, id: AddId): State { s.(adds := s.adds - {id}) }

  /** The state after a step of a client. */
  function ClientStep(c: Config, s: State, l: ClientLabel): State
    requires ClientCan(c, s, l)
  {
    match l
    case Tick(dt) => s.(now := s.now + dt)
    case AddBegin(id, d, ns, input) => s.(adds := s.adds[id := Add(d, ns, input, CheckRef)])
    case AddCheckRef(id) =>
      var a := s.adds[id];
      if Key(a.d, a.ns) in s.refs then DropAdd(s, id) else SetPc(s, id, HeadBlob)
    case AddHead(id) =>
      SetPc(s, id, if s.adds[id].d in s.blob then Verify(s.now) else Upload(s.now))
    case AddHeadAgain(id) => SetPc(s, id, HeadBlob)
    case AddVerify(id) =>
      var a := s.adds[id];
      if c.h.DigestOf(a.input) == a.d then SetPc(s, id, PutRef(a.pc.seen)) else DropAdd(s, id)
    case AddUpload(id, modified) =>
      var a := s.adds[id];
      SetPc(s, id, PutRef(a.pc.seen)).(blob := s.blob[a.d := Object(a.input, modified)])
    case AddPutRef(id) =>
      var a := s.adds[id];
      var key := Key(a.d, a.ns);
      DropAdd(s, id).(
        refs := s.refs[key := Marker(a.pc.seen, s.now)],
        sweep := if s.sweep.ListRefs? then s.sweep.(may := s.sweep.may + {key}) else s.sweep)
    case AddFail(id) => DropAdd(s, id)
    case Erase(d, ns) =>
      s.(refs := s.refs - {Key(d, ns)},
         sweep := if s.sweep.ListRefs? then s.sweep.(must := s.sweep.must - {Key(d, ns)}) else s.sweep)
  }

  /** The state after a step of the sweeper. */
  function SweeperStep(c: Config, s: State, l: SweepLabel): State
    requires SweeperCan(c, s, l)
  {
    match l
    case SweepStart => s.(sweep := ListRefs(s.now, s.refs.Keys, s.refs.Keys))
    case RefsListed(found) =>
      s.(sweep := Trash(Plan(s.sweep.started, set k | k in found :: k.d), Listing(s.trash.Keys, map[])))
    case TrashPage(keys) => s.(sweep := Trash(s.sweep.plan, Page(s.sweep.todo, s.trash, keys)))
    case TrashSkip(d) => s.(sweep := Trash(s.sweep.plan, Processed(s.sweep.todo, d)))
    case TrashLive(d) => s.(sweep := TrashHead(s.sweep.plan, Processed(s.sweep.todo, d), d))
    case TrashDead(d) => s.(sweep := TrashDrop(s.sweep.plan, Processed(s.sweep.todo, d), d))
    case TrashHeadBlob =>
      var w := s.sweep;
      s.(sweep := if w.d in s.blob then TrashDrop(w.plan, w.todo, w.d) else TrashRestore(w.plan, w.todo, w.d))
    case TrashCopyBack(modified) =>
      var w := s.sweep;
      s.(blob := s.blob[w.d := Object(s.trash[w.d].bytes, modified)], sweep := TrashDrop(w.plan, w.todo, w.d))
    case TrashDelete => s.(trash := s.trash - {s.sweep.d}, sweep := Trash(s.sweep.plan, s.sweep.todo))
    case TrashDone => s.(sweep := Blobs(s.sweep.plan, Listing(s.blob.Keys, map[])))
    case BlobPage(keys) => s.(sweep := Blobs(s.sweep.plan, Page(s.sweep.todo, s.blob, keys)))
    case BlobSkip(d) => s.(sweep := Blobs(s.sweep.plan, Processed(s.sweep.todo, d)))
    case BlobCopy(d, modified) =>
      s.(trash := s.trash[d := Object(s.blob[d].bytes, modified)],
         sweep := BlobDrop(s.sweep.plan, Processed(s.sweep.todo, d), d))
    case BlobDelete => s.(blob := s.blob - {s.sweep.d}, sweep := Blobs(s.sweep.plan, s.sweep.todo))
    case SweepDone => s.(sweep := Idle(true))
    case SweepStop => s.(sweep := Idle(false))
  }

  predicate Enabled(c: Config, s: State, l: Label) {
    match l
    case Client(a) => ClientCan(c, s, a)
    case Sweeper(w) => SweeperCan(c, s, w)
  }

  function Apply(c: Config, s: State, l: Label): State
    requires Enabled(c, s, l)
  {
    match l
    case Client(a) => ClientStep(c, s, a)
    case Sweeper(w) => SweeperStep(c, s, w)
  }

  /** `run` is a run of the protocol: each state follows from the one before. */
  ghost predicate Step(c: Config, s: State, s': State) {
    exists l :: Enabled(c, s, l) && s' == Apply(c, s, l)
  }

  ghost predicate StepAt(c: Config, run: seq<State>, i: nat)
    requires i + 1 < |run|
  {
    Step(c, run[i], run[i + 1])
  }

  ghost predicate Run(c: Config, run: seq<State>) {
    && |run| > 0
    && forall i: nat :: i + 1 < |run| ==> StepAt(c, run, i)
  }

  ghost predicate Reachable(c: Config, s: State) {
    exists run: seq<State> :: Run(c, run) && run[0] == Init(run[0].now) && run[|run| - 1] == s
  }

  // ---------------------------------------------------------------- safety

  /** The bytes of d can be read: under blob/ or, failing that, under trash/. */
  predicate Held(c: Config, s: State, d: Digest) {
    || (d in s.blob && c.h.DigestOf(s.blob[d].bytes) == d)
    || (d in s.trash && c.h.DigestOf(s.trash[d].bytes) == d)
  }

  /** Every reference has its bytes. */
  predicate Safe(c: Config, s: State) {
    forall k <- s.refs.Keys :: Held(c, s, k.d)
  }

  /** An Add that will not upload d (any more) and goes on to reference it. */
  predicate Counts(a: Add) { a.pc.Verify? || a.pc.PutRef? }

  predicate TimesOk(c: Config, s: State) {
    && (forall k <- s.refs.Keys :: s.refs[k].seen <= s.refs[k].written <= s.now)
    && (forall k <- s.refs.Keys :: s.refs[k].written <= s.refs[k].seen + c.addTime)
    && (forall id <- s.adds.Keys :: Counts(s.adds[id]) || s.adds[id].pc.Upload? ==> s.adds[id].pc.seen <= s.now)
  }

  predicate ContentOk(c: Config, s: State) {
    && (forall d <- s.blob.Keys :: c.h.DigestOf(s.blob[d].bytes) == d)
    && (forall d <- s.trash.Keys :: c.h.DigestOf(s.trash[d].bytes) == d)
  }

  /** References, and Adds still in time to write one, have their bytes. */
  predicate ClaimsHeld(c: Config, s: State) {
    && (forall k <- s.refs.Keys :: k.d in s.blob || k.d in s.trash)
    && (forall id <- s.adds.Keys ::
          Counts(s.adds[id]) && s.now <= s.adds[id].pc.seen + c.addTime ==>
            s.adds[id].d in s.blob || s.adds[id].d in s.trash)
  }

  /** While only trash/ holds d, everyone counting on it asked before blob/ went. */
  predicate AsideOk(c: Config, s: State) {
    && (forall k <- s.refs.Keys :: k.d in s.trash && k.d !in s.blob ==>
          s.refs[k].seen <= s.trash[k.d].modified + c.dropTime)
    && (forall id <- s.adds.Keys :: Counts(s.adds[id]) && s.adds[id].d in s.trash && s.adds[id].d !in s.blob ==>
          s.adds[id].pc.seen <= s.trash[s.adds[id].d].modified + c.dropTime)
  }

  /** What the sweeper's place in the code guarantees. A marker it has missed was
      written after it started. */
  predicate SweepOk(c: Config, s: State) {
    match s.sweep
    case Idle(_) => true
    case ListRefs(started, must, _) =>
      started <= s.now && forall k <- s.refs.Keys :: k in must || s.refs[k].written >= started
    case Trash(plan, todo) => PlanOk(s, plan) && TrashPageOk(s, todo)
    case TrashHead(plan, todo, d) => PlanOk(s, plan) && TrashPageOk(s, todo) && d in s.trash && d !in todo.page
    case TrashRestore(plan, todo, d) => PlanOk(s, plan) && TrashPageOk(s, todo) && d in s.trash && d !in todo.page
    case TrashDrop(plan, todo, d) =>
      && PlanOk(s, plan) && TrashPageOk(s, todo) && d in s.trash && d !in todo.page
      && (d in s.blob || (d !in plan.live && c.Old(plan.started, s.trash[d].modified)))
    case Blobs(plan, _) => PlanOk(s, plan)
    case BlobDrop(plan, _, d) => PlanOk(s, plan) && d in s.trash
  }

  predicate PlanOk(s: State, plan: Plan) {
    && plan.started <= s.now
    && forall k <- s.refs.Keys :: k.d in plan.live || s.refs[k].written >= plan.started
  }

  predicate TrashPageOk(s: State, todo: Listing) {
    forall d <- todo.page.Keys :: d in s.trash && s.trash[d].modified == todo.page[d]
  }

  predicate Inv(c: Config, s: State) {
    TimesOk(c, s) && ContentOk(c, s) && ClaimsHeld(c, s) && AsideOk(c, s) && SweepOk(c, s)
  }

  lemma InvClientStep(c: Config, s: State, l: ClientLabel)
    requires Inv(c, s) && ClientCan(c, s, l)
    ensures Inv(c, ClientStep(c, s, l))
  {
    var s' := ClientStep(c, s, l);
    TimesClientStep(c, s, l);
    ContentClientStep(c, s, l);
    ClaimsClientStep(c, s, l);
    AsideClientStep(c, s, l);
    if l.AddPutRef? || l.Erase? {
      SweepOkMarkerStep(c, s, l);
    } else {
      SweepOkFrame(c, s, s');
    }
  }

  lemma TimesClientStep(c: Config, s: State, l: ClientLabel)
    requires TimesOk(c, s) && ClientCan(c, s, l)
    ensures TimesOk(c, ClientStep(c, s, l))
  {
  }

  lemma ContentClientStep(c: Config, s: State, l: ClientLabel)
    requires ContentOk(c, s) && ClientCan(c, s, l)
    ensures ContentOk(c, ClientStep(c, s, l))
  {
  }

  lemma ClaimsClientStep(c: Config, s: State, l: ClientLabel)
    requires TimesOk(c, s) && ClaimsHeld(c, s) && ClientCan(c, s, l)
    ensures ClaimsHeld(c, ClientStep(c, s, l))
  {
  }

  lemma AsideClientStep(c: Config, s: State, l: ClientLabel)
    requires AsideOk(c, s) && ClientCan(c, s, l)
    ensures AsideOk(c, ClientStep(c, s, l))
  {
  }

  lemma SweepOkMarkerStep(c: Config, s: State, l: ClientLabel)
    requires SweepOk(c, s) && ClientCan(c, s, l) && (l.AddPutRef? || l.Erase?)
    ensures SweepOk(c, ClientStep(c, s, l))
  {
  }

  lemma SweepOkFrame(c: Config, s: State, s': State)
    requires SweepOk(c, s)
    requires s'.sweep == s.sweep && s'.trash == s.trash && s'.refs == s.refs
    requires s.blob.Keys <= s'.blob.Keys && s.now <= s'.now
    ensures SweepOk(c, s')
  {
  }

  /** A trash copy goes for good only when nobody counts on it: whoever asked
      before blob/ went has written its marker before this sweep started, and
      the sweep's listing would have found it. */
  lemma DropIsSafe(c: Config, s: State)
    requires c.Valid() && c.addTime + c.dropTime <= c.grace
    requires Inv(c, s) && s.sweep.TrashDrop? && s.sweep.d !in s.blob
    ensures forall k <- s.refs.Keys :: k.d != s.sweep.d
    ensures forall id <- s.adds.Keys :: Counts(s.adds[id]) && s.adds[id].d == s.sweep.d ==>
              s.now > s.adds[id].pc.seen + c.addTime
  {
  }

  lemma SweepOkSweeperStep(c: Config, s: State, l: SweepLabel)
    requires SweepOk(c, s) && SweeperCan(c, s, l)
    ensures SweepOk(c, SweeperStep(c, s, l))
  {
  }

  lemma ContentSweeperStep(c: Config, s: State, l: SweepLabel)
    requires ContentOk(c, s) && SweeperCan(c, s, l)
    ensures ContentOk(c, SweeperStep(c, s, l))
  {
  }

  lemma AsideSweeperStep(c: Config, s: State, l: SweepLabel)
    requires TimesOk(c, s) && AsideOk(c, s) && SweeperCan(c, s, l)
    ensures AsideOk(c, SweeperStep(c, s, l))
  {
  }

  lemma ClaimsSweeperStep(c: Config, s: State, l: SweepLabel)
    requires c.Valid() && c.addTime + c.dropTime <= c.grace
    requires Inv(c, s) && SweeperCan(c, s, l)
    ensures ClaimsHeld(c, SweeperStep(c, s, l))
  {
    if l.TrashDelete? && s.sweep.d !in s.blob { DropIsSafe(c, s); }
  }

  lemma InvSweeperStep(c: Config, s: State, l: SweepLabel)
    requires c.Valid() && c.addTime + c.dropTime <= c.grace
    requires Inv(c, s) && SweeperCan(c, s, l)
    ensures Inv(c, SweeperStep(c, s, l))
  {
    SweepOkSweeperStep(c, s, l);
    ContentSweeperStep(c, s, l);
    AsideSweeperStep(c, s, l);
    ClaimsSweeperStep(c, s, l);
  }

  lemma InvStep(c: Config, s: State, l: Label)
    requires c.Valid() && c.addTime + c.dropTime <= c.grace
    requires Inv(c, s) && Enabled(c, s, l)
    ensures Inv(c, Apply(c, s, l))
  {
    match l
    case Client(a) => InvClientStep(c, s, a);
    case Sweeper(w) => InvSweeperStep(c, s, w);
  }

  lemma {:induction false} RunInv(c: Config, run: seq<State>, i: nat)
    requires c.Valid() && c.addTime + c.dropTime <= c.grace
    requires Run(c, run) && run[0] == Init(run[0].now) && i < |run|
    ensures Inv(c, run[i])
  {
    if i > 0 {
      RunInv(c, run, i - 1);
      assert StepAt(c, run, i - 1);
      var l :| Enabled(c, run[i - 1], l) && run[i] == Apply(c, run[i - 1], l);
      InvStep(c, run[i - 1], l);
    }
  }

  /** In every reachable state every reference has its bytes under blob/ or
      trash/, if an Add and a put-aside together fit in the grace. */
  lemma ReclaimSafe(c: Config, s: State)
    requires c.Valid() && c.addTime + c.dropTime <= c.grace && Reachable(c, s)
    ensures Safe(c, s)
  {
    var run: seq<State> :| Run(c, run) && run[0] == Init(run[0].now) && run[|run| - 1] == s;
    RunInv(c, run, |run| - 1);
  }

  // ------------------------------------------------- the bound is the exact one

  lemma Extend(c: Config, s: State, l: Label)
    requires Reachable(c, s) && Enabled(c, s, l)
    ensures Reachable(c, Apply(c, s, l))
  {
    var run: seq<State> :| Run(c, run) && run[0] == Init(run[0].now) && run[|run| - 1] == s;
    var s' := Apply(c, s, l);
    var run' := run + [s'];
    assert Step(c, s, s');
    forall i: nat | i + 1 < |run'| ensures StepAt(c, run', i) {
      if i + 1 < |run| { assert StepAt(c, run, i); }
    }
    assert Run(c, run') && run'[0] == Init(run'[0].now) && run'[|run'| - 1] == s';
  }

  lemma InitReachable(c: Config)
    ensures Reachable(c, Init(0))
  {
    var run := [Init(0)];
    assert Run(c, run) && run[0] == Init(run[0].now) && run[|run| - 1] == Init(0);
  }

  lemma Go(c: Config, s: State, l: Label, s': State)
    requires Reachable(c, s) && Enabled(c, s, l) && s' == Apply(c, s, l)
    ensures Reachable(c, s')
  {
    Extend(c, s, l);
  }

  lemma AddedBlob(c: Config, d: Digest, s: State)
    requires d == c.h.DigestOf([]) && Reachable(c, s)
    requires s == Init(0).(adds := map[0 := Add(d, "a", [], Upload(0))])
    ensures Reachable(c, Init(0).(adds := map[0 := Add(d, "a", [], PutRef(0))], blob := map[d := Object([], 0)]))
  {
    Go(c, s, Client(AddUpload(0, 0)),
       Init(0).(adds := map[0 := Add(d, "a", [], PutRef(0))], blob := map[d := Object([], 0)]));
  }

  /** Someone adds the empty blob d at time 0 and erases it again. */
  lemma ErasedBlob(c: Config, d: Digest)
    requires c.Valid() && d == c.h.DigestOf([])
    ensures Reachable(c, State(0, map[d := Object([], 0)], map[], map[], map[], Idle(false)))
  {
    InitReachable(c);
    var s := Init(0);
    var a := Add(d, "a", [], CheckRef);
    var s1 := s.(adds := map[0 := a]);
    assert Reachable(c, s1) by { Go(c, s, Client(AddBegin(0, d, "a", [])), s1); }
    var s2 := s.(adds := map[0 := a.(pc := HeadBlob)]);
    assert Reachable(c, s2) by { Go(c, s1, Client(AddCheckRef(0)), s2); }
    var s3 := s.(adds := map[0 := a.(pc := Upload(0))]);
    assert Reachable(c, s3) by { Go(c, s2, Client(AddHead(0)), s3); }
    AddedBlob(c, d, s3);
    var s4 := s.(adds := map[0 := a.(pc := PutRef(0))], blob := map[d := Object([], 0)]);
    var s5 := s4.(adds := map[], refs := map[Key(d, "a") := Marker(0, 0)]);
    assert Reachable(c, s5) by { Go(c, s4, Client(AddPutRef(0)), s5); }
    Go(c, s5, Client(Erase(d, "a")), s4.(adds := map[]));
  }

  /** Later, a sweep has listed d as old and unreferenced while another Add has
      checked its own marker and not yet asked for the blob. */
  lemma ListedBlob(c: Config, d: Digest)
    requires c.Valid() && d == c.h.DigestOf([])
    ensures var t := c.grace + 1;
            Reachable(c, State(t, map[d := Object([], 0)], map[], map[], map[1 := Add(d, "b", [], HeadBlob)],
                               Blobs(Plan(t, {}), Listing({d}, map[]))))
  {
    ErasedBlob(c, d);
    var t := c.grace + 1;
    var s := State(0, map[d := Object([], 0)], map[], map[], map[], Idle(false));
    var s1 := s.(now := t);
    assert Reachable(c, s1) by { Go(c, s, Client(Tick(t)), s1); }
    var s2 := s1.(adds := map[1 := Add(d, "b", [], CheckRef)]);
    assert Reachable(c, s2) by { Go(c, s1, Client(AddBegin(1, d, "b", [])), s2); }
    var s3 := s1.(adds := map[1 := Add(d, "b", [], HeadBlob)]);
    assert Reachable(c, s3) by { Go(c, s2, Client(AddCheckRef(1)), s3); }
    var s4 := s3.(sweep := ListRefs(t, {}, {}));
    assert Reachable(c, s4) by { assert s3.refs.Keys == {}; Go(c, s3, Sweeper(SweepStart), s4); }
    var s5 := s3.(sweep := Trash(Plan(t, {}), Listing({}, map[])));
    assert Reachable(c, s5) by {
      assert SweeperStep(c, s4, RefsListed({})).sweep.plan.live == {};
      Go(c, s4, Sweeper(RefsListed({})), s5);
    }
    var s6 := s3.(sweep := Blobs(Plan(t, {}), Listing({d}, map[])));
    assert SweeperStep(c, s5, TrashDone).sweep.todo.owed == {d};
    Go(c, s5, Sweeper(TrashDone), s6);
  }

  /** The sweep copies d aside; the Add sees blob/ before the sweep removes it. */
  lemma SeenWhilePutAside(c: Config, d: Digest, w: nat)
    requires c.Valid() && d == c.h.DigestOf([]) && w <= c.dropTime
    ensures var t := c.grace + 1;
            Reachable(c, State(t + w, map[d := Object([], 0)], map[d := Object([], t)], map[],
                               map[1 := Add(d, "b", [], Verify(t + w))],
                               BlobDrop(Plan(t, {}), Listing({}, map[]), d)))
  {
    ListedBlob(c, d);
    var t := c.grace + 1;
    var plan := Plan(t, {});
    var s := State(t, map[d := Object([], 0)], map[], map[], map[1 := Add(d, "b", [], HeadBlob)],
                   Blobs(plan, Listing({d}, map[])));
    var s1 := s.(sweep := Blobs(plan, Listing({}, map[d := 0])));
    assert Reachable(c, s1) by {
      var todo := SweeperStep(c, s, BlobPage({d})).sweep.todo;
      assert todo.owed == {} && todo.page == map[d := 0];
      Go(c, s, Sweeper(BlobPage({d})), s1);
    }
    var s2 := s.(trash := map[d := Object([], t)], sweep := BlobDrop(plan, Listing({}, map[]), d));
    assert Reachable(c, s2) by { Go(c, s1, Sweeper(BlobCopy(d, t)), s2); }
    var s3 := s2.(now := t + w);
    assert Reachable(c, s3) by { Go(c, s2, Client(Tick(w)), s3); }
    Go(c, s3, Client(AddHead(1)), s3.(adds := map[1 := Add(d, "b", [], Verify(t + w))]));
  }

  lemma OnlyInTrash(c: Config, d: Digest, w: nat)
    requires c.Valid() && d == c.h.DigestOf([]) && w <= c.dropTime && w <= c.grace + 1
    ensures var t := c.grace + 1;
            Reachable(c, State(t + t, map[], map[d := Object([], t)], map[],
                               map[1 := Add(d, "b", [], PutRef(t + w))], Idle(true)))
  {
    SeenWhilePutAside(c, d, w);
    var t := c.grace + 1;
    var s := State(t + w, map[d := Object([], 0)], map[d := Object([], t)], map[],
                   map[1 := Add(d, "b", [], Verify(t + w))], BlobDrop(Plan(t, {}), Listing({}, map[]), d));
    var s1 := s.(adds := map[1 := Add(d, "b", [], PutRef(t + w))]);
    assert Reachable(c, s1) by { Go(c, s, Client(AddVerify(1)), s1); }
    var s2 := s1.(blob := map[], sweep := Blobs(Plan(t, {}), Listing({}, map[])));
    assert Reachable(c, s2) by { Go(c, s1, Sweeper(BlobDelete), s2); }
    var s3 := s2.(sweep := Idle(true));
    assert Reachable(c, s3) by { Go(c, s2, Sweeper(SweepDone), s3); }
    Go(c, s3, Client(Tick(t - w)), s3.(now := t + t));
  }

  /** The next sweep finds the trash copy old and no marker. */
  lemma FoundOldInTrash(c: Config, d: Digest, w: nat)
    requires c.Valid() && d == c.h.DigestOf([]) && w <= c.dropTime && w <= c.grace + 1
    ensures var t := c.grace + 1;
            Reachable(c, State(t + t, map[], map[d := Object([], t)], map[],
                               map[1 := Add(d, "b", [], PutRef(t + w))],
                               Trash(Plan(t + t, {}), Listing({}, map[d := t]))))
  {
    OnlyInTrash(c, d, w);
    var t := c.grace + 1;
    var s := State(t + t, map[], map[d := Object([], t)], map[],
                   map[1 := Add(d, "b", [], PutRef(t + w))], Idle(true));
    var s1 := s.(sweep := ListRefs(t + t, {}, {}));
    assert Reachable(c, s1) by { assert s.refs.Keys == {}; Go(c, s, Sweeper(SweepStart), s1); }
    var s2 := s.(sweep := Trash(Plan(t + t, {}), Listing({d}, map[])));
    assert Reachable(c, s2) by {
      assert SweeperStep(c, s1, RefsListed({})).sweep.plan.live == {};
      Go(c, s1, Sweeper(RefsListed({})), s2);
    }
    var todo := SweeperStep(c, s2, TrashPage({d})).sweep.todo;
    assert todo.owed == {} && todo.page == map[d := t];
    Go(c, s2, Sweeper(TrashPage({d})), s.(sweep := Trash(Plan(t + t, {}), Listing({}, map[d := t]))));
  }

  /** If an Add and a put-aside may together exceed the grace, a run loses the
      bytes of a reference: the sweep drops the last copy, and the Add that saw
      the blob writes its marker afterwards. */
  lemma ReclaimLoses(c: Config) returns (s: State)
    requires c.Valid() && c.addTime + c.dropTime > c.grace
    ensures Reachable(c, s) && !Safe(c, s)
  {
    var d := c.h.DigestOf([]);
    var t := c.grace + 1;
    var w := if c.dropTime < t then c.dropTime else t;
    FoundOldInTrash(c, d, w);
    var plan := Plan(t + t, {});
    var s0 := State(t + t, map[], map[d := Object([], t)], map[],
                    map[1 := Add(d, "b", [], PutRef(t + w))], Trash(plan, Listing({}, map[d := t])));
    var s1 := s0.(sweep := TrashDrop(plan, Listing({}, map[]), d));
    assert Reachable(c, s1) by { Go(c, s0, Sweeper(TrashDead(d)), s1); }
    var s2 := s0.(trash := map[], sweep := Trash(plan, Listing({}, map[])));
    assert Reachable(c, s2) by { Go(c, s1, Sweeper(TrashDelete), s2); }
    s := s2.(adds := map[], refs := map[Key(d, "b") := Marker(t + w, t + t)]);
    Go(c, s2, Client(AddPutRef(1)), s);
    assert Key(d, "b") in s.refs && !Held(c, s, d);
  }

  /** The exact condition on the times: no reachable state lacks the bytes of a
      reference if and only if an Add and a put-aside together fit in the grace. */
  lemma ReclaimSafeIff(c: Config)
    requires c.Valid()
    ensures (forall s: State :: Reachable(c, s) ==> Safe(c, s)) <==> c.addTime + c.dropTime <= c.grace
  {
    if c.addTime + c.dropTime <= c.grace {
      forall s: State | Reachable(c, s) ensures Safe(c, s) { ReclaimSafe(c, s); }
    } else {
      var s := ReclaimLoses(c);
    }
  }

  // ----------------------------------------------------------- completeness

  /** Nothing references d and no Add of it is under way. */
  predicate Quiet(s: State, d: Digest) {
    (forall k <- s.refs.Keys :: k.d != d) && (forall id <- s.adds.Keys :: s.adds[id].d != d)
  }

  predicate QuietAt(run: seq<State>, d: Digest, i: nat)
    requires i < |run|
  {
    Quiet(run[i], d)
  }

  predicate QuietDuring(run: seq<State>, d: Digest, a: nat, b: nat) {
    b < |run| && forall i: nat | a <= i <= b :: QuietAt(run, d, i)
  }

  /** run[a..b] is one sweep that ran to its end. */
  predicate FullSweep(run: seq<State>, a: nat, b: nat) {
    && a + 1 < b < |run|
    && run[a].sweep.Idle? && run[a + 1].sweep.ListRefs?
    && (forall i | a < i < b :: !run[i].sweep.Idle?)
    && run[b].sweep == Idle(true)
  }

  /** The sweep under way, if any, has not found d referenced. */
  predicate Unlisted(s: State, d: Digest) {
    match s.sweep
    case Idle(_) => true
    case ListRefs(_, _, may) => forall k <- may :: k.d != d
    case Trash(plan, _) => d !in plan.live
    case TrashHead(plan, _, e) => d !in plan.live && e != d
    case TrashRestore(plan, _, e) => d !in plan.live && e != d
    case TrashDrop(plan, _, _) => d !in plan.live
    case Blobs(plan, _) => d !in plan.live
    case BlobDrop(plan, _, _) => d !in plan.live
  }

  /** A listed or still owed entry that the sweep will find old. */
  predicate Doomed(c: Config, plan: Plan, todo: Listing, d: Digest) {
    d in todo.owed || (d in todo.page && c.Old(plan.started, todo.page[d]))
  }

  /** A sweep started at `started` is going to take d out of blob/. */
  predicate TakingBlob(c: Config, s: State, d: Digest, started: int) {
    && (d in s.blob ==> c.Old(started, s.blob[d].modified))
    && match s.sweep
       case Idle(completed) => completed && d !in s.blob
       case ListRefs(at, _, _) => at == started
       case Blobs(plan, todo) => plan.started == started && (d in s.blob ==> Doomed(c, plan, todo, d))
       case BlobDrop(plan, todo, e) => plan.started == started && (d in s.blob ==> e == d || Doomed(c, plan, todo, d))
       case _ => s.sweep.plan.started == started
  }

  /** d is gone from blob/, and its trash copy is no newer than `since`. */
  predicate PutAside(s: State, d: Digest, since: int) {
    d !in s.blob && (d in s.trash ==> s.trash[d].modified <= since)
  }

  predicate PutAsideAt(run: seq<State>, d: Digest, since: int, i: nat)
    requires i < |run|
  {
    PutAside(run[i], d, since)
  }

  /** A sweep started at `started` is going to take d out of trash/. */
  predicate TakingTrash(c: Config, s: State, d: Digest, started: int) {
    && (d in s.trash ==> c.Old(started, s.trash[d].modified))
    && match s.sweep
       case Idle(completed) => completed && d !in s.trash
       case ListRefs(at, _, _) => at == started
       case Trash(plan, todo) => plan.started == started && (d in s.trash ==> Doomed(c, plan, todo, d))
       case TrashHead(plan, todo, _) => plan.started == started && (d in s.trash ==> Doomed(c, plan, todo, d))
       case TrashRestore(plan, todo, _) => plan.started == started && (d in s.trash ==> Doomed(c, plan, todo, d))
       case TrashDrop(plan, todo, e) => plan.started == started && (d in s.trash ==> e == d || Doomed(c, plan, todo, d))
       case Blobs(plan, _) => d !in s.trash
       case BlobDrop(plan, _, _) => d !in s.trash
  }

  predicate TrashTimesOk(s: State) {
    forall d <- s.trash.Keys :: s.trash[d].modified <= s.now
  }

  lemma TrashTimesByClient(c: Config, s: State, l: ClientLabel)
    requires ClientCan(c, s, l) && TrashTimesOk(s)
    ensures TrashTimesOk(ClientStep(c, s, l)) && s.now <= ClientStep(c, s, l).now
  {
  }

  lemma TrashTimesBySweeper(c: Config, s: State, l: SweepLabel)
    requires SweeperCan(c, s, l) && TrashTimesOk(s)
    ensures TrashTimesOk(SweeperStep(c, s, l)) && s.now <= SweeperStep(c, s, l).now
  {
  }

  lemma TrashTimesStep(c: Config, s: State, s': State)
    requires Step(c, s, s') && TrashTimesOk(s)
    ensures TrashTimesOk(s') && s.now <= s'.now
  {
    var l :| Enabled(c, s, l) && s' == Apply(c, s, l);
    match l
    case Client(a) => TrashTimesByClient(c, s, a);
    case Sweeper(w) => TrashTimesBySweeper(c, s, w);
  }

  lemma UnlistedByClient(c: Config, s: State, l: ClientLabel, d: Digest)
    requires ClientCan(c, s, l) && Quiet(s, d) && Unlisted(s, d)
    ensures Unlisted(ClientStep(c, s, l), d)
  {
  }

  lemma UnlistedBySweeper(c: Config, s: State, l: SweepLabel, d: Digest)
    requires SweeperCan(c, s, l) && Quiet(s, d) && Unlisted(s, d)
    ensures Unlisted(SweeperStep(c, s, l), d)
  {
  }

  lemma UnlistedStep(c: Config, s: State, s': State, d: Digest)
    requires Step(c, s, s') && Quiet(s, d) && Unlisted(s, d)
    ensures Unlisted(s', d)
  {
    var l :| Enabled(c, s, l) && s' == Apply(c, s, l);
    match l
    case Client(a) => UnlistedByClient(c, s, a, d);
    case Sweeper(w) => UnlistedBySweeper(c, s, w, d);
  }

  lemma TakingBlobByClient(c: Config, s: State, l: ClientLabel, d: Digest, started: int)
    requires ClientCan(c, s, l) && Quiet(s, d) && Unlisted(s, d) && !s.sweep.Idle? && TakingBlob(c, s, d, started)
    ensures TakingBlob(c, ClientStep(c, s, l), d, started)
  {
  }

  lemma TakingBlobBySweeper(c: Config, s: State, l: SweepLabel, d: Digest, started: int)
    requires SweeperCan(c, s, l) && l != SweepStop && Quiet(s, d) && Unlisted(s, d)
    requires !s.sweep.Idle? && TakingBlob(c, s, d, started)
    ensures TakingBlob(c, SweeperStep(c, s, l), d, started)
  {
  }

  lemma TakingBlobStep(c: Config, s: State, s': State, d: Digest, started: int)
    requires Step(c, s, s') && s'.sweep != Idle(false) && Quiet(s, d) && Unlisted(s, d)
    requires !s.sweep.Idle? && TakingBlob(c, s, d, started)
    ensures TakingBlob(c, s', d, started)
  {
    var l :| Enabled(c, s, l) && s' == Apply(c, s, l);
    match l
    case Client(a) => TakingBlobByClient(c, s, a, d, started);
    case Sweeper(w) => TakingBlobBySweeper(c, s, w, d, started);
  }

  lemma PutAsideByClient(c: Config, s: State, l: ClientLabel, d: Digest, since: int)
    requires ClientCan(c, s, l) && Quiet(s, d) && Unlisted(s, d) && PutAside(s, d, since)
    ensures PutAside(ClientStep(c, s, l), d, since)
  {
  }

  lemma PutAsideBySweeper(c: Config, s: State, l: SweepLabel, d: Digest, since: int)
    requires SweeperCan(c, s, l) && Quiet(s, d) && Unlisted(s, d) && PutAside(s, d, since)
    ensures PutAside(SweeperStep(c, s, l), d, since)
  {
  }

  lemma PutAsideStep(c: Config, s: State, s': State, d: Digest, since: int)
    requires Step(c, s, s') && Quiet(s, d) && Unlisted(s, d) && PutAside(s, d, since)
    ensures PutAside(s', d, since)
  {
    var l :| Enabled(c, s, l) && s' == Apply(c, s, l);
    match l
    case Client(a) => PutAsideByClient(c, s, a, d, since);
    case Sweeper(w) => PutAsideBySweeper(c, s, w, d, since);
  }

  lemma TakingTrashByClient(c: Config, s: State, l: ClientLabel, d: Digest, started: int)
    requires ClientCan(c, s, l) && Quiet(s, d) && Unlisted(s, d)
    requires d !in s.blob && !s.sweep.Idle? && TakingTrash(c, s, d, started)
    ensures TakingTrash(c, ClientStep(c, s, l), d, started)
  {
  }

  lemma TakingTrashBySweeper(c: Config, s: State, l: SweepLabel, d: Digest, started: int)
    requires SweeperCan(c, s, l) && l != SweepStop && Quiet(s, d) && Unlisted(s, d)
    requires d !in s.blob && !s.sweep.Idle? && TakingTrash(c, s, d, started)
    ensures TakingTrash(c, SweeperStep(c, s, l), d, started)
  {
  }

  lemma TakingTrashStep(c: Config, s: State, s': State, d: Digest, started: int)
    requires Step(c, s, s') && s'.sweep != Idle(false) && Quiet(s, d) && Unlisted(s, d)
    requires d !in s.blob && !s.sweep.Idle? && TakingTrash(c, s, d, started)
    ensures TakingTrash(c, s', d, started)
  {
    var l :| Enabled(c, s, l) && s' == Apply(c, s, l);
    match l
    case Client(a) => TakingTrashByClient(c, s, a, d, started);
    case Sweeper(w) => TakingTrashBySweeper(c, s, w, d, started);
  }

  lemma {:induction false} RunTrashTimes(c: Config, run: seq<State>, i: nat)
    requires Run(c, run) && run[0] == Init(run[0].now) && i < |run|
    ensures TrashTimesOk(run[i])
  {
    if i > 0 {
      RunTrashTimes(c, run, i - 1);
      assert StepAt(c, run, i - 1);
      TrashTimesStep(c, run[i - 1], run[i]);
    }
  }

  /** While d stays quiet from an idle sweeper on, no sweep finds it referenced. */
  lemma {:induction false} RunUnlisted(c: Config, run: seq<State>, d: Digest, a: nat, i: nat)
    requires Run(c, run) && a <= i < |run| && run[a].sweep.Idle?
    requires QuietDuring(run, d, a, i)
    ensures Unlisted(run[i], d)
  {
    if i > a {
      RunUnlisted(c, run, d, a, i - 1);
      assert StepAt(c, run, i - 1) && QuietAt(run, d, i - 1);
      UnlistedStep(c, run[i - 1], run[i], d);
    }
  }

  lemma SweepStarts(c: Config, s: State, s': State)
    requires Step(c, s, s') && s.sweep.Idle? && s'.sweep.ListRefs?
    ensures s'.blob == s.blob && s'.trash == s.trash && s'.sweep.started == s.now
  {
    var l :| Enabled(c, s, l) && s' == Apply(c, s, l);
    match l
    case Client(a) => IdleByClient(c, s, a);
    case Sweeper(w) => IdleBySweeper(c, s, w);
  }

  lemma IdleBySweeper(c: Config, s: State, l: SweepLabel)
    requires SweeperCan(c, s, l) && s.sweep.Idle?
    ensures SweeperStep(c, s, l) == s.(sweep := ListRefs(s.now, s.refs.Keys, s.refs.Keys))
  {
  }

  lemma IdleByClient(c: Config, s: State, l: ClientLabel)
    requires ClientCan(c, s, l) && s.sweep.Idle?
    ensures ClientStep(c, s, l).sweep == s.sweep
  {
  }

  /** A full sweep takes an old quiet blob out of blob/. */
  lemma {:induction false} SweepTakesBlob(c: Config, run: seq<State>, d: Digest, a: nat, b: nat, i: nat)
    requires Run(c, run) && FullSweep(run, a, b) && a < i <= b
    requires QuietDuring(run, d, a, b)
    requires d in run[a].blob ==> c.Old(run[a].now, run[a].blob[d].modified)
    ensures TakingBlob(c, run[i], d, run[a].now)
  {
    if i > a + 1 {
      SweepTakesBlob(c, run, d, a, b, i - 1);
      BlobTakenNext(c, run, d, a, b, i);
    } else {
      assert StepAt(c, run, a);
      TakingBlobStarts(c, run[a], run[a + 1], d);
    }
  }

  lemma BlobTakenNext(c: Config, run: seq<State>, d: Digest, a: nat, b: nat, i: nat)
    requires Run(c, run) && FullSweep(run, a, b) && a + 1 < i <= b && QuietDuring(run, d, a, b)
    requires TakingBlob(c, run[i - 1], d, run[a].now)
    ensures TakingBlob(c, run[i], d, run[a].now)
  {
    RunUnlisted(c, run, d, a, i - 1);
    assert StepAt(c, run, i - 1) && QuietAt(run, d, i - 1);
    TakingBlobStep(c, run[i - 1], run[i], d, run[a].now);
  }

  lemma TakingBlobStarts(c: Config, s: State, s': State, d: Digest)
    requires Step(c, s, s') && s.sweep.Idle? && s'.sweep.ListRefs?
    requires d in s.blob ==> c.Old(s.now, s.blob[d].modified)
    ensures TakingBlob(c, s', d, s.now)
  {
    SweepStarts(c, s, s');
  }

  lemma TakingTrashStarts(c: Config, s: State, s': State, d: Digest)
    requires Step(c, s, s') && s.sweep.Idle? && s'.sweep.ListRefs?
    requires d in s.trash ==> c.Old(s.now, s.trash[d].modified)
    ensures TakingTrash(c, s', d, s.now)
  {
    SweepStarts(c, s, s');
  }

  /** Once taken out of blob/, a quiet digest stays out. */
  lemma {:induction false} RunPutAside(c: Config, run: seq<State>, d: Digest, a: nat, b: nat, i: nat, since: int)
    requires Run(c, run) && a <= b <= i < |run| && run[a].sweep.Idle?
    requires QuietDuring(run, d, a, i)
    requires PutAside(run[b], d, since)
    ensures PutAside(run[i], d, since)
  {
    if i > b {
      RunPutAside(c, run, d, a, b, i - 1, since);
      RunUnlisted(c, run, d, a, i - 1);
      assert StepAt(c, run, i - 1) && QuietAt(run, d, i - 1);
      PutAsideStep(c, run[i - 1], run[i], d, since);
    }
  }

  lemma {:induction false} SweepTakesTrash(c: Config, run: seq<State>, d: Digest, since: int, a: nat, b: nat, i: nat)
    requires Run(c, run) && FullSweep(run, a, b) && a < i <= b
    requires QuietDuring(run, d, a, b) && forall j | a <= j <= b :: PutAsideAt(run, d, since, j)
    requires run[a].now > since + c.grace
    ensures TakingTrash(c, run[i], d, run[a].now)
  {
    if i > a + 1 {
      SweepTakesTrash(c, run, d, since, a, b, i - 1);
      assert PutAsideAt(run, d, since, i - 1);
      TrashTakenNext(c, run, d, a, b, i);
    } else {
      assert StepAt(c, run, a) && PutAsideAt(run, d, since, a);
      TakingTrashStarts(c, run[a], run[a + 1], d);
    }
  }

  lemma TrashTakenNext(c: Config, run: seq<State>, d: Digest, a: nat, b: nat, i: nat)
    requires Run(c, run) && FullSweep(run, a, b) && a + 1 < i <= b && QuietDuring(run, d, a, b)
    requires d !in run[i - 1].blob && TakingTrash(c, run[i - 1], d, run[a].now)
    ensures TakingTrash(c, run[i], d, run[a].now)
  {
    RunUnlisted(c, run, d, a, i - 1);
    assert StepAt(c, run, i - 1) && QuietAt(run, d, i - 1);
    TakingTrashStep(c, run[i - 1], run[i], d, run[a].now);
  }

  /** Two full sweeps more than grace apart leave no copy of a blob that stayed
      unreferenced, whatever runs around them and whatever stopped sweeps lie
      between. */
  lemma SweepCompleteness(c: Config, run: seq<State>, d: Digest, a: nat, b: nat, a2: nat, b2: nat)
    requires Run(c, run) && run[0] == Init(run[0].now)
    requires FullSweep(run, a, b) && b <= a2 && FullSweep(run, a2, b2)
    requires QuietDuring(run, d, a, b2)
    requires d in run[a].blob ==> c.Old(run[a].now, run[a].blob[d].modified)
    requires run[a2].now > run[b].now + c.grace
    ensures d !in run[b2].blob && d !in run[b2].trash
  {
    SweepTakesBlob(c, run, d, a, b, b);
    RunTrashTimes(c, run, b);
    forall j | a2 <= j <= b2 ensures PutAsideAt(run, d, run[b].now, j) {
      RunPutAside(c, run, d, a, b, j, run[b].now);
    }
    SweepTakesTrash(c, run, d, run[b].now, a2, b2, b2);
    assert PutAsideAt(run, d, run[b].now, b2);
  }

  // -------------------------------------------- how far apart is far enough

  /** A sweep started at `started` is going to pass over the trash copy of d. */
  predicate Passing(c: Config, s: State, d: Digest, modified: int, started: int) {
    && d !in s.blob && d in s.trash && s.trash[d].modified == modified && !c.Old(started, modified)
    && match s.sweep
       case Idle(_) => true
       case ListRefs(at, _, _) => at == started
       case Trash(plan, todo) => PassedOver(plan, todo, d, modified, started)
       case TrashHead(plan, todo, e) => e != d && PassedOver(plan, todo, d, modified, started)
       case TrashRestore(plan, todo, e) => e != d && PassedOver(plan, todo, d, modified, started)
       case TrashDrop(plan, todo, e) => e != d && PassedOver(plan, todo, d, modified, started)
       case Blobs(plan, _) => true
       case BlobDrop(plan, _, _) => true
  }

  predicate PassedOver(plan: Plan, todo: Listing, d: Digest, modified: int, started: int) {
    plan.started == started && (d in todo.page ==> todo.page[d] == modified)
  }

  lemma PassingByClient(c: Config, s: State, l: ClientLabel, d: Digest, modified: int, started: int)
    requires ClientCan(c, s, l) && Quiet(s, d) && !s.sweep.Idle? && Passing(c, s, d, modified, started)
    ensures Passing(c, ClientStep(c, s, l), d, modified, started)
  {
  }

  lemma PassingBySweeper(c: Config, s: State, l: SweepLabel, d: Digest, modified: int, started: int)
    requires SweeperCan(c, s, l) && Unlisted(s, d) && !s.sweep.Idle? && Passing(c, s, d, modified, started)
    ensures Passing(c, SweeperStep(c, s, l), d, modified, started)
  {
  }

  lemma PassingStep(c: Config, s: State, s': State, d: Digest, modified: int, started: int)
    requires Step(c, s, s') && Quiet(s, d) && Unlisted(s, d) && !s.sweep.Idle? && Passing(c, s, d, modified, started)
    ensures Passing(c, s', d, modified, started)
  {
    var l :| Enabled(c, s, l) && s' == Apply(c, s, l);
    match l
    case Client(a) => PassingByClient(c, s, a, d, modified, started);
    case Sweeper(w) => PassingBySweeper(c, s, w, d, modified, started);
  }

  /** A sweep leaves a quiet trash copy that is not old when it starts. */
  lemma {:induction false} SweepLeavesTrash(c: Config, run: seq<State>, d: Digest, a: nat, b: nat, i: nat)
    requires Run(c, run) && FullSweep(run, a, b) && a < i <= b
    requires QuietDuring(run, d, a, b)
    requires d !in run[a].blob && d in run[a].trash && !c.Old(run[a].now, run[a].trash[d].modified)
    ensures Passing(c, run[i], d, run[a].trash[d].modified, run[a].now)
  {
    assert StepAt(c, run, i - 1);
    if i > a + 1 {
      SweepLeavesTrash(c, run, d, a, b, i - 1);
      RunUnlisted(c, run, d, a, i - 1);
      assert QuietAt(run, d, i - 1);
      PassingStep(c, run[i - 1], run[i], d, run[a].trash[d].modified, run[a].now);
    } else {
      PassingStarts(c, run[a], run[a + 1], d);
    }
  }

  lemma PassingStarts(c: Config, s: State, s': State, d: Digest)
    requires Step(c, s, s') && s.sweep.Idle? && s'.sweep.ListRefs?
    requires d !in s.blob && d in s.trash && !c.Old(s.now, s.trash[d].modified)
    ensures Passing(c, s', d, s.trash[d].modified, s.now)
  {
    SweepStarts(c, s, s');
  }

  /** What a full sweep does to a quiet digest that is not under blob/: its trash
      copy goes exactly if it is more than the grace older than the sweep's start. */
  lemma SweepTrashIff(c: Config, run: seq<State>, d: Digest, a: nat, b: nat)
    requires Run(c, run) && FullSweep(run, a, b) && d !in run[a].blob
    requires QuietDuring(run, d, a, b)
    ensures d !in run[b].blob
    ensures d !in run[b].trash <==> (d in run[a].trash ==> run[a].now > run[a].trash[d].modified + c.grace)
  {
    var since := if d in run[a].trash then run[a].trash[d].modified else run[a].now - c.grace - 1;
    forall j | a <= j <= b ensures PutAsideAt(run, d, since, j) { RunPutAside(c, run, d, a, a, j, since); }
    assert PutAsideAt(run, d, since, b);
    if run[a].now > since + c.grace {
      SweepTakesTrash(c, run, d, since, a, b, b);
    } else {
      SweepLeavesTrash(c, run, d, a, b, b);
    }
  }

  /** The exact condition for two full sweeps to finish an old quiet blob: what
      counts is when the trash copy was made, not when the first sweep ended. */
  lemma SweepCompletenessIff(c: Config, run: seq<State>, d: Digest, a: nat, b: nat, a2: nat, b2: nat)
    requires Run(c, run) && run[0] == Init(run[0].now)
    requires FullSweep(run, a, b) && b <= a2 && FullSweep(run, a2, b2)
    requires QuietDuring(run, d, a, b2)
    requires d in run[a].blob ==> c.Old(run[a].now, run[a].blob[d].modified)
    ensures d !in run[b2].blob
    ensures d !in run[b2].trash <==> (d in run[a2].trash ==> run[a2].now > run[a2].trash[d].modified + c.grace)
  {
    SweepTakesBlob(c, run, d, a, b, b);
    RunTrashTimes(c, run, b);
    RunPutAside(c, run, d, a, b, a2, run[b].now);
    SweepTrashIff(c, run, d, a2, b2);
  }

  // A run of two sweeps exactly the grace apart, step by step.

  lemma Then(c: Config, run: seq<State>, l: Label, s': State) returns (run': seq<State>)
    requires Run(c, run) && Enabled(c, run[|run| - 1], l) && s' == Apply(c, run[|run| - 1], l)
    ensures run' == run + [s'] && Run(c, run')
  {
    run' := run + [s'];
    forall i: nat | i + 1 < |run'| ensures StepAt(c, run', i) {
      if i + 1 < |run| { assert StepAt(c, run, i); }
    }
  }

  /** From run[a] on nothing references d, and a sweep that began after `run[from]`
      is still under way. */
  predicate Sweeping(run: seq<State>, d: Digest, a: nat, from: nat) {
    && a <= from && from + 1 < |run| && run[from].sweep.Idle? && run[from + 1].sweep.ListRefs?
    && (forall i | from < i < |run| :: !run[i].sweep.Idle?)
    && QuietDuring(run, d, a, |run| - 1)
  }

  lemma SweepOn(c: Config, run: seq<State>, d: Digest, a: nat, from: nat, l: SweepLabel, s': State)
    returns (run': seq<State>)
    requires Run(c, run) && Sweeping(run, d, a, from) && SweeperCan(c, run[|run| - 1], l)
    requires s' == SweeperStep(c, run[|run| - 1], l) && Quiet(s', d) && (s'.sweep.Idle? ==> s'.sweep.completed)
    ensures run' == run + [s'] && Run(c, run')
    ensures if s'.sweep.Idle? then FullSweep(run', from, |run|) && QuietDuring(run', d, a, |run'| - 1)
            else Sweeping(run', d, a, from)
  {
    run' := Then(c, run, Sweeper(l), s');
    QuietExtends(run, d, a, s');
  }

  lemma QuietExtends(run: seq<State>, d: Digest, a: nat, s': State)
    requires run != [] && QuietDuring(run, d, a, |run| - 1) && Quiet(s', d)
    ensures QuietDuring(run + [s'], d, a, |run|)
  {
    forall i: nat | a <= i <= |run| ensures QuietAt(run + [s'], d, i) {
      if i < |run| { assert QuietAt(run, d, i); }
    }
  }

  /** The empty blob d, unreferenced, under blob/ since time 0 or under trash/ since
      the time t. */
  function Left(d: Digest, now: int, sweep: Sweep): State {
    State(now, map[d := Object([], 0)], map[], map[], map[], sweep)
  }

  function Aside(d: Digest, now: int, t: int, sweep: Sweep): State {
    State(now, map[], map[d := Object([], t)], map[], map[], sweep)
  }

  lemma LeftBlob(c: Config, d: Digest, t: nat) returns (run: seq<State>)
    requires c.Valid() && d == c.h.DigestOf([])
    ensures Run(c, run) && run[0] == Init(run[0].now) && run[|run| - 1] == Left(d, t, Idle(false))
  {
    ErasedBlob(c, d);
    var s := Left(d, 0, Idle(false));
    run :| Run(c, run) && run[0] == Init(run[0].now) && run[|run| - 1] == s;
    run := Then(c, run, Client(Tick(t)), Left(d, t, Idle(false)));
  }

  /** A sweep begins and finds no reference. */
  lemma SweepBegins(c: Config, run: seq<State>, d: Digest, a: nat) returns (run': seq<State>)
    requires Run(c, run) && a < |run| && QuietDuring(run, d, a, |run| - 1)
    requires var s := run[|run| - 1]; s.sweep.Idle? && s.refs == map[]
    ensures Run(c, run') && |run'| == |run| + 2 && run <= run' && Sweeping(run', d, a, |run| - 1)
    ensures var s := run[|run| - 1];
            run'[|run| + 1] == s.(sweep := Trash(Plan(s.now, {}), Listing(s.trash.Keys, map[])))
  {
    var s := run[|run| - 1];
    var s1 := s.(sweep := ListRefs(s.now, {}, {}));
    assert s.refs.Keys == {};
    assert QuietAt(run, d, |run| - 1);
    run' := Then(c, run, Sweeper(SweepStart), s1);
    QuietExtends(run, d, a, s1);
    var s2 := s.(sweep := Trash(Plan(s.now, {}), Listing(s.trash.Keys, map[])));
    assert SweeperStep(c, s1, RefsListed({})).sweep.plan.live == {};
    run' := SweepOn(c, run', d, a, |run| - 1, RefsListed({}), s2);
  }

  /** The first sweep puts d aside in the moment it starts, and ends. */
  lemma SweepPutsAside(c: Config, d: Digest, t: nat) returns (run: seq<State>, a: nat)
    requires c.Valid() && d == c.h.DigestOf([]) && t > c.grace
    ensures Run(c, run) && run[0] == Init(run[0].now) && a < |run| && run[a] == Left(d, t, Idle(false))
    ensures FullSweep(run, a, |run| - 1) && QuietDuring(run, d, a, |run| - 1)
    ensures run[|run| - 1] == Aside(d, t, t, Idle(true))
  {
    run := LeftBlob(c, d, t);
    a := |run| - 1;
    run := SweepBegins(c, run, d, a);
    var plan := Plan(t, {});
    var s := Left(d, t, Blobs(plan, Listing({d}, map[])));
    assert s.blob.Keys == {d};
    run := SweepOn(c, run, d, a, a, TrashDone, s);
    var s1 := Left(d, t, Blobs(plan, Listing({}, map[d := 0])));
    assert SweeperStep(c, s, BlobPage({d})).sweep.todo.owed == {};
    run := SweepOn(c, run, d, a, a, BlobPage({d}), s1);
    run := SweepMovesAside(c, run, d, a, t);
  }

  lemma SweepMovesAside(c: Config, run: seq<State>, d: Digest, a: nat, t: nat) returns (run': seq<State>)
    requires c.Valid() && Run(c, run) && Sweeping(run, d, a, a) && t > c.grace
    requires run[|run| - 1] == Left(d, t, Blobs(Plan(t, {}), Listing({}, map[d := 0])))
    ensures Run(c, run') && run <= run' && FullSweep(run', a, |run'| - 1) && QuietDuring(run', d, a, |run'| - 1)
    ensures run'[|run'| - 1] == Aside(d, t, t, Idle(true))
  {
    var (plan, none) := (Plan(t, {}), Listing({}, map[]));
    var s1 := run[|run| - 1];
    run' := run;
    var s2 := s1.(trash := map[d := Object([], t)], sweep := BlobDrop(plan, none, d));
    run' := SweepOn(c, run', d, a, a, BlobCopy(d, t), s2);
    run' := SweepOn(c, run', d, a, a, BlobDelete, Aside(d, t, t, Blobs(plan, none)));
    run' := SweepOn(c, run', d, a, a, SweepDone, Aside(d, t, t, Idle(true)));
  }

  /** A second sweep that starts the grace after the first one ended leaves the copy
      in trash/: at least the grace apart is not far enough. */
  lemma GraceApartIsNotEnough(c: Config) returns (run: seq<State>, d: Digest, a: nat, b: nat, a2: nat, b2: nat)
    requires c.Valid()
    ensures Run(c, run) && run[0] == Init(run[0].now)
    ensures FullSweep(run, a, b) && b <= a2 && FullSweep(run, a2, b2)
    ensures QuietDuring(run, d, a, b2)
    ensures d in run[a].blob && c.Old(run[a].now, run[a].blob[d].modified)
    ensures run[a2].now == run[b].now + c.grace
    ensures d in run[b2].trash
  {
    d := c.h.DigestOf([]);
    var t := c.grace + 1;
    run, a := SweepPutsAside(c, d, t);
    b := |run| - 1;
    var first := run;
    run := Then(c, run, Client(Tick(c.grace)), Aside(d, t + c.grace, t, Idle(true)));
    a2 := |run| - 1;
    QuietExtends(first, d, a, run[a2]);
    var second := SweepPassesOver(c, run, d, a, t);
    b2 := |second| - 1;
    assert FullSweep(second, a, b) by {
      assert forall i | 0 <= i < |first| :: second[i] == first[i];
    }
    run := second;
  }

  lemma SweepPassesOver(c: Config, run: seq<State>, d: Digest, a: nat, t: nat) returns (run': seq<State>)
    requires c.Valid() && Run(c, run) && a < |run| && QuietDuring(run, d, a, |run| - 1)
    requires run[|run| - 1] == Aside(d, t + c.grace, t, Idle(true))
    ensures Run(c, run') && run <= run' && FullSweep(run', |run| - 1, |run'| - 1)
    ensures QuietDuring(run', d, a, |run'| - 1) && d in run'[|run'| - 1].trash
  {
    var (now, from) := (t + c.grace, |run| - 1);
    run' := SweepBegins(c, run, d, a);
    var plan := Plan(now, {});
    var s := Aside(d, now, t, Trash(plan, Listing({d}, map[])));
    assert s.trash.Keys == {d};
    var s1 := Aside(d, now, t, Trash(plan, Listing({}, map[d := t])));
    assert s1 == SweeperStep(c, s, TrashPage({d})) by {
      var todo := SweeperStep(c, s, TrashPage({d})).sweep.todo;
      assert todo.owed == {} && todo.page == map[d := t];
    }
    run' := SweepOn(c, run', d, a, from, TrashPage({d}), s1);
    var s2 := Aside(d, now, t, Trash(plan, Listing({}, map[])));
    run' := SweepOn(c, run', d, a, from, TrashSkip(d), s2);
    assert s2.blob.Keys == {};
    run' := SweepOn(c, run', d, a, from, TrashDone, Aside(d, now, t, Blobs(plan, Listing({}, map[]))));
    run' := SweepOn(c, run', d, a, from, SweepDone, Aside(d, now, t, Idle(true)));
  }
}
