/** Hard-link deduplication in the filesystem store, for one digest.

    Add, Link, verified Adopt, staged commit, Label, Erase and Reclaim interleave
    at the grain of one filesystem call. Everything that links the blob does so
    under the digest's lock; Erase and Label do not take it. A call may stop
    anywhere, which releases its lock and leaves its stage directory behind. The
    link count is the number of names of an inode. */
module OsLinks {
  import opened Basics
  import opened Hashing

  type Namespace = string
  type Inode = nat
  type ProcId = nat

  /** A directory that may hold an entry: published, or being staged. */
  datatype Dir = Repo(ns: Namespace) | Stage(k: nat)

  /** The names an inode of this digest can have. */
  datatype Path =
    | Share                // share/<algorithm>/..., the store's one copy
    | Blob(dir: Dir)       // an entry's blob file
    | Source(k: nat)       // an adopted file pinned in a stage directory
    | Upload(u: nat)       // the private file of a staged upload
    | Outside(x: nat)      // a file of somebody else

  datatype Job =
    | Add(ns: Namespace, labels: Labels, data: Bytes)
    | LinkFrom(ns: Namespace, from: Namespace)
    | Adopt(ns: Namespace, labels: Labels, x: nat)
    | Commit(ns: Namespace, labels: Labels, u: nat)

  /** Where a call is. From CheckDup to Unlock it holds the lock. */
  datatype Proc =
    | Want(job: Job)
    | CheckDup(job: Job)
    | Make(job: Job)
    | Grab(job: Job, k: nat)
    | Verify(job: Job, k: nat)
    | Stat(job: Job, k: nat)
    | LinkShare(job: Job, k: nat)
    | Ungrab(job: Job, k: nat)
    | Create(job: Job, k: nat)
    | Write(job: Job, k: nat)
    | Promote(job: Job, k: nat)
    | LinkUpload(job: Job, k: nat)
    | Pin(job: Job, k: nat)
    | LinkOut(job: Job, k: nat)
    | Rename(job: Job, k: nat, tries: nat)
    | Clear(job: Job, k: nat, tries: nat)
    | Unlock
    | EraseBlob(ns: Namespace)
    | EraseLabels(ns: Namespace)
    | Peek
    | WantClean
    | Recheck
    | Remove

  datatype State = State(
    links: map<Path, Inode>,
    files: map<Inode, Bytes>,
    labels: map<Dir, Labels>,
    lock: Option<ProcId>,
    procs: map<ProcId, Proc>)

  datatype Config = Config(h: Hasher, d: Digest)

  datatype Label =
    | Begin(p: ProcId, job: Job)
    | BeginErase(p: ProcId, ns: Namespace)
    | BeginReclaim(p: ProcId)
    | Lock(p: ProcId)
    | Work(p: ProcId, k: nat, i: Inode)     // k and i are new names where the call needs one
    | Crash(p: ProcId)
    | SetLabels(ns: Namespace, labels: Labels)
    | Sweep(k: nat)                         // a stage directory nobody uses any more
    | Arrive(path: Path, i: Inode, data: Bytes)
    | Depart(path: Path)

  predicate HasJob(q: Proc) {
    !q.Unlock? && !q.EraseBlob? && !q.EraseLabels? && !q.Peek? && !q.WantClean? && !q.Recheck? && !q.Remove?
  }

  predicate HasStage(q: Proc) { HasJob(q) && !q.Want? && !q.CheckDup? && !q.Make? }

  predicate Locking(q: Proc) { (HasJob(q) && !q.Want?) || q.Unlock? || q.Recheck? || q.Remove? }

  /** The names of an inode; how many there are is its link count. */
  function NamesOf(links: map<Path, Inode>, i: Inode): set<Path> { set p <- links.Keys | links[p] == i }

  function Nlink(links: map<Path, Inode>, i: Inode): nat { |NamesOf(links, i)| }

  predicate DirExists(s: State, dir: Dir) { Blob(dir) in s.links || dir in s.labels }

  predicate StageFree(s: State, k: nat) {
    && Blob(Stage(k)) !in s.links && Source(k) !in s.links && Stage(k) !in s.labels
    && forall p <- s.procs.Keys :: HasStage(s.procs[p]) ==> s.procs[p].k != k
  }

  predicate Can(c: Config, s: State, l: Label) {
    match l
    case Begin(p, job) => p !in s.procs && (job.Add? ==> c.h.DigestOf(job.data) == c.d)
    case BeginErase(p, _) => p !in s.procs
    case BeginReclaim(p) => p !in s.procs
    case Lock(p) => p in s.procs && (s.procs[p].Want? || s.procs[p].WantClean?) && s.lock == None
    case Work(p, k, i) =>
      && p in s.procs && !s.procs[p].Want? && !s.procs[p].WantClean?
      && (s.procs[p].Make? ==> StageFree(s, k)) && (s.procs[p].Create? ==> i !in s.files)
    case Crash(p) => p in s.procs
    case SetLabels(ns, _) => DirExists(s, Repo(ns))
    case Sweep(k) => forall p <- s.procs.Keys :: HasStage(s.procs[p]) ==> s.procs[p].k != k
    case Arrive(path, i, data) =>
      && path !in s.links && i !in s.files
      && (path.Outside? || (path.Upload? && c.h.DigestOf(data) == c.d))
    case Depart(path) => path.Outside? || path.Upload?
  }

  function Go(s: State, p: ProcId, q: Proc): State { s.(procs := s.procs[p := q]) }

  function Stop(s: State, p: ProcId): State {
    s.(procs := s.procs - {p}, lock := if s.lock == Some(p) then None else s.lock)
  }

  /** link(from, to): fails if `from` is gone or `to` is there. */
  function Link(s: State, p: ProcId, from: Path, to: Path, q: Proc): State {
    if from in s.links && to !in s.links then Go(s, p, q).(links := s.links[to := s.links[from]]) else Stop(s, p)
  }

  function LabelsOf(s: State, job: Job): Labels {
    if !job.LinkFrom? then job.labels else if Repo(job.from) in s.labels then s.labels[Repo(job.from)] else map[]
  }

  /** One call of an Erase or a Reclaim, or the release of the lock. */
  function EraseStep(s: State, p: ProcId): State
    requires p in s.procs
  {
    match s.procs[p]
    case Unlock => Stop(s, p)
    case EraseBlob(ns) => Go(s, p, EraseLabels(ns)).(links := s.links - {Blob(Repo(ns))})
    case EraseLabels(ns) => Go(s, p, Peek).(labels := s.labels - {Repo(ns)})
    case Peek => if Share !in s.links || Nlink(s.links, s.links[Share]) > 1 then Stop(s, p) else Go(s, p, WantClean)
    case Recheck =>
      if Share !in s.links || Nlink(s.links, s.links[Share]) > 1 then Go(s, p, Unlock) else Go(s, p, Remove)
    case Remove => Go(s, p, Unlock).(links := s.links - {Share})
    case _ => s
  }

  /** One call of an Add, Link, Adopt or staged commit. */
  function JobStep(c: Config, s: State, p: ProcId, k': nat, i': Inode): State
    requires Can(c, s, Work(p, k', i'))
  {
    match s.procs[p]
    case CheckDup(job) => if Blob(Repo(job.ns)) in s.links then Go(s, p, Unlock) else Go(s, p, Make(job))
    case Make(job) =>
      Go(s, p, match job
               case Add(_, _, _) => Stat(job, k')
               case LinkFrom(_, _) => Pin(job, k')
               case Adopt(_, _, _) => Grab(job, k')
               case Commit(_, _, _) => Stat(job, k')).(labels := s.labels[Stage(k') := LabelsOf(s, job)])
    case Grab(job, k) => if job.Adopt? then Link(s, p, Outside(job.x), Source(k), Verify(job, k)) else Stop(s, p)
    case Verify(job, k) =>
      if Source(k) in s.links && s.links[Source(k)] in s.files && c.h.DigestOf(s.files[s.links[Source(k)]]) == c.d
      then Go(s, p, Stat(job, k)) else Stop(s, p)
    case Stat(job, k) =>
      Go(s, p, if Share in s.links then LinkShare(job, k)
               else match job
                    case Add(_, _, _) => Create(job, k)
                    case Adopt(_, _, _) => Promote(job, k)
                    case _ => LinkUpload(job, k))
    case LinkShare(job, k) =>
      Link(s, p, Share, Blob(Stage(k)), if job.Adopt? then Ungrab(job, k) else Rename(job, k, 0))
    case Ungrab(job, k) => Go(s, p, Rename(job, k, 0)).(links := s.links - {Source(k)})
    case Create(job, k) =>
      if Blob(Stage(k)) in s.links then Stop(s, p)
      else Go(s, p, Write(job, k)).(links := s.links[Blob(Stage(k)) := i'], files := s.files[i' := []])
    case Write(job, k) =>
      if job.Add? && Blob(Stage(k)) in s.links
      then Go(s, p, LinkOut(job, k)).(files := s.files[s.links[Blob(Stage(k))] := job.data]) else Stop(s, p)
    case Promote(job, k) =>
      if Source(k) in s.links
      then Go(s, p, LinkOut(job, k)).(links := (s.links - {Source(k)})[Blob(Stage(k)) := s.links[Source(k)]])
      else Stop(s, p)
    case LinkUpload(job, k) =>
      if job.Commit? then Link(s, p, Upload(job.u), Blob(Stage(k)), LinkOut(job, k)) else Stop(s, p)
    case Pin(job, k) =>
      if job.LinkFrom? then Link(s, p, Blob(Repo(job.from)), Blob(Stage(k)), Rename(job, k, 0)) else Stop(s, p)
    case LinkOut(job, k) => Link(s, p, Blob(Stage(k)), Share, Rename(job, k, 0))
    case Rename(job, k, tries) =>
      if Blob(Stage(k)) !in s.links || Stage(k) !in s.labels then Stop(s, p)
      else if DirExists(s, Repo(job.ns)) then Go(s, p, Clear(job, k, tries + 1))
      else Go(s, p, Unlock).(
        links := (s.links - {Blob(Stage(k))})[Blob(Repo(job.ns)) := s.links[Blob(Stage(k))]],
        labels := (s.labels - {Stage(k)})[Repo(job.ns) := s.labels[Stage(k)]])
    case Clear(job, k, tries) =>
      // RemoveAll of what stands in the way.
      Go(s, p, if tries < 5 then Rename(job, k, tries) else Unlock).(
        links := s.links - {Blob(Repo(job.ns))}, labels := s.labels - {Repo(job.ns)})
    case _ => s
  }

  function WorkStep(c: Config, s: State, p: ProcId, k: nat, i: Inode): State
    requires Can(c, s, Work(p, k, i))
  {
    if HasJob(s.procs[p]) then JobStep(c, s, p, k, i) else EraseStep(s, p)
  }

  function Apply(c: Config, s: State, l: Label): State
    requires Can(c, s, l)
  {
    match l
    case Begin(p, job) => Go(s, p, Want(job))
    case BeginErase(p, ns) => Go(s, p, EraseBlob(ns))
    case BeginReclaim(p) => Go(s, p, Peek)
    case Lock(p) =>
      Go(s, p, if s.procs[p].Want? then CheckDup(s.procs[p].job) else Recheck).(lock := Some(p))
    case Work(p, k, i) => WorkStep(c, s, p, k, i)
    case Crash(p) => Stop(s, p)
    case SetLabels(ns, labels) => s.(labels := s.labels[Repo(ns) := labels])
    case Sweep(k) => s.(links := s.links - {Blob(Stage(k)), Source(k)}, labels := s.labels - {Stage(k)})
    case Arrive(path, i, data) => s.(links := s.links[path := i], files := s.files[i := data])
    case Depart(path) => s.(links := s.links - {path})
  }

  const INIT := State(map[], map[], map[], None, map[])

  // ------------------------------------------------------------- invariant

  predicate Good(c: Config, s: State, i: Inode) { i in s.files && c.h.DigestOf(s.files[i]) == c.d }

  /** Every entry is a name of the one inode the share path names. */
  predicate Shared(links: map<Path, Inode>) {
    forall path <- links.Keys :: path.Blob? && path.dir.Repo? ==> Share in links && links[Share] == links[path]
  }

  /** The shared inode and every private upload hold the digest's bytes. */
  predicate LinksOk(c: Config, s: State) {
    && Shared(s.links)
    && (Share in s.links ==> Good(c, s, s.links[Share]))
    && (forall path <- s.links.Keys :: s.links[path] in s.files && (path.Upload? ==> Good(c, s, s.links[path])))
  }

  predicate JobOk(c: Config, q: Proc) {
    && (HasJob(q) && q.job.Add? ==> c.h.DigestOf(q.job.data) == c.d)
    && (q.Create? || q.Write? ==> q.job.Add?)
  }

  predicate LockOk(c: Config, s: State) {
    && (forall p <- s.procs.Keys :: JobOk(c, s.procs[p]) && (Locking(s.procs[p]) ==> s.lock == Some(p)))
    && (s.lock.Some? ==> s.lock.value in s.procs && Locking(s.procs[s.lock.value]))
  }

  /** A staged blob is the store's inode. */
  predicate Staged(s: State, k: nat) {
    Blob(Stage(k)) in s.links ==> Share in s.links && s.links[Share] == s.links[Blob(Stage(k))]
  }

  /** Nothing else names the inode of path. */
  predicate Alone(links: map<Path, Inode>, path: Path) {
    path in links ==> forall other <- links.Keys :: links[other] == links[path] ==> other == path
  }

  /** What the lock holder knows where it is. */
  predicate HolderOk(c: Config, s: State, q: Proc) {
    && (HasJob(q) && !q.Want? && !q.CheckDup? ==> Blob(Repo(q.job.ns)) !in s.links)
    && match q
       case LinkShare(_, k) => Share in s.links
       case Ungrab(_, k) => Staged(s, k)
       case Create(_, _) => Share !in s.links
       case Write(_, k) => Share !in s.links && Alone(s.links, Blob(Stage(k)))
       case Stat(job, k) => job.Adopt? && Source(k) in s.links ==> Good(c, s, s.links[Source(k)])
       case Promote(_, k) => Share !in s.links && (Source(k) in s.links ==> Good(c, s, s.links[Source(k)]))
       case LinkUpload(_, _) => Share !in s.links
       case LinkOut(_, k) => Share !in s.links && (Blob(Stage(k)) in s.links ==> Good(c, s, s.links[Blob(Stage(k))]))
       case Rename(_, k, _) => Staged(s, k)
       case Clear(_, k, _) => Staged(s, k)
       case Remove => Share in s.links && Alone(s.links, Share)
       case _ => true
  }

  predicate Inv(c: Config, s: State) {
    && LinksOk(c, s) && LockOk(c, s)
    && (s.lock.Some? ==> HolderOk(c, s, s.procs[s.lock.value]))
  }

  /** A link count of one means no other name. */
  lemma OneLink(links: map<Path, Inode>, path: Path)
    requires path in links && Nlink(links, links[path]) <= 1
    ensures Alone(links, path)
  {
    var names := NamesOf(links, links[path]);
    assert path in names;
    forall other <- links.Keys | links[other] == links[path] ensures other == path {
      if other != path {
        assert {other, path} <= names;
        SubsetSize({other, path}, names);
      }
    }
  }

  // ------------------------------------------------- steps without the lock

  lemma BeginInv(c: Config, s: State, p: ProcId, q: Proc)
    requires Inv(c, s) && (p in s.procs ==> !Locking(s.procs[p])) && !Locking(q) && JobOk(c, q)
    ensures Inv(c, Go(s, p, q))
  {
  }

  lemma StopInv(c: Config, s: State, p: ProcId)
    requires Inv(c, s) && p in s.procs
    ensures Inv(c, Stop(s, p))
  {
  }

  lemma LockInv(c: Config, s: State, p: ProcId)
    requires Inv(c, s) && Can(c, s, Lock(p))
    ensures Inv(c, Apply(c, s, Lock(p)))
  {
  }

  /** Names that go without the lock: an entry erased, a stage directory nobody
      uses, an upload or somebody else's file removed. */
  lemma UnlinkInv(c: Config, s: State, gone: set<Path>, labels: map<Dir, Labels>)
    requires Inv(c, s) && Share !in gone
    ensures Inv(c, s.(links := s.links - gone, labels := labels))
  {
  }

  lemma ArriveInv(c: Config, s: State, path: Path, i: Inode, data: Bytes)
    requires Inv(c, s) && Can(c, s, Arrive(path, i, data))
    ensures Inv(c, Apply(c, s, Arrive(path, i, data)))
  {
  }

  lemma PeekInv(c: Config, s: State, p: ProcId, k: nat, i: Inode)
    requires Inv(c, s) && Can(c, s, Work(p, k, i)) && s.procs[p].Peek?
    ensures Inv(c, WorkStep(c, s, p, k, i))
  {
    if p in WorkStep(c, s, p, k, i).procs { BeginInv(c, s, p, WantClean); } else { StopInv(c, s, p); }
  }

  lemma EraseBlobInv(c: Config, s: State, p: ProcId, k: nat, i: Inode)
    requires Inv(c, s) && Can(c, s, Work(p, k, i)) && s.procs[p].EraseBlob?
    ensures Inv(c, WorkStep(c, s, p, k, i))
  {
    var ns := s.procs[p].ns;
    var t := s.(links := s.links - {Blob(Repo(ns))});
    assert Inv(c, t) by { UnlinkInv(c, s, {Blob(Repo(ns))}, s.labels); }
    BeginInv(c, t, p, EraseLabels(ns));
  }

  lemma EraseLabelsInv(c: Config, s: State, p: ProcId, k: nat, i: Inode)
    requires Inv(c, s) && Can(c, s, Work(p, k, i)) && s.procs[p].EraseLabels?
    ensures Inv(c, WorkStep(c, s, p, k, i))
  {
    var ns := s.procs[p].ns;
    var t := s.(labels := s.labels - {Repo(ns)});
    assert Inv(c, t) by {
      assert s.links - {} == s.links;
      UnlinkInv(c, s, {}, s.labels - {Repo(ns)});
    }
    BeginInv(c, t, p, Peek);
  }

  // ---------------------------------------------------- steps of the holder

  /** The lock holder moves on. */
  lemma HolderMoves(c: Config, s: State, s': State, p: ProcId, q: Proc)
    requires Inv(c, s) && s.lock == Some(p) && s'.lock == s.lock && s'.procs == s.procs[p := q]
    requires Locking(q) && JobOk(c, q) && LinksOk(c, s') && HolderOk(c, s', q)
    ensures Inv(c, s')
  {
  }

  /** Giving an inode a name that is neither an entry nor an upload. */
  lemma LinkKeeps(c: Config, s: State, path: Path, i: Inode)
    requires LinksOk(c, s) && i in s.files && path !in s.links && !path.Upload?
    requires path.Share? ==> Good(c, s, i) && forall ns: Namespace :: Blob(Repo(ns)) !in s.links
    requires path.Blob? && path.dir.Repo? ==> Share in s.links && s.links[Share] == i
    ensures LinksOk(c, s.(links := s.links[path := i]))
  {
  }

  lemma NoEntries(c: Config, s: State)
    requires LinksOk(c, s) && Share !in s.links
    ensures forall ns: Namespace :: Blob(Repo(ns)) !in s.links
  {
  }

  lemma LooksInv(c: Config, s: State, p: ProcId, k: nat, i: Inode)
    requires Inv(c, s) && Can(c, s, Work(p, k, i)) && s.lock == Some(p)
    requires s.procs[p].CheckDup? || s.procs[p].Make? || s.procs[p].Verify? || s.procs[p].Stat? || s.procs[p].Recheck?
    ensures Inv(c, WorkStep(c, s, p, k, i))
  {
    var s' := WorkStep(c, s, p, k, i);
    if p in s'.procs {
      LooksOk(c, s, p, k, i);
      HolderMoves(c, s, s', p, s'.procs[p]);
    } else {
      assert s' == Stop(s, p);
      StopInv(c, s, p);
    }
  }

  predicate Moves(c: Config, s: State, s': State, p: ProcId) {
    p in s'.procs ==>
      && s' == s.(procs := s.procs[p := s'.procs[p]], labels := s'.labels)
      && Locking(s'.procs[p]) && JobOk(c, s'.procs[p]) && HolderOk(c, s', s'.procs[p])
  }

  lemma LooksOk(c: Config, s: State, p: ProcId, k: nat, i: Inode)
    requires Inv(c, s) && Can(c, s, Work(p, k, i)) && s.lock == Some(p)
    requires s.procs[p].CheckDup? || s.procs[p].Make? || s.procs[p].Verify? || s.procs[p].Stat? || s.procs[p].Recheck?
    ensures Moves(c, s, WorkStep(c, s, p, k, i), p)
  {
    if s.procs[p].Recheck? { RecheckOk(c, s, p, k, i); } else if s.procs[p].Make? { MakeOk(c, s, p, k, i); }
  }

  lemma MakeOk(c: Config, s: State, p: ProcId, k: nat, i: Inode)
    requires Inv(c, s) && Can(c, s, Work(p, k, i)) && s.lock == Some(p) && s.procs[p].Make?
    ensures Moves(c, s, WorkStep(c, s, p, k, i), p)
  {
  }

  lemma RecheckOk(c: Config, s: State, p: ProcId, k: nat, i: Inode)
    requires Inv(c, s) && Can(c, s, Work(p, k, i)) && s.lock == Some(p) && s.procs[p].Recheck?
    ensures Moves(c, s, WorkStep(c, s, p, k, i), p)
  {
    if Share in s.links && Nlink(s.links, s.links[Share]) <= 1 { OneLink(s.links, Share); }
  }

  /** Pinning somebody else's file, or another namespace's entry. */
  lemma GrabInv(c: Config, s: State, p: ProcId, k: nat, i: Inode)
    requires Inv(c, s) && Can(c, s, Work(p, k, i)) && s.lock == Some(p) && s.procs[p].Grab?
    ensures Inv(c, WorkStep(c, s, p, k, i))
  {
    var (s', to) := (WorkStep(c, s, p, k, i), Source(s.procs[p].k));
    if p in s'.procs {
      LinkKeeps(c, s, to, s'.links[to]);
      HolderMoves(c, s, s', p, s'.procs[p]);
    } else {
      StopInv(c, s, p);
    }
  }

  lemma PinInv(c: Config, s: State, p: ProcId, k: nat, i: Inode)
    requires Inv(c, s) && Can(c, s, Work(p, k, i)) && s.lock == Some(p) && s.procs[p].Pin?
    ensures Inv(c, WorkStep(c, s, p, k, i))
  {
    var s' := WorkStep(c, s, p, k, i);
    if p in s'.procs {
      PinLinks(c, s, p, k, i);
      HolderMoves(c, s, s', p, s'.procs[p]);
    } else {
      StopInv(c, s, p);
    }
  }

  lemma PinLinks(c: Config, s: State, p: ProcId, k: nat, i: Inode)
    requires Inv(c, s) && Can(c, s, Work(p, k, i)) && s.lock == Some(p) && s.procs[p].Pin?
    ensures var s' := WorkStep(c, s, p, k, i);
            p in s'.procs ==> LinksOk(c, s') && HolderOk(c, s', s'.procs[p])
  {
    var (s', to) := (WorkStep(c, s, p, k, i), Blob(Stage(s.procs[p].k)));
    if p in s'.procs { LinkKeeps(c, s, to, s'.links[to]); }
  }

  /** Linking the shared inode, or an upload's, into the stage directory. */
  lemma StagesInv(c: Config, s: State, p: ProcId, k: nat, i: Inode)
    requires Inv(c, s) && Can(c, s, Work(p, k, i)) && s.lock == Some(p)
    requires s.procs[p].LinkShare? || s.procs[p].LinkUpload?
    ensures Inv(c, WorkStep(c, s, p, k, i))
  {
    var s' := WorkStep(c, s, p, k, i);
    if p in s'.procs {
      var to := Blob(Stage(s.procs[p].k));
      LinkKeeps(c, s, to, s'.links[to]);
      HolderMoves(c, s, s', p, s'.procs[p]);
    } else {
      StopInv(c, s, p);
    }
  }

  /** Linking the staged blob to the share path. */
  lemma LinkOutInv(c: Config, s: State, p: ProcId, k: nat, i: Inode)
    requires Inv(c, s) && Can(c, s, Work(p, k, i)) && s.lock == Some(p) && s.procs[p].LinkOut?
    ensures Inv(c, WorkStep(c, s, p, k, i))
  {
    var s' := WorkStep(c, s, p, k, i);
    if p in s'.procs {
      NoEntries(c, s);
      LinkKeeps(c, s, Share, s'.links[Share]);
      HolderMoves(c, s, s', p, s'.procs[p]);
    } else {
      StopInv(c, s, p);
    }
  }

  lemma CreateInv(c: Config, s: State, p: ProcId, k: nat, i: Inode)
    requires Inv(c, s) && Can(c, s, Work(p, k, i)) && s.lock == Some(p) && s.procs[p].Create?
    ensures Inv(c, WorkStep(c, s, p, k, i))
  {
    var s' := WorkStep(c, s, p, k, i);
    if p in s'.procs { HolderMoves(c, s, s', p, s'.procs[p]); } else { StopInv(c, s, p); }
  }

  lemma WriteInv(c: Config, s: State, p: ProcId, k: nat, i: Inode)
    requires Inv(c, s) && Can(c, s, Work(p, k, i)) && s.lock == Some(p) && s.procs[p].Write?
    ensures Inv(c, WorkStep(c, s, p, k, i))
  {
    var s' := WorkStep(c, s, p, k, i);
    if p in s'.procs { HolderMoves(c, s, s', p, s'.procs[p]); } else { StopInv(c, s, p); }
  }

  lemma PromoteInv(c: Config, s: State, p: ProcId, k: nat, i: Inode)
    requires Inv(c, s) && Can(c, s, Work(p, k, i)) && s.lock == Some(p) && s.procs[p].Promote?
    ensures Inv(c, WorkStep(c, s, p, k, i))
  {
    var s' := WorkStep(c, s, p, k, i);
    if p in s'.procs { HolderMoves(c, s, s', p, s'.procs[p]); } else { StopInv(c, s, p); }
  }

  lemma UngrabInv(c: Config, s: State, p: ProcId, k: nat, i: Inode)
    requires Inv(c, s) && Can(c, s, Work(p, k, i)) && s.lock == Some(p) && s.procs[p].Ungrab?
    ensures Inv(c, WorkStep(c, s, p, k, i))
  {
    var s' := WorkStep(c, s, p, k, i);
    if p in s'.procs { HolderMoves(c, s, s', p, s'.procs[p]); } else { StopInv(c, s, p); }
  }

  lemma RenameInv(c: Config, s: State, p: ProcId, k: nat, i: Inode)
    requires Inv(c, s) && Can(c, s, Work(p, k, i)) && s.lock == Some(p) && s.procs[p].Rename?
    ensures Inv(c, WorkStep(c, s, p, k, i))
  {
    var s' := WorkStep(c, s, p, k, i);
    if p in s'.procs { HolderMoves(c, s, s', p, s'.procs[p]); } else { StopInv(c, s, p); }
  }

  lemma ClearInv(c: Config, s: State, p: ProcId, k: nat, i: Inode)
    requires Inv(c, s) && Can(c, s, Work(p, k, i)) && s.lock == Some(p)
    requires s.procs[p].Clear?
    ensures Inv(c, WorkStep(c, s, p, k, i))
  {
    var s' := WorkStep(c, s, p, k, i);
    if p in s'.procs { HolderMoves(c, s, s', p, s'.procs[p]); } else { StopInv(c, s, p); }
  }

  lemma RemoveInv(c: Config, s: State, p: ProcId, k: nat, i: Inode)
    requires Inv(c, s) && Can(c, s, Work(p, k, i)) && s.lock == Some(p)
    requires s.procs[p].Remove?
    ensures Inv(c, WorkStep(c, s, p, k, i))
  {
    var s' := WorkStep(c, s, p, k, i);
    if p in s'.procs { HolderMoves(c, s, s', p, s'.procs[p]); } else { StopInv(c, s, p); }
  }

  lemma UnlockInv(c: Config, s: State, p: ProcId, k: nat, i: Inode)
    requires Inv(c, s) && Can(c, s, Work(p, k, i)) && s.lock == Some(p)
    requires s.procs[p].Unlock?
    ensures Inv(c, WorkStep(c, s, p, k, i))
  {
    StopInv(c, s, p);
  }

  lemma StepInv(c: Config, s: State, l: Label)
    requires Inv(c, s) && Can(c, s, l)
    ensures Inv(c, Apply(c, s, l))
  {
    match l
    case Begin(p, job) => BeginInv(c, s, p, Want(job));
    case BeginErase(p, ns) => BeginInv(c, s, p, EraseBlob(ns));
    case BeginReclaim(p) => BeginInv(c, s, p, Peek);
    case Lock(p) => LockInv(c, s, p);
    case Work(p, k, i) =>
      if Locking(s.procs[p]) {
        WorkInv(c, s, p, k, i);
      } else if s.procs[p].Peek? {
        PeekInv(c, s, p, k, i);
      } else if s.procs[p].EraseBlob? {
        EraseBlobInv(c, s, p, k, i);
      } else {
        EraseLabelsInv(c, s, p, k, i);
      }
    case Crash(p) => StopInv(c, s, p);
    case SetLabels(ns, labels) => UnlinkInv(c, s, {}, s.labels[Repo(ns) := labels]); assert s.links - {} == s.links;
    case Sweep(k) => UnlinkInv(c, s, {Blob(Stage(k)), Source(k)}, s.labels - {Stage(k)});
    case Arrive(path, i, data) => ArriveInv(c, s, path, i, data);
    case Depart(path) => UnlinkInv(c, s, {path}, s.labels);
  }

  lemma WorkInv(c: Config, s: State, p: ProcId, k: nat, i: Inode)
    requires Inv(c, s) && Can(c, s, Work(p, k, i)) && Locking(s.procs[p])
    ensures Inv(c, WorkStep(c, s, p, k, i))
  {
    match s.procs[p]
    case Grab(_, _) => GrabInv(c, s, p, k, i);
    case Pin(_, _) => PinInv(c, s, p, k, i);
    case LinkShare(_, _) => StagesInv(c, s, p, k, i);
    case LinkUpload(_, _) => StagesInv(c, s, p, k, i);
    case LinkOut(_, _) => LinkOutInv(c, s, p, k, i);
    case Create(_, _) => CreateInv(c, s, p, k, i);
    case Write(_, _) => WriteInv(c, s, p, k, i);
    case Promote(_, _) => PromoteInv(c, s, p, k, i);
    case Ungrab(_, _) => UngrabInv(c, s, p, k, i);
    case Rename(_, _, _) => RenameInv(c, s, p, k, i);
    case Clear(_, _, _) => ClearInv(c, s, p, k, i);
    case Remove => RemoveInv(c, s, p, k, i);
    case Unlock => UnlockInv(c, s, p, k, i);
    case _ => LooksInv(c, s, p, k, i);
  }

  // --------------------------------------------------------------- theorems

  ghost predicate Step(c: Config, s: State, s': State) { exists l :: Can(c, s, l) && s' == Apply(c, s, l) }

  ghost predicate StepAt(c: Config, run: seq<State>, i: nat)
    requires i + 1 < |run|
  {
    Step(c, run[i], run[i + 1])
  }

  ghost predicate Run(c: Config, run: seq<State>) {
    |run| > 0 && run[0] == INIT && forall i: nat :: i + 1 < |run| ==> StepAt(c, run, i)
  }

  lemma StepKeeps(c: Config, s: State, s': State)
    requires Inv(c, s) && Step(c, s, s')
    ensures Inv(c, s')
  {
    var l :| Can(c, s, l) && s' == Apply(c, s, l);
    StepInv(c, s, l);
  }

  lemma {:induction false} RunInv(c: Config, run: seq<State>, i: nat)
    requires Run(c, run) && i < |run|
    ensures Inv(c, run[i])
  {
    if i > 0 {
      RunInv(c, run, i - 1);
      assert StepAt(c, run, i - 1);
      StepKeeps(c, run[i - 1], run[i]);
    }
  }

  /** In every interleaving every namespace's entry is a hard link of the one inode
      at the share path, and that inode holds the digest's bytes. */
  lemma OneInode(c: Config, run: seq<State>, i: nat, ns: Namespace)
    requires Run(c, run) && i < |run| && Blob(Repo(ns)) in run[i].links
    ensures Share in run[i].links && run[i].links[Share] == run[i].links[Blob(Repo(ns))]
    ensures Good(c, run[i], run[i].links[Share])
  {
    RunInv(c, run, i);
  }

  /** Cleanup removes the share path only when it is the inode's last name: when it
      does, no entry, stage or upload of the digest is linked to it. */
  lemma CleanupTakesNothing(c: Config, run: seq<State>, i: nat, p: ProcId)
    requires Run(c, run) && i < |run| && p in run[i].procs && run[i].procs[p].Remove?
    ensures Share in run[i].links && NamesOf(run[i].links, run[i].links[Share]) == {Share}
    ensures forall ns: Namespace :: Blob(Repo(ns)) !in run[i].links
  {
    RunInv(c, run, i);
  }

  /** What a publisher clears out of its way never has a blob, and what it renames
      into place is an entry of the shared inode with its own labels. */
  lemma PublishIsExact(c: Config, run: seq<State>, i: nat, p: ProcId)
    requires Run(c, run) && i < |run| && p in run[i].procs
    ensures run[i].procs[p].Clear? ==> Blob(Repo(run[i].procs[p].job.ns)) !in run[i].links
    ensures run[i].procs[p].Rename? ==>
              var (s, q) := (run[i], run[i].procs[p]);
              Blob(Stage(q.k)) in s.links && Stage(q.k) in s.labels && !DirExists(s, Repo(q.job.ns)) ==>
                var s' := WorkStep(c, s, p, 0, 0);
                && Blob(Repo(q.job.ns)) in s'.links && Share in s'.links
                && s'.links[Blob(Repo(q.job.ns))] == s'.links[Share]
                && Repo(q.job.ns) in s'.labels && s'.labels[Repo(q.job.ns)] == s.labels[Stage(q.k)]
  {
    RunInv(c, run, i);
    RenameIsExact(c, run[i], p);
  }

  lemma RenameIsExact(c: Config, s: State, p: ProcId)
    requires Inv(c, s) && p in s.procs
    ensures s.procs[p].Clear? ==> Blob(Repo(s.procs[p].job.ns)) !in s.links
    ensures s.procs[p].Rename? ==>
              var q := s.procs[p];
              Blob(Stage(q.k)) in s.links && Stage(q.k) in s.labels && !DirExists(s, Repo(q.job.ns)) ==>
                var s' := WorkStep(c, s, p, 0, 0);
                && Blob(Repo(q.job.ns)) in s'.links && Share in s'.links
                && s'.links[Blob(Repo(q.job.ns))] == s'.links[Share]
                && Repo(q.job.ns) in s'.labels && s'.labels[Repo(q.job.ns)] == s.labels[Stage(q.k)]
  {
  }
}
