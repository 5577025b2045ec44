/** Whose entry a call of the filesystem store makes or takes, and with which labels:
    the runs of OsLinks with the calls they are made of. */
module OsCalls {
  import opened Basics
  import opened Hashing
  import opened OsLinks

  /** What a call was asked to do. */
  datatype Role = Does(job: Job) | Erases(ns: Namespace) | Reclaims

  predicate Begins(l: Label, p: ProcId, role: Role) {
    match role
    case Does(job) => l == Begin(p, job)
    case Erases(ns) => l == BeginErase(p, ns)
    case Reclaims => l == BeginReclaim(p)
  }

  predicate StepIs(c: Config, run: seq<State>, labels: seq<Label>, i: nat)
    requires i < |labels| && |run| == |labels| + 1
  {
    Can(c, run[i], labels[i]) && run[i + 1] == Apply(c, run[i], labels[i])
  }

  /** A run, and the step taken in each of its states. */
  predicate Labelled(c: Config, run: seq<State>, labels: seq<Label>) {
    && |run| == |labels| + 1 && run[0] == INIT
    && forall i: nat | i < |labels| :: StepIs(c, run, labels, i)
  }

  lemma {:induction false} LabelledInv(c: Config, run: seq<State>, labels: seq<Label>, i: nat)
    requires Labelled(c, run, labels) && i < |run|
    ensures Inv(c, run[i])
  {
    if i > 0 {
      LabelledInv(c, run, labels, i - 1);
      assert StepIs(c, run, labels, i - 1);
      StepInv(c, run[i - 1], labels[i - 1]);
    }
  }

  predicate Under(run: seq<State>, p: ProcId, i: nat)
    requires i < |run|
  {
    p in run[i].procs
  }

  /** The call of p that is under way at i began in step j, with this role. */
  predicate InCall(run: seq<State>, labels: seq<Label>, p: ProcId, role: Role, j: nat, i: nat) {
    && |run| == |labels| + 1 && j < i < |run| && Begins(labels[j], p, role)
    && forall k: nat | j < k <= i :: Under(run, p, k)
  }

  /** Where a call of this role can be. */
  predicate RoleOk(q: Proc, role: Role) {
    if HasJob(q) then role == Does(q.job)
    else
      match q
      case EraseBlob(ns) => role == Erases(ns)
      case EraseLabels(ns) => role == Erases(ns)
      case Unlock => true
      case _ => !role.Does?
  }

  predicate IsOf(l: Label, p: ProcId) {
    match l
    case Begin(q, _) => p == q
    case BeginErase(q, _) => p == q
    case BeginReclaim(q) => p == q
    case Lock(q) => p == q
    case Work(q, _, _) => p == q
    case Crash(q) => p == q
    case _ => false
  }

  /** A step is of one call at most; the others stay where they are. */
  lemma OthersStay(c: Config, s: State, l: Label, p: ProcId)
    requires Can(c, s, l) && !IsOf(l, p)
    ensures p in Apply(c, s, l).procs <==> p in s.procs
    ensures p in s.procs ==> Apply(c, s, l).procs[p] == s.procs[p]
  {
    if l.Work? { OthersStayAtWork(c, s, l.p, l.k, l.i, p); }
  }

  lemma OthersStayAtWork(c: Config, s: State, q: ProcId, k: nat, i: Inode, p: ProcId)
    requires Can(c, s, Work(q, k, i)) && q != p
    ensures p in WorkStep(c, s, q, k, i).procs <==> p in s.procs
    ensures p in s.procs ==> WorkStep(c, s, q, k, i).procs[p] == s.procs[p]
  {
    if HasJob(s.procs[q]) { JobAlone(c, s, q, k, i, p); } else { EraseAlone(s, q, p); }
  }

  /** The calls other than p's. */
  predicate Alone(s: State, s': State, q: ProcId, p: ProcId) {
    p != q ==> (p in s'.procs <==> p in s.procs) && (p in s.procs ==> s'.procs[p] == s.procs[p])
  }

  lemma JobAlone(c: Config, s: State, q: ProcId, k: nat, i: Inode, p: ProcId)
    requires Can(c, s, Work(q, k, i)) && HasJob(s.procs[q])
    ensures Alone(s, JobStep(c, s, q, k, i), q, p)
  {
    if Early(s.procs[q]) {
      JobAloneEarly(c, s, q, k, i, p);
    } else if Middle(s.procs[q]) {
      JobAloneMiddle(c, s, q, k, i, p);
    } else {
      JobAloneLate(c, s, q, k, i, p);
    }
  }

  lemma JobAloneEarly(c: Config, s: State, q: ProcId, k: nat, i: Inode, p: ProcId)
    requires Can(c, s, Work(q, k, i)) && Early(s.procs[q])
    ensures Alone(s, JobStep(c, s, q, k, i), q, p)
  {
  }

  lemma JobAloneMiddle(c: Config, s: State, q: ProcId, k: nat, i: Inode, p: ProcId)
    requires Can(c, s, Work(q, k, i)) && Middle(s.procs[q])
    ensures Alone(s, JobStep(c, s, q, k, i), q, p)
  {
  }

  lemma JobAloneLate(c: Config, s: State, q: ProcId, k: nat, i: Inode, p: ProcId)
    requires Can(c, s, Work(q, k, i)) && Late(s.procs[q])
    ensures Alone(s, JobStep(c, s, q, k, i), q, p)
  {
  }

  lemma EraseAlone(s: State, q: ProcId, p: ProcId)
    requires q in s.procs
    ensures Alone(s, EraseStep(s, q), q, p)
  {
  }

  /** A job that has yet to find out where the blob is. */
  predicate Early(q: Proc) { q.Want? || q.CheckDup? || q.Make? || q.Grab? || q.Verify? || q.Stat? }

  /** A job that gets the blob into its stage directory. */
  predicate Middle(q: Proc) { q.LinkShare? || q.Ungrab? || q.Create? || q.Write? || q.Promote? }

  predicate Late(q: Proc) { HasJob(q) && !Early(q) && !Middle(q) }

  lemma RoleStep(c: Config, s: State, l: Label, p: ProcId, role: Role)
    requires Can(c, s, l) && p in s.procs && RoleOk(s.procs[p], role)
    ensures p in Apply(c, s, l).procs ==> RoleOk(Apply(c, s, l).procs[p], role)
  {
    if !IsOf(l, p) {
      OthersStay(c, s, l, p);
    } else if l.Work? {
      if HasJob(s.procs[p]) { JobKeepsRole(c, s, p, l.k, l.i, role); } else { EraseKeepsRole(s, p, role); }
    }
  }

  lemma JobKeepsRole(c: Config, s: State, p: ProcId, k: nat, i: Inode, role: Role)
    requires Can(c, s, Work(p, k, i)) && HasJob(s.procs[p]) && RoleOk(s.procs[p], role)
    ensures p in JobStep(c, s, p, k, i).procs ==> RoleOk(JobStep(c, s, p, k, i).procs[p], role)
  {
    if Early(s.procs[p]) {
      JobStaysEarly(c, s, p, k, i);
    } else if Middle(s.procs[p]) {
      JobStaysMiddle(c, s, p, k, i);
    } else {
      JobStaysLate(c, s, p, k, i);
    }
  }

  /** A call's job does not change. */
  predicate JobStays(q: Proc, q': Proc) {
    q'.Unlock? || (HasJob(q) && HasJob(q') && q'.job == q.job)
  }

  lemma JobStaysEarly(c: Config, s: State, p: ProcId, k: nat, i: Inode)
    requires Can(c, s, Work(p, k, i)) && Early(s.procs[p])
    ensures p in JobStep(c, s, p, k, i).procs ==> JobStays(s.procs[p], JobStep(c, s, p, k, i).procs[p])
  {
  }

  lemma JobStaysMiddle(c: Config, s: State, p: ProcId, k: nat, i: Inode)
    requires Can(c, s, Work(p, k, i)) && Middle(s.procs[p])
    ensures p in JobStep(c, s, p, k, i).procs ==> JobStays(s.procs[p], JobStep(c, s, p, k, i).procs[p])
  {
  }

  lemma JobStaysLate(c: Config, s: State, p: ProcId, k: nat, i: Inode)
    requires Can(c, s, Work(p, k, i)) && Late(s.procs[p])
    ensures p in JobStep(c, s, p, k, i).procs ==> JobStays(s.procs[p], JobStep(c, s, p, k, i).procs[p])
  {
  }

  lemma EraseKeepsRole(s: State, p: ProcId, role: Role)
    requires p in s.procs && RoleOk(s.procs[p], role)
    ensures p in EraseStep(s, p).procs ==> RoleOk(EraseStep(s, p).procs[p], role)
  {
  }

  lemma CallStarts(c: Config, s: State, l: Label, p: ProcId) returns (role: Role)
    requires Can(c, s, l) && p !in s.procs && p in Apply(c, s, l).procs
    ensures Begins(l, p, role) && RoleOk(Apply(c, s, l).procs[p], role)
  {
    if !IsOf(l, p) { OthersStay(c, s, l, p); }
    role := if l.Begin? then Does(l.job) else if l.BeginErase? then Erases(l.ns) else Reclaims;
  }

  /** Every call under way began with a step of its own, and is where a call of that
      kind can be. */
  lemma {:induction false} CallOf(c: Config, run: seq<State>, labels: seq<Label>, p: ProcId, i: nat)
    returns (role: Role, j: nat)
    requires Labelled(c, run, labels) && i < |run| && p in run[i].procs
    ensures InCall(run, labels, p, role, j, i) && RoleOk(run[i].procs[p], role)
    decreases i
  {
    assert i > 0;
    assert StepIs(c, run, labels, i - 1) && Under(run, p, i);
    if p in run[i - 1].procs {
      role, j := CallOf(c, run, labels, p, i - 1);
      RoleStep(c, run[i - 1], labels[i - 1], p, role);
    } else {
      role := CallStarts(c, run[i - 1], labels[i - 1], p);
      j := i - 1;
    }
  }

  // ------------------------------------------------------- entries, step by step

  /** The only steps that change an entry's blob, and what they change. */
  predicate EntryChange(s: State, l: Label, s': State, ns: Namespace) {
    var path := Blob(Repo(ns));
    && (path in s.links && path in s'.links ==> s'.links[path] == s.links[path])
    && (path !in s.links && path in s'.links ==>
          && l.Work? && l.p in s.procs && s.procs[l.p].Rename? && s.procs[l.p].job.ns == ns
          && var stage := Stage(s.procs[l.p].k);
             && Blob(stage) in s.links && s'.links[path] == s.links[Blob(stage)]
             && stage in s.labels && Repo(ns) in s'.labels && s'.labels[Repo(ns)] == s.labels[stage])
    && (path in s.links && path !in s'.links ==> l.Work? && l.p in s.procs && s.procs[l.p] == EraseBlob(ns))
  }

  lemma JobEntryStep(c: Config, s: State, p: ProcId, k: nat, i: Inode, ns: Namespace)
    requires Inv(c, s) && Can(c, s, Work(p, k, i)) && HasJob(s.procs[p])
    ensures EntryChange(s, Work(p, k, i), JobStep(c, s, p, k, i), ns)
  {
    if Early(s.procs[p]) {
      JobEntryStepEarly(c, s, p, k, i, ns);
    } else if Middle(s.procs[p]) {
      JobEntryStepMiddle(c, s, p, k, i, ns);
    } else {
      if s.procs[p].Clear? { ClearsNoEntry(c, s, p); }
      JobEntryStepLate(c, s, p, k, i, ns);
    }
  }

  lemma ClearsNoEntry(c: Config, s: State, p: ProcId)
    requires Inv(c, s) && p in s.procs && s.procs[p].Clear?
    ensures Blob(Repo(s.procs[p].job.ns)) !in s.links
  {
  }

  lemma JobEntryStepEarly(c: Config, s: State, p: ProcId, k: nat, i: Inode, ns: Namespace)
    requires Can(c, s, Work(p, k, i)) && Early(s.procs[p])
    ensures EntryChange(s, Work(p, k, i), JobStep(c, s, p, k, i), ns)
  {
  }

  lemma JobEntryStepMiddle(c: Config, s: State, p: ProcId, k: nat, i: Inode, ns: Namespace)
    requires Can(c, s, Work(p, k, i)) && Middle(s.procs[p])
    ensures EntryChange(s, Work(p, k, i), JobStep(c, s, p, k, i), ns)
  {
  }

  lemma JobEntryStepLate(c: Config, s: State, p: ProcId, k: nat, i: Inode, ns: Namespace)
    requires Can(c, s, Work(p, k, i)) && Late(s.procs[p])
    requires s.procs[p].Clear? ==> Blob(Repo(s.procs[p].job.ns)) !in s.links
    ensures EntryChange(s, Work(p, k, i), JobStep(c, s, p, k, i), ns)
  {
  }

  lemma EntryStep(c: Config, s: State, l: Label, ns: Namespace)
    requires Inv(c, s) && Can(c, s, l)
    ensures EntryChange(s, l, Apply(c, s, l), ns)
  {
    if l.Work? && HasJob(s.procs[l.p]) { JobEntryStep(c, s, l.p, l.k, l.i, ns); }
  }

  /** An entry that appears is one a call was asked to make in that namespace: what it
      staged, with the labels it staged. */
  lemma EntryMade(c: Config, run: seq<State>, labels: seq<Label>, ns: Namespace, i: nat)
    returns (p: ProcId, job: Job, k: nat, j: nat)
    requires Labelled(c, run, labels) && i < |labels|
    requires Blob(Repo(ns)) !in run[i].links && Blob(Repo(ns)) in run[i + 1].links
    ensures InCall(run, labels, p, Does(job), j, i) && job.ns == ns
    ensures p in run[i].procs && run[i].procs[p].Rename? && run[i].procs[p].k == k && run[i].procs[p].job == job
    ensures Blob(Stage(k)) in run[i].links && run[i + 1].links[Blob(Repo(ns))] == run[i].links[Blob(Stage(k))]
    ensures Stage(k) in run[i].labels && Repo(ns) in run[i + 1].labels
    ensures run[i + 1].labels[Repo(ns)] == run[i].labels[Stage(k)]
  {
    LabelledInv(c, run, labels, i);
    assert StepIs(c, run, labels, i);
    EntryStep(c, run[i], labels[i], ns);
    p := labels[i].p;
    job, k := run[i].procs[p].job, run[i].procs[p].k;
    var role;
    role, j := CallOf(c, run, labels, p, i);
  }

  /** An entry that disappears is one a call was asked to erase. */
  lemma EntryTaken(c: Config, run: seq<State>, labels: seq<Label>, ns: Namespace, i: nat) returns (p: ProcId, j: nat)
    requires Labelled(c, run, labels) && i < |labels|
    requires Blob(Repo(ns)) in run[i].links && Blob(Repo(ns)) !in run[i + 1].links
    ensures InCall(run, labels, p, Erases(ns), j, i)
  {
    LabelledInv(c, run, labels, i);
    assert StepIs(c, run, labels, i);
    EntryStep(c, run[i], labels[i], ns);
    p := labels[i].p;
    var role;
    role, j := CallOf(c, run, labels, p, i);
  }

  // ------------------------------------------------------------- staged labels

  /** No two calls have the same stage directory. */
  predicate Distinct(s: State) {
    forall p <- s.procs.Keys, q <- s.procs.Keys | p != q && HasStage(s.procs[p]) && HasStage(s.procs[q]) ::
      s.procs[p].k != s.procs[q].k
  }

  /** How a step moves the call that has a stage directory. */
  predicate StageMove(s: State, l: Label, s': State, p: ProcId) {
    p in s'.procs && HasStage(s'.procs[p]) ==>
      && p in s.procs
      && (if HasStage(s.procs[p]) then s'.procs[p].k == s.procs[p].k
          else l.Work? && l.p == p && StageFree(s, s'.procs[p].k))
  }

  lemma StageStep(c: Config, s: State, l: Label, p: ProcId)
    requires Can(c, s, l)
    ensures StageMove(s, l, Apply(c, s, l), p)
  {
    if !IsOf(l, p) {
      OthersStay(c, s, l, p);
    } else if l.Work? && HasJob(s.procs[p]) {
      JobStageStep(c, s, p, l.k, l.i);
    }
  }

  lemma JobStageStep(c: Config, s: State, p: ProcId, k: nat, i: Inode)
    requires Can(c, s, Work(p, k, i)) && HasJob(s.procs[p])
    ensures StageMove(s, Work(p, k, i), JobStep(c, s, p, k, i), p)
  {
  }

  lemma DistinctStep(c: Config, s: State, l: Label)
    requires Can(c, s, l) && Distinct(s)
    ensures Distinct(Apply(c, s, l))
  {
    var s' := Apply(c, s, l);
    forall p <- s'.procs.Keys, q <- s'.procs.Keys | p != q && HasStage(s'.procs[p]) && HasStage(s'.procs[q])
      ensures s'.procs[p].k != s'.procs[q].k
    {
      StageStep(c, s, l, p);
      StageStep(c, s, l, q);
    }
  }

  lemma {:induction false} LabelledDistinct(c: Config, run: seq<State>, labels: seq<Label>, i: nat)
    requires Labelled(c, run, labels) && i < |run|
    ensures Distinct(run[i])
  {
    if i > 0 {
      LabelledDistinct(c, run, labels, i - 1);
      assert StepIs(c, run, labels, i - 1);
      DistinctStep(c, run[i - 1], labels[i - 1]);
    }
  }

  /** What the stage directory of a call's job says: the job's labels, or for a Link
      those of the entry it links, if it has any. */
  predicate AskedLabels(s: State, job: Job, labels: Labels) {
    if job.LinkFrom? then labels == (if Repo(job.from) in s.labels then s.labels[Repo(job.from)] else map[])
    else labels == job.labels
  }

  predicate StagedAs(s: State, p: ProcId, job: Job, labels: Labels) {
    && p in s.procs && HasStage(s.procs[p]) && s.procs[p].job == job
    && Stage(s.procs[p].k) in s.labels && s.labels[Stage(s.procs[p].k)] == labels
  }

  /** What becomes of the labels in a job's stage directory in a step of its own. */
  predicate OwnLabelsStay(s: State, s': State, p: ProcId)
    requires p in s.procs && HasJob(s.procs[p])
  {
    p in s'.procs && HasStage(s'.procs[p]) ==>
      && s'.procs[p].job == s.procs[p].job && Stage(s'.procs[p].k) in s'.labels
      && var after := s'.labels[Stage(s'.procs[p].k)];
         if !HasStage(s.procs[p]) then AskedLabels(s, s.procs[p].job, after)
         else Stage(s.procs[p].k) in s.labels ==> after == s.labels[Stage(s.procs[p].k)]
  }

  lemma OwnLabels(c: Config, s: State, p: ProcId, k: nat, i: Inode)
    requires Can(c, s, Work(p, k, i)) && HasJob(s.procs[p])
    requires HasStage(s.procs[p]) ==> Stage(s.procs[p].k) in s.labels
    ensures OwnLabelsStay(s, JobStep(c, s, p, k, i), p)
  {
    if Early(s.procs[p]) {
      OwnLabelsEarly(c, s, p, k, i);
    } else if Middle(s.procs[p]) {
      OwnLabelsMiddle(c, s, p, k, i);
    } else {
      OwnLabelsLate(c, s, p, k, i);
    }
  }

  lemma OwnLabelsEarly(c: Config, s: State, p: ProcId, k: nat, i: Inode)
    requires Can(c, s, Work(p, k, i)) && Early(s.procs[p])
    requires HasStage(s.procs[p]) ==> Stage(s.procs[p].k) in s.labels
    ensures OwnLabelsStay(s, JobStep(c, s, p, k, i), p)
  {
  }

  lemma OwnLabelsMiddle(c: Config, s: State, p: ProcId, k: nat, i: Inode)
    requires Can(c, s, Work(p, k, i)) && Middle(s.procs[p])
    requires HasStage(s.procs[p]) ==> Stage(s.procs[p].k) in s.labels
    ensures OwnLabelsStay(s, JobStep(c, s, p, k, i), p)
  {
  }

  lemma OwnLabelsLate(c: Config, s: State, p: ProcId, k: nat, i: Inode)
    requires Can(c, s, Work(p, k, i)) && Late(s.procs[p])
    requires HasStage(s.procs[p]) ==> Stage(s.procs[p].k) in s.labels
    ensures OwnLabelsStay(s, JobStep(c, s, p, k, i), p)
  {
  }

  lemma OtherLabels(c: Config, s: State, l: Label, p: ProcId)
    requires Can(c, s, l) && Distinct(s) && !IsOf(l, p) && p in s.procs && HasStage(s.procs[p])
    requires Stage(s.procs[p].k) in s.labels
    ensures var stage := Stage(s.procs[p].k);
            stage in Apply(c, s, l).labels && Apply(c, s, l).labels[stage] == s.labels[stage]
  {
    if l.Work? { OtherWorkLabels(c, s, l.p, l.k, l.i, p); }
  }

  lemma OtherWorkLabels(c: Config, s: State, q: ProcId, k: nat, i: Inode, p: ProcId)
    requires Can(c, s, Work(q, k, i)) && Distinct(s) && q != p && p in s.procs && HasStage(s.procs[p])
    requires Stage(s.procs[p].k) in s.labels
    ensures LabelStays(s, WorkStep(c, s, q, k, i), Stage(s.procs[p].k))
  {
    var stage := Stage(s.procs[p].k);
    if !HasJob(s.procs[q]) {
      EraseLeavesStage(s, q, stage);
    } else if Early(s.procs[q]) {
      JobLeavesStageEarly(c, s, q, k, i, stage);
    } else {
      JobLeavesStageLate(c, s, q, k, i, stage);
    }
  }

  predicate LabelStays(s: State, s': State, dir: Dir) {
    dir in s.labels ==> dir in s'.labels && s'.labels[dir] == s.labels[dir]
  }

  lemma EraseLeavesStage(s: State, q: ProcId, stage: Dir)
    requires q in s.procs && stage.Stage?
    ensures LabelStays(s, EraseStep(s, q), stage)
  {
  }

  lemma JobLeavesStageEarly(c: Config, s: State, q: ProcId, k: nat, i: Inode, stage: Dir)
    requires Can(c, s, Work(q, k, i)) && Early(s.procs[q]) && stage.Stage? && stage in s.labels
    ensures LabelStays(s, JobStep(c, s, q, k, i), stage)
  {
  }

  lemma JobLeavesStageLate(c: Config, s: State, q: ProcId, k: nat, i: Inode, stage: Dir)
    requires Can(c, s, Work(q, k, i)) && HasJob(s.procs[q]) && !Early(s.procs[q])
    requires stage.Stage? && stage.k != s.procs[q].k
    ensures LabelStays(s, JobStep(c, s, q, k, i), stage)
  {
  }

  /** A call's stage directory has, for as long as the call does, the labels it was
      asked for at a moment of the call. */
  lemma {:induction false} StageLabels(c: Config, run: seq<State>, labels: seq<Label>, p: ProcId, i: nat)
    returns (n: nat)
    requires Labelled(c, run, labels) && i < |run| && p in run[i].procs && HasStage(run[i].procs[p])
    ensures Stage(run[i].procs[p].k) in run[i].labels
    ensures n < i && AskedLabels(run[n], run[i].procs[p].job, run[i].labels[Stage(run[i].procs[p].k)])
    ensures forall m: nat | n <= m <= i :: Under(run, p, m)
    decreases i
  {
    assert i > 0;
    assert StepIs(c, run, labels, i - 1) && Under(run, p, i);
    var (s, l) := (run[i - 1], labels[i - 1]);
    StageStep(c, s, l, p);
    assert Under(run, p, i - 1);
    if HasStage(s.procs[p]) {
      n := StageLabels(c, run, labels, p, i - 1);
      LabelledDistinct(c, run, labels, i - 1);
      if IsOf(l, p) {
        OwnLabels(c, s, p, l.k, l.i);
      } else {
        OthersStay(c, s, l, p);
        OtherLabels(c, s, l, p);
      }
    } else {
      n := i - 1;
      MakesStage(c, s, l, p);
      OwnLabels(c, s, p, l.k, l.i);
    }
  }

  lemma MakesStage(c: Config, s: State, l: Label, p: ProcId)
    requires Can(c, s, l) && p in s.procs && !HasStage(s.procs[p])
    requires p in Apply(c, s, l).procs && HasStage(Apply(c, s, l).procs[p])
    ensures l.Work? && l.p == p && HasJob(s.procs[p])
  {
    if !IsOf(l, p) { OthersStay(c, s, l, p); }
  }

  /** So an entry that appears has the labels that were asked for: the job's own, or
      those the source's entry had at a moment of the Link. */
  lemma EntryLabels(c: Config, run: seq<State>, labels: seq<Label>, ns: Namespace, i: nat)
    returns (p: ProcId, job: Job, j: nat, n: nat)
    requires Labelled(c, run, labels) && i < |labels|
    requires Blob(Repo(ns)) !in run[i].links && Blob(Repo(ns)) in run[i + 1].links
    ensures InCall(run, labels, p, Does(job), j, i) && job.ns == ns
    ensures n < i && Repo(ns) in run[i + 1].labels && AskedLabels(run[n], job, run[i + 1].labels[Repo(ns)])
  {
    var k;
    p, job, k, j := EntryMade(c, run, labels, ns, i);
    n := StageLabels(c, run, labels, p, i);
  }

  // ------------------------------------------------------------------ outcomes

  predicate HasEntry(run: seq<State>, ns: Namespace, k: nat)
    requires k < |run|
  {
    Blob(Repo(ns)) in run[k].links
  }

  predicate InTheWay(run: seq<State>, ns: Namespace, k: nat)
    requires k < |run|
  {
    DirExists(run[k], Repo(ns))
  }

  predicate Had(run: seq<State>, ns: Namespace, has: bool, j: nat, i: nat)
    requires i < |run|
  {
    exists k: nat | j < k <= i :: HasEntry(run, ns, k) == has
  }

  predicate WasInTheWay(run: seq<State>, ns: Namespace, j: nat, i: nat)
    requires i < |run|
  {
    exists k: nat | j < k <= i :: InTheWay(run, ns, k)
  }

  predicate HasLabels(run: seq<State>, ns: Namespace, k: nat)
    requires k < |run|
  {
    Repo(ns) in run[k].labels
  }

  predicate HadNoLabels(run: seq<State>, ns: Namespace, j: nat, i: nat)
    requires i < |run|
  {
    exists k: nat | j < k <= i :: !HasLabels(run, ns, k)
  }

  /** Nothing to clean up: the share path is gone, or not the inode's only name. */
  predicate Clean(s: State) { Share in s.links ==> Nlink(s.links, s.links[Share]) > 1 }

  predicate CleanAt(run: seq<State>, k: nat)
    requires k < |run|
  {
    Clean(run[k])
  }

  predicate WasClean(run: seq<State>, j: nat, i: nat)
    requires i < |run|
  {
    exists k: nat | j < k <= i :: CleanAt(run, k)
  }

  /** How far a call has got. */
  predicate Done(run: seq<State>, q: Proc, role: Role, j: nat, i: nat)
    requires i < |run|
  {
    match role
    case Does(job) =>
      && (q.Unlock? ==> Had(run, job.ns, true, j, i) || WasInTheWay(run, job.ns, j, i))
      && (q.Clear? ==> WasInTheWay(run, job.ns, j, i))
      && (q.Rename? && q.tries > 0 ==> WasInTheWay(run, job.ns, j, i))
    case Erases(ns) =>
      && (!q.EraseBlob? ==> Had(run, ns, false, j, i))
      && (!q.EraseBlob? && !q.EraseLabels? ==> HadNoLabels(run, ns, j, i))
      && (q.Unlock? ==> WasClean(run, j, i))
    case Reclaims => q.Unlock? ==> WasClean(run, j, i)
  }

  lemma {:induction false} CallDoes(c: Config, run: seq<State>, labels: seq<Label>,
                                    p: ProcId, role: Role, j: nat, i: nat)
    requires Labelled(c, run, labels) && InCall(run, labels, p, role, j, i)
    ensures p in run[i].procs && RoleOk(run[i].procs[p], role) && Done(run, run[i].procs[p], role, j, i)
  {
    if i > j + 1 {
      Shorter(run, labels, p, role, j, i);
      CallDoes(c, run, labels, p, role, j, i - 1);
      RoleAfter(c, run, labels, p, role, i);
      DoesMore(c, run, labels, p, role, j, i);
    } else {
      assert StepIs(c, run, labels, j);
      CallIsNew(c, run[j], labels[j], p, role);
    }
  }

  lemma Shorter(run: seq<State>, labels: seq<Label>, p: ProcId, role: Role, j: nat, i: nat)
    requires InCall(run, labels, p, role, j, i) && j + 1 < i
    ensures InCall(run, labels, p, role, j, i - 1) && p in run[i].procs
  {
    assert Under(run, p, i);
  }

  lemma RoleAfter(c: Config, run: seq<State>, labels: seq<Label>, p: ProcId, role: Role, i: nat)
    requires Labelled(c, run, labels) && 0 < i < |run| && p in run[i - 1].procs && p in run[i].procs
    requires RoleOk(run[i - 1].procs[p], role)
    ensures RoleOk(run[i].procs[p], role)
  {
    assert StepIs(c, run, labels, i - 1);
    RoleStep(c, run[i - 1], labels[i - 1], p, role);
  }

  lemma CallIsNew(c: Config, s: State, l: Label, p: ProcId, role: Role)
    requires Can(c, s, l) && Begins(l, p, role)
    ensures var s' := Apply(c, s, l);
            && p in s'.procs && RoleOk(s'.procs[p], role)
            && (s'.procs[p].Want? || s'.procs[p].EraseBlob? || s'.procs[p].Peek?)
  {
  }

  lemma DoesMore(c: Config, run: seq<State>, labels: seq<Label>, p: ProcId, role: Role, j: nat, i: nat)
    requires Labelled(c, run, labels) && j + 1 < i < |run| && p in run[i - 1].procs && p in run[i].procs
    requires RoleOk(run[i - 1].procs[p], role) && Done(run, run[i - 1].procs[p], role, j, i - 1)
    ensures Done(run, run[i].procs[p], role, j, i)
  {
    assert StepIs(c, run, labels, i - 1);
    var (s, l) := (run[i - 1], labels[i - 1]);
    if !IsOf(l, p) {
      OthersStay(c, s, l, p);
    } else if role.Does? && l.Work? && HasJob(s.procs[p]) {
      JobDoes(c, s, p, l.k, l.i);
      assert HasEntry(run, role.job.ns, i) <==> Blob(Repo(role.job.ns)) in run[i].links;
      assert HasEntry(run, role.job.ns, i - 1) <==> Blob(Repo(role.job.ns)) in s.links;
      assert InTheWay(run, role.job.ns, i - 1) <==> DirExists(s, Repo(role.job.ns));
    } else if !role.Does? {
      EraseDoesMore(c, run, labels, p, role, j, i);
    }
  }

  lemma EraseDoesMore(c: Config, run: seq<State>, labels: seq<Label>, p: ProcId, role: Role, j: nat, i: nat)
    requires |run| == |labels| + 1 && j + 1 < i < |run| && StepIs(c, run, labels, i - 1)
    requires p in run[i - 1].procs && p in run[i].procs && IsOf(labels[i - 1], p)
    requires RoleOk(run[i - 1].procs[p], role) && Done(run, run[i - 1].procs[p], role, j, i - 1) && !role.Does?
    ensures Done(run, run[i].procs[p], role, j, i)
  {
    if labels[i - 1].Work? { EraseDoes(run[i - 1], p, role); }
    if role.Erases? {
      assert HasEntry(run, role.ns, i) <==> Blob(Repo(role.ns)) in run[i].links;
      assert HasLabels(run, role.ns, i) <==> Repo(role.ns) in run[i].labels;
    }
    assert CleanAt(run, i) <==> Clean(run[i]);
    assert CleanAt(run, i - 1) <==> Clean(run[i - 1]);
  }

  lemma EraseDoes(s: State, p: ProcId, role: Role)
    requires p in s.procs && !role.Does? && RoleOk(s.procs[p], role) && p in EraseStep(s, p).procs
    ensures var (q, s') := (s.procs[p], EraseStep(s, p));
            var q' := s'.procs[p];
            && (role.Erases? && q.EraseBlob? ==> Blob(Repo(role.ns)) !in s'.links && q'.EraseLabels?)
            && (role.Erases? && q.EraseLabels? ==> Repo(role.ns) !in s'.labels)
            && (!q.EraseBlob? ==> !q'.EraseBlob? && !q'.EraseLabels?)
            && (q'.Unlock? ==> Clean(s) || Clean(s'))
  {
  }

  /** Where a job's call gets to its end, its namespace has the entry, or has something
      in its place. */
  predicate JobDone(s: State, s': State, p: ProcId)
    requires p in s.procs && HasJob(s.procs[p]) && p in s'.procs
  {
    var (q, q') := (s.procs[p], s'.procs[p]);
    && (q'.Unlock? ==> q.Clear? || Blob(Repo(q.job.ns)) in s.links || Blob(Repo(q.job.ns)) in s'.links)
    && (q'.Clear? ==> DirExists(s, Repo(q.job.ns)))
    && (q'.Rename? && q'.tries > 0 ==> q.Clear?)
  }

  lemma JobDoes(c: Config, s: State, p: ProcId, k: nat, i: Inode)
    requires Can(c, s, Work(p, k, i)) && HasJob(s.procs[p]) && p in JobStep(c, s, p, k, i).procs
    ensures JobDone(s, JobStep(c, s, p, k, i), p)
  {
    if Early(s.procs[p]) {
      JobDoesEarly(c, s, p, k, i);
    } else if Middle(s.procs[p]) {
      JobDoesMiddle(c, s, p, k, i);
    } else {
      JobDoesLate(c, s, p, k, i);
    }
  }

  lemma JobDoesEarly(c: Config, s: State, p: ProcId, k: nat, i: Inode)
    requires Can(c, s, Work(p, k, i)) && Early(s.procs[p]) && p in JobStep(c, s, p, k, i).procs
    ensures JobDone(s, JobStep(c, s, p, k, i), p)
  {
  }

  lemma JobDoesMiddle(c: Config, s: State, p: ProcId, k: nat, i: Inode)
    requires Can(c, s, Work(p, k, i)) && Middle(s.procs[p]) && p in JobStep(c, s, p, k, i).procs
    ensures JobDone(s, JobStep(c, s, p, k, i), p)
  {
  }

  lemma JobDoesLate(c: Config, s: State, p: ProcId, k: nat, i: Inode)
    requires Can(c, s, Work(p, k, i)) && Late(s.procs[p]) && p in JobStep(c, s, p, k, i).procs
    ensures JobDone(s, JobStep(c, s, p, k, i), p)
  {
  }

  /** What a call has done when it releases the lock, or ends: the namespace of a
      publication had the entry at a moment of the call, or something else was in its
      place; an erased one had none, nor its labels; and after an Erase or a Reclaim
      there was nothing to clean up. */
  lemma CallEnds(c: Config, run: seq<State>, labels: seq<Label>, p: ProcId, role: Role, j: nat, i: nat)
    requires Labelled(c, run, labels) && InCall(run, labels, p, role, j, i)
    ensures p in run[i].procs
    ensures role.Does? && run[i].procs[p].Unlock? ==>
              Had(run, role.job.ns, true, j, i) || WasInTheWay(run, role.job.ns, j, i)
    ensures !role.Does? && i < |labels| && p !in run[i + 1].procs && labels[i] != Crash(p) ==>
              && WasClean(run, j, i)
              && (role.Erases? ==> Had(run, role.ns, false, j, i) && HadNoLabels(run, role.ns, j, i))
  {
    CallDoes(c, run, labels, p, role, j, i);
    if i < |labels| && p !in run[i + 1].procs {
      assert StepIs(c, run, labels, i);
      if !IsOf(labels[i], p) { OthersStay(c, run[i], labels[i], p); }
      assert CleanAt(run, i) <==> Clean(run[i]);
    }
  }
}
