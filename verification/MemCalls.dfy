/** Whose entry a call of the in-memory store makes or takes: the runs of MemRefs
    with the calls they are made of. */
module MemCalls {
  import opened Basics
  import opened MemRefs

  /** What a call was asked to do. */
  datatype Role = Publishes(to: Store) | Links(to: Store, from: Store) | Erases(at: Store)

  predicate Begins(l: Label, p: ProcId, role: Role) {
    match role
    case Publishes(to) => l == BeginPublish(p, to)
    case Links(to, from) => l == BeginLink(p, to, from)
    case Erases(at) => l == BeginErase(p, at)
  }

  predicate StepIs(run: seq<State>, labels: seq<Label>, i: nat)
    requires i < |labels| && |run| == |labels| + 1
  {
    Can(run[i], labels[i]) && run[i + 1] == Apply(run[i], labels[i])
  }

  /** A run, and the step taken in each of its states. */
  predicate Labelled(run: seq<State>, labels: seq<Label>) {
    && |run| == |labels| + 1 && run[0] == INIT
    && forall i: nat | i < |labels| :: StepIs(run, labels, i)
  }

  predicate Under(run: seq<State>, p: ProcId, i: nat)
    requires i < |run|
  {
    p in run[i].procs
  }

  /** The call of p that is under way at i began in step j, with this role. */
  predicate InCall(run: seq<State>, labels: seq<Label>, p: ProcId, role: Role, j: nat, i: nat) {
    && |run| == |labels| + 1 && j < i < |run| && Begins(labels[j], p, role)
    && forall k: nat | j < k <= i :: Under(run, p, k)
  }

  /** Where a call of this role can be. */
  predicate RoleOk(q: Proc, role: Role) {
    match q
    case PubOffer(to, _) => role == Publishes(to)
    case PubWait(to, _, _) => role == Publishes(to)
    case PubCheck(to, _, _) => role == Publishes(to)
    case PubStore(to, _) => role == Publishes(to)
    case LinkLoad(to, from) => role == Links(to, from)
    case LinkWait(to, from, _) => role == Links(to, from)
    case LinkCheck(to, from, _) => role == Links(to, from)
    case LinkStore(to, _) => role.Links? && role.to == to
    case Count(_) => !role.Erases?
    case Leave(_) => true
    case EraseLoad(at) => role == Erases(at)
    case _ => role.Erases?
  }

  lemma RoleStep(s: State, l: Label, p: ProcId, role: Role)
    requires Can(s, l) && p in s.procs && RoleOk(s.procs[p], role)
    ensures p in Apply(s, l).procs ==> RoleOk(Apply(s, l).procs[p], role)
  {
    if l.p != p {
      OthersStay(s, l, p);
    } else if l.Work? {
      WorkKeepsRole(s, p, role);
    }
  }

  /** A step is of one call; the others stay where they are. */
  lemma OthersStay(s: State, l: Label, p: ProcId)
    requires Can(s, l) && l.p != p
    ensures p in Apply(s, l).procs <==> p in s.procs
    ensures p in s.procs ==> Apply(s, l).procs[p] == s.procs[p]
  {
    if l.Work? { OthersStayAtWork(s, l.p, p); }
  }

  /** A call that has yet to store an entry, or to find that it will not. */
  predicate Entering(q: Proc) { q.PubCheck? || q.PubStore? || q.LinkLoad? || q.LinkCheck? || q.LinkStore? }

  /** The calls other than q's. */
  predicate Alone(s: State, s': State, q: ProcId, p: ProcId) {
    p != q ==> (p in s'.procs <==> p in s.procs) && (p in s.procs ==> s'.procs[p] == s.procs[p])
  }

  lemma OthersStayAtWork(s: State, q: ProcId, p: ProcId)
    requires Can(s, Work(q))
    ensures Alone(s, WorkStep(s, q), q, p)
  {
    if Entering(s.procs[q]) { EntersAlone(s, q, p); } else { LeavesAlone(s, q, p); }
  }

  lemma EntersAlone(s: State, q: ProcId, p: ProcId)
    requires Can(s, Work(q)) && Entering(s.procs[q])
    ensures Alone(s, WorkStep(s, q), q, p)
  {
  }

  lemma LeavesAlone(s: State, q: ProcId, p: ProcId)
    requires Can(s, Work(q)) && !Entering(s.procs[q])
    ensures Alone(s, WorkStep(s, q), q, p)
  {
  }

  lemma WorkKeepsRole(s: State, p: ProcId, role: Role)
    requires Can(s, Work(p)) && RoleOk(s.procs[p], role)
    ensures p in WorkStep(s, p).procs ==> RoleOk(WorkStep(s, p).procs[p], role)
  {
    if Entering(s.procs[p]) { EntersKeepRole(s, p, role); } else { LeavesKeepRole(s, p, role); }
  }

  lemma EntersKeepRole(s: State, p: ProcId, role: Role)
    requires Can(s, Work(p)) && RoleOk(s.procs[p], role) && Entering(s.procs[p])
    ensures p in WorkStep(s, p).procs ==> RoleOk(WorkStep(s, p).procs[p], role)
  {
  }

  lemma LeavesKeepRole(s: State, p: ProcId, role: Role)
    requires Can(s, Work(p)) && RoleOk(s.procs[p], role) && !Entering(s.procs[p])
    ensures p in WorkStep(s, p).procs ==> RoleOk(WorkStep(s, p).procs[p], role)
  {
  }

  lemma CallStarts(s: State, l: Label, p: ProcId) returns (role: Role)
    requires Can(s, l) && p !in s.procs && p in Apply(s, l).procs
    ensures Begins(l, p, role) && RoleOk(Apply(s, l).procs[p], role)
  {
    if l.p != p { OthersStay(s, l, p); }
    role := if l.BeginPublish? then Publishes(l.to) else if l.BeginLink? then Links(l.to, l.from) else Erases(l.at);
  }

  /** Every call under way began with a step of its own, and is where a call of that
      kind can be. */
  lemma {:induction false} CallOf(run: seq<State>, labels: seq<Label>, p: ProcId, i: nat) returns (role: Role, j: nat)
    requires Labelled(run, labels) && i < |run| && p in run[i].procs
    ensures InCall(run, labels, p, role, j, i) && RoleOk(run[i].procs[p], role)
    decreases i
  {
    assert i > 0;
    assert StepIs(run, labels, i - 1);
    if p in run[i - 1].procs {
      role, j := CallOf(run, labels, p, i - 1);
      RoleStep(run[i - 1], labels[i - 1], p, role);
      assert Under(run, p, i);
    } else {
      role := CallStarts(run[i - 1], labels[i - 1], p);
      j := i - 1;
      assert Under(run, p, i);
    }
  }

  /** A call keeps the role it began with. */
  lemma {:induction false} CallKeepsRole(run: seq<State>, labels: seq<Label>, p: ProcId, role: Role, j: nat, i: nat)
    requires Labelled(run, labels) && InCall(run, labels, p, role, j, i)
    ensures p in run[i].procs && RoleOk(run[i].procs[p], role)
  {
    assert Under(run, p, i) && StepIs(run, labels, i - 1);
    if j + 1 < i {
      assert InCall(run, labels, p, role, j, i - 1);
      CallKeepsRole(run, labels, p, role, j, i - 1);
      RoleStep(run[i - 1], labels[i - 1], p, role);
    }
  }

  // ------------------------------------------------------- entries, step by step

  /** The only steps that change an entry, and what they change. */
  lemma EntryStep(s: State, l: Label, st: Store)
    requires Can(s, l)
    ensures var s' := Apply(s, l);
            && (st in s.entries && st in s'.entries ==> s'.entries[st] == s.entries[st])
            && (st !in s.entries && st in s'.entries ==>
                  && l.Work? && s'.entries[st] == Entry(s.nextEntry, s.procs[l.p].b)
                  && (s.procs[l.p].PubStore? || s.procs[l.p].LinkStore?) && s.procs[l.p].to == st)
            && (st in s.entries && st !in s'.entries ==>
                  l.Work? && s.procs[l.p] == EraseLoad(st))
  {
  }

  /** An entry that appears is one a call was asked to make in that namespace. */
  lemma EntryMade(run: seq<State>, labels: seq<Label>, st: Store, i: nat) returns (p: ProcId, role: Role, j: nat)
    requires Labelled(run, labels) && i < |labels| && st !in run[i].entries && st in run[i + 1].entries
    ensures labels[i] == Work(p) && InCall(run, labels, p, role, j, i)
    ensures role == Publishes(st) || (role.Links? && role.to == st)
    ensures p in run[i].procs && RoleOk(run[i].procs[p], role)
    ensures (role.Links? ==> run[i].procs[p] == LinkStore(st, run[i + 1].entries[st].blob))
  {
    assert StepIs(run, labels, i);
    EntryStep(run[i], labels[i], st);
    p := labels[i].p;
    role, j := CallOf(run, labels, p, i);
  }

  /** An entry that disappears is one a call was asked to erase. */
  lemma EntryTaken(run: seq<State>, labels: seq<Label>, st: Store, i: nat) returns (p: ProcId, j: nat)
    requires Labelled(run, labels) && i < |labels| && st in run[i].entries && st !in run[i + 1].entries
    ensures labels[i] == Work(p) && InCall(run, labels, p, Erases(st), j, i)
  {
    assert StepIs(run, labels, i);
    EntryStep(run[i], labels[i], st);
    p := labels[i].p;
    var role;
    role, j := CallOf(run, labels, p, i);
  }

  /** And nothing replaces one. */
  lemma EntryStays(run: seq<State>, labels: seq<Label>, st: Store, i: nat)
    requires Labelled(run, labels) && i < |labels| && st in run[i].entries && st in run[i + 1].entries
    ensures run[i + 1].entries[st] == run[i].entries[st]
  {
    assert StepIs(run, labels, i);
    EntryStep(run[i], labels[i], st);
  }

  // ------------------------------------------------------------------- linking

  predicate AtStore(run: seq<State>, p: ProcId, to: Store, b: BlobId, k: nat)
    requires k < |run|
  {
    p in run[k].procs && run[k].procs[p] == LinkStore(to, b)
  }

  /** What leads to a Link's store: its own recheck, which found the entry it loaded. */
  lemma LinkStoreStep(s: State, l: Label, p: ProcId, to: Store, b: BlobId)
    requires Can(s, l) && p in Apply(s, l).procs && Apply(s, l).procs[p] == LinkStore(to, b)
    ensures p in s.procs && (s.procs[p] == LinkStore(to, b) ||
                             (l == Work(p) && s.procs[p].LinkCheck? && s.procs[p].to == to
                              && var from := s.procs[p].from; from in s.entries && s.entries[from].blob == b))
  {
    if l.p != p {
      OthersStay(s, l, p);
    } else if l.Work? {
      OwnLinkStep(s, p, to, b);
    }
  }

  lemma OwnLinkStep(s: State, p: ProcId, to: Store, b: BlobId)
    requires Can(s, Work(p)) && p in WorkStep(s, p).procs && WorkStep(s, p).procs[p] == LinkStore(to, b)
    ensures s.procs[p].LinkCheck? && s.procs[p].to == to
    ensures var from := s.procs[p].from; from in s.entries && s.entries[from].blob == b
  {
  }

  /** A Link that is about to store has found the blob it stores under `from`, in its
      recheck. */
  lemma {:induction false} LinkRechecked(run: seq<State>, labels: seq<Label>,
                                         p: ProcId, to: Store, from: Store, j: nat, i: nat)
    returns (r: nat)
    requires Labelled(run, labels) && InCall(run, labels, p, Links(to, from), j, i)
    requires p in run[i].procs && run[i].procs[p].LinkStore?
    ensures j < r < i && labels[r] == Work(p)
    ensures from in run[r].entries && run[r].entries[from].blob == run[i].procs[p].b
    decreases i
  {
    CallKeepsRole(run, labels, p, Links(to, from), j, i);
    assert StepIs(run, labels, i - 1);
    LinkStoreStep(run[i - 1], labels[i - 1], p, to, run[i].procs[p].b);
    assert StepIs(run, labels, j);
    CallIsNew(run[j], labels[j], p, Links(to, from));
    assert InCall(run, labels, p, Links(to, from), j, i - 1);
    CallKeepsRole(run, labels, p, Links(to, from), j, i - 1);
    if run[i - 1].procs[p].LinkStore? {
      r := LinkRechecked(run, labels, p, to, from, j, i - 1);
    } else {
      r := i - 1;
    }
  }

  lemma CallIsNew(s: State, l: Label, p: ProcId, role: Role)
    requires Can(s, l) && Begins(l, p, role)
    ensures p !in s.procs && p in Apply(s, l).procs && RoleOk(Apply(s, l).procs[p], role)
    ensures Apply(s, l).procs[p].PubOffer? || Apply(s, l).procs[p].LinkLoad? || Apply(s, l).procs[p].EraseLoad?
  {
  }

  /** A Link gives the target the blob of the source, the one it named. */
  lemma LinkCopies(run: seq<State>, labels: seq<Label>, st: Store, i: nat, p: ProcId, from: Store, j: nat)
    returns (r: nat)
    requires Labelled(run, labels) && i < |labels| && st !in run[i].entries && st in run[i + 1].entries
    requires labels[i] == Work(p) && InCall(run, labels, p, Links(st, from), j, i)
    ensures j < r < i && from in run[r].entries && run[i + 1].entries[st].blob == run[r].entries[from].blob
  {
    assert StepIs(run, labels, i);
    EntryStep(run[i], labels[i], st);
    CallKeepsRole(run, labels, p, Links(st, from), j, i);
    r := LinkRechecked(run, labels, p, st, from, j, i);
  }

  // ------------------------------------------------------------------ outcomes

  predicate HasEntry(run: seq<State>, st: Store, k: nat)
    requires k < |run|
  {
    st in run[k].entries
  }

  /** At some moment of the call, st had an entry; or had none. */
  predicate Had(run: seq<State>, st: Store, has: bool, j: nat, i: nat)
    requires i < |run|
  {
    exists k: nat | j < k <= i :: HasEntry(run, st, k) == has
  }

  /** The entry that the call has loaded, if it has. */
  predicate Loaded(q: Proc, e: Entry) { (q.LinkWait? || q.LinkCheck?) && q.e == e }

  /** The source of a Link was not there, or was another one than it had been. */
  predicate Changed(run: seq<State>, st: Store, j: nat, i: nat)
    requires i < |run|
  {
    || Had(run, st, false, j, i)
    || exists k: nat, n: nat :: j < k <= n <= i && Differ(run, st, k, n)
  }

  predicate Differ(run: seq<State>, st: Store, k: nat, n: nat)
    requires k < |run| && n < |run|
  {
    st in run[k].entries && st in run[n].entries && run[k].entries[st] != run[n].entries[st]
  }

  /** How far a call has got. */
  predicate Done(run: seq<State>, q: Proc, role: Role, j: nat, i: nat)
    requires i < |run|
  {
    match role
    case Publishes(to) => q.Count? || q.Leave? ==> Had(run, to, true, j, i)
    case Links(to, from) =>
      && (q.Count? || q.Leave? ==> Had(run, to, true, j, i) || Changed(run, from, j, i))
      && (q.LinkWait? || q.LinkCheck? ==>
            exists k: nat :: j < k <= i && HasEntry(run, from, k) && run[k].entries[from] == q.e)
    case Erases(at) => !q.EraseLoad? ==> Had(run, at, false, j, i)
  }

  lemma {:induction false} CallDoes(run: seq<State>, labels: seq<Label>, p: ProcId, role: Role, j: nat, i: nat)
    requires Labelled(run, labels) && InCall(run, labels, p, role, j, i)
    ensures p in run[i].procs && Done(run, run[i].procs[p], role, j, i)
  {
    assert StepIs(run, labels, i - 1) && Under(run, p, i);
    if i == j + 1 {
      CallIsNew(run[j], labels[j], p, role);
      CallKeepsRole(run, labels, p, role, j, i);
    } else {
      assert InCall(run, labels, p, role, j, i - 1);
      CallDoes(run, labels, p, role, j, i - 1);
      CallKeepsRole(run, labels, p, role, j, i - 1);
      DoesMore(run, labels, p, role, j, i);
    }
  }

  lemma DoesMore(run: seq<State>, labels: seq<Label>, p: ProcId, role: Role, j: nat, i: nat)
    requires Labelled(run, labels) && j + 1 < i < |run|
    requires p in run[i - 1].procs && p in run[i].procs && RoleOk(run[i - 1].procs[p], role)
    requires Done(run, run[i - 1].procs[p], role, j, i - 1)
    ensures Done(run, run[i].procs[p], role, j, i)
  {
    assert StepIs(run, labels, i - 1);
    if labels[i - 1].p != p {
      OthersStay(run[i - 1], labels[i - 1], p);
    } else if role.Publishes? {
      PublishDoesMore(run, labels, p, role.to, j, i);
    } else if role.Erases? {
      EraseDoesMore(run, labels, p, role.at, j, i);
    } else {
      LinkDoesMore(run, labels, p, role.to, role.from, j, i);
    }
  }

  lemma PublishDoesMore(run: seq<State>, labels: seq<Label>, p: ProcId, to: Store, j: nat, i: nat)
    requires Labelled(run, labels) && j + 1 < i < |run| && labels[i - 1].p == p
    requires p in run[i - 1].procs && p in run[i].procs && RoleOk(run[i - 1].procs[p], Publishes(to))
    requires Done(run, run[i - 1].procs[p], Publishes(to), j, i - 1)
    ensures Done(run, run[i].procs[p], Publishes(to), j, i)
  {
    assert StepIs(run, labels, i - 1);
    if run[i - 1].procs[p].PubStore? && !run[i].procs[p].PubStore? { assert HasEntry(run, to, i); }
  }

  lemma EraseDoesMore(run: seq<State>, labels: seq<Label>, p: ProcId, at: Store, j: nat, i: nat)
    requires Labelled(run, labels) && j + 1 < i < |run| && labels[i - 1].p == p
    requires p in run[i - 1].procs && p in run[i].procs && RoleOk(run[i - 1].procs[p], Erases(at))
    requires Done(run, run[i - 1].procs[p], Erases(at), j, i - 1)
    ensures Done(run, run[i].procs[p], Erases(at), j, i)
  {
    assert StepIs(run, labels, i - 1);
    if run[i - 1].procs[p].EraseLoad? { assert !HasEntry(run, at, i); }
  }

  lemma LinkDoesMore(run: seq<State>, labels: seq<Label>, p: ProcId, to: Store, from: Store, j: nat, i: nat)
    requires Labelled(run, labels) && j + 1 < i < |run| && labels[i - 1].p == p
    requires p in run[i - 1].procs && p in run[i].procs && RoleOk(run[i - 1].procs[p], Links(to, from))
    requires Done(run, run[i - 1].procs[p], Links(to, from), j, i - 1)
    ensures Done(run, run[i].procs[p], Links(to, from), j, i)
  {
    assert StepIs(run, labels, i - 1);
    var (q, q') := (run[i - 1].procs[p], run[i].procs[p]);
    if q.LinkLoad? && q'.LinkWait? {
      assert HasEntry(run, from, i - 1);
    } else if q.LinkStore? && !q'.LinkStore? {
      assert HasEntry(run, to, i);
    } else if q.LinkCheck? && q'.Leave? {
      var k: nat :| j < k <= i - 1 && HasEntry(run, from, k) && run[k].entries[from] == q.e;
      if HasEntry(run, from, i - 1) { assert Differ(run, from, k, i - 1); }
    }
  }

  /** Where a call can end. */
  lemma EndStep(s: State, l: Label, p: ProcId)
    requires Can(s, l) && p in s.procs && p !in Apply(s, l).procs
    ensures var q := s.procs[p];
            || (q.LinkLoad? && q.from !in s.entries) || (q.EraseLoad? && q.at !in s.entries)
            || q.Leave? || q.EraseDrop?
  {
    if l.p != p { OthersStay(s, l, p); }
  }

  /** What a call has done when it ends: a publication's namespace had the entry at a
      moment of the call, an erased one had none, and a Link's target had one unless
      the source had none or another one meanwhile. */
  lemma CallEnds(run: seq<State>, labels: seq<Label>, p: ProcId, role: Role, j: nat, i: nat)
    requires Labelled(run, labels) && InCall(run, labels, p, role, j, i) && i < |labels| && p !in run[i + 1].procs
    ensures role.Publishes? ==> Had(run, role.to, true, j, i)
    ensures role.Links? ==> Had(run, role.to, true, j, i) || Changed(run, role.from, j, i)
    ensures role.Erases? ==> Had(run, role.at, false, j, i)
  {
    CallDoes(run, labels, p, role, j, i);
    CallKeepsRole(run, labels, p, role, j, i);
    assert StepIs(run, labels, i);
    EndStep(run[i], labels[i], p);
    if run[i].procs[p].LinkLoad? { assert !HasEntry(run, role.from, i); }
    if run[i].procs[p].EraseLoad? { assert !HasEntry(run, role.at, i); }
  }
}
