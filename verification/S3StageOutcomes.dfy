/** Which calls on an S3 stage may decide what: the parameters a commit was given,
    who closes a stage, and what a pruned stage leaves behind. */
module S3StageOutcomes {
  import opened Basics
  import opened Hashing
  import opened StageSpec
  import opened S3Stage
  import opened S3StageSafety
  import opened S3StageCalls

  /** What a caller asked for is what is frozen: its labels, and no digest or this one. */
  predicate Asked(wanted: Meta, commit: Meta) {
    wanted.labels == commit.labels && (wanted.digest == "" || wanted.digest == commit.digest)
  }

  /** Who may act on a frozen stage: an Abort, and a Commit that asked for it. */
  predicate MayPublish(kind: Kind, commit: Meta) {
    kind.AbortOp? || (kind.CommitOp? && Asked(kind.wanted, commit))
  }

  /** An operation is only where its call can be. */
  predicate KindOk(op: Op) {
    match op.pc
    case Filling(_, _, _) => op.kind.AppendOp?
    case Extending(_, _) => op.kind.AppendOp?
    case Freezing(_, next) => op.kind.CommitOp? && Asked(op.kind.wanted, next.rec.commit)
    case Publishing(m) => MayPublish(op.kind, m.rec.commit)
    case Heading(m) => MayPublish(op.kind, m.rec.commit)
    case Recording(m, next) => MayPublish(op.kind, m.rec.commit) && next.rec == m.rec
    case Assembling(m, _) => MayPublish(op.kind, m.rec.commit)
    case Referring(m) => MayPublish(op.kind, m.rec.commit)
    case Settling(_, next) =>
      if next.rec.phase.Aborted? then op.kind.AbortOp? else MayPublish(op.kind, next.rec.commit)
    case Cleaning(_, objects, expired) =>
      if op.kind.PruneOp? then objects == op.kind.listed else op.kind.CleanOp? && !expired
    case Deleting(_) => op.kind.PruneOp?
    case _ => true
  }

  lemma KindRun(c: Config, s: State, j: nat, l: RunLabel, id: nat)
    requires RunCan(c, s, j, l) && s.manifest.Some? && id in RunStep(c, s, j, l).ops
    requires id in s.ops ==> KindOk(s.ops[id])
    ensures KindOk(RunStep(c, s, j, l).ops[id])
  {
  }

  lemma KindSave(s: State, j: nat, lands: bool, reported: bool, id: nat)
    requires SaveCan(s, j, lands, reported) && id in SaveStep(s, j, lands, reported).ops
    requires id in s.ops ==> KindOk(s.ops[id])
    ensures KindOk(SaveStep(s, j, lands, reported).ops[id])
  {
  }

  lemma KindFill(c: Config, s: State, j: nat, l: FillLabel, id: nat)
    requires FillCan(c, s, j, l) && id in FillStep(c, s, j, l).ops
    requires id in s.ops ==> KindOk(s.ops[id])
    ensures KindOk(FillStep(c, s, j, l).ops[id])
  {
  }

  lemma KindPublish(c: Config, s: State, j: nat, l: PublishLabel, id: nat)
    requires PublishCan(c, s, j, l) && id in PublishStep(c, s, j, l).ops
    requires id in s.ops ==> KindOk(s.ops[id])
    ensures KindOk(PublishStep(c, s, j, l).ops[id])
  {
    if id == j {
      if l.Freeze? || l.Resume? || l.Close? { KindEnters(c, s, id, l); } else { KindGoesOn(c, s, id, l); }
    }
  }

  lemma KindEnters(c: Config, s: State, id: nat, l: PublishLabel)
    requires PublishCan(c, s, id, l) && KindOk(s.ops[id]) && (l.Freeze? || l.Resume? || l.Close?)
    ensures id in PublishStep(c, s, id, l).ops && KindOk(PublishStep(c, s, id, l).ops[id])
  {
  }

  lemma KindGoesOn(c: Config, s: State, id: nat, l: PublishLabel)
    requires PublishCan(c, s, id, l) && KindOk(s.ops[id]) && !l.Freeze? && !l.Resume? && !l.Close?
    ensures id in PublishStep(c, s, id, l).ops && KindOk(PublishStep(c, s, id, l).ops[id])
  {
  }

  lemma KindClean(c: Config, s: State, j: nat, l: CleanLabel, id: nat)
    requires CleanCan(c, s, j, l) && id in CleanStep(c, s, j, l).ops
    requires id in s.ops ==> KindOk(s.ops[id])
    ensures KindOk(CleanStep(c, s, j, l).ops[id])
  {
  }

  lemma KindStep(c: Config, s: State, l: Label, id: nat)
    requires Enabled(c, s, l) && id in Apply(c, s, l).ops
    requires id in s.ops ==> KindOk(s.ops[id])
    ensures KindOk(Apply(c, s, l).ops[id])
  {
    match l
    case Drive(j, x) => KindRun(c, s, j, x, id);
    case Save(j, lands, reported) => KindSave(s, j, lands, reported, id);
    case Fill(j, x) => KindFill(c, s, j, x, id);
    case Publish(j, x) => KindPublish(c, s, j, x, id);
    case Clean(j, x) => KindClean(c, s, j, x, id);
    case _ =>
  }

  lemma {:induction false} KindTrace(c: Config, run: seq<State>, i: nat, id: nat)
    requires Trace(c, run) && i < |run| && id in run[i].ops
    ensures KindOk(run[i].ops[id])
  {
    if i > 0 {
      assert StepAt(c, run, i - 1);
      var l :| Enabled(c, run[i - 1], l) && run[i] == Apply(c, run[i - 1], l);
      if id in run[i - 1].ops { KindTrace(c, run, i - 1, id); }
      KindStep(c, run[i - 1], l, id);
    }
  }

  lemma PhaseSettles(c: Config, s: State, l: Label)
    requires Inv(c, s) && Enabled(c, s, l) && Apply(c, s, l).manifest.Some?
    requires Terminal(Current(Apply(c, s, l))) && !Terminal(Current(s))
    ensures l.Save? && l.lands && l.id in s.ops && s.ops[l.id].pc.Settling?
    ensures s.ops[l.id].pc.next == Current(Apply(c, s, l))
  {
    if l.Save? ==> !l.lands { OthersKeepManifest(c, s, l); } else { assert OpOk(c, s, s.ops[l.id]); }
  }

  /** Whenever a stage is closed it is by an Abort, and whenever one is committed it is
      by an Abort that found it frozen, or a Commit that asked for what is frozen; it is
      kept for the retention time. */
  lemma ClosedBy(c: Config, run: seq<State>, i: nat) returns (id: nat, k: nat)
    requires c.Valid() && Trace(c, run) && i + 1 < |run| && run[i].manifest.Some? && run[i + 1].manifest.Some?
    requires Terminal(Current(run[i + 1])) && !Terminal(Current(run[i]))
    ensures id in run[i].ops
    ensures Current(run[i + 1]).rec.phase.Aborted? ==> run[i].ops[id].kind.AbortOp?
    ensures Current(run[i + 1]).rec.phase.Committed? ==>
              MayPublish(run[i].ops[id].kind, Current(run[i + 1]).rec.commit)
    ensures k < i && Current(run[i + 1]).rec.expires == run[k].now + c.retention
  {
    TraceInv(c, run, i);
    assert StepAt(c, run, i);
    var l :| Enabled(c, run[i], l) && run[i + 1] == Apply(c, run[i], l);
    PhaseSettles(c, run[i], l);
    id := l.id;
    KindTrace(c, run, i, id);
    k := SettledKept(c, run, id, run[i].ops[id].pc, i);
  }

  /** A Commit works on the object and the entry only for the parameters it was given. */
  lemma CommitAsked(c: Config, run: seq<State>, i: nat, id: nat)
    requires Trace(c, run) && i < |run| && id in run[i].ops && run[i].ops[id].kind.CommitOp?
    ensures var (wanted, pc) := (run[i].ops[id].kind.wanted, run[i].ops[id].pc);
            && (pc.Publishing? || pc.Heading? || pc.Assembling? || pc.Referring? ==> Asked(wanted, pc.m.rec.commit))
            && (pc.Settling? ==> Asked(wanted, pc.next.rec.commit))
  {
    KindTrace(c, run, i, id);
  }

  /** An operation about to record this outcome. */
  predicate Settles(s: State, id: nat, pc: Pc) { id in s.ops && pc.Settling? && s.ops[id].pc == pc }

  lemma SettlesRun(c: Config, s: State, j: nat, l: RunLabel, id: nat, pc: Pc)
    requires RunCan(c, s, j, l) && s.manifest.Some? && Settles(RunStep(c, s, j, l), id, pc)
    ensures Settles(s, id, pc)
  {
  }

  lemma SettlesSave(s: State, j: nat, lands: bool, reported: bool, id: nat, pc: Pc)
    requires SaveCan(s, j, lands, reported) && Settles(SaveStep(s, j, lands, reported), id, pc)
    ensures Settles(s, id, pc)
  {
  }

  lemma SettlesFill(c: Config, s: State, j: nat, l: FillLabel, id: nat, pc: Pc)
    requires FillCan(c, s, j, l) && Settles(FillStep(c, s, j, l), id, pc)
    ensures Settles(s, id, pc)
  {
  }

  lemma SettlesPublish(c: Config, s: State, j: nat, l: PublishLabel, id: nat, pc: Pc)
    requires PublishCan(c, s, j, l) && Settles(PublishStep(c, s, j, l), id, pc)
    ensures Settles(s, id, pc) || pc.next.rec.expires == s.now + c.retention
  {
  }

  lemma SettlesClean(c: Config, s: State, j: nat, l: CleanLabel, id: nat, pc: Pc)
    requires CleanCan(c, s, j, l) && Settles(CleanStep(c, s, j, l), id, pc)
    ensures Settles(s, id, pc)
  {
  }

  lemma SettlesStep(c: Config, s: State, l: Label, id: nat, pc: Pc)
    requires Enabled(c, s, l) && Settles(Apply(c, s, l), id, pc)
    ensures Settles(s, id, pc) || pc.next.rec.expires == s.now + c.retention
  {
    match l
    case Drive(j, x) => SettlesRun(c, s, j, x, id, pc);
    case Save(j, lands, reported) => SettlesSave(s, j, lands, reported, id, pc);
    case Fill(j, x) => SettlesFill(c, s, j, x, id, pc);
    case Publish(j, x) => SettlesPublish(c, s, j, x, id, pc);
    case Clean(j, x) => SettlesClean(c, s, j, x, id, pc);
    case _ =>
  }

  /** An outcome is kept for the retention time from when it was settled. */
  lemma {:induction false} SettledKept(c: Config, run: seq<State>, id: nat, pc: Pc, i: nat) returns (k: nat)
    requires Trace(c, run) && i < |run| && Settles(run[i], id, pc)
    ensures k < i && pc.next.rec.expires == run[k].now + c.retention
    ensures forall n: nat | k < n <= i :: Settles(run[n], id, pc)
    decreases i
  {
    assert i > 0;
    assert StepAt(c, run, i - 1);
    var l :| Enabled(c, run[i - 1], l) && run[i] == Apply(c, run[i - 1], l);
    SettlesStep(c, run[i - 1], l, id, pc);
    if Settles(run[i - 1], id, pc) {
      k := SettledKept(c, run, id, pc, i - 1);
    } else {
      k := i - 1;
    }
  }

  // ------------------------------------------------------------------- leases

  /** Whoever's last save succeeds has given the lease back. */
  lemma EndsUnleased(c: Config, s: State, l: Label)
    requires Inv(c, s) && Enabled(c, s, l) && l.Save? && l.reported && l.id !in Apply(c, s, l).ops
    ensures Apply(c, s, l).manifest.Some? && Current(Apply(c, s, l)).lease == None
  {
    assert OpOk(c, s, s.ops[l.id]);
  }

  /** While a lease runs, nobody but its holder replaces or deletes the manifest. */
  lemma LeaseExcludes(c: Config, run: seq<State>, i: nat, l: Label)
    requires c.Valid() && Trace(c, run) && i < |run| && Enabled(c, run[i], l)
    requires Current(run[i]).lease.Some? && run[i].now < Current(run[i]).leaseUntil
    requires Apply(c, run[i], l).manifest != run[i].manifest
    ensures (l.Save? || l.Clean?) && l.id in run[i].ops
    ensures var pc := run[i].ops[l.id].pc;
            && Holds(pc) && Tag(pc) == Current(run[i])
            && (forall j <- run[i].ops.Keys :: j != l.id && Holds(run[i].ops[j].pc) ==>
                  Tag(run[i].ops[j].pc).lease != Current(run[i]).lease)
  {
    TraceInv(c, run, i);
    var s := run[i];
    ManifestChanges(c, s, l);
    assert OpOk(c, s, s.ops[l.id]);
    forall j <- s.ops.Keys | j != l.id && Holds(s.ops[j].pc)
      ensures Tag(s.ops[j].pc).lease != Current(s).lease
    {
      assert OpOk(c, s, s.ops[j]);
      assert HasNonce(s.ops[j].pc) && HasNonce(s.ops[l.id].pc);
    }
  }

  lemma ManifestChanges(c: Config, s: State, l: Label)
    requires Enabled(c, s, l) && Apply(c, s, l).manifest != s.manifest
    ensures (l.Save? && l.lands && SaveCan(s, l.id, true, l.reported)) ||
            (l.Clean? && l.clean.DeleteManifest? && CleanCan(c, s, l.id, l.clean))
  {
    if Apply(c, s, l).manifest.Some? { if l.Save? ==> !l.lands { OthersKeepManifest(c, s, l); } }
    else { OnlyDeletes(c, s, l); }
  }

  // ------------------------------------------------------------- what is pruned

  /** Whoever is in time to delete the manifest has deleted every chunk it had listed. */
  predicate Pruned(s: State, id: nat) {
    id in s.ops && s.ops[id].pc.Deleting? && s.ops[id].kind.PruneOp? && InTime(s, id) ==>
      s.ops[id].kind.listed !! s.live.Keys
  }

  /** At most one operation that is in time holds the stage. */
  lemma OneHolder(c: Config, s: State, id: nat)
    requires Inv(c, s) && InTime(s, id) && Holds(s.ops[id].pc) && !s.ops[id].pc.Releasing?
    ensures forall j <- s.ops.Keys | InTime(s, j) && Holds(s.ops[j].pc) && !s.ops[j].pc.Releasing? :: j == id
  {
    forall j <- s.ops.Keys | InTime(s, j) && Holds(s.ops[j].pc) && !s.ops[j].pc.Releasing? ensures j == id {
      assert OpOk(c, s, s.ops[id]) && OpOk(c, s, s.ops[j]);
      assert HasNonce(s.ops[id].pc) && HasNonce(s.ops[j].pc);
    }
  }

  /** So nobody else who is in time writes chunks meanwhile. */
  predicate Undisturbed(s: State, id: nat) {
    InTime(s, id) && s.ops[id].pc.Deleting? ==>
      forall j <- s.ops.Keys | s.ops[j].pc.Filling? :: !InTime(s, j)
  }

  lemma NobodyWrites(c: Config, s: State, id: nat)
    requires Inv(c, s)
    ensures Undisturbed(s, id)
  {
    if InTime(s, id) && s.ops[id].pc.Deleting? { OneHolder(c, s, id); }
  }

  lemma PrunedFill(c: Config, s: State, j: nat, l: FillLabel, id: nat)
    requires FillCan(c, s, j, l) && Pruned(s, id) && Undisturbed(s, id)
    ensures Pruned(FillStep(c, s, j, l), id)
  {
  }

  lemma PrunedClean(c: Config, s: State, j: nat, l: CleanLabel, id: nat)
    requires CleanCan(c, s, j, l) && Pruned(s, id) && (id in s.ops ==> KindOk(s.ops[id]))
    ensures Pruned(CleanStep(c, s, j, l), id)
  {
  }

  lemma PrunedSave(s: State, j: nat, lands: bool, reported: bool, id: nat)
    requires SaveCan(s, j, lands, reported) && Pruned(s, id)
    ensures Pruned(SaveStep(s, j, lands, reported), id)
  {
  }

  lemma PrunedPublish(c: Config, s: State, j: nat, l: PublishLabel, id: nat)
    requires PublishCan(c, s, j, l) && Pruned(s, id)
    ensures Pruned(PublishStep(c, s, j, l), id)
  {
  }

  lemma PrunedRun(c: Config, s: State, j: nat, l: RunLabel, id: nat)
    requires RunCan(c, s, j, l) && Pruned(s, id) && s.manifest.Some?
    ensures Pruned(RunStep(c, s, j, l), id)
  {
  }

  lemma PrunedStep(c: Config, s: State, l: Label, id: nat)
    requires Enabled(c, s, l) && Pruned(s, id) && Undisturbed(s, id) && (id in s.ops ==> KindOk(s.ops[id]))
    ensures Pruned(Apply(c, s, l), id)
  {
    match l
    case Drive(j, x) => PrunedRun(c, s, j, x, id);
    case Save(j, lands, reported) => PrunedSave(s, j, lands, reported, id);
    case Fill(j, x) => PrunedFill(c, s, j, x, id);
    case Publish(j, x) => PrunedPublish(c, s, j, x, id);
    case Clean(j, x) => PrunedClean(c, s, j, x, id);
    case _ =>
  }

  lemma {:induction false} PrunedTrace(c: Config, run: seq<State>, i: nat, id: nat)
    requires c.Valid() && Trace(c, run) && i < |run|
    ensures Pruned(run[i], id)
  {
    if i > 0 {
      assert StepAt(c, run, i - 1);
      var l :| Enabled(c, run[i - 1], l) && run[i] == Apply(c, run[i - 1], l);
      TraceInv(c, run, i - 1);
      NobodyWrites(c, run[i - 1], id);
      if id in run[i - 1].ops { KindTrace(c, run, i - 1, id); }
      PrunedTrace(c, run, i - 1, id);
      PrunedStep(c, run[i - 1], l, id);
    }
  }

  /** A manifest is deleted by pruning alone, and none of the chunks that were listed
      for it is left then. */
  lemma DeletedIsClean(c: Config, run: seq<State>, i: nat, l: Label)
    requires c.Valid() && Trace(c, run) && i < |run| && Enabled(c, run[i], l) && Apply(c, run[i], l).manifest.None?
    ensures l.Clean? && l.id in run[i].ops && run[i].ops[l.id].kind.PruneOp?
    ensures run[i].ops[l.id].kind.listed !! Apply(c, run[i], l).live.Keys
  {
    OnlyDeletes(c, run[i], l);
    KindTrace(c, run, i, l.id);
    PrunedTrace(c, run, i, l.id);
  }
}
