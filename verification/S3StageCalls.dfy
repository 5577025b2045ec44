/** What the calls on an S3 stage do and under which conditions: the bytes a commit
    publishes, the guards of Append and Commit, and what is deleted when. */
module S3StageCalls {
  import opened Basics
  import opened Hashing
  import opened StageSpec
  import opened S3Stage
  import opened S3StageSafety

  // ------------------------------------------------ a commit publishes its bytes

  /** An operation on its way to write the entry, with the object in its place. */
  predicate Refers(s: State, id: nat, m: Manifest) {
    id in s.ops && s.ops[id].pc == Referring(m)
  }

  lemma RefersPublish(c: Config, s: State, j: nat, l: PublishLabel, id: nat, m: Manifest)
    requires PublishCan(c, s, j, l) && Refers(PublishStep(c, s, j, l), id, m)
    ensures Refers(s, id, m) || PublishStep(c, s, j, l).blob.Some?
  {
  }

  lemma RefersSave(s: State, j: nat, lands: bool, reported: bool, id: nat, m: Manifest)
    requires SaveCan(s, j, lands, reported) && Refers(SaveStep(s, j, lands, reported), id, m)
    ensures Refers(s, id, m)
  {
  }

  /** The only ways to get there leave an object behind, or find one. */
  lemma RefersStep(c: Config, s: State, l: Label, id: nat, m: Manifest)
    requires Enabled(c, s, l) && Refers(Apply(c, s, l), id, m)
    ensures Refers(s, id, m) || Apply(c, s, l).blob.Some?
  {
    match l
    case Publish(j, x) => RefersPublish(c, s, j, x, id, m);
    case Save(j, lands, reported) => RefersSave(s, j, lands, reported, id, m);
    case Drive(j, x) => RefersDrive(c, s, j, x, id, m);
    case _ =>
  }

  lemma RefersDrive(c: Config, s: State, j: nat, l: RunLabel, id: nat, m: Manifest)
    requires RunCan(c, s, j, l) && s.manifest.Some? && Refers(RunStep(c, s, j, l), id, m)
    ensures Refers(s, id, m)
  {
  }

  lemma RefersFrom(c: Config, s: State, s': State, id: nat, m: Manifest)
    requires Step(c, s, s') && Refers(s', id, m)
    ensures Refers(s, id, m) || s'.blob.Some?
  {
    var l :| Enabled(c, s, l) && s' == Apply(c, s, l);
    RefersStep(c, s, l, id, m);
  }

  predicate RefersAt(run: seq<State>, id: nat, m: Manifest, j: nat)
    requires j < |run|
  {
    Refers(run[j], id, m)
  }

  lemma {:induction false} RefersSince(c: Config, run: seq<State>, id: nat, m: Manifest, i: nat) returns (k: nat)
    requires Trace(c, run) && i < |run| && RefersAt(run, id, m, i)
    ensures k <= i && run[k].blob.Some? && forall j | k <= j <= i :: RefersAt(run, id, m, j)
    decreases i
  {
    assert i > 0;
    assert StepAt(c, run, i - 1);
    RefersFrom(c, run[i - 1], run[i], id, m);
    if run[i].blob.Some? {
      k := i;
    } else {
      assert RefersAt(run, id, m, i - 1);
      k := RefersSince(c, run, id, m, i - 1);
    }
  }

  /** Whoever is about to write the entry was there in a state with an object at the
      frozen digest that is what was appended, and has been there since. */
  lemma BytesBeforeEntry(c: Config, run: seq<State>, id: nat, m: Manifest, i: nat) returns (k: nat)
    requires c.Valid() && Trace(c, run) && i < |run| && RefersAt(run, id, m, i)
    ensures k <= i && forall j | k <= j <= i :: RefersAt(run, id, m, j)
    ensures run[k].blob.Some? && c.h.DigestOf(run[k].blob.value) == m.rec.commit.digest
    ensures m.rec.commit.digest == c.h.DigestOf(Flatten(run[k].log)) && m.rec.commit.size == |Flatten(run[k].log)|
  {
    k := RefersSince(c, run, id, m, i);
    TraceInv(c, run, k);
    assert RefersAt(run, id, m, k);
    RefersToBytes(c, run[k], id, m);
  }

  lemma RefersToBytes(c: Config, s: State, id: nat, m: Manifest)
    requires c.Valid() && Inv(c, s) && Refers(s, id, m) && s.blob.Some?
    ensures c.h.DigestOf(s.blob.value) == m.rec.commit.digest
    ensures m.rec.commit.digest == c.h.DigestOf(Flatten(s.log)) && m.rec.commit.size == |Flatten(s.log)|
  {
    assert OpOk(c, s, s.ops[id]);
  }

  /** The entry is filled by such an operation, with the frozen parameters, or by
      somebody else. */
  lemma EntryFilled(c: Config, s: State, l: Label)
    requires Enabled(c, s, l) && s.entry.None? && Apply(c, s, l).entry.Some?
    ensures || (l.World? && l.world == SetEntry(Apply(c, s, l).entry.value))
            || (l.Publish? && l.publish.PutEntry? && l.id in s.ops && s.ops[l.id].pc.Referring?
                && Apply(c, s, l).entry == Some(s.ops[l.id].pc.m.rec.commit))
  {
    match l
    case Save(id, lands, reported) => SaveLeavesBucket(s, id, lands, reported);
    case Publish(id, x) => PublishFills(c, s, id, x);
    case Drive(id, x) => DriveLeavesBucket(c, s, id, x);
    case Fill(id, x) => FillLeavesBucket(c, s, id, x);
    case Clean(id, x) => CleanLeavesBucket(c, s, id, x);
    case _ =>
  }

  lemma PublishFills(c: Config, s: State, id: nat, l: PublishLabel)
    requires PublishCan(c, s, id, l) && s.entry.None? && PublishStep(c, s, id, l).entry.Some?
    ensures l.PutEntry? && s.ops[id].pc.Referring?
    ensures PublishStep(c, s, id, l).entry == Some(s.ops[id].pc.m.rec.commit)
  {
  }

  // -------------------------------------------------------- runs without erasing

  predicate Removes(l: Label) { l.World? && (l.world.DropBlob? || l.world.EraseEntry?) }

  ghost predicate CalmAt(c: Config, run: seq<State>, i: nat)
    requires i + 1 < |run|
  {
    exists l :: Enabled(c, run[i], l) && run[i + 1] == Apply(c, run[i], l) && !Removes(l)
  }

  /** A run in which nobody erases the entry or reclaims the object. */
  ghost predicate Calm(c: Config, run: seq<State>) {
    Trace(c, run) && forall i: nat :: i + 1 < |run| ==> CalmAt(c, run, i)
  }

  lemma CalmKeeps(c: Config, s: State, l: Label)
    requires Enabled(c, s, l) && !Removes(l)
    ensures s.blob.Some? ==> Apply(c, s, l).blob.Some?
    ensures s.entry.Some? ==> Apply(c, s, l).entry.Some?
  {
    match l
    case Save(id, lands, reported) => SaveLeavesBucket(s, id, lands, reported);
    case Publish(id, x) => PublishKeepsBucket(c, s, id, x);
    case Drive(id, x) => DriveLeavesBucket(c, s, id, x);
    case Fill(id, x) => FillLeavesBucket(c, s, id, x);
    case Clean(id, x) => CleanLeavesBucket(c, s, id, x);
    case _ =>
  }

  lemma SaveLeavesBucket(s: State, id: nat, lands: bool, reported: bool)
    requires SaveCan(s, id, lands, reported)
    ensures var s' := SaveStep(s, id, lands, reported); s'.blob == s.blob && s'.entry == s.entry
  {
  }

  lemma PublishKeepsBucket(c: Config, s: State, id: nat, l: PublishLabel)
    requires PublishCan(c, s, id, l)
    ensures s.blob.Some? ==> PublishStep(c, s, id, l).blob.Some?
    ensures s.entry.Some? ==> PublishStep(c, s, id, l).entry == s.entry
  {
  }

  lemma DriveLeavesBucket(c: Config, s: State, id: nat, l: RunLabel)
    requires RunCan(c, s, id, l) && s.manifest.Some?
    ensures var s' := RunStep(c, s, id, l); s'.blob == s.blob && s'.entry == s.entry && s'.manifest == s.manifest
  {
  }

  lemma FillLeavesBucket(c: Config, s: State, id: nat, l: FillLabel)
    requires FillCan(c, s, id, l)
    ensures var s' := FillStep(c, s, id, l); s'.blob == s.blob && s'.entry == s.entry && s'.manifest == s.manifest
  {
  }

  lemma CleanLeavesBucket(c: Config, s: State, id: nat, l: CleanLabel)
    requires CleanCan(c, s, id, l)
    ensures var s' := CleanStep(c, s, id, l);
            s'.blob == s.blob && s'.entry == s.entry && (!l.DeleteManifest? ==> s'.manifest == s.manifest)
  {
  }

  /** An outcome that says committed has an entry. */
  predicate OutcomeOk(s: State, pc: Pc) {
    (pc.Settling? && pc.next.rec.phase.Committed?) ==> s.entry.Some?
  }

  predicate EntryOk(s: State) {
    && s.manifest.Some?
    && (Current(s).rec.phase.Committed? ==> s.entry.Some?)
    && (forall id <- s.ops.Keys :: OutcomeOk(s, s.ops[id].pc))
  }

  lemma PcAfter(c: Config, s: State, l: Label, id: nat)
    requires Enabled(c, s, l) && EntryOk(s) && !Removes(l) && id in Apply(c, s, l).ops
    ensures OutcomeOk(Apply(c, s, l), Apply(c, s, l).ops[id].pc)
  {
    if id in s.ops { assert OutcomeOk(s, s.ops[id].pc); }
    match l
    case Save(j, lands, reported) => SaveNoOutcome(s, j, lands, reported, id);
    case Publish(j, x) => PublishOutcome(c, s, j, x, id);
    case Drive(j, x) => DriveNoOutcome(c, s, j, x, id);
    case Fill(j, x) => FillNoOutcome(c, s, j, x, id);
    case Clean(j, x) => CleanNoOutcome(c, s, j, x, id);
    case _ =>
  }

  lemma PublishOutcome(c: Config, s: State, j: nat, l: PublishLabel, id: nat)
    requires PublishCan(c, s, j, l) && id in PublishStep(c, s, j, l).ops
    requires id in s.ops ==> OutcomeOk(s, s.ops[id].pc)
    ensures OutcomeOk(PublishStep(c, s, j, l), PublishStep(c, s, j, l).ops[id].pc)
  {
  }

  lemma DriveNoOutcome(c: Config, s: State, j: nat, l: RunLabel, id: nat)
    requires RunCan(c, s, j, l) && s.manifest.Some? && id in RunStep(c, s, j, l).ops
    requires id in s.ops ==> OutcomeOk(s, s.ops[id].pc)
    ensures OutcomeOk(RunStep(c, s, j, l), RunStep(c, s, j, l).ops[id].pc)
  {
  }

  lemma FillNoOutcome(c: Config, s: State, j: nat, l: FillLabel, id: nat)
    requires FillCan(c, s, j, l) && id in FillStep(c, s, j, l).ops
    requires id in s.ops ==> OutcomeOk(s, s.ops[id].pc)
    ensures OutcomeOk(FillStep(c, s, j, l), FillStep(c, s, j, l).ops[id].pc)
  {
  }

  lemma CleanNoOutcome(c: Config, s: State, j: nat, l: CleanLabel, id: nat)
    requires CleanCan(c, s, j, l) && id in CleanStep(c, s, j, l).ops
    requires id in s.ops ==> OutcomeOk(s, s.ops[id].pc)
    ensures OutcomeOk(CleanStep(c, s, j, l), CleanStep(c, s, j, l).ops[id].pc)
  {
  }

  lemma SaveNoOutcome(s: State, j: nat, lands: bool, reported: bool, id: nat)
    requires SaveCan(s, j, lands, reported) && id in SaveStep(s, j, lands, reported).ops
    requires id in s.ops ==> OutcomeOk(s, s.ops[id].pc)
    ensures OutcomeOk(SaveStep(s, j, lands, reported), SaveStep(s, j, lands, reported).ops[id].pc)
  {
  }

  lemma SavedOutcome(c: Config, s: State, id: nat, reported: bool)
    requires Inv(c, s) && SaveCan(s, id, true, reported)
    ensures Current(SaveStep(s, id, true, reported)).rec.phase.Committed? ==>
              s.ops[id].pc.Settling? || Current(s).rec.phase.Committed?
  {
    assert OpOk(c, s, s.ops[id]);
  }

  lemma CalmStep(c: Config, s: State, l: Label)
    requires c.Valid() && Inv(c, s) && EntryOk(s) && Enabled(c, s, l) && !Removes(l) && Apply(c, s, l).manifest.Some?
    ensures EntryOk(Apply(c, s, l))
  {
    CalmKeeps(c, s, l);
    forall id <- Apply(c, s, l).ops.Keys ensures OutcomeOk(Apply(c, s, l), Apply(c, s, l).ops[id].pc) {
      PcAfter(c, s, l, id);
    }
    if l.Save? && l.lands {
      SavedOutcome(c, s, l.id, l.reported);
      assert OutcomeOk(s, s.ops[l.id].pc);
    } else {
      OthersKeepManifest(c, s, l);
    }
  }

  lemma CalmNext(c: Config, s: State, s': State)
    requires c.Valid() && Inv(c, s) && EntryOk(s) && s'.manifest.Some?
    requires exists l :: Enabled(c, s, l) && s' == Apply(c, s, l) && !Removes(l)
    ensures EntryOk(s')
  {
    var l :| Enabled(c, s, l) && s' == Apply(c, s, l) && !Removes(l);
    CalmStep(c, s, l);
  }

  /** In a run without erasing, a committed stage has its entry. */
  lemma {:induction false} CommittedHasEntry(c: Config, run: seq<State>, i: nat)
    requires c.Valid() && Calm(c, run) && i < |run|
    ensures EntryOk(run[i])
  {
    if i > 0 {
      CommittedHasEntry(c, run, i - 1);
      TraceInv(c, run, i - 1);
      assert CalmAt(c, run, i - 1) && run[i] in run;
      CalmNext(c, run[i - 1], run[i]);
    }
  }

  lemma {:induction false} CalmStays(c: Config, run: seq<State>, k: nat, i: nat)
    requires Calm(c, run) && k <= i < |run|
    ensures run[k].blob.Some? ==> run[i].blob.Some?
    ensures run[k].entry.Some? ==> run[i].entry.Some?
  {
    if k < i {
      CalmStays(c, run, k, i - 1);
      assert CalmAt(c, run, i - 1);
      var l :| Enabled(c, run[i - 1], l) && run[i] == Apply(c, run[i - 1], l) && !Removes(l);
      CalmKeeps(c, run[i - 1], l);
    }
  }

  /** And one whose commit wrote the entry itself has the object too, with the digest
      of what was appended. */
  lemma OwnEntryHasBytes(c: Config, run: seq<State>, id: nat, m: Manifest, k: nat, n: nat, i: nat)
    requires c.Valid() && Calm(c, run) && k < n <= i < |run| && RefersAt(run, id, m, k)
    requires id in run[n].ops && run[n].ops[id].pc.Settling? && run[n].ops[id].pc.next.rec.phase.Committed?
    ensures run[i].entry.Some? && run[i].blob.Some?
    ensures c.h.DigestOf(run[i].blob.value) == Current(run[i]).rec.commit.digest
  {
    var b := BytesBeforeEntry(c, run, id, m, k);
    CommittedHasEntry(c, run, n);
    assert OutcomeOk(run[n], run[n].ops[id].pc);
    CalmStays(c, run, b, i);
    CalmStays(c, run, n, i);
    TraceInv(c, run, i);
    assert run[i] in run;
  }

  // ------------------------------------------------------------------- guards

  /** An Append at work on m, which it took over when it was held. */
  predicate Appends(s: State, id: nat, kind: Kind, m: Manifest) {
    && id in s.ops && s.ops[id].kind == kind && (s.ops[id].pc.Filling? || s.ops[id].pc.Extending?)
    && s.ops[id].pc.m == m
  }

  /** Where it may begin: the stage is active and has not expired, and the offset is
      the expected one. */
  predicate MayAppend(s: State, id: nat, kind: Kind, m: Manifest) {
    && id in s.ops && s.ops[id].kind == kind && kind.AppendOp? && s.ops[id].pc == Held(m)
    && m.rec.phase.Active? && s.now < m.rec.expires && m.rec.offset == kind.expected
  }

  lemma AppendsFill(c: Config, s: State, j: nat, l: FillLabel, id: nat, kind: Kind, m: Manifest)
    requires FillCan(c, s, j, l) && Appends(FillStep(c, s, j, l), id, kind, m)
    ensures Appends(s, id, kind, m) || MayAppend(s, id, kind, m)
    ensures var pc' := FillStep(c, s, j, l).ops[id].pc;
            pc'.Extending? && !(id in s.ops && s.ops[id].pc == pc') ==> pc'.next.rec.expires == s.now + c.ttl
  {
  }

  lemma AppendsPublish(c: Config, s: State, j: nat, l: PublishLabel, id: nat, kind: Kind, m: Manifest)
    requires PublishCan(c, s, j, l) && Appends(PublishStep(c, s, j, l), id, kind, m)
    ensures Appends(s, id, kind, m) && s.ops[id].pc == PublishStep(c, s, j, l).ops[id].pc
  {
  }

  lemma AppendsSave(s: State, j: nat, lands: bool, reported: bool, id: nat, kind: Kind, m: Manifest)
    requires SaveCan(s, j, lands, reported) && Appends(SaveStep(s, j, lands, reported), id, kind, m)
    ensures Appends(s, id, kind, m) && s.ops[id].pc == SaveStep(s, j, lands, reported).ops[id].pc
  {
  }

  lemma AppendsRun(c: Config, s: State, j: nat, l: RunLabel, id: nat, kind: Kind, m: Manifest)
    requires RunCan(c, s, j, l) && s.manifest.Some? && Appends(RunStep(c, s, j, l), id, kind, m)
    ensures Appends(s, id, kind, m) && s.ops[id].pc == RunStep(c, s, j, l).ops[id].pc
  {
  }

  lemma AppendsStep(c: Config, s: State, l: Label, id: nat, kind: Kind, m: Manifest)
    requires Enabled(c, s, l) && Appends(Apply(c, s, l), id, kind, m)
    ensures Appends(s, id, kind, m) || MayAppend(s, id, kind, m)
    ensures var pc' := Apply(c, s, l).ops[id].pc;
            pc'.Extending? && !(id in s.ops && s.ops[id].pc == pc') ==> pc'.next.rec.expires == s.now + c.ttl
  {
    match l
    case Drive(j, x) => AppendsRun(c, s, j, x, id, kind, m);
    case Save(j, lands, reported) => AppendsSave(s, j, lands, reported, id, kind, m);
    case Fill(j, x) => AppendsFill(c, s, j, x, id, kind, m);
    case Publish(j, x) => AppendsPublish(c, s, j, x, id, kind, m);
    case _ =>
  }

  /** An Append under way began on a stage that was open to it. */
  lemma {:induction false} AppendBegan(c: Config, run: seq<State>, id: nat, kind: Kind, m: Manifest, i: nat)
    returns (k: nat)
    requires Trace(c, run) && i < |run| && Appends(run[i], id, kind, m)
    ensures k < i && MayAppend(run[k], id, kind, m)
    decreases i
  {
    assert i > 0;
    assert StepAt(c, run, i - 1);
    var l :| Enabled(c, run[i - 1], l) && run[i] == Apply(c, run[i - 1], l);
    AppendsStep(c, run[i - 1], l, id, kind, m);
    if Appends(run[i - 1], id, kind, m) {
      k := AppendBegan(c, run, id, kind, m, i - 1);
    } else {
      k := i - 1;
    }
  }

  /** And what it is about to publish expires its time to live after its last chunk. */
  lemma {:induction false} AppendExtends(c: Config, run: seq<State>, id: nat, i: nat) returns (k: nat)
    requires Trace(c, run) && i < |run| && id in run[i].ops && run[i].ops[id].pc.Extending?
    ensures k < i && run[i].ops[id].pc.next.rec.expires == run[k].now + c.ttl
    decreases i
  {
    assert i > 0;
    assert StepAt(c, run, i - 1);
    var l :| Enabled(c, run[i - 1], l) && run[i] == Apply(c, run[i - 1], l);
    AppendsStep(c, run[i - 1], l, id, run[i].ops[id].kind, run[i].ops[id].pc.m);
    if id in run[i - 1].ops && run[i - 1].ops[id].pc == run[i].ops[id].pc {
      k := AppendExtends(c, run, id, i - 1);
    } else {
      k := i - 1;
    }
  }

  lemma LogGrows(c: Config, s: State, l: Label)
    requires Inv(c, s) && Enabled(c, s, l) && Apply(c, s, l).manifest.Some? && Apply(c, s, l).log != s.log
    ensures l.Save? && l.lands && l.id in s.ops && s.ops[l.id].pc.Extending? && s.ops[l.id].kind.AppendOp?
    ensures Apply(c, s, l).log == s.log + [s.ops[l.id].kind.input]
    ensures Current(s) == s.ops[l.id].pc.m && Current(Apply(c, s, l)) == s.ops[l.id].pc.next
  {
    if l.Save? ==> !l.lands { OthersKeepManifest(c, s, l); }
  }

  /** Whenever input is accepted, it is that of an Append that found the manifest it
      replaces active, unexpired and at the offset it expected; and the stage lives on
      for the time to live. */
  lemma AcceptedInTime(c: Config, run: seq<State>, i: nat) returns (id: nat, kind: Kind, k: nat, n: nat)
    requires c.Valid() && Trace(c, run) && i + 1 < |run| && run[i + 1].log != run[i].log
    ensures kind.AppendOp? && run[i + 1].log == run[i].log + [kind.input]
    ensures run[i].manifest.Some? && run[i + 1].manifest.Some?
    ensures k < i && MayAppend(run[k], id, kind, Current(run[i]))
    ensures n < i && Current(run[i + 1]).rec.expires == run[n].now + c.ttl
  {
    TraceInv(c, run, i);
    assert run[i] in run && run[i + 1] in run && StepAt(c, run, i);
    var l :| Enabled(c, run[i], l) && run[i + 1] == Apply(c, run[i], l);
    LogGrows(c, run[i], l);
    id, kind := l.id, run[i].ops[l.id].kind;
    k := AppendBegan(c, run, id, kind, Current(run[i]), i);
    n := AppendExtends(c, run, id, i);
  }

  /** A Commit about to freeze m into next. */
  predicate Freezes(s: State, id: nat, kind: Kind, m: Manifest, next: Manifest) {
    id in s.ops && s.ops[id].kind == kind && s.ops[id].pc == Freezing(m, next)
  }

  predicate MayFreeze(c: Config, s: State, id: nat, kind: Kind, m: Manifest, next: Manifest) {
    && id in s.ops && s.ops[id].kind == kind && kind.CommitOp? && s.ops[id].pc == Held(m)
    && m.rec.phase.Active? && s.now < m.rec.expires
    && m.rec.PrepareCommit(c.h, kind.wanted) == Ok(next.rec.commit)
  }

  lemma FreezesPublish(c: Config, s: State, j: nat, l: PublishLabel, id: nat, kind: Kind, m: Manifest, next: Manifest)
    requires PublishCan(c, s, j, l) && Freezes(PublishStep(c, s, j, l), id, kind, m, next)
    ensures Freezes(s, id, kind, m, next) || MayFreeze(c, s, id, kind, m, next)
  {
  }

  lemma FreezesSave(s: State, j: nat, lands: bool, reported: bool, id: nat, kind: Kind, m: Manifest, next: Manifest)
    requires SaveCan(s, j, lands, reported) && Freezes(SaveStep(s, j, lands, reported), id, kind, m, next)
    ensures Freezes(s, id, kind, m, next)
  {
  }

  lemma FreezesStep(c: Config, s: State, l: Label, id: nat, kind: Kind, m: Manifest, next: Manifest)
    requires Enabled(c, s, l) && Freezes(Apply(c, s, l), id, kind, m, next)
    ensures Freezes(s, id, kind, m, next) || MayFreeze(c, s, id, kind, m, next)
  {
    match l
    case Publish(j, x) => FreezesPublish(c, s, j, x, id, kind, m, next);
    case Save(j, lands, reported) => FreezesSave(s, j, lands, reported, id, kind, m, next);
    case Drive(j, x) => FreezesDrive(c, s, j, x, id, kind, m, next);
    case _ =>
  }

  lemma FreezesDrive(c: Config, s: State, j: nat, l: RunLabel, id: nat, kind: Kind, m: Manifest, next: Manifest)
    requires RunCan(c, s, j, l) && s.manifest.Some? && Freezes(RunStep(c, s, j, l), id, kind, m, next)
    ensures Freezes(s, id, kind, m, next)
  {
  }

  lemma {:induction false} FreezeBegan(c: Config, run: seq<State>, id: nat, kind: Kind,
                                       m: Manifest, next: Manifest, i: nat)
    returns (k: nat)
    requires Trace(c, run) && i < |run| && Freezes(run[i], id, kind, m, next)
    ensures k < i && MayFreeze(c, run[k], id, kind, m, next)
    decreases i
  {
    assert i > 0;
    assert StepAt(c, run, i - 1);
    var l :| Enabled(c, run[i - 1], l) && run[i] == Apply(c, run[i - 1], l);
    FreezesStep(c, run[i - 1], l, id, kind, m, next);
    if Freezes(run[i - 1], id, kind, m, next) {
      k := FreezeBegan(c, run, id, kind, m, next, i - 1);
    } else {
      k := i - 1;
    }
  }

  lemma PhaseFreezes(c: Config, s: State, l: Label)
    requires Inv(c, s) && Enabled(c, s, l) && Apply(c, s, l).manifest.Some?
    requires Current(s).rec.phase.Active? && Current(Apply(c, s, l)).rec.phase.Committing?
    ensures l.Save? && l.lands && l.id in s.ops
    ensures s.ops[l.id].pc == Freezing(Current(s), Current(Apply(c, s, l)))
  {
    if l.Save? ==> !l.lands { OthersKeepManifest(c, s, l); } else { assert OpOk(c, s, s.ops[l.id]); }
  }

  /** Whenever a stage freezes, it is for a Commit that found it active and unexpired,
      with the parameters that Commit was given. */
  lemma FrozenInTime(c: Config, run: seq<State>, i: nat) returns (id: nat, kind: Kind, k: nat)
    requires c.Valid() && Trace(c, run) && i + 1 < |run| && run[i].manifest.Some? && run[i + 1].manifest.Some?
    requires Current(run[i]).rec.phase.Active? && Current(run[i + 1]).rec.phase.Committing?
    ensures k < i && MayFreeze(c, run[k], id, kind, Current(run[i]), Current(run[i + 1]))
  {
    TraceInv(c, run, i);
    assert StepAt(c, run, i);
    var l :| Enabled(c, run[i], l) && run[i + 1] == Apply(c, run[i], l);
    PhaseFreezes(c, run[i], l);
    id, kind := l.id, run[i].ops[l.id].kind;
    k := FreezeBegan(c, run, id, kind, Current(run[i]), Current(run[i + 1]), i);
  }

  /** A manifest is deleted only when it has expired, and never with a commit to be
      finished. */
  lemma DeletedOnlyExpired(c: Config, run: seq<State>, i: nat, l: Label)
    requires c.Valid() && Trace(c, run) && i < |run| && Enabled(c, run[i], l) && Apply(c, run[i], l).manifest.None?
    ensures run[i].manifest.Some? && Current(run[i]).rec.Expired(run[i].now)
    ensures !Current(run[i]).rec.phase.Committing?
  {
    TraceInv(c, run, i);
    OnlyDeletes(c, run[i], l);
    assert OpOk(c, run[i], run[i].ops[l.id]);
  }

  lemma OnlyDeletes(c: Config, s: State, l: Label)
    requires Enabled(c, s, l) && Apply(c, s, l).manifest.None?
    ensures l.Clean? && l.clean.DeleteManifest? && l.id in s.ops && s.ops[l.id].pc == Deleting(Current(s))
  {
    match l
    case Publish(id, x) => PublishLeavesManifest(c, s, id, x);
    case Drive(id, x) => DriveLeavesBucket(c, s, id, x);
    case Fill(id, x) => FillLeavesBucket(c, s, id, x);
    case Clean(id, x) => CleanLeavesBucket(c, s, id, x);
    case Save(id, lands, reported) => SaveLeavesOne(s, id, lands, reported);
    case _ =>
  }

  lemma PublishLeavesManifest(c: Config, s: State, id: nat, l: PublishLabel)
    requires PublishCan(c, s, id, l)
    ensures PublishStep(c, s, id, l).manifest == s.manifest
  {
  }

  lemma SaveLeavesOne(s: State, id: nat, lands: bool, reported: bool)
    requires SaveCan(s, id, lands, reported)
    ensures SaveStep(s, id, lands, reported).manifest.Some?
  {
  }
}
