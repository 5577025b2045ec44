/** What a resumable upload is, whichever backend keeps it: the record every
    backend persists, the checks they share, and the one machine they all refine. */
module StageSpec {
  import opened Basics
  import opened Hashing

  datatype Meta = Meta(digest: Digest, size: int, labels: Labels)

  const NO_META := Meta("", 0, map[])

  datatype Phase = Active | Committing | Committed | Aborted

  /** The persisted record: a checkpoint of the accepted bytes, and the frozen
      parameters and receipt of a commit. Version, id, namespace and algorithm
      never change and are left out. */
  datatype Record = Record(
    offset: int,
    hash: Checkpoint,
    phase: Phase,
    expires: int,
    commit: Meta,
    result: Meta)
  {
    predicate Expired(now: int) { !(now < expires) }

    /** What every backend checks of a record it reads back. */
    predicate Valid(h: Hasher) {
      && offset >= 0
      && h.count(hash) == offset
      && (phase.Committing? || phase.Committed? ==> commit.digest == h.sum(hash) && commit.size == offset)
      && (phase.Committed? ==> result.digest == h.sum(hash) && result.size == offset)
    }

    /** The parameters a commit freezes: the digest of what was accepted, which
        a digest the caller names has to be, its size, and the caller's labels. */
    function PrepareCommit(h: Hasher, wanted: Meta): Result<Meta> {
      if !Valid(h) then Err(StageFormat)
      else if wanted.digest != "" && !ValidDigest(wanted.digest) then Err(InvalidDigest)
      else if wanted.digest != "" && wanted.digest != h.sum(hash) then Err(DigestMismatch)
      else Ok(Meta(h.sum(hash), offset, wanted.labels))
    }
  }

  function NewRecord(h: Hasher, expires: int): Record {
    Record(0, h.start, Active, expires, NO_META, NO_META)
  }

  // ---------------------------------------------------------- the machine

  /** An upload as its callers see it: the inputs accepted so far, in order, and
      the parameters and receipt of its commit once there are any. */
  datatype Upload = Upload(phase: Phase, inputs: seq<Bytes>, commit: Option<Meta>, result: Option<Meta>)

  function Data(u: Upload): Bytes { Flatten(u.inputs) }

  /** The upload a record stands for, given the inputs it has accepted. */
  function View(r: Record, inputs: seq<Bytes>): Upload {
    Upload(r.phase, inputs,
           if r.phase.Committing? || r.phase.Committed? then Some(r.commit) else None,
           if r.phase.Committed? then Some(r.result) else None)
  }

  predicate Names(m: Meta, h: Hasher, data: Bytes) {
    m.digest == h.DigestOf(data) && m.size == |data|
  }

  /** The only moves there are. */
  predicate Accepts(u: Upload, u': Upload) {
    && u.phase.Active? && |u'.inputs| == |u.inputs| + 1
    && u' == u.(inputs := u.inputs + [u'.inputs[|u.inputs|]])
  }

  predicate Freezes(h: Hasher, u: Upload, u': Upload) {
    && u.phase.Active? && u'.commit.Some? && Names(u'.commit.value, h, Data(u))
    && u' == u.(phase := Committing, commit := u'.commit)
  }

  predicate Finishes(h: Hasher, u: Upload, u': Upload) {
    && u.phase.Committing? && u'.result.Some? && Names(u'.result.value, h, Data(u))
    && u' == u.(phase := Committed, result := u'.result)
  }

  predicate Aborts(u: Upload, u': Upload) {
    u.phase.Active? && u' == u.(phase := Aborted)
  }

  predicate Next(h: Hasher, u: Upload, u': Upload) {
    u' == u || Accepts(u, u') || Freezes(h, u, u') || Finishes(h, u, u') || Aborts(u, u')
  }

  predicate NextAt(h: Hasher, run: seq<Upload>, i: nat)
    requires i + 1 < |run|
  {
    Next(h, run[i], run[i + 1])
  }

  ghost predicate Run(h: Hasher, run: seq<Upload>) {
    |run| > 0 && run[0] == Upload(Active, [], None, None) && forall i: nat :: i + 1 < |run| ==> NextAt(h, run, i)
  }

  /** What a commit freezes are the accepted bytes: it succeeds exactly if the
      caller names no digest or theirs, and the parameters are their digest and
      size with the caller's labels. */
  lemma PrepareCommitExact(h: Hasher, r: Record, data: Bytes, wanted: Meta, m: Meta)
    requires h.Lawful() && r.Valid(h) && r.hash == h.Of(data)
    ensures r.PrepareCommit(h, wanted) == Ok(m) <==>
              && Names(m, h, data) && m.labels == wanted.labels
              && (wanted.digest == "" || (ValidDigest(wanted.digest) && wanted.digest == h.DigestOf(data)))
  {
    assert r.offset == h.count(h.start) + |data|;
  }

  /** Repeating a commit: what was frozen is prepared again exactly for the same
      labels and the same digest or none. */
  lemma PreparedAgain(h: Hasher, r: Record, wanted: Meta)
    requires r.Valid(h) && (r.phase.Committing? || r.phase.Committed?)
    ensures r.PrepareCommit(h, wanted) == Ok(r.commit) <==>
              && wanted.labels == r.commit.labels
              && (wanted.digest == "" || (ValidDigest(wanted.digest) && wanted.digest == r.commit.digest))
  {
  }

  lemma RunStarts(h: Hasher, run: seq<Upload>)
    ensures run == [Upload(Active, [], None, None)] ==> Run(h, run)
  {
  }

  lemma RunExtends(h: Hasher, run: seq<Upload>, u: Upload)
    requires Run(h, run) && Next(h, run[|run| - 1], u)
    ensures Run(h, run + [u])
  {
    var longer := run + [u];
    forall i: nat | i + 1 < |longer| ensures NextAt(h, longer, i) {
      if i + 1 < |run| { assert NextAt(h, run, i); }
    }
  }

  lemma RunExtendsTwice(h: Hasher, run: seq<Upload>, mid: Upload, u: Upload)
    requires Run(h, run) && Next(h, run[|run| - 1], mid) && Next(h, mid, u)
    ensures Run(h, run + [mid, u])
  {
    RunExtends(h, run, mid);
    RunExtends(h, run + [mid], u);
    assert run + [mid, u] == run + [mid] + [u];
  }

  predicate Consistent(h: Hasher, u: Upload) {
    && (u.commit.Some? <==> u.phase.Committing? || u.phase.Committed?)
    && (u.result.Some? <==> u.phase.Committed?)
    && (u.commit.Some? ==> Names(u.commit.value, h, Data(u)))
    && (u.result.Some? ==> Names(u.result.value, h, Data(u)))
  }

  lemma {:induction false} RunConsistent(h: Hasher, run: seq<Upload>, i: nat)
    requires Run(h, run) && i < |run|
    ensures Consistent(h, run[i])
  {
    if i > 0 {
      RunConsistent(h, run, i - 1);
      assert NextAt(h, run, i - 1);
    }
  }

  /** What a later state keeps of an earlier one. */
  predicate Keeps(u: Upload, u': Upload) {
    && u.inputs <= u'.inputs
    && (!u.phase.Active? ==> u'.inputs == u.inputs)
    && (u.phase.Committing? ==> u'.phase.Committing? || u'.phase.Committed?)
    && (u.phase.Committed? ==> u'.phase.Committed?)
    && (u.phase.Aborted? ==> u'.phase.Aborted?)
    && (u.commit.Some? ==> u'.commit == u.commit)
    && (u.result.Some? ==> u'.result == u.result)
  }

  lemma {:induction false} RunKeeps(h: Hasher, run: seq<Upload>, i: nat, j: nat)
    requires Run(h, run) && i <= j < |run|
    ensures Keeps(run[i], run[j])
  {
    if i < j {
      RunKeeps(h, run, i, j - 1);
      RunConsistent(h, run, j - 1);
      assert NextAt(h, run, j - 1);
    }
  }

  /** Every upload that is ever committed: its frozen parameters and its receipt
      name exactly the inputs accepted before it froze, in order, and neither
      changes afterwards. */
  lemma CommittedIsExact(h: Hasher, run: seq<Upload>, i: nat, j: nat)
    requires Run(h, run) && i <= j < |run| && !run[i].phase.Active? && run[j].phase.Committed?
    ensures run[i].commit == run[j].commit && run[j].commit.Some? && run[j].result.Some?
    ensures Names(run[j].commit.value, h, Data(run[i])) && Names(run[j].result.value, h, Data(run[i]))
  {
    RunConsistent(h, run, i);
    RunConsistent(h, run, j);
    RunKeeps(h, run, i, j);
  }
}
