/** Which markers and bytes each step of the bucket protocol takes and writes: the
    runs of S3Reclaim with their steps. */
module S3Markers {
  import opened Hashing
  import opened S3Reclaim

  predicate StepIs(c: Config, run: seq<State>, labels: seq<Label>, i: nat)
    requires i < |labels| && |run| == |labels| + 1
  {
    Enabled(c, run[i], labels[i]) && run[i + 1] == Apply(c, run[i], labels[i])
  }

  /** A run from an empty bucket, and the step taken in each of its states. */
  predicate Labelled(c: Config, run: seq<State>, labels: seq<Label>) {
    && |run| == |labels| + 1 && run[0] == Init(run[0].now)
    && forall i: nat | i < |labels| :: StepIs(c, run, labels, i)
  }

  // ----------------------------------------------------------------- markers

  /** A marker goes only by an Erase of its digest from its namespace. */
  lemma MarkerTaken(c: Config, s: State, l: Label, k: Key)
    requires Enabled(c, s, l) && k in s.refs && k !in Apply(c, s, l).refs
    ensures l == Client(Erase(k.d, k.ns))
  {
    if l.Sweeper? { SweeperLeavesAdds(c, s, l.sweeper); }
  }

  /** An Erase takes that marker, and touches nothing else in the bucket. */
  lemma EraseTakesOne(c: Config, s: State, d: Digest, ns: Namespace)
    ensures var s' := Apply(c, s, Client(Erase(d, ns)));
            && Key(d, ns) !in s'.refs
            && (forall k: Key :: k != Key(d, ns) ==>
                  (k in s'.refs <==> k in s.refs) && (k in s.refs ==> s'.refs[k] == s.refs[k]))
            && s'.blob == s.blob && s'.trash == s.trash && s'.adds == s.adds && s'.now == s.now
  {
  }

  /** A marker is written only by the last request of an Add of its digest and
      namespace. */
  lemma MarkerWritten(c: Config, s: State, l: Label, k: Key)
    requires Enabled(c, s, l) && k in Apply(c, s, l).refs
    requires k in s.refs ==> Apply(c, s, l).refs[k] != s.refs[k]
    ensures l.Client? && l.client.AddPutRef? && l.client.id in s.adds
    ensures var a := s.adds[l.client.id]; a.d == k.d && a.ns == k.ns && a.pc.PutRef?
  {
    if l.Sweeper? { SweeperLeavesAdds(c, s, l.sweeper); }
  }

  predicate Under(run: seq<State>, id: AddId, a: Add, i: nat)
    requires i < |run|
  {
    id in run[i].adds && run[i].adds[id].d == a.d && run[i].adds[id].ns == a.ns && run[i].adds[id].input == a.input
  }

  /** The Add under way at i began in step j, for this digest, namespace and input. */
  predicate Adding(run: seq<State>, labels: seq<Label>, id: AddId, a: Add, j: nat, i: nat) {
    && |run| == |labels| + 1 && j < i < |run| && labels[j] == Client(AddBegin(id, a.d, a.ns, a.input))
    && forall k: nat | j < k <= i :: Under(run, id, a, k)
  }

  predicate BytesAt(run: seq<State>, d: Digest, k: nat)
    requires k < |run|
  {
    d in run[k].blob
  }

  /** At some moment of the Add its bytes were under blob/. */
  predicate SawBytes(run: seq<State>, d: Digest, j: nat, i: nat)
    requires i < |run|
  {
    exists k: nat | j < k <= i :: BytesAt(run, d, k)
  }

  /** What an Add has made sure of where it is. */
  predicate AddKnows(c: Config, run: seq<State>, a: Add, j: nat, i: nat)
    requires i < |run|
  {
    && (a.pc.PutRef? ==> c.h.DigestOf(a.input) == a.d)
    && (a.pc.Verify? || a.pc.PutRef? ==> SawBytes(run, a.d, j, i))
  }

  /** How a request moves an Add on. */
  predicate AddMoves(c: Config, s: State, s': State, id: AddId) {
    id in s.adds && id in s'.adds ==>
      var (a, a') := (s.adds[id], s'.adds[id]);
      && a'.d == a.d && a'.ns == a.ns && a'.input == a.input
      && (a'.pc.PutRef? && !a.pc.PutRef? ==>
            c.h.DigestOf(a.input) == a.d && (a.pc.Verify? || a.d in s'.blob))
      && (a'.pc.Verify? && !a.pc.Verify? ==> a.d in s'.blob)
  }

  lemma AddStep(c: Config, s: State, l: Label, id: AddId)
    requires Enabled(c, s, l)
    ensures AddMoves(c, s, Apply(c, s, l), id)
  {
    match l
    case Client(a) => AddClientStep(c, s, a, id);
    case Sweeper(w) => SweeperLeavesAdds(c, s, w);
  }

  lemma AddClientStep(c: Config, s: State, l: ClientLabel, id: AddId)
    requires ClientCan(c, s, l)
    ensures AddMoves(c, s, ClientStep(c, s, l), id)
  {
  }

  lemma SweeperLeavesAdds(c: Config, s: State, l: SweepLabel)
    requires SweeperCan(c, s, l)
    ensures SweeperStep(c, s, l).adds == s.adds && SweeperStep(c, s, l).refs == s.refs
  {
  }

  lemma AddStarts(c: Config, s: State, l: Label, id: AddId) returns (a: Add)
    requires Enabled(c, s, l) && id !in s.adds && id in Apply(c, s, l).adds
    ensures l == Client(AddBegin(id, a.d, a.ns, a.input)) && Apply(c, s, l).adds[id] == a && a.pc.CheckRef?
  {
    a := Apply(c, s, l).adds[id];
    match l
    case Client(x) => AddStartsByClient(c, s, x, id);
    case Sweeper(w) => SweeperLeavesAdds(c, s, w);
  }

  lemma AddStartsByClient(c: Config, s: State, l: ClientLabel, id: AddId)
    requires ClientCan(c, s, l) && id !in s.adds && id in ClientStep(c, s, l).adds
    ensures var a := ClientStep(c, s, l).adds[id]; l == AddBegin(id, a.d, a.ns, a.input) && a.pc.CheckRef?
  {
  }

  lemma {:induction false} AddOf(c: Config, run: seq<State>, labels: seq<Label>, id: AddId, i: nat) returns (j: nat)
    requires Labelled(c, run, labels) && i < |run| && id in run[i].adds
    ensures Adding(run, labels, id, run[i].adds[id], j, i) && AddKnows(c, run, run[i].adds[id], j, i)
    decreases i
  {
    assert i > 0;
    assert StepIs(c, run, labels, i - 1);
    var a := run[i].adds[id];
    if id in run[i - 1].adds {
      j := AddOf(c, run, labels, id, i - 1);
      AddStep(c, run[i - 1], labels[i - 1], id);
      AddGoesOn(c, run, labels, id, j, i);
    } else {
      var b := AddStarts(c, run[i - 1], labels[i - 1], id);
      j := i - 1;
      assert Under(run, id, a, i);
    }
  }

  lemma AddGoesOn(c: Config, run: seq<State>, labels: seq<Label>, id: AddId, j: nat, i: nat)
    requires Labelled(c, run, labels) && j + 1 < i < |run| && id in run[i - 1].adds && id in run[i].adds
    requires Adding(run, labels, id, run[i - 1].adds[id], j, i - 1) && AddKnows(c, run, run[i - 1].adds[id], j, i - 1)
    ensures Adding(run, labels, id, run[i].adds[id], j, i) && AddKnows(c, run, run[i].adds[id], j, i)
  {
    assert StepIs(c, run, labels, i - 1);
    AddStep(c, run[i - 1], labels[i - 1], id);
    var (a, a') := (run[i - 1].adds[id], run[i].adds[id]);
    forall k: nat | j < k <= i ensures Under(run, id, a', k) {
      if k < i { assert Under(run, id, a, k); }
    }
    if a.pc.Verify? || a.pc.PutRef? {
      var k: nat :| j < k <= i - 1 && BytesAt(run, a.d, k);
    } else if a'.pc.Verify? || a'.pc.PutRef? {
      assert BytesAt(run, a.d, i);
    }
  }

  /** Whoever writes a marker is an Add of that digest and namespace, whose input
      hashes to the digest, and during which its bytes were under blob/. */
  lemma MarkerMade(c: Config, run: seq<State>, labels: seq<Label>, k: Key, i: nat)
    returns (id: AddId, input: Bytes, j: nat)
    requires Labelled(c, run, labels) && i < |labels| && k in run[i + 1].refs
    requires k in run[i].refs ==> run[i + 1].refs[k] != run[i].refs[k]
    ensures labels[i] == Client(AddPutRef(id)) && j < i && labels[j] == Client(AddBegin(id, k.d, k.ns, input))
    ensures c.h.DigestOf(input) == k.d && SawBytes(run, k.d, j, i)
  {
    assert StepIs(c, run, labels, i);
    MarkerWritten(c, run[i], labels[i], k);
    id := labels[i].client.id;
    input := run[i].adds[id].input;
    j := AddOf(c, run, labels, id, i);
  }

  /** An Add that ends has its marker, or was given other bytes than its digest's, or
      has failed. */
  lemma AddEnds(c: Config, run: seq<State>, labels: seq<Label>, id: AddId, i: nat) returns (a: Add, j: nat)
    requires Labelled(c, run, labels) && i < |labels| && id in run[i].adds && id !in run[i + 1].adds
    ensures Adding(run, labels, id, a, j, i)
    ensures || labels[i] == Client(AddFail(id)) || c.h.DigestOf(a.input) != a.d
            || Key(a.d, a.ns) in run[i + 1].refs
  {
    assert StepIs(c, run, labels, i);
    a := run[i].adds[id];
    j := AddOf(c, run, labels, id, i);
    AddEndsStep(c, run[i], labels[i], id);
  }

  lemma AddEndsStep(c: Config, s: State, l: Label, id: AddId)
    requires Enabled(c, s, l) && id in s.adds && id !in Apply(c, s, l).adds
    ensures var a := s.adds[id];
            || l == Client(AddFail(id)) || c.h.DigestOf(a.input) != a.d
            || Key(a.d, a.ns) in Apply(c, s, l).refs
  {
    match l
    case Client(x) => AddEndsByClient(c, s, x, id);
    case Sweeper(w) => SweeperLeavesAdds(c, s, w);
  }

  lemma AddEndsByClient(c: Config, s: State, l: ClientLabel, id: AddId)
    requires ClientCan(c, s, l) && id in s.adds && id !in ClientStep(c, s, l).adds
    ensures var a := s.adds[id];
            l == AddFail(id) || c.h.DigestOf(a.input) != a.d || Key(a.d, a.ns) in ClientStep(c, s, l).refs
  {
  }

  // ------------------------------------------------------------------- bytes

  predicate Same(objects: map<Digest, Object>, objects': map<Digest, Object>, d: Digest) {
    (d in objects <==> d in objects') && (d in objects ==> objects'[d] == objects[d])
  }

  /** Nothing but these requests changes what is under blob/ or trash/: an upload by
      an Add of the digest, of the input it was given; */
  lemma ClientBytes(c: Config, s: State, l: ClientLabel, d: Digest)
    requires ClientCan(c, s, l)
    ensures var s' := ClientStep(c, s, l);
            && Same(s.trash, s'.trash, d)
            && (Same(s.blob, s'.blob, d) ||
                (l.AddUpload? && s.adds[l.id].d == d && d in s'.blob
                 && s'.blob[d].bytes == s.adds[l.id].input && c.h.DigestOf(s'.blob[d].bytes) == d))
  {
  }

  /** and the sweeper's copies and deletes of the digest it is at. */
  lemma SweeperBytes(c: Config, s: State, l: SweepLabel, d: Digest)
    requires SweeperCan(c, s, l)
    ensures var s' := SweeperStep(c, s, l);
            && (Same(s.blob, s'.blob, d) || SweptBlob(s, l, s', d))
            && (Same(s.trash, s'.trash, d) || SweptTrash(s, l, s', d))
  {
  }

  predicate SweptBlob(s: State, l: SweepLabel, s': State, d: Digest) {
    if d !in s'.blob then l.BlobDelete? && s.sweep.BlobDrop? && s.sweep.d == d
    else
      && l.TrashCopyBack? && s.sweep.TrashRestore? && s.sweep.d == d
      && d in s.trash && s'.blob[d].bytes == s.trash[d].bytes
  }

  predicate SweptTrash(s: State, l: SweepLabel, s': State, d: Digest) {
    if d !in s'.trash then l.TrashDelete? && s.sweep.TrashDrop? && s.sweep.d == d
    else l.BlobCopy? && l.d == d && s.sweep.Blobs? && d in s.blob && s'.trash[d].bytes == s.blob[d].bytes
  }

  // ----------------------------------------------------------------- listing

  predicate HasMarker(run: seq<State>, k: Key, i: nat)
    requires i < |run|
  {
    k in run[i].refs
  }

  predicate Always(run: seq<State>, k: Key, a: nat, i: nat) {
    a <= i < |run| && forall n: nat | a <= n <= i :: HasMarker(run, k, n)
  }

  predicate Ever(run: seq<State>, k: Key, a: nat, i: nat) {
    a <= i < |run| && exists n: nat | a <= n <= i :: HasMarker(run, k, n)
  }

  predicate Listing(run: seq<State>, a: nat, i: nat) {
    0 < a <= i < |run| && run[a - 1].sweep.Idle? && forall n: nat | a <= n <= i :: ListingAt(run, n)
  }

  predicate ListingAt(run: seq<State>, n: nat)
    requires n < |run|
  {
    run[n].sweep.ListRefs?
  }

  lemma ListingStep(c: Config, s: State, l: Label, k: Key)
    requires Enabled(c, s, l) && Apply(c, s, l).sweep.ListRefs?
    requires s.sweep.ListRefs? ==> (k in s.sweep.must ==> k in s.refs) && (k in s.refs ==> k in s.sweep.may)
    ensures var s' := Apply(c, s, l);
            if s.sweep.Idle? then (k in s'.sweep.must <==> k in s'.refs) && (k in s'.sweep.may <==> k in s'.refs)
            else
              && s.sweep.ListRefs?
              && (k in s'.sweep.must <==> k in s.sweep.must && k in s'.refs)
              && (k in s'.sweep.may <==> k in s.sweep.may || k in s'.refs)
  {
    match l
    case Client(a) => ListingByClient(c, s, a, k);
    case Sweeper(w) => ListingBySweeper(c, s, w);
  }

  lemma ListingByClient(c: Config, s: State, l: ClientLabel, k: Key)
    requires ClientCan(c, s, l) && ClientStep(c, s, l).sweep.ListRefs?
    requires s.sweep.ListRefs? ==> (k in s.sweep.must ==> k in s.refs) && (k in s.refs ==> k in s.sweep.may)
    ensures var s' := ClientStep(c, s, l);
            && s.sweep.ListRefs?
            && (k in s'.sweep.must <==> k in s.sweep.must && k in s'.refs)
            && (k in s'.sweep.may <==> k in s.sweep.may || k in s'.refs)
  {
  }

  lemma ListingBySweeper(c: Config, s: State, l: SweepLabel)
    requires SweeperCan(c, s, l) && SweeperStep(c, s, l).sweep.ListRefs?
    ensures var s' := SweeperStep(c, s, l);
            s.sweep.Idle? && s'.refs == s.refs && s'.sweep.must == s.refs.Keys == s'.sweep.may
  {
  }

  /** What a listing of the references has to find is what was there all the time
      since the sweep began, and what it can find is what was there at some time. */
  lemma {:induction false} ListingExact(c: Config, run: seq<State>, labels: seq<Label>, a: nat, i: nat, k: Key)
    requires Labelled(c, run, labels) && Listing(run, a, i)
    ensures run[i].sweep.ListRefs?
    ensures k in run[i].sweep.must <==> Always(run, k, a, i)
    ensures k in run[i].sweep.may <==> Ever(run, k, a, i)
    decreases i
  {
    assert StepIs(c, run, labels, i - 1) && ListingAt(run, i);
    assert HasMarker(run, k, i) <==> k in run[i].refs;
    if i > a {
      assert ListingAt(run, i - 1);
      ListingExact(c, run, labels, a, i - 1, k);
      assert HasMarker(run, k, i - 1) <==> k in run[i - 1].refs;
    }
    ListingStep(c, run[i - 1], labels[i - 1], k);
  }
}
