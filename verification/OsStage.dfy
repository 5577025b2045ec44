/** Staged uploads in the filesystem store, with crashes.

    A stage is a manifest replaced by rename and a private file that Append
    extends; a stage lock keeps its operations apart. Every filesystem call
    follows a script that decides whether it works, fails, or is where the process
    dies, so a contract here holds wherever the process stops. A file has what it
    holds and what a sync made durable, and a rename is durable once its directory
    is synced: `PowerLoss` falls back to what was durable. */
module OsStage {
  import opened Basics
  import opened Hashing
  import opened StageSpec

  datatype Outcome = Fine | Fails | Dies

  datatype File = File(cur: Bytes, synced: Bytes)

  /** Which inode the share path names: the stage's own, or another one of the
      same bytes that some other call put there. */
  datatype Inode = Absent | Ours | Theirs

  /** A namespace's directory for the digest: not there, there without a blob, or
      an entry. */
  datatype Repo = Nothing | Orphan | Entry(labels: Labels, inode: Inode)

  predicate Agree(a: Bytes, b: Bytes, n: int) {
    0 <= n <= |a| && n <= |b| && a[..n] == b[..n]
  }

  /** The bytes below r's offset are the accepted ones, in the file and durable. */
  predicate Backs(file: Option<File>, r: Record, data: Bytes) {
    r.phase.Active? || r.phase.Committing? ==>
      && file.Some? && Agree(file.value.cur, file.value.synced, r.offset) && file.value.cur[..r.offset] == data
  }

  /** Changing a file beyond n changes nothing a record with an offset up to n needs. */
  lemma BacksBelow(f: File, f': File, r: Record, data: Bytes, n: int)
    requires Backs(Some(f), r, data) && r.offset <= n && Agree(f.cur, f'.cur, n) && Agree(f.cur, f'.synced, n)
    ensures Backs(Some(f'), r, data)
  {
    if 0 <= r.offset {
      assert f'.cur[..n][..r.offset] == f'.cur[..r.offset];
      assert f.cur[..n][..r.offset] == f.cur[..r.offset];
      assert f'.synced[..n][..r.offset] == f'.synced[..r.offset];
    }
  }

  /** `left` may be what a power loss leaves of f: all of it if it was synced, and
      in any case what is durable and unchanged from the start on. */
  predicate Survives(f: File, left: Bytes) {
    && (f.cur == f.synced ==> left == f.cur)
    && (forall n | 0 <= n <= |f.cur| :: Agree(f.cur, f.synced, n) ==> Agree(f.cur, left, n))
  }

  /** What differs from a file that is all there behind it is longer. */
  lemma SyncedIsLonger(f: File)
    requires Agree(f.cur, f.synced, |f.cur|) && f.cur != f.synced
    ensures |f.synced| > |f.cur|
  {
    assert f.cur == f.cur[..|f.cur|] && f.synced == f.synced[..|f.synced|];
  }

  lemma SurvivesBacks(f: File, left: Bytes, r: Record, data: Bytes)
    requires Backs(Some(f), r, data) && Survives(f, left)
    ensures Backs(Some(File(left, left)), r, data)
  {
    if r.phase.Active? || r.phase.Committing? {
      BacksBelow(f, File(left, left), r, data, r.offset);
    }
  }

  predicate Open(r: Record) { r.phase.Active? || r.phase.Committing? }

  /** r may have been the manifest before m: a closed one is never replaced. */
  predicate Precedes(r: Record, m: Record) {
    && Open(r) && r.offset <= m.offset
    && (r.phase.Committing? ==> r.offset == m.offset && (m.phase.Committing? || m.phase.Committed?))
  }

  // -------------------------------------------- how the next calls are going to go

  /** The next n calls work. */
  predicate Works(script: seq<Outcome>, n: nat) {
    forall i | 0 <= i < n && i < |script| :: script[i].Fine?
  }

  function After(script: seq<Outcome>, n: nat): seq<Outcome> {
    if n <= |script| then script[n..] else []
  }

  /** n calls work and the next one does not. */
  predicate StopsAt(script: seq<Outcome>, n: nat) { Works(script, n) && !Works(script, n + 1) }

  function Fines(n: nat): seq<Outcome> { seq(n, _ => Fine) }

  lemma FineUntil(a: nat, b: nat, bad: Outcome)
    requires !bad.Fine?
    ensures var script := Fines(a + b) + [bad]; Works(script, a) && StopsAt(After(script, a), b)
  {
    var script := Fines(a + b) + [bad];
    assert After(script, a)[b] == bad;
  }

  predicate AllWork(script: seq<Outcome>) { Works(script, |script|) }

  lemma WorksSplit(script: seq<Outcome>, a: nat, b: nat)
    ensures Works(script, a + b) <==> Works(script, a) && Works(After(script, a), b)
    ensures After(After(script, a), b) == After(script, a + b)
  {
    if Works(script, a) && Works(After(script, a), b) {
      forall i | 0 <= i < a + b && i < |script| ensures script[i].Fine? {
        if i >= a { assert script[i] == After(script, a)[i - a]; }
      }
    }
  }

  lemma AllWorkOn(script: seq<Outcome>, n: nat)
    ensures AllWork(script) ==> Works(script, n) && AllWork(After(script, n))
  {
  }

  /** An Append with calls like these copies its input and syncs it, cannot write the
      manifest, truncates the file again, and stops before it has synced that. */
  predicate Tearing(script: seq<Outcome>) {
    |script| >= 6 && Works(script, 3) && script[3].Fails? && script[4].Fine? && !script[5].Fine?
  }

  /** The same once the file has been looked at. */
  predicate TearingOn(script: seq<Outcome>) {
    |script| >= 5 && Works(script, 2) && script[2].Fails? && script[3].Fine? && !script[4].Fine?
  }

  lemma TearingGoesOn(script: seq<Outcome>)
    ensures Tearing(script) ==> TearingOn(After(script, 1)) && After(script, 1)[5..] == script[6..]
  {
  }

  lemma TearingStops(script: seq<Outcome>)
    requires TearingOn(script)
    ensures var rest := After(script, 2);
            |rest| >= 3 && rest[0].Fails? && rest[1].Fine? && !rest[2].Fine? && rest[3..] == script[5..]
  {
  }

  class Stage {
    const h: Hasher
    const ttl: int
    const retention: int
    var script: seq<Outcome>          // how the next calls go; then all work
    var manifest: Record
    var file: Option<File>            // the private name of the stage's inode
    var share: Inode
    var entry: Repo
    var inputs: seq<Bytes>                // accepted inputs
    var older: map<Record, seq<Bytes>>    // manifests a power loss may bring back, and their inputs
    ghost var acked: seq<Bytes>           // inputs whose Append has said so
    ghost var cuts: nat                   // how often a published inode was truncated

    /** The inode has another name than the private one. */
    predicate Published()
      reads `share, `entry
    {
      share == Ours || (entry.Entry? && entry.inode == Ours)
    }

    ghost predicate RecordOk(r: Record, accepted: seq<Bytes>)
      reads `file
    {
      r.Valid(h) && r.hash == h.Of(Flatten(accepted)) && Backs(file, r, Flatten(accepted))
    }

    ghost predicate RecordsOk()
      reads `manifest, `file, `inputs, `older
    {
      && RecordOk(manifest, inputs)
      && (forall r <- older.Keys :: RecordOk(r, older[r]) && Precedes(r, manifest))
    }

    /** Input that was acknowledged is in every manifest there may be. */
    ghost predicate PromisesOk()
      reads `inputs, `older, `acked
    {
      acked <= inputs && (forall r <- older.Keys :: acked <= older[r])
    }

    ghost predicate Valid()
      reads `manifest, `file, `share, `entry, `inputs, `older, `acked
    {
      && h.Lawful() && ttl > 0 && retention > 0
      && RecordsOk() && PromisesOk()
      && (entry.Entry? ==> entry.inode == share && share != Absent)
    }

    /** The inode is published, or the stage has nothing to do with it any more. */
    ghost predicate Placed()
      reads `file, `share, `entry
    {
      Published() || file.None?
    }

    /** The file is synced, and no longer than what is frozen. */
    ghost predicate Sound()
      reads `manifest, `file
    {
      file.Some? ==>
        && file.value.cur == file.value.synced
        && (manifest.phase.Committing? || manifest.phase.Committed? ==> |file.value.cur| == manifest.offset)
    }

    /** No truncation that has yet to be synced: the file is synced, or longer than
        the accepted bytes, which the next recovery cuts and syncs. */
    ghost predicate Steady()
      reads `manifest, `file
    {
      file.Some? ==> file.value.cur == file.value.synced || |file.value.cur| > manifest.offset
    }

    /** What was acknowledged before still is. */
    ghost predicate Keeps(acked': seq<Bytes>, receipt': Option<Meta>)
      reads `manifest, `older, `acked
    {
      acked' <= acked && (receipt'.Some? ==> Receipt() == receipt')
    }

    /** The receipt, once no rename can be undone. */
    ghost function Receipt(): Option<Meta>
      reads `manifest, `older
    {
      if manifest.phase.Committed? && older == map[] then Some(manifest.result) else None
    }

    /** Published or done with, synced, and not truncated since. */
    ghost predicate Safe(cuts': nat)
      reads `manifest, `file, `share, `entry, `cuts
    {
      Placed() && Sound() && cuts == cuts'
    }

    ghost function Abs(): Upload
      reads `manifest, `inputs
    {
      View(manifest, inputs)
    }

    /** A new stage: an empty private file under a manifest that is durable. */
    constructor (h: Hasher, ttl: int, retention: int, now: int, share: Inode, entry: Repo)
      requires h.Lawful() && ttl > 0 && retention > 0 && share != Ours
      requires entry.Entry? ==> entry.inode == share && share != Absent
      ensures Valid() && Steady() && Abs() == Upload(Active, [], None, None) && script == [] && older == map[]
      ensures this.h == h && this.share == share && this.entry == entry && file == Some(File([], []))
      ensures acked == [] && cuts == 0 && !manifest.Expired(now)
    {
      this.h, this.ttl, this.retention := h, ttl, retention;
      this.share, this.entry := share, entry;
      script, manifest, file := [], NewRecord(h, now + ttl), Some(File([], []));
      inputs, older, acked, cuts := [], map[], [], 0;
    }

    method Call() returns (o: Outcome)
      modifies this`script
      ensures o == if old(script) == [] then Fine else old(script)[0]
      ensures script == After(old(script), 1)
    {
      o := Fine;
      if script != [] {
        o := script[0];
        script := script[1..];
      }
    }

    /** n calls in a row that all have to work. */
    method Calls(n: nat) returns (r: Result<()>)
      modifies this`script
      ensures r.Ok? <==> Works(old(script), n)
      ensures r.Ok? ==> script == After(old(script), n)
      ensures n > 0 && !Works(old(script), 1) ==>
                && script == After(old(script), 1)
                && r == Err(if old(script)[0].Fails? then Failed else Died)
    {
      for i := 0 to n
        invariant Works(old(script), i) && script == After(old(script), i)
      {
        WorksSplit(old(script), i, 1);
        var o := Call();
        if o.Fails? { return Err(Failed); }
        if o.Dies? { return Err(Died); }
      }
      return Ok(());
    }

    /** Change the file beyond the accepted bytes. */
    method SetFile(f': File)
      requires Valid() && Open(manifest)
      requires Agree(file.value.cur, f'.cur, manifest.offset) && Agree(file.value.cur, f'.synced, manifest.offset)
      modifies this`file
      ensures Valid() && file == Some(f')
    {
      BacksBelow(file.value, f', manifest, Flatten(inputs), manifest.offset);
      forall r <- older.Keys ensures Backs(Some(f'), r, Flatten(older[r])) {
        BacksBelow(file.value, f', r, Flatten(older[r]), manifest.offset);
      }
      file := Some(f');
    }

    /** Cut off whatever an interrupted Append left behind the accepted bytes. */
    method RecoverTail() returns (r: Result<()>)
      requires Valid()
      modifies this`script, this`file, this`cuts
      ensures Valid() && (r.Ok? && old(Steady()) ==> Steady())
      ensures !Open(manifest) ==> r.Ok? && file == old(file) && script == old(script) && cuts == old(cuts)
      ensures r.Ok? && Open(manifest) ==>
                && file.Some? && file.value.cur == Flatten(inputs) && |file.value.cur| == manifest.offset
                && (manifest.phase.Active? ==> !Published())
      // A published inode is cut exactly if it is longer than what is frozen.
      ensures file.Some? && Open(manifest) && |old(file).value.cur| == manifest.offset ==>
                && file == old(file) && cuts == old(cuts)
                && (manifest.phase.Committing? || !Published() ==> (r.Ok? <==> Works(old(script), 1)))
                && (r.Ok? ==> script == After(old(script), 1))
      ensures manifest.phase.Active? && Published() ==> r.Err? && file == old(file) && cuts == old(cuts)
      ensures r.Ok? && manifest.phase.Committing? && Published() ==>
                cuts == old(cuts) + if |old(file).value.cur| > manifest.offset then 1 else 0
      ensures AllWork(old(script)) && (manifest.phase.Committing? || !Published()) ==> r.Ok? && AllWork(script)
    {
      AllWorkOn(script, 1);
      if !Open(manifest) {
        return Ok(());
      }
      r := Calls(1);
      if r.Err? { return; }
      if manifest.phase.Active? && Published() { return Err(StageFormat); }
      var f := file.value;
      if |f.cur| < manifest.offset { return Err(StageFormat); }
      if |f.cur| > manifest.offset {
        r := Truncate();
        if r.Err? { return; }
      }
      assert file.value.cur[..manifest.offset] == file.value.cur;
      return Ok(());
    }

    /** Resume and Stat: refuse an expired upload, and recover the file. */
    method Look(now: int) returns (r: Result<()>)
      requires Valid()
      modifies this`script, this`file, this`cuts
      ensures Valid() && (r.Ok? && old(Steady()) ==> Steady())
      ensures !manifest.phase.Committing? && manifest.Expired(now) ==>
                r == Err(StageExpired) && file == old(file) && cuts == old(cuts)
      ensures r.Ok? && Open(manifest) ==> file.Some? && file.value.cur == Flatten(inputs)
      ensures AllWork(old(script)) ==>
                (r.Ok? <==>
                 (manifest.phase.Committing? || now < manifest.expires) && !(manifest.phase.Active? && Published()))
      ensures old(Placed() && Sound()) ==> file == old(file) && cuts == old(cuts)
    {
      if !manifest.phase.Committing? && manifest.Expired(now) { return Err(StageExpired); }
      r := RecoverTail();
    }

    /** Cut the file to the accepted bytes and make that durable. */
    method Truncate() returns (r: Result<()>)
      requires Valid() && Open(manifest) && |file.value.cur| > manifest.offset
      requires manifest.phase.Active? ==> !Published()
      modifies this`script, this`file, this`cuts
      ensures Valid() && file.Some?
      ensures r.Ok? ==> |file.value.cur| == manifest.offset && file.value.cur == file.value.synced
      ensures r.Ok? ==> cuts == old(cuts) + if Published() then 1 else 0
      ensures AllWork(old(script)) ==> r.Ok? && AllWork(script)
    {
      AllWorkOn(script, 1);
      AllWorkOn(After(script, 1), 1);
      r := Calls(1);
      if r.Err? { return; }
      Cut();
      r := Calls(1);
      if r.Err? { return; }
      SetFile(File(file.value.cur, file.value.cur));
    }

    method Cut()
      requires Valid() && Open(manifest) && |file.value.cur| > manifest.offset
      modifies this`file, this`cuts
      ensures Valid() && file.Some? && |file.value.cur| == manifest.offset
      ensures cuts == old(cuts) + if Published() then 1 else 0
    {
      var f := file.value;
      var kept := f.cur[..manifest.offset];
      assert kept[..manifest.offset] == kept;
      SetFile(f.(cur := kept));
      if Published() { cuts := cuts + 1; }
    }

    /** The rename itself. Until the directory is synced, power loss may undo it. */
    method Install(next: Record, accepted: seq<Bytes>)
      requires Valid() && RecordOk(next, accepted) && Precedes(manifest, next) && inputs <= accepted
      modifies this`manifest, this`inputs, this`older
      ensures Valid() && manifest == next && inputs == accepted
      ensures older == old(older)[old(manifest) := old(inputs)]
    {
      older := older[manifest := inputs];
      manifest, inputs := next, accepted;
      forall r <- older.Keys ensures RecordOk(r, older[r]) && Precedes(r, manifest) {
        if r != old(manifest) {
          assert r in old(older) && older[r] == old(older)[r];
          assert Precedes(r, old(manifest));
        }
      }
    }

    /** Replace the manifest: write it aside, sync it, rename it, sync the
        directory. `published` tells whether the rename happened. */
    method WriteRecord(next: Record, accepted: seq<Bytes>) returns (published: bool, r: Result<()>)
      requires Valid() && RecordOk(next, accepted) && Precedes(manifest, next) && inputs <= accepted
      modifies this`script, this`manifest, this`inputs, this`older
      ensures Valid()
      ensures published <==> Works(old(script), 5)
      ensures !published ==> r.Err? && manifest == old(manifest) && inputs == old(inputs) && older == old(older)
      ensures published ==> manifest == next && inputs == accepted
      ensures r.Ok? <==> Works(old(script), 6)
      ensures r.Ok? ==> older == map[] && script == After(old(script), 6)
      ensures published && r.Err? ==> older == old(older)[old(manifest) := old(inputs)]
      ensures !Works(old(script), 1) ==>
                script == After(old(script), 1) && r == Err(if old(script)[0].Fails? then Failed else Died)
    {
      WorksSplit(script, 5, 1);
      published := false;
      r := Calls(5);   // remove a leftover, create, write, sync, rename
      if r.Err? { return; }
      Install(next, accepted);
      published := true;
      r := Calls(1);
      if r.Ok? { Settle(); }
    }

    /** The directory is synced: no rename can be undone any more. */
    method Settle()
      requires Valid()
      modifies this`older
      ensures Valid() && older == map[]
    {
      older := map[];
    }

    /** Undo a failed Append: truncate and sync, either of which may not happen. */
    method Rollback()
      requires Valid() && manifest.phase.Active? && !Published() && |file.value.cur| >= manifest.offset
      modifies this`script, this`file
      ensures Valid() && file.Some?
      // The truncation can stay without its sync.
      ensures |old(script)| >= 2 && old(script)[0].Fine? && !old(script)[1].Fine? ==>
                file == Some(File(Flatten(inputs), old(file.value.synced))) && script == old(script)[2..]
    {
      var f := file.value;
      var o := Call();
      if o.Fine? { f := f.(cur := f.cur[..manifest.offset]); }
      SetFile(f);
      if o.Dies? { return; }
      o := Call();
      if o.Fine? { SetFile(File(f.cur, f.cur)); }
    }

    /** What an Append asks of the upload. */
    predicate MayAppend(now: int, expected: int)
      reads `manifest
    {
      manifest.phase.Active? && now < manifest.expires && expected == manifest.offset
    }

    predicate Untouched(file': Option<File>, manifest': Record, older': map<Record, seq<Bytes>>)
      reads `file, `manifest, `older
    {
      file == file' && manifest == manifest' && older == older'
    }

    /** Accept input at the expected offset. `taken` bytes reach the file if the
        copy does not finish. */
    method Append(now: int, expected: int, input: Bytes, taken: nat) returns (offset: int, r: Result<()>)
      requires Valid() && taken <= |input|
      modifies this`script, this`file, this`manifest, this`inputs, this`older, this`acked, this`cuts
      ensures Valid() && Next(h, old(Abs()), Abs()) && old(acked) <= acked
      ensures inputs == old(inputs) || inputs == old(inputs) + [input]
      ensures r.Ok? ==>
                && inputs == old(inputs) + [input] == acked && older == map[]
                && offset == manifest.offset == old(manifest).offset + |input|
                && old(MayAppend(now, expected)) && manifest.expires == now + ttl
      // With nothing in the way it succeeds exactly for an open upload and its offset.
      ensures AllWork(old(script)) ==> (r.Ok? <==> old(MayAppend(now, expected)) && !Published())
      ensures !old(manifest).phase.Committing? && old(manifest).expires <= now ==>
                r == Err(StageExpired) && Untouched(old(file), old(manifest), old(older))
      ensures old(manifest).phase.Active? && !old(manifest).Expired(now) && expected != old(manifest).offset ==>
                r == Err(OffsetMismatch) && offset == old(manifest).offset && Abs() == old(Abs())
      ensures !old(manifest).phase.Active? ==> manifest == old(manifest) && older == old(older)
      ensures old(Placed()) ==> file == old(file) && manifest == old(manifest) && cuts == old(cuts)
      // The file can be left truncated without a sync.
      ensures Tearing(old(script)) && old(manifest).phase.Active? && !old(manifest).Expired(now) && !Published()
                && expected == old(manifest).offset == |old(file).value.cur| ==>
                && manifest == old(manifest) && inputs == old(inputs) && older == old(older)
                && file == Some(File(Flatten(inputs), Flatten(inputs) + input)) && script == old(script)[6..]
    {
      offset := manifest.offset;
      if !manifest.phase.Committing? && manifest.Expired(now) { return offset, Err(StageExpired); }
      if !manifest.phase.Active? { return offset, Err(StageClosed); }
      if expected != manifest.offset { return offset, Err(OffsetMismatch); }
      r := RecoverTail();
      if r.Err? { return offset, r; }
      TearingGoesOn(old(script));
      r := Extend(now, input, taken);
      offset := manifest.offset;
      if r.Ok? { acked := inputs; }
    }

    /** Copy the input, then write the manifest that accepts it; undo the copy when
        that manifest is not there in the end. */
    method Extend(now: int, input: Bytes, taken: nat) returns (r: Result<()>)
      requires Valid() && manifest.phase.Active? && !Published() && taken <= |input|
      requires |file.value.cur| == manifest.offset
      modifies this`script, this`file, this`manifest, this`inputs, this`older
      ensures Valid() && manifest.phase.Active?
      ensures
                || (inputs == old(inputs) && manifest == old(manifest))
                || (inputs == old(inputs) + [input] && manifest.offset == old(manifest).offset + |input|)
      ensures r.Ok? ==> inputs == old(inputs) + [input] && older == map[] && manifest.expires == now + ttl
      ensures AllWork(old(script)) ==> r.Ok?
      ensures TearingOn(old(script)) ==>
                && manifest == old(manifest) && inputs == old(inputs) && older == old(older)
                && file == Some(File(Flatten(inputs), Flatten(inputs) + input)) && script == old(script)[5..]
    {
      if TearingOn(script) { TearingStops(script); }
      AllWorkOn(script, 2);
      AllWorkOn(After(script, 2), 6);
      assert file.value.cur == Flatten(inputs) by { assert file.value.cur[..manifest.offset] == file.value.cur; }
      r := Copy(input, taken);
      if r.Err? {
        if r != Err(Died) { Rollback(); }
        return;
      }
      r := Accept(now, input);
    }

    /** Write the manifest that accepts input, which is in the file; or undo it. */
    method Accept(now: int, input: Bytes) returns (r: Result<()>)
      requires Valid() && manifest.phase.Active? && !Published()
      requires file == Some(File(Flatten(inputs) + input, Flatten(inputs) + input))
      modifies this`script, this`file, this`manifest, this`inputs, this`older
      ensures Valid() && manifest.phase.Active?
      ensures
                || (inputs == old(inputs) && manifest == old(manifest))
                || (inputs == old(inputs) + [input] && manifest.offset == old(manifest).offset + |input|)
      ensures r.Ok? ==> inputs == old(inputs) + [input] && older == map[] && manifest.expires == now + ttl
      ensures Works(old(script), 6) ==> r.Ok?
      ensures |old(script)| >= 3 && old(script)[0].Fails? && old(script)[1].Fine? && !old(script)[2].Fine? ==>
                && manifest == old(manifest) && inputs == old(inputs) && older == old(older)
                && file == Some(File(Flatten(inputs), Flatten(inputs) + input)) && script == old(script)[3..]
    {
      var checkpoint := h.feed(manifest.hash, input);
      var next := manifest.(offset := manifest.offset + |input|, hash := checkpoint, expires := now + ttl);
      assert RecordOk(next, inputs + [input]) by {
        FlattenSnoc(inputs, input);
        assert file.value.cur[..next.offset] == file.value.cur;
      }
      var published;
      published, r := WriteRecord(next, inputs + [input]);
      if !published && r != Err(Died) {
        Rollback();
      }
    }

    /** Copy the input behind the accepted bytes and sync it. */
    method Copy(input: Bytes, taken: nat) returns (r: Result<()>)
      requires Valid() && manifest.phase.Active? && !Published() && taken <= |input|
      requires |file.value.cur| == manifest.offset
      modifies this`script, this`file
      ensures Valid() && file.Some? && |file.value.cur| >= manifest.offset
      ensures r.Ok? ==> file == Some(File(old(file.value.cur) + input, old(file.value.cur) + input))
      ensures r.Ok? <==> Works(old(script), 2)
      ensures r.Ok? ==> script == After(old(script), 2)
    {
      WorksSplit(script, 1, 1);
      var f := file.value;
      var o := Call();
      var n := if o.Fine? then |input| else taken;
      var all := f.cur + input[..n];
      assert all[..manifest.offset] == f.cur == f.cur[..manifest.offset];
      SetFile(f.(cur := all));
      if o.Dies? { return Err(Died); }
      if o.Fails? { return Err(Failed); }
      r := Calls(1);
      if r.Err? { return; }
      SetFile(File(all, all));
      assert input[..n] == input;
    }

    /** Freeze the commit's parameters. */
    method Freeze(wanted: Meta) returns (r: Result<()>)
      requires Valid() && manifest.phase.Active?
      modifies this`script, this`file, this`manifest, this`inputs, this`older, this`cuts
      ensures Valid() && Next(h, old(Abs()), Abs()) && inputs == old(inputs) && Open(manifest)
      ensures r.Ok? && old(Steady()) ==> Steady()
      ensures r.Ok? ==>
                && manifest.phase.Committing? && older == map[]
                && manifest.commit == Meta(h.DigestOf(Flatten(inputs)), |Flatten(inputs)|, wanted.labels)
                && (wanted.digest == "" || wanted.digest == manifest.commit.digest)
      ensures AllWork(old(script)) ==>
                (r.Ok? ==> AllWork(script)) && (r.Ok? <==> old(manifest).PrepareCommit(h, wanted).Ok? && !Published())
      ensures old(Placed()) ==> file == old(file) && manifest == old(manifest) && cuts == old(cuts) && r.Err?
      ensures |old(file).value.cur| == old(manifest).offset && wanted.digest == "" && !Published() ==>
                && file == old(file) && cuts == old(cuts) && (r.Ok? <==> Works(old(script), 7))
                && (r.Ok? ==> script == After(old(script), 7))
    {
      WorksSplit(script, 1, 6);
      var prepared := manifest.PrepareCommit(h, wanted);
      if prepared.Err? { return Err(prepared.error); }
      r := RecoverTail();
      if r.Err? { return; }
      AllWorkOn(script, 6);
      var next := manifest.(phase := Committing, commit := prepared.value);
      var published;
      published, r := WriteRecord(next, inputs);
    }

    /** What stands at the destination once a commit has published. */
    predicate PublishedAs(labels: Labels)
      reads `share, `entry
    {
      share != Absent && entry == Entry(labels, share)
    }

    /** Make the entry: stage it, link the stage's inode to the share path if there
        is none, clear an orphan directory away, and rename. Under the digest lock. */
    method PublishEntry() returns (r: Result<()>)
      requires Valid() && manifest.phase.Committing? && !entry.Entry?
      requires |file.value.cur| == manifest.offset
      modifies this`script, this`share, this`entry
      ensures Valid()
      ensures r.Ok? ==> PublishedAs(manifest.commit.labels)
      ensures r.Err? ==> !entry.Entry? || PublishedAs(manifest.commit.labels)
      ensures share == old(share) || (old(share) == Absent && share == Ours)
      ensures AllWork(old(script)) ==> r.Ok? && AllWork(script)
      ensures old(share) == Absent && old(entry) == Nothing && Works(old(script), 7) ==>
                r.Ok? && share == Ours && script == After(old(script), 7)
    {
      WorksSplit(script, 5, 1);
      WorksSplit(script, 6, 1);
      AllWorkOn(script, 5);
      r := Calls(5);   // clear and make the publish directory, labels, share directory, link the source into it
      if r.Err? { return; }
      r := LinkShare();
      if r.Err? { return; }
      r := RenameEntry();
    }

    /** Clear an orphan directory away and rename the staged entry into its place. */
    method RenameEntry() returns (r: Result<()>)
      requires Valid() && manifest.phase.Committing? && !entry.Entry? && share != Absent
      modifies this`script, this`entry
      ensures Valid()
      ensures if r.Ok? then PublishedAs(manifest.commit.labels) else !entry.Entry?
      ensures AllWork(old(script)) ==> r.Ok? && AllWork(script)
      ensures old(entry) == Nothing && Works(old(script), 1) ==> r.Ok? && script == After(old(script), 1)
    {
      AllWorkOn(script, 1);
      if entry.Orphan? {
        r := Calls(1);
        if r.Err? { return; }
        AllWorkOn(script, 1);
        entry := Nothing;
      }
      r := Calls(1);
      if r.Ok? { entry := Entry(manifest.commit.labels, share); }
    }

    /** Give the stage's inode the share path, if that is free. */
    method LinkShare() returns (r: Result<()>)
      requires Valid() && manifest.phase.Committing? && !entry.Entry? && |file.value.cur| == manifest.offset
      modifies this`script, this`share
      ensures Valid() && (r.Ok? ==> share != Absent)
      ensures share == old(share) || (old(share) == Absent && share == Ours)
      ensures AllWork(old(script)) ==> r.Ok? && AllWork(script)
      ensures old(share) == Absent && Works(old(script), 1) ==> r.Ok? && script == After(old(script), 1)
    {
      AllWorkOn(script, 1);
      r := Ok(());
      if share == Absent {
        r := Calls(1);
        if r.Ok? { share := Ours; }
      }
    }

    /** Make the entry durable. Unless an Erase, which takes no lock, got it first. */
    method SyncEntry(erased: bool) returns (r: Result<()>)
      requires Valid() && manifest.phase.Committing? && entry.Entry?
      requires |file.value.cur| == manifest.offset
      modifies this`script, this`file, this`entry
      ensures Valid()
      ensures if erased then r.Err? && entry == Nothing else entry == old(entry)
      ensures file == old(file) || file == Some(File(old(file).value.cur, old(file).value.cur))
      ensures AllWork(old(script)) && !erased ==> r.Ok? && AllWork(script)
      ensures !Works(old(script), 1) && !erased ==> r.Err? && file == old(file) && script == After(old(script), 1)
      ensures Works(old(script), 4) && !erased ==> r.Ok? && script == After(old(script), 4)
    {
      WorksSplit(script, 1, 3);
      AllWorkOn(After(script, 1), 3);
      if erased {
        entry := Nothing;
        return Err(Failed);
      }
      r := Calls(1);   // the blob file
      if r.Err? { return; }
      if entry.inode == Ours { SetFile(File(file.value.cur, file.value.cur)); }
      r := Calls(3);   // the labels, the entry's directory, its parent
    }

    /** Carry a frozen commit through, from wherever an earlier attempt stopped. */
    method RecoverCommit(now: int, erased: bool) returns (r: Result<Meta>)
      requires Valid() && manifest.phase.Committing?
      modifies this`script, this`file, this`share, this`entry, this`manifest, this`inputs, this`older, this`cuts
      ensures Valid() && Next(h, old(Abs()), Abs()) && inputs == old(inputs)
      // An entry that is there is left alone, and its labels are the receipt's.
      ensures old(entry).Entry? ==> entry == old(entry) || (erased && entry == Nothing)
      ensures !old(entry).Entry? && entry.Entry? ==> PublishedAs(old(manifest).commit.labels)
      ensures r.Ok? ==>
                && manifest.phase.Committed? && entry.Entry? && share != Absent && entry.inode == share
                && r.value == manifest.result == Meta(old(manifest).commit.digest, old(manifest).offset, entry.labels)
                && older == map[] && manifest.expires == now + retention
      // Nothing in the way: whatever was interrupted before, it finishes now.
      ensures AllWork(old(script)) && !erased ==> r.Ok?
      // A synced inode is published as it is, and stays as it is once published.
      ensures old(Placed()) ==> Placed()
      ensures old(Sound()) ==> Sound() && cuts == old(cuts)
      ensures old(Steady() && !Published()) && Published() ==> Sound()
      // Otherwise it is cut.
      ensures AllWork(old(script)) && old(Published()) ==>
                cuts == old(cuts) + if |old(file).value.cur| > old(manifest).offset then 1 else 0
      ensures old(Fresh()) && !erased && StopsAt(old(script), 9) ==>
                older == old(older) && StoppedShort(old(manifest).commit, old(file))
      ensures old(Fresh()) && !erased && StopsAt(old(script), 18) ==> Unsettled(old(manifest).commit, now)
    {
      WorksSplit(script, 13, 5);
      WorksSplit(script, 13, 6);
      WorksSplit(script, 10, 3);
      var t := Place(erased);
      if t.Err? { return Err(t.error); }
      r := Conclude(now);
    }

    /** Everything of it before the receipt. */
    method Place(erased: bool) returns (r: Result<()>)
      requires Valid() && manifest.phase.Committing?
      modifies this`script, this`file, this`share, this`entry, this`cuts
      ensures Valid() && file.Some?
      ensures old(entry).Entry? ==> entry == old(entry) || (erased && entry == Nothing)
      ensures !old(entry).Entry? && entry.Entry? ==> PublishedAs(manifest.commit.labels)
      ensures r.Ok? ==> entry.Entry?
      ensures AllWork(old(script)) && !erased ==> r.Ok? && AllWork(script)
      ensures old(Placed()) ==> Placed()
      ensures old(Sound()) ==> Sound() && cuts == old(cuts)
      ensures old(Steady() && !Published()) && Published() ==> Sound()
      ensures AllWork(old(script)) && old(Published()) ==>
                cuts == old(cuts) + if |old(file).value.cur| > manifest.offset then 1 else 0
      ensures old(Fresh()) && !erased && StopsAt(old(script), 9) ==>
                r.Err? && StoppedShort(manifest.commit, old(file))
      ensures old(Fresh()) && !erased && Works(old(script), 13) ==> r.Ok? && script == After(old(script), 13)
    {
      WorksSplit(script, 2, 7);
      WorksSplit(script, 2, 8);
      WorksSplit(script, 2, 11);
      r := Lock();
      if r.Err? { return; }
      r := EnsureEntry(erased);
    }

    /** Make the entry if there is none, and make it durable. */
    method EnsureEntry(erased: bool) returns (r: Result<()>)
      requires Valid() && manifest.phase.Committing? && |file.value.cur| == manifest.offset
      modifies this`script, this`file, this`share, this`entry
      ensures Valid() && file.Some?
      ensures old(entry).Entry? ==> entry == old(entry) || (erased && entry == Nothing)
      ensures !old(entry).Entry? && entry.Entry? ==> PublishedAs(manifest.commit.labels)
      ensures r.Ok? ==> entry.Entry?
      ensures share == old(share) || (old(share) == Absent && share == Ours)
      ensures file == old(file) || file == Some(File(old(file).value.cur, old(file).value.cur))
      ensures AllWork(old(script)) && !erased ==> r.Ok? && AllWork(script)
      ensures old(Fresh()) && !erased && StopsAt(old(script), 7) ==>
                r.Err? && StoppedShort(manifest.commit, old(file))
      ensures old(Fresh()) && !erased && Works(old(script), 11) ==> r.Ok? && script == After(old(script), 11)
    {
      WorksSplit(script, 7, 1);
      WorksSplit(script, 7, 4);
      if !entry.Entry? {
        r := PublishEntry();
        if r.Err? { return; }
      }
      r := SyncEntry(erased);
    }

    /** Recover the file, and take the digest's lock. */
    method Lock() returns (r: Result<()>)
      requires Valid() && manifest.phase.Committing?
      modifies this`script, this`file, this`cuts
      ensures Valid() && file.Some?
      ensures r.Ok? ==> |file.value.cur| == manifest.offset && (old(Steady()) ==> file.value.cur == file.value.synced)
      ensures |old(file).value.cur| == manifest.offset ==>
                && file == old(file) && cuts == old(cuts)
                && (r.Ok? <==> Works(old(script), 2)) && (r.Ok? ==> script == After(old(script), 2))
      ensures r.Ok? && Published() ==> cuts == old(cuts) + if |old(file).value.cur| > manifest.offset then 1 else 0
      ensures AllWork(old(script)) ==> r.Ok? && AllWork(script)
    {
      WorksSplit(script, 1, 1);
      r := RecoverTail();
      if r.Err? { return; }
      AllWorkOn(script, 1);
      r := Calls(1);
    }

    /** A commit of a new digest that is going to get past freezing. */
    ghost predicate Ready(now: int, wanted: Meta)
      reads `script, `manifest, `file, `share, `entry
    {
      manifest.phase.Active? && !manifest.Expired(now) && Fresh() && wanted.digest == "" && Works(script, 7)
    }

    /** A commit stopped with its entry in place and not synced. */
    ghost predicate StoppedShort(wanted: Meta, was: Option<File>)
      reads `manifest, `file, `share, `entry
    {
      && manifest.phase.Committing? && file == was && share == Ours
      && entry == Entry(wanted.labels, Ours) && manifest.commit.labels == wanted.labels
    }

    /** A commit stopped with its receipt written and not synced. */
    ghost predicate Unsettled(wanted: Meta, now: int)
      reads `manifest, `older
    {
      && manifest.phase.Committed? && manifest.commit.labels == wanted.labels
      && manifest.expires == now + retention && older != map[]
    }

    /** Nothing of the digest is there yet, and the file holds the frozen bytes. */
    ghost predicate Fresh()
      reads `manifest, `file, `share, `entry
    {
      share == Absent && entry == Nothing && file.Some? && |file.value.cur| == manifest.offset
    }

    /** Write the receipt and drop the private name. */
    method Conclude(now: int) returns (r: Result<Meta>)
      requires Valid() && manifest.phase.Committing? && entry.Entry?
      modifies this`script, this`file, this`manifest, this`inputs, this`older
      ensures Valid() && Next(h, old(Abs()), Abs()) && inputs == old(inputs)
      ensures r.Ok? ==>
                && manifest.phase.Committed? && older == map[] && manifest.expires == now + retention
                && r.value == manifest.result == Meta(old(manifest).commit.digest, old(manifest).offset, entry.labels)
      ensures AllWork(old(script)) ==> r.Ok?
      ensures file == old(file) || file.None?
      ensures manifest == old(manifest) || (manifest.phase.Committed? && manifest.offset == old(manifest).offset)
      ensures StopsAt(old(script), 5) ==> r.Err? && Unsettled(old(manifest).commit, now)
    {
      WorksSplit(script, 6, 2);
      AllWorkOn(script, 6);
      var result := Meta(manifest.commit.digest, manifest.offset, entry.labels);
      var next := manifest.(phase := Committed, result := result, expires := now + retention);
      var published, t := WriteRecord(next, inputs);
      if published && t.Err? { assert old(manifest) in older; }
      if t.Err? { return Err(t.error); }
      t := RemoveFile();
      if t.Err? { return Err(t.error); }
      return Ok(result);
    }

    /** Remove the private name of a closed stage's file and sync the directory,
        which makes earlier renames durable too. Nothing reads the file of a closed
        stage, so the removal counts from the sync on. */
    method RemoveFile() returns (r: Result<()>)
      requires Valid() && !Open(manifest)
      modifies this`script, this`file, this`older
      ensures Valid() && (file == old(file) || file.None?)
      ensures if r.Ok? then older == map[] else older == old(older)
      ensures r.Ok? <==> Works(old(script), 2)
    {
      r := Calls(2);
      if r.Ok? { older, file := map[], None; }
    }

    /** What a Commit asks of the upload: open and given its digest or none, or frozen
        with the same parameters. */
    ghost predicate MayCommit(now: int, wanted: Meta)
      reads `manifest, `share, `entry, `inputs
    {
      && (wanted.digest == "" || (ValidDigest(wanted.digest) && wanted.digest == h.DigestOf(Flatten(inputs))))
      && (manifest.phase.Committing? || now < manifest.expires)
      && (manifest.phase.Active? ==> !Published())
      && (manifest.phase.Committing? || manifest.phase.Committed? ==> wanted.labels == manifest.commit.labels)
      && !manifest.phase.Aborted?
    }

    /** Commit: freeze the parameters once, then carry them through. */
    method Commit(now: int, wanted: Meta, erased: bool) returns (r: Result<Meta>, ghost mid: Upload)
      requires Valid()
      modifies this`script, this`file, this`share, this`entry, this`manifest, this`inputs, this`older, this`cuts
      ensures Valid() && inputs == old(inputs)
      ensures Next(h, old(Abs()), mid) && Next(h, mid, Abs())
      ensures r.Ok? ==>
                && manifest.phase.Committed? && r.value == manifest.result
                && r.value.digest == h.DigestOf(Flatten(inputs)) && r.value.size == |Flatten(inputs)|
                && manifest.commit.labels == wanted.labels
                && (wanted.digest == "" || wanted.digest == r.value.digest)
      // With nothing in the way it succeeds exactly if it is asked for what can be
      // frozen, or is frozen; and an expired upload is refused.
      ensures AllWork(old(script)) && !erased ==> (r.Ok? <==> old(MayCommit(now, wanted)))
      ensures r.Ok? ==> old(MayCommit(now, wanted))
      ensures r.Ok? && !old(manifest).phase.Committed? ==> manifest.expires == now + retention
      ensures !old(manifest).phase.Committing? && old(manifest).expires <= now ==>
                && r == Err(StageExpired) && Untouched(old(file), old(manifest), old(older))
                && entry == old(entry) && share == old(share)
      // Then the entry is in place; it has the labels asked for unless it was there.
      ensures r.Ok? && !old(manifest).phase.Committed? ==>
                entry.Entry? && share != Absent && entry.inode == share && r.value.labels == entry.labels
      ensures old(entry).Entry? ==> entry == old(entry) || (erased && entry == Nothing)
      ensures !old(entry).Entry? && entry.Entry? ==> entry.labels == wanted.labels
      ensures old(manifest).phase.Committed? ==> entry == old(entry) && share == old(share)
      // The receipt is durable, unless an earlier attempt wrote it and could not
      // sync it: then it is handed out as it is.
      ensures r.Ok? && !old(manifest).phase.Committed? ==> older == map[]
      ensures old(manifest).phase.Committed? ==> manifest == old(manifest) && older == old(older)
      ensures old(manifest).phase.Committed? && !old(manifest).Expired(now) ==>
                (wanted == Meta("", 0, old(manifest).commit.labels) ==> r.Ok?)
      ensures old(Placed()) ==> Placed()
      ensures old(Placed() && Sound()) ==> Sound() && cuts == old(cuts)
      ensures old(Steady() && !Published()) && Published() ==> Sound()
      ensures old(Ready(now, wanted)) && !erased && StopsAt(After(old(script), 7), 9) ==>
                StoppedShort(wanted, old(file))
      ensures old(Ready(now, wanted)) && !erased && StopsAt(After(old(script), 7), 18) ==> Unsettled(wanted, now)
    {
      var done := Enter(now, wanted);
      mid := Abs();
      if done.Err? { return Err(done.error), mid; }
      if done.value.Some? {
        return Ok(done.value.value), mid;
      }
      r := RecoverCommit(now, erased);
    }

    /** Hand out a receipt that is there, or get to where the parameters are frozen. */
    method Enter(now: int, wanted: Meta) returns (r: Result<Option<Meta>>)
      requires Valid()
      modifies this`script, this`file, this`manifest, this`inputs, this`older, this`cuts
      ensures Valid() && Next(h, old(Abs()), Abs()) && inputs == old(inputs)
      ensures r.Ok? ==>
                && (r.value == if manifest.phase.Committed? then Some(manifest.result) else None)
                && (manifest.phase.Committing? || manifest.phase.Committed?)
                && manifest.commit.labels == wanted.labels
                && (wanted.digest == "" || wanted.digest == manifest.commit.digest)
      ensures !old(manifest).phase.Active? ==>
                manifest == old(manifest) && older == old(older) && file == old(file) && cuts == old(cuts)
      ensures old(manifest).phase.Active? ==>
                Open(manifest) && (r.Ok? ==> older == map[])
      ensures old(manifest).phase.Committed? && !old(manifest).Expired(now) ==>
                (wanted == Meta("", 0, old(manifest).commit.labels) ==> r.Ok?)
      ensures old(Placed()) ==> file == old(file) && manifest == old(manifest) && cuts == old(cuts)
      ensures AllWork(old(script)) ==>
                (r.Ok? ==> AllWork(script)) && (r.Ok? <==> old(MayCommit(now, wanted)))
      ensures r.Ok? ==> old(MayCommit(now, wanted))
      ensures !old(manifest).phase.Committing? && old(manifest).expires <= now ==>
                r == Err(StageExpired) && Untouched(old(file), old(manifest), old(older))
      ensures r.Ok? && old(Steady()) ==> Steady()
      ensures old(Ready(now, wanted)) ==>
                r == Ok(None) && file == old(file) && script == After(old(script), 7) && manifest.phase.Committing?
    {
      if !manifest.phase.Committing? && manifest.Expired(now) { return Err(StageExpired); }
      if manifest.phase.Aborted? { return Err(StageClosed); }
      var prepared := manifest.PrepareCommit(h, wanted);
      if prepared.Err? { return Err(prepared.error); }
      if !manifest.phase.Active? {
        if prepared.value != manifest.commit { return Err(StageConflict); }
        return Ok(if manifest.phase.Committed? then Some(manifest.result) else None);
      }
      var t := Freeze(wanted);
      if t.Err? { return Err(t.error); }
      return Ok(None);
    }

    /** Abort: an active upload closes; a frozen one is carried through instead. */
    method Abort(now: int, erased: bool) returns (r: Result<()>)
      requires Valid()
      modifies this`script, this`file, this`share, this`entry, this`manifest, this`inputs, this`older, this`cuts
      ensures Valid() && Next(h, old(Abs()), Abs()) && inputs == old(inputs)
      ensures r.Ok? ==> manifest.phase.Committed? || manifest.phase.Aborted?
      ensures AllWork(old(script)) && !erased ==> r.Ok?
      ensures r.Ok? && Open(old(manifest)) ==> manifest.expires == now + retention
      ensures if old(manifest).phase.Committing? then !manifest.phase.Aborted? && (r.Ok? ==> entry.Entry?)
              else entry == old(entry) && share == old(share)
      ensures old(Receipt()).Some? ==> Receipt() == old(Receipt())
      ensures old(Placed()) ==> Placed()
      ensures old(Placed() && Sound()) ==> Sound() && cuts == old(cuts)
      ensures old(Steady() && !Published()) && Published() ==> Sound()
      ensures AllWork(old(script)) && old(manifest).phase.Committing? && old(Published()) ==>
                cuts == old(cuts) + if |old(file).value.cur| > old(manifest).offset then 1 else 0
    {
      if manifest.phase.Committing? {
        var c := RecoverCommit(now, erased);
        return if c.Ok? then Ok(()) else Err(c.error);
      }
      r := Close(now);
    }

    /** Close an upload that is not frozen, unless it is closed, and drop its file. */
    method Close(now: int) returns (r: Result<()>)
      requires Valid() && !manifest.phase.Committing?
      modifies this`script, this`file, this`manifest, this`inputs, this`older
      ensures Valid() && Next(h, old(Abs()), Abs()) && inputs == old(inputs)
      ensures r.Ok? ==> !Open(manifest)
      ensures AllWork(old(script)) ==> r.Ok?
      ensures || manifest == old(manifest)
              || (old(manifest).phase.Active? &&
                  manifest == old(manifest).(phase := Aborted, expires := now + retention))
      ensures old(Receipt()).Some? ==> Receipt() == old(Receipt())
      ensures file == old(file) || file.None?
    {
      AllWorkOn(script, 6);
      AllWorkOn(script, 2);
      AllWorkOn(After(script, 6), 2);
      if manifest.phase.Active? {
        var published;
        published, r := WriteRecord(manifest.(phase := Aborted, expires := now + retention), inputs);
        if r.Err? { return; }
      }
      r := RemoveFile();
    }

    /** Power fails: a manifest whose rename was not durable may be the one before
        it, and the file falls back to something that keeps what was durable. */
    method PowerLoss(left: Bytes, back: Option<Record>)
      requires Valid()
      requires file.Some? ==> Survives(file.value, left)
      requires back.Some? ==> back.value in older
      modifies this`file, this`manifest, this`inputs, this`older
      ensures Valid() && older == map[]
      ensures if back.Some? then manifest == back.value && inputs == old(older)[back.value]
              else manifest == old(manifest) && inputs == old(inputs)
      ensures file == if old(file).Some? then Some(File(left, left)) else None
      // Only a receipt that was not durable can be lost.
      ensures back.Some? ==> Open(manifest)
      ensures old(Sound()) ==> Sound()
    {
      if back.Some? { manifest, inputs := back.value, older[back.value]; }
      older := map[];
      LoseUnsynced(left);
    }

    method LoseUnsynced(left: Bytes)
      requires Valid() && older == map[]
      requires file.Some? ==> Survives(file.value, left)
      modifies this`file
      ensures Valid()
      ensures file == if old(file).Some? then Some(File(left, left)) else None
      ensures old(Sound()) ==> Sound()
    {
      if file.Some? {
        var f := file.value;
        SurvivesBacks(f, left, manifest, Flatten(inputs));
        file := Some(File(left, left));
      }
    }

    /** Other calls publish, label, erase and clean up the same digest. They never
        give the share path to the stage's inode, nor take it away from it while the
        stage's own name is there. */
    predicate OthersMay(share': Inode, entry': Repo)
      reads `file, `share
    {
      && (share' == Ours ==> share == Ours) && (share == Ours && file.Some? ==> share' == Ours)
      && (entry'.Entry? ==> entry'.inode == share' && share' != Absent)
    }

    method Others(share': Inode, entry': Repo)
      requires Valid() && OthersMay(share', entry')
      modifies this`share, this`entry
      ensures Valid() && share == share' && entry == entry'
      ensures old(Placed()) ==> Placed()
    {
      share, entry := share', entry';
    }
  }

  /** From here on no run can truncate the published inode, exactly if it is as long
      as what is frozen and synced: whatever else a power loss may leave of it has
      to be cut. (`CutIfUnsound` is the run that does, `Drive` the promise.) */
  lemma SoundIff(s: Stage)
    requires s.Valid() && s.manifest.phase.Committing? && s.Published()
    ensures (forall left :: Survives(s.file.value, left) ==> |left| == s.manifest.offset) <==> s.Sound()
  {
    var f := s.file.value;
    assert Survives(f, f.synced);
    if |f.synced| == s.manifest.offset && f.cur != f.synced {
      assert f.cur[..s.manifest.offset] == f.synced[..s.manifest.offset] == f.synced;
      assert |f.cur| > s.manifest.offset;
    }
  }

  /** What can happen to a stage. */
  datatype Event =
    | Appends(now: int, expected: int, input: Bytes, taken: nat)
    | Commits(now: int, wanted: Meta, erased: bool)
    | Aborts(now: int, erased: bool)
    | Looks(now: int)                            // Resume or Stat
    | Loses(left: Bytes, back: Option<Record>)   // a power loss, which may undo a rename
    | Finds(share: Inode, entry: Repo)           // others were there
    | Faces(script: seq<Outcome>)                // how the next calls are going to go

  predicate Undoes(e: Event) { e.Loses? && e.back.Some? }

  predicate Undone(events: seq<Event>) { exists i | 0 <= i < |events| :: Undoes(events[i]) }

  /** Whatever happens to a stage, in whatever order, with calls failing, the process
      dying anywhere, power lost and others at work on the digest. What its callers
      see is a run of the one machine, as long as no power loss undoes a rename; and
      also if one does, what was acknowledged stays: accepted inputs, a receipt. An
      inode that was published synced is never truncated. */
  method Drive(s: Stage, events: seq<Event>) returns (ghost run: seq<Upload>)
    requires s.Valid()
    modifies s
    ensures s.Valid() && |run| > 0 && run[0] == old(s.Abs()) && run[|run| - 1] == s.Abs()
    ensures old(s.Abs()) == Upload(Active, [], None, None) && !Undone(events) ==> Run(s.h, run)
    ensures s.Keeps(old(s.acked), old(s.Receipt()))
    ensures old(s.Safe(s.cuts)) ==> s.Safe(old(s.cuts))
  {
    if events == [] {
      run := [s.Abs()];
      RunStarts(s.h, run);
    } else {
      var n := |events| - 1;
      run := Drive(s, events[..n]);
      assert Undone(events[..n]) || Undoes(events[n]) ==> Undone(events) by { UndoneLater(events, n); }
      run := Goes(s, events[n], run);
    }
  }

  lemma UndoneLater(events: seq<Event>, n: nat)
    requires n + 1 == |events|
    ensures Undone(events[..n]) || Undoes(events[n]) ==> Undone(events)
  {
    if i :| 0 <= i < n && Undoes(events[..n][i]) { assert Undoes(events[i]); }
  }

  /** One more event, and the states it goes through. */
  method Goes(s: Stage, e: Event, ghost run: seq<Upload>) returns (ghost run': seq<Upload>)
    requires s.Valid() && |run| > 0 && run[|run| - 1] == s.Abs()
    modifies s
    ensures s.Valid() && |run'| > 0 && run'[0] == run[0] && run'[|run'| - 1] == s.Abs()
    ensures Run(s.h, run) && !Undoes(e) ==> Run(s.h, run')
    ensures s.Keeps(old(s.acked), old(s.Receipt()))
    ensures old(s.Safe(s.cuts)) ==> s.Safe(old(s.cuts))
  {
    ghost var mid := Happen(s, e);
    if Run(s.h, run) && !Undoes(e) { RunExtendsTwice(s.h, run, mid, s.Abs()); }
    run' := run + [mid, s.Abs()];
  }

  method Happen(s: Stage, e: Event) returns (ghost mid: Upload)
    requires s.Valid()
    modifies s
    ensures s.Valid()
    ensures !Undoes(e) ==> Next(s.h, old(s.Abs()), mid) && Next(s.h, mid, s.Abs())
    ensures s.Keeps(old(s.acked), old(s.Receipt()))
    ensures old(s.Safe(s.cuts)) ==> s.Safe(old(s.cuts))
  {
    mid := s.Abs();
    match e {
      case Loses(left, back) => LossHappens(s, left, back);
      case Finds(share, entry) =>
        if s.OthersMay(share, entry) { s.Others(share, entry); }
      case Faces(script) => s.script := script;
      case Appends(now, expected, input, taken) => AppendHappens(s, now, expected, input, taken);
      case Commits(now, wanted, erased) => mid := CommitHappens(s, now, wanted, erased);
      case Aborts(now, erased) => AbortHappens(s, now, erased);
      case Looks(now) => LookHappens(s, now);
    }
  }

  method LossHappens(s: Stage, left: Bytes, back: Option<Record>)
    requires s.Valid()
    modifies s
    ensures s.Valid() && (back.None? ==> s.Abs() == old(s.Abs()))
    ensures s.Keeps(old(s.acked), old(s.Receipt())) && (old(s.Safe(s.cuts)) ==> s.Safe(old(s.cuts)))
  {
    if (s.file.None? || Survives(s.file.value, left)) && (back.None? || back.value in s.older) {
      s.PowerLoss(left, back);
    }
  }

  method AppendHappens(s: Stage, now: int, expected: int, input: Bytes, taken: nat)
    requires s.Valid()
    modifies s
    ensures s.Valid() && Next(s.h, old(s.Abs()), s.Abs())
    ensures s.Keeps(old(s.acked), old(s.Receipt())) && (old(s.Safe(s.cuts)) ==> s.Safe(old(s.cuts)))
  {
    var offset, r := s.Append(now, expected, input, if taken <= |input| then taken else |input|);
  }

  method CommitHappens(s: Stage, now: int, wanted: Meta, erased: bool) returns (ghost mid: Upload)
    requires s.Valid()
    modifies s
    ensures s.Valid() && Next(s.h, old(s.Abs()), mid) && Next(s.h, mid, s.Abs())
    ensures s.Keeps(old(s.acked), old(s.Receipt())) && (old(s.Safe(s.cuts)) ==> s.Safe(old(s.cuts)))
  {
    var r;
    r, mid := s.Commit(now, wanted, erased);
  }

  method LookHappens(s: Stage, now: int)
    requires s.Valid()
    modifies s
    ensures s.Valid() && s.Abs() == old(s.Abs())
    ensures s.Keeps(old(s.acked), old(s.Receipt())) && (old(s.Safe(s.cuts)) ==> s.Safe(old(s.cuts)))
  {
    var r := s.Look(now);
  }

  method AbortHappens(s: Stage, now: int, erased: bool)
    requires s.Valid()
    modifies s
    ensures s.Valid() && Next(s.h, old(s.Abs()), s.Abs())
    ensures s.Keeps(old(s.acked), old(s.Receipt())) && (old(s.Safe(s.cuts)) ==> s.Safe(old(s.cuts)))
  {
    var r := s.Abort(now, erased);
  }

  /** The other half of `SoundIff`: the next call, after a power loss if need be,
      truncates a published inode that is not as it should be. */
  method CutIfUnsound(s: Stage, now: int)
    requires s.Valid() && s.manifest.phase.Committing? && s.Published() && !s.Sound()
    modifies s
    ensures s.Valid() && s.cuts == old(s.cuts) + 1
  {
    var f := s.file.value;
    if |f.cur| == s.manifest.offset {
      SyncedIsLonger(f);
      s.PowerLoss(f.synced, None);
    }
    s.script := [];
    var r := s.Abort(now, false);
  }

  /** How an inode comes to be published unsynced: from any active upload with
      nothing left over, an Append cannot write its manifest, and stops between
      truncating the file again and syncing that; then a Commit stops with its entry
      in place and not synced. */
  method TearPublished(s: Stage, now: int, input: Bytes, labels: Labels)
    requires s.Valid() && s.manifest.phase.Active? && !s.manifest.Expired(now) && input != []
    requires s.share == Absent && s.entry == Nothing && s.Sound() && |s.file.value.cur| == s.manifest.offset
    modifies s
    ensures s.Valid() && s.manifest.phase.Committing? && s.entry == Entry(labels, Ours) && s.Published()
    ensures s.inputs == old(s.inputs) && s.file == Some(File(Flatten(s.inputs), Flatten(s.inputs) + input))
    ensures !s.Sound()
  {
    TornScript();
    s.script := TORN;
    LeaveUnsynced(s, now, input);
    var c, mid := s.Commit(now, Meta("", 0, labels), false);
  }

  /** The whole run, call by call an event each: a failed Append, a Commit, a power
      loss and an Abort, after which a published inode has been truncated. */
  method CutPublished(s: Stage, now: int, input: Bytes, labels: Labels)
    requires s.Valid() && s.manifest.phase.Active? && !s.manifest.Expired(now) && input != [] && s.cuts == 0
    requires s.share == Absent && s.entry == Nothing && s.Sound() && |s.file.value.cur| == s.manifest.offset
    modifies s
    ensures s.Valid() && s.cuts > 0
  {
    TearPublished(s, now, input, labels);
    CutIfUnsound(s, now);
  }

  /** The same from the stage's beginning on. */
  method CutFromBeginning(h: Hasher, ttl: int, retention: int, now: int, input: Bytes, labels: Labels)
    returns (s: Stage)
    requires h.Lawful() && ttl > 0 && retention > 0 && input != []
    ensures fresh(s) && s.Valid() && s.cuts > 0
  {
    s := new Stage(h, ttl, retention, now, Absent, Nothing);
    CutPublished(s, now, input, labels);
  }

  const TORN := [Fine, Fine, Fine, Fails, Fine, Dies] + (Fines(16) + [Dies])

  lemma TornScript()
    ensures Tearing(TORN) && Works(TORN[6..], 7) && StopsAt(After(TORN[6..], 7), 9)
  {
    FineUntil(7, 9, Dies);
    assert TORN[6..] == Fines(16) + [Dies];
  }

  method LeaveUnsynced(s: Stage, now: int, input: Bytes)
    requires s.Valid() && s.manifest.phase.Active? && !s.manifest.Expired(now) && !s.Published()
    requires |s.file.value.cur| == s.manifest.offset
    requires Tearing(s.script)
    modifies s`script, s`file, s`manifest, s`inputs, s`older, s`acked, s`cuts
    ensures s.Valid() && s.manifest == old(s.manifest) && s.inputs == old(s.inputs)
    ensures s.file == Some(File(Flatten(s.inputs), Flatten(s.inputs) + input)) && s.script == old(s.script)[6..]
    ensures |Flatten(s.inputs)| == s.manifest.offset
  {
    assert |Flatten(s.inputs)| == s.manifest.offset;
    var offset, r := s.Append(now, s.manifest.offset, input, 0);
  }

  /** What manifest a power loss may leave. */
  ghost predicate Leaves(s: Stage, m: Record)
    reads s`manifest, s`older
  {
    m == s.manifest || m in s.older
  }

  /** Every power loss leaves a receipt in place exactly if no rename can be undone:
      a manifest from before it is an open one. */
  lemma ReceiptIff(s: Stage)
    requires s.Valid() && s.manifest.phase.Committed?
    ensures (forall m :: Leaves(s, m) ==> m.phase.Committed? && m.result == s.manifest.result) <==> s.older == map[]
  {
    if s.older != map[] {
      var m :| m in s.older;
      assert Leaves(s, m) && Precedes(m, s.manifest);
    }
  }

  /** When a receipt that Commit hands out can still be lost: exactly if the stage was
      committed before, by an attempt that could not sync its last manifest. */
  method CommitReceipt(s: Stage, now: int, wanted: Meta, erased: bool) returns (r: Result<Meta>)
    requires s.Valid()
    modifies s
    ensures s.Valid()
    ensures r.Ok? ==>
              ((forall m :: Leaves(s, m) ==> m.phase.Committed? && m.result == r.value) <==>
               !(old(s.manifest).phase.Committed? && old(s.older) != map[]))
  {
    ghost var mid;
    r, mid := s.Commit(now, wanted, erased);
    if r.Ok? { ReceiptIff(s); }
  }

  /** A receipt that was handed out can be lost, if it was not durable then: a Commit
      stops between replacing the manifest by the one with the receipt and syncing
      that; the next Commit finds the receipt and hands it out; a power loss brings
      back a manifest from before. `CommitReceipt` says exactly when. */
  method LoseReceipt(s: Stage, now: int, labels: Labels) returns (r: Result<Meta>)
    requires s.Valid() && s.manifest.phase.Active? && !s.manifest.Expired(now)
    requires s.share == Absent && s.entry == Nothing && s.Sound() && |s.file.value.cur| == s.manifest.offset
    modifies s
    ensures s.Valid() && r.Ok? && Open(s.manifest)
  {
    FineUntil(7, 18, Fails);
    s.script := Fines(25) + [Fails];
    var first, mid := s.Commit(now, Meta("", 0, labels), false);
    r, mid := s.Commit(now, Meta("", 0, labels), false);
    var back :| back in s.older;
    var left := if s.file.Some? then s.file.value.synced else [];
    s.PowerLoss(left, Some(back));
  }

  /** The same from the stage's beginning on. */
  method LoseFromBeginning(h: Hasher, ttl: int, retention: int, now: int, labels: Labels)
    returns (s: Stage, r: Result<Meta>)
    requires h.Lawful() && ttl > 0 && retention > 0
    ensures fresh(s) && s.Valid() && r.Ok? && Open(s.manifest)
  {
    s := new Stage(h, ttl, retention, now, Absent, Nothing);
    r := LoseReceipt(s, now, labels);
  }
}
