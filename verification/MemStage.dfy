/** Staged uploads in memory. The stage's lock makes every operation one step on
    its record and buffer; a reader that fails or an operation cancelled on the way
    are parameters. */
module MemStage {
  import opened Basics
  import opened Hashing
  import opened StageSpec

  /** A namespace's name for a digest. */
  datatype Name = Name(ns: string, digest: Digest)

  /** The entries of every namespace, over the table of blobs they share. */
  class Store {
    const h: Hasher
    var entries: map<Name, Labels>
    var table: map<Digest, Bytes>

    ghost predicate Valid()
      reads this
    {
      && h.Lawful()
      && (forall n <- entries.Keys :: n.digest in table)
      && (forall d <- table.Keys :: h.DigestOf(table[d]) == d)
    }

    constructor (h: Hasher)
      requires h.Lawful()
      ensures Valid() && this.h == h && entries == map[] && table == map[]
    {
      this.h, entries, table := h, map[], map[];
    }

    /** Enter bytes already verified. A blob or an entry that is there stays. */
    method Publish(ns: string, m: Meta, data: Bytes) returns (added: bool)
      requires Valid() && m.digest == h.DigestOf(data)
      modifies this
      ensures Valid()
      ensures table == if m.digest in old(table) then old(table) else old(table)[m.digest := data]
      ensures entries == if added then old(entries)[Name(ns, m.digest) := m.labels] else old(entries)
      ensures added <==> Name(ns, m.digest) !in old(entries)
    {
      if m.digest !in table { table := table[m.digest := data]; }
      added := Name(ns, m.digest) !in entries;
      if added { entries := entries[Name(ns, m.digest) := m.labels]; }
    }

    /** The blob goes with its last entry. */
    method Erase(n: Name)
      requires Valid()
      modifies this
      ensures Valid() && entries == old(entries) - {n}
      ensures table == if n in old(entries) && Unused(entries, n.digest) then old(table) - {n.digest} else old(table)
    {
      var there := n in entries;
      entries := entries - {n};
      if there && Unused(entries, n.digest) { table := table - {n.digest}; }
    }
  }

  predicate Unused(entries: map<Name, Labels>, d: Digest) {
    forall n <- entries.Keys :: n.digest != d
  }

  /** The table after a publication. */
  function PublishedTable(table: map<Digest, Bytes>, m: Meta, data: Bytes): map<Digest, Bytes> {
    if m.digest in table then table else table[m.digest := data]
  }

  /** What becomes of the entries when a frozen commit is published: an entry that is
      there stays, but for an Erase that comes between. */
  function PublishedEntries(entries: map<Name, Labels>, n: Name, labels: Labels, cancelled: bool, erased: bool)
    : map<Name, Labels>
  {
    if cancelled then entries
    else if n !in entries then entries[n := labels]
    else if erased then entries - {n} else entries
  }

  class Stage {
    const id: string
    const ns: string
    const store: Store
    const ttl: int
    const retention: int
    var record: Record
    var data: Bytes
    ghost var inputs: seq<Bytes>

    ghost predicate Valid()
      reads this
    {
      && store.h.Lawful() && ttl > 0 && retention > 0
      && record.Valid(store.h) && record.hash == store.h.Of(Flatten(inputs))
      && data == (if Open() then Flatten(inputs) else [])
    }

    /** The entry a commit makes. */
    function Entry(): Name
      reads `record
    {
      Name(ns, record.commit.digest)
    }

    predicate Open()
      reads `record
    {
      record.phase.Active? || record.phase.Committing?
    }

    ghost function Abs(): Upload
      reads `record, `inputs
    {
      View(record, inputs)
    }

    constructor (id: string, ns: string, store: Store, ttl: int, retention: int, now: int)
      requires store.h.Lawful() && ttl > 0 && retention > 0
      ensures Valid() && Abs() == Upload(Active, [], None, None) && !record.Expired(now)
      ensures this.id == id && this.ns == ns && this.store == store && this.ttl == ttl && this.retention == retention
    {
      this.id, this.ns, this.store, this.ttl, this.retention := id, ns, store, ttl, retention;
      record, data, inputs := NewRecord(store.h, now + ttl), [], [];
    }

    /** Accept what `input` reads to its end; a reader that fails leaves nothing. */
    method Append(now: int, expected: int, input: Result<Bytes>) returns (offset: int, r: Result<()>)
      requires Valid()
      modifies this
      ensures Valid() && Next(store.h, old(Abs()), Abs())
      ensures r.Ok? <==>
                && old(record).phase.Active? && !old(record).Expired(now)
                && expected == old(record).offset && input.Ok?
      ensures if r.Ok? then
                && inputs == old(inputs) + [input.value] && offset == |data| == expected + |input.value|
                && record.expires == now + ttl
              else record == old(record) && data == old(data) && inputs == old(inputs)
      ensures r.Err? && !(old(record).Expired(now) && !old(record).phase.Committing?) ==> offset == record.offset
    {
      if !record.phase.Committing? && record.Expired(now) { return 0, Err(StageExpired); }
      offset := record.offset;
      if !record.phase.Active? { return offset, Err(StageClosed); }
      if expected != offset { return offset, Err(OffsetMismatch); }
      if input.Err? { return offset, Err(input.error); }
      var checkpoint := store.h.feed(record.hash, input.value);
      FlattenSnoc(inputs, input.value);
      data := data + input.value;
      record := record.(offset := |data|, hash := checkpoint, expires := now + ttl);
      inputs := inputs + [input.value];
      return record.offset, Ok(());
    }

    /** Publish a frozen commit and keep its receipt. If the digest has an entry,
        the receipt carries that entry's labels, unless an Erase takes it between
        the two looks. */
    method Complete(now: int, cancelled: bool, erased: bool) returns (r: Result<Meta>)
      requires Valid() && store.Valid() && record.phase.Committing?
      modifies this, store
      ensures Valid() && store.Valid() && Next(store.h, old(Abs()), Abs()) && inputs == old(inputs)
      ensures r.Ok? <==> !cancelled && !(erased && Entry() in old(store.entries))
      ensures r.Err? ==> record == old(record) && data == old(data)
      ensures r.Ok? ==>
                && record.phase.Committed? && record.expires == now + retention
                && r.value == record.result && r.value.digest == record.commit.digest
                && Entry() in store.entries && r.value.labels == store.entries[Entry()]
      // An entry and a blob that are there stay, but for that Erase; otherwise the
      // digest gets the frozen labels and the accepted bytes.
      ensures store.entries ==
                PublishedEntries(old(store.entries), Entry(), old(record).commit.labels, cancelled, erased)
      ensures r.Ok? ==> store.table == PublishedTable(old(store.table), record.commit, Flatten(inputs))
      ensures cancelled ==> store.table == old(store.table)
      ensures r.Err? && !cancelled ==>
                var d := record.commit.digest;
                store.table == if Unused(store.entries, d) then old(store.table) - {d} else old(store.table)
    {
      if cancelled { return Err(Failed); }
      var n := Entry();
      var added := store.Publish(ns, record.commit, data);
      if !added && erased {
        store.Erase(n);
        return Err(NotExist);
      }
      var result := Meta(n.digest, record.offset, store.entries[n]);
      record := record.(phase := Committed, result := result, expires := now + retention);
      data := [];
      return Ok(result);
    }

    /** What a Commit asks of the upload: open and given its digest or none, or frozen
        with the same parameters. */
    ghost predicate MayCommit(now: int, wanted: Meta)
      reads `record, `inputs
    {
      var digest := store.h.DigestOf(Flatten(inputs));
      && (wanted.digest == "" || (ValidDigest(wanted.digest) && wanted.digest == digest))
      && (record.phase.Committing? || now < record.expires) && !record.phase.Aborted?
      && (record.phase.Committing? || record.phase.Committed? ==> wanted.labels == record.commit.labels)
    }

    method Commit(now: int, wanted: Meta, cancelled: bool, erased: bool) returns (r: Result<Meta>)
      requires Valid() && store.Valid()
      modifies this, store
      ensures Valid() && store.Valid()
      ensures exists mid :: Next(store.h, old(Abs()), mid) && Next(store.h, mid, Abs())
      ensures r.Ok? ==>
                && record.phase.Committed? && r.value == record.result && inputs == old(inputs)
                && r.value.digest == store.h.DigestOf(Flatten(inputs)) && r.value.size == |Flatten(inputs)|
                && record.commit.labels == wanted.labels && (wanted.digest == "" || wanted.digest == r.value.digest)
      // It succeeds exactly if it is asked for what can be frozen, or is frozen, and is
      // not stopped in between; an expired upload is refused.
      ensures r.Ok? <==>
                && old(MayCommit(now, wanted))
                && (old(record).phase.Committed? ||
                    (!cancelled && !(erased && Name(ns, store.h.DigestOf(Flatten(inputs))) in old(store.entries))))
      ensures !old(record).phase.Committing? && old(record).expires <= now ==> r == Err(StageExpired)
      // Whoever is handed a receipt again, or refused, changes nothing.
      ensures old(record).phase.Committed? || !old(MayCommit(now, wanted)) ==>
                record == old(record) && store.entries == old(store.entries) && store.table == old(store.table)
      // Otherwise the parameters are frozen, and published unless it is stopped.
      ensures old(MayCommit(now, wanted)) && !old(record).phase.Committed? ==>
                && (r.Err? ==> record.phase.Committing? && record.expires == old(record).expires)
                && record.commit == Meta(store.h.DigestOf(Flatten(inputs)), |Flatten(inputs)|, wanted.labels)
                && store.entries == PublishedEntries(old(store.entries), Entry(), wanted.labels, cancelled, erased)
      ensures r.Ok? && !old(record).phase.Committed? ==>
                && record.expires == now + retention
                && Entry() in store.entries && r.value.labels == store.entries[Entry()]
                && store.table == PublishedTable(old(store.table), record.commit, Flatten(inputs))
      ensures inputs == old(inputs)
      // Asking again with the same parameters gives the same receipt.
      ensures old(record).phase.Committed? && !old(record).Expired(now) && ValidDigest(wanted.digest) ==>
                (wanted == old(record).commit ==> r == Ok(old(record).result) && record == old(record))
      // A failure after the parameters froze keeps them frozen, and the bytes.
      ensures r.Err? ==> data == old(data)
    {
      assert Next(store.h, Abs(), Abs());
      if !record.phase.Committing? && record.Expired(now) { return Err(StageExpired); }
      if record.phase.Aborted? { return Err(StageClosed); }
      var prepared := record.PrepareCommit(store.h, wanted);
      if prepared.Err? { return Err(prepared.error); }
      if !record.phase.Active? {
        if prepared.value != record.commit { return Err(StageConflict); }
        if record.phase.Committed? { return Ok(record.result); }
      } else {
        record := record.(phase := Committing, commit := prepared.value);
      }
      ghost var mid := Abs();
      assert Next(store.h, old(Abs()), mid);
      r := Complete(now, cancelled, erased);
      assert Next(store.h, mid, Abs());
    }

    method Abort(now: int, cancelled: bool, erased: bool) returns (r: Result<()>)
      requires Valid() && store.Valid()
      modifies this, store
      ensures Valid() && store.Valid() && Next(store.h, old(Abs()), Abs())
      ensures record.phase.Aborted? <==> old(record).phase.Active? || old(record).phase.Aborted?
      ensures r.Ok? ==> !Open()
      ensures r.Ok? <==>
                !old(record).phase.Committing? || (!cancelled && !(erased && old(Entry()) in old(store.entries)))
      ensures r.Ok? && old(Open()) ==> record.expires == now + retention
      ensures !old(record).phase.Committing? ==>
                store.entries == old(store.entries) && store.table == old(store.table)
      ensures old(record).phase.Active? ==> record == old(record).(phase := Aborted, expires := now + retention)
      ensures old(record).phase.Committing? ==>
                && (r.Err? ==> record == old(record))
                && store.entries ==
                     PublishedEntries(old(store.entries), old(Entry()), old(record).commit.labels, cancelled, erased)
      ensures old(record).phase.Committing? && r.Ok? ==>
                store.table == PublishedTable(old(store.table), old(record).commit, Flatten(old(inputs)))
    {
      if record.phase.Committed? || record.phase.Aborted? { return Ok(()); }
      if record.phase.Committing? {
        var c := Complete(now, cancelled, erased);
        return if c.Ok? then Ok(()) else Err(c.error);
      }
      record := record.(phase := Aborted, expires := now + retention);
      data := [];
      return Ok(());
    }
  }

  datatype Event =
    | Appends(now: int, expected: int, input: Result<Bytes>)
    | Commits(now: int, wanted: Meta, cancelled: bool, erased: bool)
    | Aborts(now: int, cancelled: bool, erased: bool)
    | Adds(ns: string, labels: Labels, data: Bytes)   // somebody else adds, or links, any blob anywhere
    | Erases(name: Name)

  /** Whatever is done to a stage and its store, in whatever order: what its callers
      see is a run of the one machine. */
  method Drive(s: Stage, events: seq<Event>) returns (ghost run: seq<Upload>)
    requires s.Valid() && s.store.Valid() && s.Abs() == Upload(Active, [], None, None)
    modifies s, s.store
    ensures s.Valid() && s.store.Valid() && Run(s.store.h, run) && run[|run| - 1] == s.Abs()
  {
    run := [s.Abs()];
    for i := 0 to |events|
      invariant s.Valid() && s.store.Valid() && Run(s.store.h, run) && run[|run| - 1] == s.Abs()
    {
      ghost var more := Happen(s, events[i]);
      RunExtends(s.store.h, run, more[0]);
      RunExtends(s.store.h, run + [more[0]], more[1]);
      run := run + [more[0]] + [more[1]];
    }
  }

  method Happen(s: Stage, e: Event) returns (ghost more: seq<Upload>)
    requires s.Valid() && s.store.Valid()
    modifies s, s.store
    ensures s.Valid() && s.store.Valid() && |more| == 2 && more[1] == s.Abs()
    ensures Next(s.store.h, old(s.Abs()), more[0]) && Next(s.store.h, more[0], more[1])
  {
    ghost var was := s.Abs();
    match e {
      case Appends(now, expected, input) =>
        var offset, r := s.Append(now, expected, input);
        more := [was, s.Abs()];
      case Commits(now, wanted, cancelled, erased) =>
        var r := s.Commit(now, wanted, cancelled, erased);
        ghost var mid :| Next(s.store.h, was, mid) && Next(s.store.h, mid, s.Abs());
        more := [mid, s.Abs()];
      case Aborts(now, cancelled, erased) =>
        var r := s.Abort(now, cancelled, erased);
        more := [was, s.Abs()];
      case Adds(ns, labels, bytes) =>
        var added := s.store.Publish(ns, Meta(s.store.h.DigestOf(bytes), |bytes|, labels), bytes);
        more := [was, was];
      case Erases(name) =>
        s.store.Erase(name);
        more := [was, was];
    }
  }

  lemma OneLess(stages: map<string, Stage>, id: string)
    requires id in stages
    ensures |stages - {id}| == |stages| - 1
  {
    assert stages == (stages - {id})[id := stages[id]];
  }

  /** Every stage, of whichever namespace. */
  class Stages {
    const store: Store
    var stages: map<string, Stage>

    ghost predicate Valid()
      reads this, store, stages.Values
    {
      && store.Valid()
      && (forall id <- stages :: stages[id].id == id && stages[id].store == store && stages[id].Valid())
    }

    constructor (store: Store)
      requires store.Valid()
      ensures Valid() && this.store == store && stages == map[]
    {
      this.store, stages := store, map[];
    }

    /** A new stage under an id nobody has. */
    method Begin(id: string, ns: string, ttl: int, retention: int, now: int) returns (r: Result<Stage>)
      requires Valid() && ttl > 0 && retention > 0
      modifies `stages
      ensures Valid() && (r.Ok? <==> id !in old(stages))
      ensures r.Err? ==> r.error == StageConflict && stages == old(stages)
      ensures r.Ok? ==>
                && fresh(r.value) && stages == old(stages)[id := r.value] && r.value.ns == ns
                && r.value.Abs() == Upload(Active, [], None, None)
    {
      if id in stages { return Err(StageConflict); }
      var e := new Stage(id, ns, store, ttl, retention, now);
      stages := stages[id := e];
      return Ok(e);
    }

    /** Visit the stages in any order, passing over the ones in use: a frozen
        commit is carried through first, and a stage is dropped only once it has
        expired, never with a commit still to finish. `stuck` are those whose
        completion fails. */
    method Prune(now: int, busy: set<string>, stuck: set<string>) returns (removed: nat)
      requires Valid()
      modifies this`stages, store, stages.Values
      ensures Valid() && removed == |old(stages)| - |stages|
      ensures stages.Keys <= old(stages).Keys && forall id <- stages :: stages[id] == old(stages)[id]
      ensures forall id: string :: id in old(stages) ==>
                Visited(id, old(stages)[id], old(stages[id].Abs()), now, id !in busy, id in stuck)
    {
      ghost var all := stages;
      ghost var was := map id | id in stages :: stages[id].Abs();
      ghost var seen := {};
      var todo := stages.Keys;
      removed := 0;
      while todo != {}
        invariant removed == |all| - |stages| && Valid() && Known(all)
        invariant forall id <- todo :: id in stages
        invariant forall id: string :: id in seen <==> id in all && id !in todo && id !in busy
        invariant AllVisited(all, was, now, seen, stuck)
      {
        var id :| id in todo;
        todo := todo - {id};
        if id !in busy {
          assert all[id] in all.Values;
          label before:
          var gone := VisitStage(now, id, id in stuck, all, was, seen, stuck);
          if gone {
            OneLess(old@before(stages), id);
            removed := removed + 1;
          }
          seen := seen + {id};
        }
      }
    }

    /** The stages Prune started with, under their own ids. */
    ghost predicate Known(all: map<string, Stage>)
      reads `stages
    {
      (forall id <- all :: all[id].id == id) && forall id <- stages :: id in all && stages[id] == all[id]
    }

    /** What Prune owes a stage: one it passes over stays as it is; one it visits
        is dropped exactly when it has expired with no commit left to finish. */
    ghost predicate Visited(id: string, e: Stage, was: Upload, now: int, seen: bool, fails: bool)
      reads `stages, e`record, e`inputs
    {
      && Next(store.h, was, e.Abs())
      && (if seen then
            && (id in stages <==> e.record.phase.Committing? || !e.record.Expired(now))
            && (e.record.phase.Committing? ==> fails)
            && (!was.phase.Committing? || e.record.phase.Committing? ==> e.Abs() == was)
          else id in stages && e.Abs() == was)
    }

    ghost predicate AllVisited(all: map<string, Stage>, was: map<string, Upload>, now: int,
                               seen: set<string>, stuck: set<string>)
      reads `stages, all.Values
    {
      all.Keys <= was.Keys && forall id <- all :: Visited(id, all[id], was[id], now, id in seen, id in stuck)
    }

    method VisitStage(now: int, id: string, fails: bool,
                      ghost all: map<string, Stage>, ghost was: map<string, Upload>,
                      ghost seen: set<string>, ghost stuck: set<string>)
      returns (gone: bool)
      requires Valid() && id in stages && id !in seen && fails == (id in stuck)
      requires Known(all) && AllVisited(all, was, now, seen, stuck)
      modifies this`stages, store, stages[id]
      ensures Valid() && Known(all)
      ensures stages == if gone then old(stages) - {id} else old(stages)
      ensures AllVisited(all, was, now, seen + {id}, stuck)
    {
      gone := Visit(now, id, fails);
      forall x <- all ensures Visited(x, all[x], was[x], now, x in seen + {id}, x in stuck) {
        assert x != id ==> all[x] != all[id];
      }
    }

    method Visit(now: int, id: string, fails: bool) returns (gone: bool)
      requires Valid() && id in stages
      modifies this`stages, store, stages[id]
      ensures Valid()
      ensures stages == if gone then old(stages) - {id} else old(stages)
      ensures Visited(id, old(stages[id]), old(stages[id].Abs()), now, true, fails)
    {
      gone := false;
      if stages[id].record.phase.Committing? {
        var ok := Finish(now, id, fails);
        if !ok { return; }
      }
      if stages[id].record.Expired(now) {
        stages := stages - {id};
        gone := true;
      }
    }

    /** Carry a frozen commit through. */
    method Finish(now: int, id: string, fails: bool) returns (ok: bool)
      requires Valid() && id in stages && stages[id].record.phase.Committing?
      modifies store, stages[id]
      ensures Valid() && Next(store.h, old(stages[id].Abs()), stages[id].Abs())
      ensures if ok then stages[id].record.phase.Committed?
              else fails && stages[id].record == old(stages[id].record)
      ensures stages[id].inputs == old(stages[id].inputs)
    {
      var r := stages[id].Complete(now, fails, false);
      return r.Ok?;
    }
  }
}
