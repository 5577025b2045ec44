/** Reference counts of the in-memory store, for one digest.

    Any number of publishers, linkers and erasers interleave at the grain of one
    operation on a concurrent map, one lock acquisition or release, or one change
    of a count. Operations on other digests touch nothing modelled here. */
module MemRefs {
  import opened Basics

  type Store = string
  type BlobId = nat
  type ProcId = nat

  /** A namespace's entry. `id` is its identity: a Link compares entries, not
      what is in them. */
  datatype Entry = Entry(id: nat, blob: BlobId)

  /** Where a call is. A publisher locks its own new blob before it offers it to
      the table; nobody else can see that blob until the table holds it, so
      offering and being seen locked are one step. `seen` are the blobs it has
      found deleted and tried again after. */
  datatype Proc =
    | PubOffer(to: Store, seen: set<BlobId>)
    | PubWait(to: Store, seen: set<BlobId>, b: BlobId)
    | PubCheck(to: Store, seen: set<BlobId>, b: BlobId)   // holds b
    | PubStore(to: Store, b: BlobId)                      // holds b
    | LinkLoad(to: Store, from: Store)
    | LinkWait(to: Store, from: Store, e: Entry)
    | LinkCheck(to: Store, from: Store, e: Entry)         // holds e.blob
    | LinkStore(to: Store, b: BlobId)                     // holds b
    | Count(b: BlobId)                                    // holds b; its entry is stored, not counted
    | Leave(b: BlobId)                                    // holds b
    | EraseLoad(at: Store)
    | EraseWait(b: BlobId)
    | EraseCount(b: BlobId)                               // holds b
    | EraseDrop(b: BlobId)                                // holds b

  datatype State = State(
    table: Option<BlobId>,          // the global map's blob of this digest
    refs: map<BlobId, int>,         // every blob ever offered, and its count
    holder: map<BlobId, ProcId>,    // locked blobs
    entries: map<Store, Entry>,
    procs: map<ProcId, Proc>,
    nextEntry: nat,
    dropped: set<BlobId>)           // blobs an Erase deleted (history)

  datatype Label =
    | BeginPublish(p: ProcId, to: Store)
    | BeginLink(p: ProcId, to: Store, from: Store)
    | BeginErase(p: ProcId, at: Store)
    | Offer(p: ProcId, mine: BlobId)
    | Lock(p: ProcId)
    | Work(p: ProcId)

  predicate Holding(q: Proc) {
    q.PubCheck? || q.PubStore? || q.LinkCheck? || q.LinkStore? || q.Count? || q.Leave? || q.EraseCount? || q.EraseDrop?
  }

  /** The blob a call has locked or waits to lock. */
  function BlobOf(q: Proc): BlobId
    requires Holding(q) || q.PubWait? || q.LinkWait? || q.EraseWait?
  {
    if q.LinkWait? || q.LinkCheck? then q.e.blob else q.b
  }

  /** An eraser that has taken its entry out and not yet counted it out. */
  predicate Pending(q: Proc) { q.EraseWait? || q.EraseCount? }

  predicate Waiting(q: Proc) { q.PubWait? || q.LinkWait? || q.EraseWait? }

  predicate Can(s: State, l: Label) {
    match l
    case BeginPublish(p, _) => p !in s.procs
    case BeginLink(p, _, _) => p !in s.procs
    case BeginErase(p, _) => p !in s.procs
    case Offer(p, b) => p in s.procs && s.procs[p].PubOffer? && b !in s.refs
    case Lock(p) => p in s.procs && Waiting(s.procs[p]) && BlobOf(s.procs[p]) !in s.holder
    case Work(p) => p in s.procs && !s.procs[p].PubOffer? && !Waiting(s.procs[p]) &&
                    (Holding(s.procs[p]) ==> BlobOf(s.procs[p]) in s.refs)
  }

  function Go(s: State, p: ProcId, q: Proc): State { s.(procs := s.procs[p := q]) }

  function Leaves(s: State, p: ProcId, b: BlobId): State {
    s.(procs := s.procs - {p}, holder := s.holder - {b})
  }

  /** bs.LoadOrStore(d, b) with b locked. */
  function OfferStep(s: State, p: ProcId, b: BlobId): State
    requires Can(s, Offer(p, b))
  {
    var q := s.procs[p];
    match s.table
    case None => Go(s, p, PubStore(q.to, b)).(table := Some(b), refs := s.refs[b := 0], holder := s.holder[b := p])
    case Some(b') => Go(s, p, PubWait(q.to, q.seen, b'))
  }

  function LockStep(s: State, p: ProcId): State
    requires Can(s, Lock(p))
  {
    var q := s.procs[p];
    Go(s.(holder := s.holder[BlobOf(q) := p]), p,
       match q
       case PubWait(to, seen, b) => PubCheck(to, seen, b)
       case LinkWait(to, from, e) => LinkCheck(to, from, e)
       case _ => EraseCount(q.b))
  }

  /** es.LoadOrStore(d, e): Count on success, out with ErrAlreadyExists otherwise. */
  function StoreStep(s: State, p: ProcId, to: Store, b: BlobId): State {
    if to in s.entries then Go(s, p, Leave(b))
    else Go(s, p, Count(b)).(entries := s.entries[to := Entry(s.nextEntry, b)], nextEntry := s.nextEntry + 1)
  }

  function WorkStep(s: State, p: ProcId): State
    requires Can(s, Work(p))
  {
    match s.procs[p]
    case PubCheck(to, seen, b) =>
      if s.refs[b] == 0 then Go(s, p, PubOffer(to, seen + {b})).(holder := s.holder - {b})
      else Go(s, p, PubStore(to, b))
    case PubStore(to, b) => StoreStep(s, p, to, b)
    case LinkLoad(to, from) =>
      if from in s.entries then Go(s, p, LinkWait(to, from, s.entries[from])) else s.(procs := s.procs - {p})
    case LinkCheck(to, from, e) =>
      if from in s.entries && s.entries[from] == e then Go(s, p, LinkStore(to, e.blob)) else Go(s, p, Leave(e.blob))
    case LinkStore(to, b) => StoreStep(s, p, to, b)
    case Count(b) => Go(s, p, Leave(b)).(refs := s.refs[b := s.refs[b] + 1])
    case Leave(b) => Leaves(s, p, b)
    case EraseLoad(at) =>
      if at in s.entries then Go(s, p, EraseWait(s.entries[at].blob)).(entries := s.entries - {at})
      else s.(procs := s.procs - {p})
    case EraseCount(b) =>
      Go(s, p, if s.refs[b] - 1 > 0 then Leave(b) else EraseDrop(b)).(refs := s.refs[b := s.refs[b] - 1])
    case EraseDrop(b) =>
      Leaves(s, p, b).(table := None, dropped := if s.table.Some? then s.dropped + {s.table.value} else s.dropped)
    case _ => s
  }

  function Apply(s: State, l: Label): State
    requires Can(s, l)
  {
    match l
    case BeginPublish(p, to) => Go(s, p, PubOffer(to, {}))
    case BeginLink(p, to, from) => Go(s, p, LinkLoad(to, from))
    case BeginErase(p, at) => Go(s, p, EraseLoad(at))
    case Offer(p, b) => OfferStep(s, p, b)
    case Lock(p) => LockStep(s, p)
    case Work(p) => WorkStep(s, p)
  }

  const INIT := State(None, map[], map[], map[], map[], 0, {})

  // ------------------------------------------------------------- invariant

  /** Erasers that have taken an entry out and not counted it out. */
  function Erasers(procs: map<ProcId, Proc>): set<ProcId> { set p <- procs.Keys | Pending(procs[p]) }

  /** Lock holders that have stored an entry and not counted it in. */
  function Counters(procs: map<ProcId, Proc>): set<ProcId> { set p <- procs.Keys | procs[p].Count? }

  function Erasing(procs: map<ProcId, Proc>): nat { |Erasers(procs)| }

  function Counting(procs: map<ProcId, Proc>): nat { |Counters(procs)| }

  /** The count is the entries plus the erasers that have not counted out yet,
      less the holder that has not counted in yet; all entries are of the blob in
      the table, and a blob that has left the table has no count. */
  predicate CountOk(table: Option<BlobId>, refs: map<BlobId, int>, dropped: set<BlobId>,
                    entries: map<Store, Entry>, erasing: nat, counting: nat) {
    && (table == None ==> entries == map[] && erasing == 0 && counting == 0)
    && (table.Some? ==>
          && table.value in refs && table.value !in dropped
          && (forall st <- entries.Keys :: entries[st].blob == table.value)
          && refs[table.value] >= 0 && refs[table.value] + counting == |entries| + erasing)
    && dropped <= refs.Keys
    && (forall b <- refs.Keys :: Some(b) != table ==> refs[b] == 0 && b in dropped)
  }

  /** The lock holders are exactly the calls past a lock. */
  predicate LocksOk(procs: map<ProcId, Proc>, holder: map<BlobId, ProcId>) {
    && (forall p <- procs.Keys :: Holding(procs[p]) ==> Locked(holder, p, BlobOf(procs[p])))
    && (forall b <- holder.Keys :: Locks(procs, holder[b], b))
  }

  predicate Locked(holder: map<BlobId, ProcId>, p: ProcId, b: BlobId) { b in holder && holder[b] == p }

  predicate Locks(procs: map<ProcId, Proc>, p: ProcId, b: BlobId) {
    p in procs && Holding(procs[p]) && BlobOf(procs[p]) == b
  }

  /** Who may find the table's blob without a reference. */
  predicate Settles(q: Proc) { q.PubStore? || q.Count? || q.EraseDrop? }

  predicate ZeroOk(s: State) {
    s.table.Some? && s.table.value in s.refs && s.refs[s.table.value] == 0 ==>
      && s.table.value in s.holder && s.holder[s.table.value] in s.procs
      && Settles(s.procs[s.holder[s.table.value]])
  }

  predicate ProcOk(table: Option<BlobId>, refs: map<BlobId, int>, dropped: set<BlobId>, q: Proc) {
    match q
    case PubOffer(_, seen) => seen <= dropped
    case PubWait(_, seen, b) => b in refs && seen <= dropped && b !in seen
    case PubCheck(_, seen, b) => b in refs && seen <= dropped && b !in seen && (refs[b] == 0 ==> table != Some(b))
    case PubStore(_, b) => table == Some(b)
    case LinkLoad(_, _) => true
    case LinkWait(_, _, e) => e.blob in refs
    case LinkCheck(_, _, e) => e.blob in refs && (refs[e.blob] == 0 ==> table != Some(e.blob))
    case LinkStore(_, b) => table == Some(b) && b in refs && refs[b] > 0
    case Count(b) => table == Some(b)
    case Leave(b) => b in refs && (refs[b] == 0 ==> table != Some(b))
    case EraseLoad(_) => true
    case EraseWait(b) => table == Some(b)
    case EraseCount(b) => table == Some(b)
    case EraseDrop(b) => table == Some(b) && b in refs && refs[b] == 0
  }

  predicate ProcsOk(s: State) {
    forall p <- s.procs.Keys :: ProcOk(s.table, s.refs, s.dropped, s.procs[p])
  }

  predicate Inv(s: State) {
    && CountOk(s.table, s.refs, s.dropped, s.entries, Erasing(s.procs), Counting(s.procs))
    && LocksOk(s.procs, s.holder) && ZeroOk(s) && ProcsOk(s)
  }

  function One(b: bool): nat { if b then 1 else 0 }

  lemma ErasingStep(procs: map<ProcId, Proc>, p: ProcId, q: Proc)
    ensures Erasing(procs[p := q]) == Erasing(procs) - One(p in procs && Pending(procs[p])) + One(Pending(q))
  {
    if Pending(q) {
      assert Erasers(procs[p := q]) == Erasers(procs) + {p};
    } else {
      assert Erasers(procs[p := q]) == Erasers(procs) - {p};
    }
  }

  lemma CountingStep(procs: map<ProcId, Proc>, p: ProcId, q: Proc)
    ensures Counting(procs[p := q]) == Counting(procs) - One(p in procs && procs[p].Count?) + One(q.Count?)
  {
    if q.Count? {
      assert Counters(procs[p := q]) == Counters(procs) + {p};
    } else {
      assert Counters(procs[p := q]) == Counters(procs) - {p};
    }
  }

  /** How a call that moves on changes who is erasing and counting. */
  lemma TallyStep(procs: map<ProcId, Proc>, p: ProcId, q: Proc)
    ensures Erasing(procs[p := q]) == Erasing(procs) - One(p in procs && Pending(procs[p])) + One(Pending(q))
    ensures Counting(procs[p := q]) == Counting(procs) - One(p in procs && procs[p].Count?) + One(q.Count?)
  {
    ErasingStep(procs, p, q);
    CountingStep(procs, p, q);
  }

  lemma TallyEnd(procs: map<ProcId, Proc>, p: ProcId)
    requires p in procs && !Pending(procs[p]) && !procs[p].Count?
    ensures Erasing(procs - {p}) == Erasing(procs) && Counting(procs - {p}) == Counting(procs)
  {
    assert Erasers(procs - {p}) == Erasers(procs) && Counters(procs - {p}) == Counters(procs);
  }

  lemma TallyIncludes(procs: map<ProcId, Proc>, p: ProcId)
    requires p in procs && Pending(procs[p])
    ensures Erasing(procs) > 0
  {
    assert p in Erasers(procs);
  }

  /** One lock, one holder. */
  lemma OthersElsewhere(s: State, p: ProcId)
    requires LocksOk(s.procs, s.holder) && p in s.procs && Holding(s.procs[p])
    ensures forall j <- s.procs.Keys :: j != p && Holding(s.procs[j]) ==> BlobOf(s.procs[j]) != BlobOf(s.procs[p])
  {
    forall j <- s.procs.Keys | j != p && Holding(s.procs[j]) ensures BlobOf(s.procs[j]) != BlobOf(s.procs[p]) {
      assert Locked(s.holder, j, BlobOf(s.procs[j])) && Locked(s.holder, p, BlobOf(s.procs[p]));
    }
  }

  /** Only the lock holder of the table's blob can be about to count. */
  lemma NobodyElseCounts(s: State, p: ProcId)
    requires LocksOk(s.procs, s.holder) && ProcsOk(s) && p in s.procs && Holding(s.procs[p]) && !s.procs[p].Count?
    requires s.table == Some(BlobOf(s.procs[p]))
    ensures Counting(s.procs) == 0
  {
    OthersElsewhere(s, p);
    assert Counters(s.procs) == {};
  }

  lemma LocksKeep(procs: map<ProcId, Proc>, holder: map<BlobId, ProcId>, p: ProcId, q: Proc)
    requires LocksOk(procs, holder)
    requires if p in procs && Holding(procs[p]) then Holding(q) && BlobOf(q) == BlobOf(procs[p]) else !Holding(q)
    ensures LocksOk(procs[p := q], holder)
  {
    forall b <- holder.Keys ensures Locks(procs[p := q], holder[b], b) { assert Locks(procs, holder[b], b); }
  }

  lemma LocksTake(procs: map<ProcId, Proc>, holder: map<BlobId, ProcId>, p: ProcId, q: Proc)
    requires LocksOk(procs, holder) && p in procs && !Holding(procs[p]) && Holding(q) && BlobOf(q) !in holder
    ensures LocksOk(procs[p := q], holder[BlobOf(q) := p])
  {
    forall b <- holder.Keys ensures Locks(procs[p := q], holder[b], b) { assert Locks(procs, holder[b], b); }
  }

  lemma LocksGiveMove(procs: map<ProcId, Proc>, holder: map<BlobId, ProcId>, p: ProcId, q: Proc)
    requires LocksOk(procs, holder) && p in procs && Holding(procs[p]) && !Holding(q)
    ensures LocksOk(procs[p := q], holder - {BlobOf(procs[p])})
  {
    assert procs[p := q] - {p} == procs - {p};
    LocksGive(procs, holder, p, procs[p := q]);
  }

  lemma LocksGiveEnd(procs: map<ProcId, Proc>, holder: map<BlobId, ProcId>, p: ProcId)
    requires LocksOk(procs, holder) && p in procs && Holding(procs[p])
    ensures LocksOk(procs - {p}, holder - {BlobOf(procs[p])})
  {
    assert procs - {p} - {p} == procs - {p};
    LocksGive(procs, holder, p, procs - {p});
  }

  /** An eraser takes an entry out, to be counted later. */
  lemma TakeOut(table: Option<BlobId>, refs: map<BlobId, int>, dropped: set<BlobId>,
                entries: map<Store, Entry>, at: Store, erasing: nat, counting: nat)
    requires CountOk(table, refs, dropped, entries, erasing, counting) && at in entries
    ensures CountOk(table, refs, dropped, entries - {at}, erasing + 1, counting)
  {
    assert entries == (entries - {at})[at := entries[at]];
  }

  lemma LocksGive(procs: map<ProcId, Proc>, holder: map<BlobId, ProcId>, p: ProcId, procs': map<ProcId, Proc>)
    requires LocksOk(procs, holder) && p in procs && Holding(procs[p])
    requires procs' - {p} == procs - {p} && (p in procs' ==> !Holding(procs'[p]))
    ensures LocksOk(procs', holder - {BlobOf(procs[p])})
  {
    var holder' := holder - {BlobOf(procs[p])};
    forall j <- procs'.Keys | Holding(procs'[j]) ensures Locked(holder', j, BlobOf(procs'[j])) {
      assert j in procs - {p} && j in procs' - {p};
      assert Locked(holder, j, BlobOf(procs[j])) && Locked(holder, p, BlobOf(procs[p]));
    }
    forall b <- holder'.Keys ensures Locks(procs', holder'[b], b) {
      assert Locks(procs, holder[b], b);
      assert holder[b] in procs - {p};
    }
  }

  lemma LocksEnd(procs: map<ProcId, Proc>, holder: map<BlobId, ProcId>, p: ProcId)
    requires LocksOk(procs, holder) && (p in procs ==> !Holding(procs[p]))
    ensures LocksOk(procs - {p}, holder)
  {
    forall b <- holder.Keys ensures Locks(procs - {p}, holder[b], b) { assert Locks(procs, holder[b], b); }
  }

  lemma BeginInv(s: State, p: ProcId, q: Proc)
    requires Inv(s) && p !in s.procs && ((q.PubOffer? && q.seen == {}) || q.LinkLoad? || q.EraseLoad?)
    ensures Inv(Go(s, p, q))
  {
    TallyStep(s.procs, p, q);
    LocksKeep(s.procs, s.holder, p, q);
  }

  lemma FirstOfferInv(s: State, p: ProcId, b: BlobId)
    requires Inv(s) && Can(s, Offer(p, b)) && s.table == None
    ensures Inv(OfferStep(s, p, b))
  {
    var s' := OfferStep(s, p, b);
    assert LocksOk(s'.procs, s'.holder) by {
      LocksTake(s.procs, s.holder, p, s'.procs[p]);
    }
    FirstOfferProcs(s, p, b);
    TallyStep(s.procs, p, s'.procs[p]);
  }

  lemma FirstOfferProcs(s: State, p: ProcId, b: BlobId)
    requires ProcsOk(s) && Can(s, Offer(p, b)) && s.table == None
    ensures ProcsOk(OfferStep(s, p, b)) && ZeroOk(OfferStep(s, p, b))
  {
  }

  lemma OfferInv(s: State, p: ProcId, b: BlobId)
    requires Inv(s) && Can(s, Offer(p, b))
    ensures Inv(OfferStep(s, p, b))
  {
    if s.table == None {
      FirstOfferInv(s, p, b);
    } else {
      var s' := OfferStep(s, p, b);
      TallyStep(s.procs, p, s'.procs[p]);
      LocksKeep(s.procs, s.holder, p, s'.procs[p]);
    }
  }

  lemma LockInv(s: State, p: ProcId)
    requires Inv(s) && Can(s, Lock(p))
    ensures Inv(LockStep(s, p))
  {
    var s' := LockStep(s, p);
    TallyStep(s.procs, p, s'.procs[p]);
    LocksTake(s.procs, s.holder, p, s'.procs[p]);
  }

  lemma RetryProcs(s: State, p: ProcId)
    requires Inv(s) && Can(s, Work(p)) && s.procs[p].PubCheck? && s.refs[s.procs[p].b] == 0
    ensures ProcsOk(WorkStep(s, p)) && ZeroOk(WorkStep(s, p))
  {
  }

  lemma RetryInv(s: State, p: ProcId)
    requires Inv(s) && Can(s, Work(p)) && s.procs[p].PubCheck? && s.refs[s.procs[p].b] == 0
    ensures Inv(WorkStep(s, p))
  {
    RetryLocks(s, p);
    RetryProcs(s, p);
    TallyStep(s.procs, p, WorkStep(s, p).procs[p]);
  }

  lemma RetryLocks(s: State, p: ProcId)
    requires Inv(s) && Can(s, Work(p)) && s.procs[p].PubCheck? && s.refs[s.procs[p].b] == 0
    ensures LocksOk(WorkStep(s, p).procs, WorkStep(s, p).holder)
  {
    LocksGiveMove(s.procs, s.holder, p, WorkStep(s, p).procs[p]);
  }

  lemma PubCheckInv(s: State, p: ProcId)
    requires Inv(s) && Can(s, Work(p)) && s.procs[p].PubCheck?
    ensures Inv(WorkStep(s, p))
  {
    if s.refs[s.procs[p].b] == 0 {
      RetryInv(s, p);
    } else {
      var s' := WorkStep(s, p);
      TallyStep(s.procs, p, s'.procs[p]);
      LocksKeep(s.procs, s.holder, p, s'.procs[p]);
    }
  }

  /** Storing an entry under the lock of the table's blob. */
  lemma StoreInv(s: State, p: ProcId, to: Store)
    requires Inv(s) && Can(s, Work(p)) && (s.procs[p].PubStore? || s.procs[p].LinkStore?)
    ensures Inv(StoreStep(s, p, to, s.procs[p].b))
  {
    var s' := StoreStep(s, p, to, s.procs[p].b);
    TallyStep(s.procs, p, s'.procs[p]);
    LocksKeep(s.procs, s.holder, p, s'.procs[p]);
    NobodyElseCounts(s, p);
    if to in s.entries { assert |s.entries| > 0; }
  }

  lemma LinkLoadInv(s: State, p: ProcId)
    requires Inv(s) && Can(s, Work(p)) && s.procs[p].LinkLoad?
    ensures Inv(WorkStep(s, p))
  {
    var s' := WorkStep(s, p);
    if p in s'.procs {
      TallyStep(s.procs, p, s'.procs[p]);
      LocksKeep(s.procs, s.holder, p, s'.procs[p]);
    } else {
      TallyEnd(s.procs, p);
      LocksEnd(s.procs, s.holder, p);
    }
  }

  /** An entry that is still there after the lock is taken is of a counted blob. */
  lemma LinkCheckInv(s: State, p: ProcId)
    requires Inv(s) && Can(s, Work(p)) && s.procs[p].LinkCheck?
    ensures Inv(WorkStep(s, p))
  {
    LinkCheckProcs(s, p);
    LinkCheckLocks(s, p);
    LinkCheckCounts(s, p);
  }

  lemma LinkCheckCounts(s: State, p: ProcId)
    requires Inv(s) && Can(s, Work(p)) && s.procs[p].LinkCheck?
    ensures var s' := WorkStep(s, p);
            CountOk(s'.table, s'.refs, s'.dropped, s'.entries, Erasing(s'.procs), Counting(s'.procs))
  {
    TallyStep(s.procs, p, WorkStep(s, p).procs[p]);
  }

  lemma LinkCheckProcs(s: State, p: ProcId)
    requires Inv(s) && Can(s, Work(p)) && s.procs[p].LinkCheck?
    ensures ProcsOk(WorkStep(s, p)) && ZeroOk(WorkStep(s, p))
  {
  }

  lemma LinkCheckLocks(s: State, p: ProcId)
    requires Inv(s) && Can(s, Work(p)) && s.procs[p].LinkCheck?
    ensures LocksOk(WorkStep(s, p).procs, WorkStep(s, p).holder)
  {
    LocksKeep(s.procs, s.holder, p, WorkStep(s, p).procs[p]);
  }

  lemma CountInv(s: State, p: ProcId)
    requires Inv(s) && Can(s, Work(p)) && s.procs[p].Count?
    ensures Inv(WorkStep(s, p))
  {
    var s' := WorkStep(s, p);
    OthersElsewhere(s, p);
    TallyStep(s.procs, p, s'.procs[p]);
    LocksKeep(s.procs, s.holder, p, s'.procs[p]);
  }

  lemma LeaveInv(s: State, p: ProcId)
    requires Inv(s) && Can(s, Work(p)) && s.procs[p].Leave?
    ensures Inv(WorkStep(s, p))
  {
    var s' := WorkStep(s, p);
    OthersElsewhere(s, p);
    TallyEnd(s.procs, p);
    LocksGiveEnd(s.procs, s.holder, p);
  }

  lemma EraseLoadInv(s: State, p: ProcId)
    requires Inv(s) && Can(s, Work(p)) && s.procs[p].EraseLoad?
    ensures Inv(WorkStep(s, p))
  {
    if s.procs[p].at in s.entries {
      EraseTakesOut(s, p);
      EraseTakesProcs(s, p);
      EraseTakesLocks(s, p);
    } else {
      EraseEndsInv(s, p);
    }
  }

  lemma EraseEndsInv(s: State, p: ProcId)
    requires Inv(s) && p in s.procs && s.procs[p].EraseLoad?
    ensures Inv(s.(procs := s.procs - {p}))
  {
    TallyEnd(s.procs, p);
    LocksEnd(s.procs, s.holder, p);
  }

  lemma EraseTakesLocks(s: State, p: ProcId)
    requires Inv(s) && Can(s, Work(p)) && s.procs[p].EraseLoad? && s.procs[p].at in s.entries
    ensures LocksOk(WorkStep(s, p).procs, WorkStep(s, p).holder)
  {
    LocksKeep(s.procs, s.holder, p, WorkStep(s, p).procs[p]);
  }

  lemma EraseTakesProcs(s: State, p: ProcId)
    requires Inv(s) && Can(s, Work(p)) && s.procs[p].EraseLoad? && s.procs[p].at in s.entries
    ensures ProcsOk(WorkStep(s, p)) && ZeroOk(WorkStep(s, p))
  {
  }

  lemma EraseTakesOut(s: State, p: ProcId)
    requires Inv(s) && Can(s, Work(p)) && s.procs[p].EraseLoad? && s.procs[p].at in s.entries
    ensures var s' := WorkStep(s, p);
            CountOk(s'.table, s'.refs, s'.dropped, s'.entries, Erasing(s'.procs), Counting(s'.procs))
  {
    TallyStep(s.procs, p, WorkStep(s, p).procs[p]);
    TakeOut(s.table, s.refs, s.dropped, s.entries, s.procs[p].at, Erasing(s.procs), Counting(s.procs));
  }

  lemma EraseCountInv(s: State, p: ProcId)
    requires Inv(s) && Can(s, Work(p)) && s.procs[p].EraseCount?
    ensures Inv(WorkStep(s, p)) && s.refs[s.procs[p].b] > 0
  {
    var s' := WorkStep(s, p);
    OthersElsewhere(s, p);
    NobodyElseCounts(s, p);
    TallyIncludes(s.procs, p);
    TallyStep(s.procs, p, s'.procs[p]);
    LocksKeep(s.procs, s.holder, p, s'.procs[p]);
  }

  /** When the last reference goes, nobody else is on the blob's way in or out. */
  lemma LastOut(s: State, p: ProcId)
    requires Inv(s) && p in s.procs && s.procs[p].EraseDrop?
    ensures Counting(s.procs) == 0 && Erasing(s.procs) == 0 && s.entries == map[]
    ensures forall j <- s.procs.Keys :: j != p ==>
              !Pending(s.procs[j]) && ProcOk(None, s.refs, s.dropped + {s.procs[p].b}, s.procs[j])
  {
    OthersElsewhere(s, p);
    NobodyElseCounts(s, p);
    assert Erasers(s.procs) == {};
    forall j <- s.procs.Keys | j != p
      ensures !Pending(s.procs[j]) && ProcOk(None, s.refs, s.dropped + {s.procs[p].b}, s.procs[j])
    {
      assert j !in Erasers(s.procs);
    }
  }

  lemma EraseDropInv(s: State, p: ProcId)
    requires Inv(s) && Can(s, Work(p)) && s.procs[p].EraseDrop?
    ensures Inv(WorkStep(s, p))
  {
    EraseDropLocks(s, p);
    EraseDropProcs(s, p);
    EraseDropCounts(s, p);
  }

  lemma EraseDropCounts(s: State, p: ProcId)
    requires Inv(s) && Can(s, Work(p)) && s.procs[p].EraseDrop?
    ensures var s' := WorkStep(s, p);
            CountOk(s'.table, s'.refs, s'.dropped, s'.entries, Erasing(s'.procs), Counting(s'.procs))
  {
    LastOut(s, p);
    TallyEnd(s.procs, p);
    DropCounts(s.refs, s.dropped, s.procs[p].b);
  }

  lemma DropCounts(refs: map<BlobId, int>, dropped: set<BlobId>, b: BlobId)
    requires CountOk(Some(b), refs, dropped, map[], 0, 0)
    ensures CountOk(None, refs, dropped + {b}, map[], 0, 0)
  {
  }

  lemma EraseDropLocks(s: State, p: ProcId)
    requires Inv(s) && Can(s, Work(p)) && s.procs[p].EraseDrop?
    ensures LocksOk(WorkStep(s, p).procs, WorkStep(s, p).holder)
  {
    LocksGiveEnd(s.procs, s.holder, p);
  }

  lemma EraseDropProcs(s: State, p: ProcId)
    requires Inv(s) && Can(s, Work(p)) && s.procs[p].EraseDrop?
    ensures ProcsOk(WorkStep(s, p)) && ZeroOk(WorkStep(s, p))
  {
    LastOut(s, p);
  }

  lemma WorkInv(s: State, p: ProcId)
    requires Inv(s) && Can(s, Work(p))
    ensures Inv(WorkStep(s, p))
  {
    match s.procs[p]
    case PubCheck(_, _, _) => PubCheckInv(s, p);
    case PubStore(to, _) => StoreInv(s, p, to);
    case LinkLoad(_, _) => LinkLoadInv(s, p);
    case LinkCheck(_, _, _) => LinkCheckInv(s, p);
    case LinkStore(to, _) => StoreInv(s, p, to);
    case Count(_) => CountInv(s, p);
    case Leave(_) => LeaveInv(s, p);
    case EraseLoad(_) => EraseLoadInv(s, p);
    case EraseCount(_) => EraseCountInv(s, p);
    case EraseDrop(_) => EraseDropInv(s, p);
    case _ =>
  }

  lemma StepInv(s: State, l: Label)
    requires Inv(s) && Can(s, l)
    ensures Inv(Apply(s, l))
  {
    match l
    case BeginPublish(p, to) => BeginInv(s, p, PubOffer(to, {}));
    case BeginLink(p, to, from) => BeginInv(s, p, LinkLoad(to, from));
    case BeginErase(p, at) => BeginInv(s, p, EraseLoad(at));
    case Offer(p, b) => OfferInv(s, p, b);
    case Lock(p) => LockInv(s, p);
    case Work(p) => WorkInv(s, p);
  }

  // --------------------------------------------------------------- theorems

  ghost predicate Step(s: State, s': State) { exists l :: Can(s, l) && s' == Apply(s, l) }

  ghost predicate StepAt(run: seq<State>, i: nat)
    requires i + 1 < |run|
  {
    Step(run[i], run[i + 1])
  }

  ghost predicate Run(run: seq<State>) {
    |run| > 0 && run[0] == INIT && forall i: nat :: i + 1 < |run| ==> StepAt(run, i)
  }

  lemma StepKeeps(s: State, s': State)
    requires Inv(s) && Step(s, s')
    ensures Inv(s')
  {
    var l :| Can(s, l) && s' == Apply(s, l);
    StepInv(s, l);
  }

  lemma {:induction false} RunInv(run: seq<State>, i: nat)
    requires Run(run) && i < |run|
    ensures Inv(run[i])
  {
    if i > 0 {
      RunInv(run, i - 1);
      assert StepAt(run, i - 1);
      StepKeeps(run[i - 1], run[i]);
    }
  }

  /** In every interleaving: every entry is of the blob in the table; the count is
      the entries, plus erasers yet to count out, less a holder yet to count in;
      and it never falls below zero, nor is it decremented at zero. */
  lemma CountsAreExact(run: seq<State>, i: nat)
    requires Run(run) && i < |run|
    ensures var s := run[i];
            && (forall st <- s.entries.Keys :: s.table == Some(s.entries[st].blob))
            && (forall b <- s.refs.Keys :: s.refs[b] >= 0 && (s.refs[b] > 0 ==> s.table == Some(b)))
            && (s.table.Some? ==>
                  && s.table.value in s.refs
                  && s.refs[s.table.value] == |s.entries| + Erasing(s.procs) - Counting(s.procs))
            && (forall p <- s.procs.Keys :: s.procs[p].EraseCount? ==>
                  s.procs[p].b in s.refs && s.refs[s.procs[p].b] > 0)
  {
    RunInv(run, i);
    var s := run[i];
    forall p <- s.procs.Keys | s.procs[p].EraseCount? ensures s.procs[p].b in s.refs && s.refs[s.procs[p].b] > 0 {
      EraseCountInv(s, p);
    }
  }

  /** Nobody leaves the table's blob without a reference: if its lock is free, it
      has one. So a publisher that finds a blob without one finds a blob an Erase
      has already deleted, a different one each time, and no more often than
      Erases have deleted one. */
  lemma RetriesAreBounded(run: seq<State>, i: nat)
    requires Run(run) && i < |run|
    ensures var s := run[i];
            && (s.table.Some? && s.table.value !in s.holder ==> s.table.value in s.refs && s.refs[s.table.value] > 0)
            && (forall p <- s.procs.Keys ::
                  && (s.procs[p].PubCheck? && s.procs[p].b in s.refs && s.refs[s.procs[p].b] == 0 ==>
                        s.procs[p].b in s.dropped && s.procs[p].b !in s.procs[p].seen && s.table != Some(s.procs[p].b))
                  && (s.procs[p].PubOffer? || s.procs[p].PubWait? || s.procs[p].PubCheck? ==>
                        |s.procs[p].seen| <= |s.dropped|))
  {
    RunInv(run, i);
    var s := run[i];
    forall p <- s.procs.Keys | s.procs[p].PubOffer? || s.procs[p].PubWait? || s.procs[p].PubCheck?
      ensures |s.procs[p].seen| <= |s.dropped|
    {
      SubsetSize(s.procs[p].seen, s.dropped);
    }
  }
}
