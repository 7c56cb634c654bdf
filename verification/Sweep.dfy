/** The sweeper: one pass, and how passes drain the jobs that nobody else resolves. */
module Sweep {
  import opened Jobs
  import opened Sums
  import opened Tables
  import opened Stores

  const OPEN: set<State> := {QuotaDeducted, PrintSent}

  // `db'` is later than `db`, and every row inserted in between was submitted at `since` or after.
  ghost predicate Onward(db: Db, db': Db, since: int) {
    && (forall id | id in db.jobs :: id in db'.jobs && Later(db.jobs[id], db'.jobs[id]))
    && (forall id | id in db'.jobs && id !in db.jobs :: db'.jobs[id].submitted >= since)
  }

  predicate InsertsFrom(acts: seq<Action>, since: int) {
    forall i | 0 <= i < |acts| :: acts[i].AddJob? ==> acts[i].job.submitted >= since
  }

  lemma StepIsOnward(db: Db, a: Action, since: int)
    requires a.AddJob? ==> a.job.submitted >= since
    ensures Onward(db, Apply(db, a), since)
  {
  }

  lemma OnwardTrans(a: Db, b: Db, c: Db, since: int)
    requires Onward(a, b, since) && Onward(b, c, since)
    ensures Onward(a, c, since)
  {
  }

  lemma {:induction false} RunIsOnward(db: Db, acts: seq<Action>, since: int)
    requires InsertsFrom(acts, since)
    ensures Onward(db, ApplyAll(db, acts), since)
    decreases |acts|
  {
    if acts != [] {
      StepIsOnward(db, acts[0], since);
      RunIsOnward(Apply(db, acts[0]), acts[1..], since);
      OnwardTrans(db, Apply(db, acts[0]), ApplyAll(db, acts), since);
    }
  }

  // One pass: the tables when it starts, at its snapshot, and when it ends.
  datatype PassRecord = Record(before: Db, snapshot: Db, batch: seq<Stale>, after: Db, cutoff: int)

  // An error-free pass. Every job of the batch has moved since the snapshot, by this pass or by another actor.
  ghost predicate PassOk(p: PassRecord, limit: nat, since: int) {
    && Onward(p.before, p.snapshot, since)
    && Onward(p.snapshot, p.after, since)
    && p.cutoff >= since
    && IsStaleBatch(p.snapshot, OPEN, p.cutoff, limit, p.batch)
    && AllProgressed(p.after, p.batch)
  }

  predicate AllProgressed(db: Db, batch: seq<Stale>) {
    forall i | 0 <= i < |batch| :: Progressed(db, batch[i])
  }

  predicate Progressed(db: Db, s: Stale) {
    s.id in db.jobs && Rank(db.jobs[s.id].state) < Rank(s.state)
  }

  lemma UpdateProgresses(db: Db, s: Stale, now: int)
    requires s.state in OPEN && s.id in db.jobs && Rank(db.jobs[s.id].state) <= Rank(s.state)
    ensures Progressed(Apply(db, Update(s.id, s.state, PrintFailed, now)), s)
  {
  }

  // ---- What a pass does to the tables, update by update ----

  // The tables after the first n updates; other actors commit meanwhile(i + 1) before the i-th.
  ghost function Swept(db: Db, batch: seq<Stale>, n: nat, meanwhile: nat -> seq<Action>, faults: nat -> Fault,
      clock: nat -> int): Db
    requires n <= |batch|
  {
    if n == 0 then db
    else
      var s := batch[n - 1];
      ApplyWith(ApplyAll(Swept(db, batch, n - 1, meanwhile, faults, clock), meanwhile(n)),
        Update(s.id, s.state, PrintFailed, clock(n - 1)), faults(n - 1))
  }

  // The rows a batch was read from.
  ghost predicate ReadFrom(db: Db, batch: seq<Stale>) {
    && (forall i | 0 <= i < |batch| ::
      batch[i].state in OPEN && batch[i].id in db.jobs && batch[i].state == db.jobs[batch[i].id].state)
    && (forall i, j | 0 <= i < j < |batch| :: batch[i].id != batch[j].id)
  }

  // Failed and given back at the time of the update.
  predicate FailedAt(j: Job, j': Job, now: int) {
    j' == j.(state := PrintFailed, completed := Some(now))
  }

  // The first n jobs of the batch have failed, and nothing else has changed.
  ghost predicate OnlyFailed(db: Db, db': Db, batch: seq<Stale>, n: nat, clock: nat -> int)
    requires n <= |batch| && ReadFrom(db, batch)
  {
    && db' == db.(jobs := db'.jobs) && db'.jobs.Keys == db.jobs.Keys
    && (forall i | 0 <= i < n :: FailedAt(db.jobs[batch[i].id], db'.jobs[batch[i].id], clock(i)))
    && (forall id | id in db.jobs && (forall i | 0 <= i < n :: batch[i].id != id) :: db'.jobs[id] == db.jobs[id])
  }

  lemma NoneFails(db: Db, batch: seq<Stale>, clock: nat -> int)
    requires ReadFrom(db, batch)
    ensures OnlyFailed(db, db, batch, 0, clock)
  {
  }

  lemma OneMoreFails(db: Db, db': Db, batch: seq<Stale>, n: nat, acts: seq<Action>, fault: Fault, clock: nat -> int)
    requires n < |batch| && ReadFrom(db, batch) && OnlyFailed(db, db', batch, n, clock)
    requires acts == [] && fault == NoFault
    ensures var s := batch[n];
      OnlyFailed(db, ApplyWith(ApplyAll(db', acts), Update(s.id, s.state, PrintFailed, clock(n)), fault),
        batch, n + 1, clock)
  {
    var s := batch[n];
    assert db'.jobs[s.id] == db.jobs[s.id];
    UpdateRecords(db', s.id, s.state, PrintFailed, clock(n));
  }

  /** With nobody else at work and without faults, a pass fails exactly the jobs of its batch. */
  lemma {:induction false} SweptAlone(db: Db, batch: seq<Stale>, n: nat, meanwhile: nat -> seq<Action>,
      faults: nat -> Fault, clock: nat -> int)
    requires n <= |batch| && ReadFrom(db, batch)
    requires forall i: nat :: meanwhile(i) == [] && faults(i) == NoFault
    ensures OnlyFailed(db, Swept(db, batch, n, meanwhile, faults, clock), batch, n, clock)
  {
    if n == 0 {
      NoneFails(db, batch, clock);
    } else {
      SweptAlone(db, batch, n - 1, meanwhile, faults, clock);
      var before := Swept(db, batch, n - 1, meanwhile, faults, clock);
      OneMoreFails(db, before, batch, n - 1, meanwhile(n), faults(n - 1), clock);
    }
  }

  // One of the statements records that the job has printed.
  predicate Succeeds(acts: seq<Action>, id: int) {
    exists i | 0 <= i < |acts| :: acts[i].Update? && acts[i].id == id && acts[i].to == PrintSucceeded
  }

  lemma {:induction false} SucceedsOnlyBy(db: Db, acts: seq<Action>, id: int)
    requires InState(ApplyAll(db, acts), id, PrintSucceeded)
    ensures InState(db, id, PrintSucceeded) || Succeeds(acts, id)
    decreases |acts|
  {
    if acts != [] {
      SucceedsOnlyBy(Apply(db, acts[0]), acts[1..], id);
      if Succeeds(acts[1..], id) {
        var more := acts[1..];
        var i :| 0 <= i < |more| && more[i].Update? && more[i].id == id && more[i].to == PrintSucceeded;
        assert acts[i + 1] == more[i];
      }
    }
  }

  /** A pass never makes a job succeed: if one has afterwards, some other actor's statement made it so. */
  lemma {:induction false} SweptSucceeds(db: Db, batch: seq<Stale>, n: nat, meanwhile: nat -> seq<Action>,
      faults: nat -> Fault, clock: nat -> int, id: int)
    requires n <= |batch| && InState(Swept(db, batch, n, meanwhile, faults, clock), id, PrintSucceeded)
    ensures InState(db, id, PrintSucceeded) || exists i: nat | 0 < i <= n :: Succeeds(meanwhile(i), id)
  {
    if n > 0 {
      var before := Swept(db, batch, n - 1, meanwhile, faults, clock);
      assert InState(ApplyAll(before, meanwhile(n)), id, PrintSucceeded);
      SucceedsOnlyBy(before, meanwhile(n), id);
      if !Succeeds(meanwhile(n), id) {
        SweptSucceeds(db, batch, n - 1, meanwhile, faults, clock, id);
      }
    }
  }

  // The jobs of the batch have failed and are charged to nobody, and every other row is as it was.
  ghost predicate FailsItsBatch(snapshot: Db, after: Db, batch: seq<Stale>, clock: nat -> int) {
    && ReadFrom(snapshot, batch)
    && OnlyFailed(snapshot, after, batch, |batch|, clock)
    && forall s, u | s in batch :: Charge(after, s.id, u) == 0
  }

  // A job that has succeeded had before, or some other actor's statement made it so.
  ghost predicate OthersSucceed(snapshot: Db, after: Db, n: nat, meanwhile: nat -> seq<Action>) {
    forall id | InState(after, id, PrintSucceeded) ::
      InState(snapshot, id, PrintSucceeded) || exists i: nat | 0 < i <= n :: Succeeds(meanwhile(i), id)
  }

  lemma PassEffects(snapshot: Db, batch: seq<Stale>, meanwhile: nat -> seq<Action>, faults: nat -> Fault,
      clock: nat -> int)
    requires ReadFrom(snapshot, batch)
    ensures var after := Swept(snapshot, batch, |batch|, meanwhile, faults, clock);
      && ((forall i: nat :: meanwhile(i) == [] && faults(i) == NoFault) ==>
        FailsItsBatch(snapshot, after, batch, clock))
      && OthersSucceed(snapshot, after, |batch|, meanwhile)
  {
    var after := Swept(snapshot, batch, |batch|, meanwhile, faults, clock);
    if forall i: nat :: meanwhile(i) == [] && faults(i) == NoFault {
      SweptAlone(snapshot, batch, |batch|, meanwhile, faults, clock);
    }
    forall id | InState(after, id, PrintSucceeded)
      ensures InState(snapshot, id, PrintSucceeded) || exists i: nat | 0 < i <= |batch| :: Succeeds(meanwhile(i), id)
    {
      SweptSucceeds(snapshot, batch, |batch|, meanwhile, faults, clock, id);
    }
  }

  lemma FaultyStepIsOnward(db: Db, acts: seq<Action>, s: Stale, now: int, fault: Fault, since: int)
    requires InsertsFrom(acts, since)
    ensures Onward(db, ApplyWith(ApplyAll(db, acts), Update(s.id, s.state, PrintFailed, now), fault), since)
  {
    var mid := ApplyAll(db, acts);
    RunIsOnward(db, acts, since);
    StepIsOnward(mid, Update(s.id, s.state, PrintFailed, now), since);
    OnwardTrans(db, mid, ApplyWith(mid, Update(s.id, s.state, PrintFailed, now), fault), since);
  }

  lemma {:induction false} SweptIsOnward(db: Db, batch: seq<Stale>, n: nat, meanwhile: nat -> seq<Action>,
      faults: nat -> Fault, clock: nat -> int, since: int)
    requires n <= |batch| && forall i: nat :: InsertsFrom(meanwhile(i), since)
    ensures Onward(db, Swept(db, batch, n, meanwhile, faults, clock), since)
  {
    if n > 0 {
      var before := Swept(db, batch, n - 1, meanwhile, faults, clock);
      SweptIsOnward(db, batch, n - 1, meanwhile, faults, clock, since);
      FaultyStepIsOnward(before, meanwhile(n), batch[n - 1], clock(n - 1), faults(n - 1), since);
      OnwardTrans(db, before, Swept(db, batch, n, meanwhile, faults, clock), since);
    }
  }

  lemma SweptKeepsRow(db: Db, batch: seq<Stale>, n: nat, meanwhile: nat -> seq<Action>,
      faults: nat -> Fault, clock: nat -> int, since: int)
    requires n < |batch| && ReadFrom(db, batch) && forall i: nat :: InsertsFrom(meanwhile(i), since)
    ensures var db' := Swept(db, batch, n, meanwhile, faults, clock); var s := batch[n];
      s.state in OPEN && s.id in db'.jobs && Rank(db'.jobs[s.id].state) <= Rank(s.state)
  {
    SweptIsOnward(db, batch, n, meanwhile, faults, clock, since);
  }

  lemma FaultlessStepProgresses(db: Db, acts: seq<Action>, s: Stale, now: int, since: int)
    requires InsertsFrom(acts, since)
    requires s.state in OPEN && s.id in db.jobs && Rank(db.jobs[s.id].state) <= Rank(s.state)
    ensures Progressed(ApplyWith(ApplyAll(db, acts), Update(s.id, s.state, PrintFailed, now), NoFault), s)
  {
    RunIsOnward(db, acts, since);
    UpdateProgresses(ApplyAll(db, acts), s, now);
  }

  predicate FirstProgressed(db: Db, batch: seq<Stale>, n: nat)
    requires n <= |batch|
  {
    forall i | 0 <= i < n :: Progressed(db, batch[i])
  }

  lemma OneMoreProgresses(db: Db, acts: seq<Action>, batch: seq<Stale>, n: nat, now: int, since: int)
    requires InsertsFrom(acts, since) && n < |batch| && FirstProgressed(db, batch, n)
    requires batch[n].state in OPEN && batch[n].id in db.jobs
    requires Rank(db.jobs[batch[n].id].state) <= Rank(batch[n].state)
    ensures var a := Update(batch[n].id, batch[n].state, PrintFailed, now);
      FirstProgressed(ApplyWith(ApplyAll(db, acts), a, NoFault), batch, n + 1)
  {
    FaultlessStepProgresses(db, acts, batch[n], now, since);
    FaultyStepIsOnward(db, acts, batch[n], now, NoFault, since);
  }

  lemma {:induction false} SweptProgresses(db: Db, batch: seq<Stale>, n: nat, meanwhile: nat -> seq<Action>,
      faults: nat -> Fault, clock: nat -> int, since: int)
    requires n <= |batch| && ReadFrom(db, batch) && forall i: nat :: InsertsFrom(meanwhile(i), since)
    requires forall i: nat :: faults(i) == NoFault
    ensures FirstProgressed(Swept(db, batch, n, meanwhile, faults, clock), batch, n)
  {
    if n > 0 {
      SweptProgresses(db, batch, n - 1, meanwhile, faults, clock, since);
      SweptKeepsRow(db, batch, n - 1, meanwhile, faults, clock, since);
      var before := Swept(db, batch, n - 1, meanwhile, faults, clock);
      OneMoreProgresses(before, meanwhile(n), batch, n - 1, clock(n - 1), since);
    }
  }

  lemma PassProgress(p: PassRecord, limit: nat, meanwhile: nat -> seq<Action>, faults: nat -> Fault,
      clock: nat -> int, since: int)
    requires forall i: nat :: InsertsFrom(meanwhile(i), since)
    requires p.snapshot == ApplyAll(p.before, meanwhile(0))
    requires IsStaleBatch(p.snapshot, OPEN, p.cutoff, limit, p.batch) && ReadFrom(p.snapshot, p.batch)
    requires p.after == Swept(p.snapshot, p.batch, |p.batch|, meanwhile, faults, clock)
    ensures Onward(p.before, p.after, since)
    ensures (forall i: nat :: faults(i) == NoFault) && since <= p.cutoff ==> PassOk(p, limit, since)
  {
    RunIsOnward(p.before, meanwhile(0), since);
    SweptIsOnward(p.snapshot, p.batch, |p.batch|, meanwhile, faults, clock, since);
    OnwardTrans(p.before, p.snapshot, p.after, since);
    if forall i: nat :: faults(i) == NoFault {
      SweptProgresses(p.snapshot, p.batch, |p.batch|, meanwhile, faults, clock, since);
    }
  }

  lemma BatchIsRead(db: Db, cutoff: int, limit: nat, batch: seq<Stale>)
    requires IsStaleBatch(db, OPEN, cutoff, limit, batch)
    ensures ReadFrom(db, batch)
  {
  }

  lemma PassRecorded(p: PassRecord, limit: nat, meanwhile: nat -> seq<Action>, faults: nat -> Fault,
      clock: nat -> int, since: int)
    requires forall i: nat :: InsertsFrom(meanwhile(i), since)
    requires p.snapshot == ApplyAll(p.before, meanwhile(0))
    requires IsStaleBatch(p.snapshot, OPEN, p.cutoff, limit, p.batch) && ReadFrom(p.snapshot, p.batch)
    requires p.after == Swept(p.snapshot, p.batch, |p.batch|, meanwhile, faults, clock)
    ensures (forall i: nat :: meanwhile(i) == [] && faults(i) == NoFault) ==>
      FailsItsBatch(p.snapshot, p.after, p.batch, clock)
    ensures OthersSucceed(p.snapshot, p.after, |p.batch|, meanwhile)
    ensures Onward(p.before, p.after, since)
    ensures (forall i: nat :: faults(i) == NoFault) && since <= p.cutoff ==> PassOk(p, limit, since)
  {
    PassEffects(p.snapshot, p.batch, meanwhile, faults, clock);
    PassProgress(p, limit, meanwhile, faults, clock, since);
  }

  lemma NoPassRecorded(p: PassRecord, meanwhile: nat -> seq<Action>, faults: nat -> Fault, clock: nat -> int,
      since: int)
    requires InsertsFrom(meanwhile(0), since)
    requires p.snapshot == p.after == ApplyAll(p.before, meanwhile(0)) && p.batch == []
    ensures ReadFrom(p.snapshot, p.batch)
    ensures FailsItsBatch(p.snapshot, p.after, p.batch, clock)
    ensures OthersSucceed(p.snapshot, p.after, |p.batch|, meanwhile)
    ensures Onward(p.before, p.after, since)
    ensures p.after == Swept(p.snapshot, p.batch, |p.batch|, meanwhile, faults, clock)
  {
    RunIsOnward(p.before, meanwhile(0), since);
  }

  class Sweeper {
    const ageBound: int
    const batchLimit: nat

    constructor (ageBound: int, batchLimit: nat)
      ensures this.ageBound == ageBound && this.batchLimit == batchLimit
    {
      this.ageBound, this.batchLimit := ageBound, batchLimit;
    }

    // One iteration of the pass; every answer but success is only logged.
    method Resolve(store: Store, s: Stale, acts: seq<Action>, fault: Fault, now: int, ghost since: int)
      returns (reply: Reply)
      requires InsertsFrom(acts, since)
      requires s.state in OPEN && s.id in store.jobs && Rank(store.jobs[s.id].state) <= Rank(s.state)
      modifies store
      ensures store.Tables() ==
        ApplyWith(old(ApplyAll(store.Tables(), acts)), Update(s.id, s.state, PrintFailed, now), fault)
      ensures reply == Done ==> InState(store.Tables(), s.id, PrintFailed)
      ensures Onward(old(store.Tables()), store.Tables(), since)
      ensures fault == NoFault ==> Progressed(store.Tables(), s) && reply in [Done, UnexpectedState]
    {
      ghost var start := store.Tables();
      RunIsOnward(start, acts, since);
      store.Meanwhile(acts);
      ghost var mid := store.Tables();
      assert Later(start.jobs[s.id], mid.jobs[s.id]);
      reply := store.UpdateJobState(s.id, s.state, PrintFailed, now, fault);
      UpdateProgresses(mid, s, now);
      StepIsOnward(mid, Update(s.id, s.state, PrintFailed, now), since);
      OnwardTrans(start, mid, store.Tables(), since);
    }

    // The loop of the pass over its snapshot.
    method ResolveAll(store: Store, stale: seq<Stale>, meanwhile: nat -> seq<Action>, faults: nat -> Fault,
        clock: nat -> int, ghost since: int)
      requires forall i: nat :: InsertsFrom(meanwhile(i), since)
      requires ReadFrom(store.Tables(), stale)
      modifies store
      ensures store.Tables() == Swept(old(store.Tables()), stale, |stale|, meanwhile, faults, clock)
    {
      ghost var snapshot := store.Tables();
      for i := 0 to |stale|
        invariant store.Tables() == Swept(snapshot, stale, i, meanwhile, faults, clock)
      {
        SweptKeepsRow(snapshot, stale, i, meanwhile, faults, clock, since);
        var reply := Resolve(store, stale[i], meanwhile(i + 1), faults(i), clock(i), since);
      }
    }

    /** One pass at time `now`; other actors commit meanwhile(0) before the snapshot and meanwhile(i + 1)
        before the i-th update, which runs at clock(i). */
    method Pass(store: Store, now: int, snapshotFails: bool, meanwhile: nat -> seq<Action>,
        faults: nat -> Fault, clock: nat -> int, ghost since: int)
      returns (ghost p: PassRecord)
      requires forall i: nat :: InsertsFrom(meanwhile(i), since)
      modifies store
      ensures p.before == old(store.Tables()) && p.after == store.Tables() && p.cutoff == now - ageBound
      ensures p.snapshot == ApplyAll(p.before, meanwhile(0))
      ensures snapshotFails ==> p.batch == []
      ensures !snapshotFails ==> IsStaleBatch(p.snapshot, OPEN, p.cutoff, batchLimit, p.batch)
      // Update by update, and hence: alone and without faults it fails its batch and leaves the rest as it was;
      // among others it is never the pass that makes a job succeed.
      ensures p.after == Swept(p.snapshot, p.batch, |p.batch|, meanwhile, faults, clock)
      ensures ReadFrom(p.snapshot, p.batch)
      ensures (forall i: nat :: meanwhile(i) == [] && faults(i) == NoFault) ==>
        FailsItsBatch(p.snapshot, p.after, p.batch, clock)
      ensures OthersSucceed(p.snapshot, p.after, |p.batch|, meanwhile)
      // It is a pass in the sense of the draining lemmas.
      ensures Onward(p.before, p.after, since)
      ensures
        (!snapshotFails && (forall i: nat :: faults(i) == NoFault) && since <= now - ageBound)
        ==> PassOk(p, batchLimit, since)
    {
      ghost var before := store.Tables();
      store.Meanwhile(meanwhile(0));
      ghost var snapshot := store.Tables();
      if snapshotFails {
        p := Record(before, snapshot, [], store.Tables(), now - ageBound);
        NoPassRecorded(p, meanwhile, faults, clock, since);
        return;
      }
      var stale := store.StaleJobs(OPEN, now - ageBound, batchLimit);
      BatchIsRead(snapshot, now - ageBound, batchLimit, stale);
      ResolveAll(store, stale, meanwhile, faults, clock, since);
      p := Record(before, snapshot, stale, store.Tables(), now - ageBound);
      PassRecorded(p, batchLimit, meanwhile, faults, clock, since);
    }
  }

  // ---- Draining ----

  // The ranks of all jobs submitted before `since`.
  ghost function Ranks(db: Db, since: int): map<int, int> {
    map id | id in db.jobs && db.jobs[id].submitted < since :: Rank(db.jobs[id].state)
  }

  ghost function RankSum(db: Db, since: int): int { Sum(Ranks(db, since)) }

  // Those of them that are still open.
  ghost function Pending(db: Db, since: int): set<int> {
    set id | id in db.jobs && db.jobs[id].submitted < since && db.jobs[id].state in OPEN
  }

  ghost function Min(a: nat, b: nat): nat { if a <= b then a else b }

  // The pending jobs that lost rank between two states of the tables.
  ghost function Fallen(db: Db, db': Db, since: int): set<int>
    requires Onward(db, db', since)
  {
    set id | id in Pending(db, since) && Rank(db'.jobs[id].state) < Rank(db.jobs[id].state)
  }

  lemma OnwardRanks(db: Db, db': Db, since: int)
    requires Onward(db, db', since)
    ensures RankSum(db', since) <= RankSum(db, since) - |Fallen(db, db', since)|
    ensures Pending(db', since) <= Pending(db, since)
  {
    var ranks, ranks' := Ranks(db, since), Ranks(db', since);
    forall id
      ensures id in ranks <==> id in ranks'
    {
      if id in ranks { assert id in db'.jobs; }
    }
    assert forall id | id in db.jobs :: Later(db.jobs[id], db'.jobs[id]);
    assert ranks.Keys == ranks'.Keys;
    SumFalls(ranks, ranks', Fallen(db, db', since));
    forall id | id in Pending(db', since)
      ensures id in Pending(db, since)
    {
      assert id in db.jobs && Later(db.jobs[id], db'.jobs[id]);
    }
  }

  lemma {:induction false} IdsCount(batch: seq<Stale>)
    requires forall i, j | 0 <= i < j < |batch| :: batch[i].id != batch[j].id
    ensures |Ids(batch)| == |batch|
  {
    if batch != [] {
      var front, last := batch[..|batch| - 1], batch[|batch| - 1];
      IdsCount(front);
      IdsAppend(front, last);
      assert batch == front + [last];
      assert last.id !in Ids(front);
    }
  }

  /** A pass moves every pending job, or else as many as its batch holds. */
  lemma PassFells(p: PassRecord, limit: nat, since: int)
    requires PassOk(p, limit, since)
    ensures Onward(p.before, p.after, since)
    ensures var fallen := Fallen(p.before, p.after, since);
      fallen == Pending(p.before, since) || |fallen| >= limit
  {
    OnwardTrans(p.before, p.snapshot, p.after, since);
    var pending, fallen := Pending(p.before, since), Fallen(p.before, p.after, since);
    if |fallen| < limit {
      forall id | id in pending
        ensures id in fallen
      {
        if id !in fallen {
          SurvivorFillsBatch(p, limit, since, id);
          SetSizes(Ids(p.batch), fallen);
          IdsCount(p.batch);
          assert false;
        }
      }
    }
  }

  lemma SetSizes(a: set<int>, b: set<int>)
    requires a <= b
    ensures |a| <= |b|
  {
    assert b == a + (b - a);
  }

  lemma SurvivorFillsBatch(p: PassRecord, limit: nat, since: int, id: int)
    requires PassOk(p, limit, since) && Onward(p.before, p.after, since)
    requires id in Pending(p.before, since) && id !in Fallen(p.before, p.after, since)
    ensures |p.batch| == limit
    ensures Ids(p.batch) <= Fallen(p.before, p.after, since)
  {
  }

  /** Each error-free pass lowers the rank sum of the N pending jobs by at least min(limit, N),
      whatever the deliverers do meanwhile. */
  lemma PassLowersRanks(p: PassRecord, limit: nat, since: int)
    requires PassOk(p, limit, since)
    ensures RankSum(p.after, since) <= RankSum(p.before, since) - Min(limit, |Pending(p.before, since)|)
    ensures Pending(p.after, since) <= Pending(p.before, since)
  {
    PassFells(p, limit, since);
    OnwardRanks(p.before, p.after, since);
  }

  lemma {:induction false} RankSumBounds(db: Db, since: int)
    ensures |Pending(db, since)| <= RankSum(db, since) <= 2 * |Pending(db, since)|
  {
    var ranks, pending := Ranks(db, since), Pending(db, since);
    assert forall id | id in ranks :: ranks[id] in {0, 1, 2} && (id in pending <==> ranks[id] > 0);
    PositiveEntries(ranks, pending);
  }

  lemma {:induction false} PositiveEntries(m: map<int, int>, positive: set<int>)
    requires positive <= m.Keys
    requires forall k | k in m :: 0 <= m[k] <= 2 && (k in positive <==> m[k] > 0)
    ensures |positive| <= Sum(m) <= 2 * |positive|
    decreases |m|
  {
    if m == map[] {
      assert positive <= {};
    } else {
      assert m.Keys != {};
      SomeMember(m.Keys);
      var k :| k in m.Keys;
      SumSplit(m, k);
      PositiveEntries(m - {k}, positive - {k});
      assert k in positive ==> |positive - {k}| == |positive| - 1;
      assert k !in positive ==> positive - {k} == positive;
    }
  }

  // A sequence of error-free passes, with any quiet intervals between them.
  ghost predicate Passes(ps: seq<PassRecord>, limit: nat, since: int) {
    && (forall i | 0 <= i < |ps| :: PassOk(ps[i], limit, since))
    && (forall i | 0 < i < |ps| :: Onward(ps[i - 1].after, ps[i].before, since))
  }

  /** With no further insert before `since`, as many passes as the rank sum drain every pending job,
      even if every deliverer has crashed. */
  lemma {:induction false} SweepDrains(ps: seq<PassRecord>, limit: nat, since: int)
    requires limit >= 1 && ps != [] && Passes(ps, limit, since)
    requires |ps| >= RankSum(ps[0].before, since)
    ensures Pending(ps[|ps| - 1].after, since) == {}
    decreases |ps|
  {
    PassLowersRanks(ps[0], limit, since);
    RankSumBounds(ps[0].before, since);
    RankSumBounds(ps[0].after, since);
    if |ps| == 1 {
      assert RankSum(ps[0].after, since) == 0;
    } else {
      OnwardRanks(ps[0].after, ps[1].before, since);
      RankSumBounds(ps[1].before, since);
      PassesFrom(ps, 1, limit, since);
      if Pending(ps[0].before, since) == {} {
        assert RankSum(ps[1].before, since) == 0;
      }
      SweepDrains(ps[1..], limit, since);
    }
  }

  /** Twice as many passes as there are pending jobs are enough. */
  lemma DrainedInTwicePending(ps: seq<PassRecord>, limit: nat, since: int)
    requires limit >= 1 && ps != [] && Passes(ps, limit, since)
    requires |ps| >= 2 * |Pending(ps[0].before, since)|
    ensures Pending(ps[|ps| - 1].after, since) == {}
  {
    RankSumBounds(ps[0].before, since);
    SweepDrains(ps, limit, since);
  }

  // Fewer pending jobs than a batch holds, none of which has more than `r` steps left.
  ghost predicate Backlog(db: Db, since: int, limit: nat, r: nat) {
    |Pending(db, since)| < limit && forall id | id in Pending(db, since) :: Rank(db.jobs[id].state) <= r
  }

  /** Once a batch holds more than the pending jobs, every one of them loses rank in each pass. */
  lemma BacklogFalls(p: PassRecord, limit: nat, since: int, r: nat)
    requires PassOk(p, limit, since) && Backlog(p.before, since, limit, r + 1)
    ensures Backlog(p.after, since, limit, r)
  {
    PassFells(p, limit, since);
    OnwardRanks(p.before, p.after, since);
    SetSizes(Fallen(p.before, p.after, since), Pending(p.before, since));
    SetSizes(Pending(p.after, since), Pending(p.before, since));
  }

  lemma BacklogStays(db: Db, db': Db, since: int, limit: nat, r: nat)
    requires Onward(db, db', since) && Backlog(db, since, limit, r)
    ensures Backlog(db', since, limit, r)
  {
    OnwardRanks(db, db', since);
    SetSizes(Pending(db', since), Pending(db, since));
  }

  lemma NoBacklog(db: Db, since: int, limit: nat)
    requires Backlog(db, since, limit, 0)
    ensures Pending(db, since) == {}
  {
    if Pending(db, since) != {} {
      SomeMember(Pending(db, since));
      assert false;
    }
  }

  lemma {:induction false} StaysDrained(ps: seq<PassRecord>, limit: nat, since: int)
    requires ps != [] && Passes(ps, limit, since) && Pending(ps[0].before, since) == {}
    ensures Pending(ps[|ps| - 1].after, since) == {}
    decreases |ps|
  {
    PassLowersRanks(ps[0], limit, since);
    if |ps| > 1 {
      OnwardRanks(ps[0].after, ps[1].before, since);
      PassesFrom(ps, 1, limit, since);
      StaysDrained(ps[1..], limit, since);
    }
  }

  lemma TwoPassesDrain(p: PassRecord, q: PassRecord, limit: nat, since: int)
    requires PassOk(p, limit, since) && PassOk(q, limit, since) && Onward(p.after, q.before, since)
    requires Backlog(p.before, since, limit, 2)
    ensures Pending(q.after, since) == {}
  {
    BacklogFalls(p, limit, since, 1);
    BacklogStays(p.after, q.before, since, limit, 1);
    BacklogFalls(q, limit, since, 0);
    NoBacklog(q.after, since, limit);
  }

  lemma SmallBacklogDrains(ps: seq<PassRecord>, limit: nat, since: int)
    requires |ps| >= 2 && Passes(ps, limit, since) && |Pending(ps[0].before, since)| < limit
    ensures Pending(ps[|ps| - 1].after, since) == {}
  {
    assert Backlog(ps[0].before, since, limit, 2);
    TwoPassesDrain(ps[0], ps[1], limit, since);
    if |ps| > 2 {
      OnwardRanks(ps[1].after, ps[2].before, since);
      PassesFrom(ps, 2, limit, since);
      StaysDrained(ps[2..], limit, since);
    }
  }

  lemma PassesFrom(ps: seq<PassRecord>, k: nat, limit: nat, since: int)
    requires Passes(ps, limit, since) && k < |ps|
    ensures Passes(ps[k..], limit, since)
  {
  }

  lemma OneBatchLess(n: int, limit: int)
    ensures (n - 1) * limit == n * limit - limit
  {
  }

  lemma OneBatch(n: int, limit: int)
    ensures n == 1 ==> n * limit == limit
  {
  }

  /** The number of passes needed is that of full batches in the rank sum, plus two. */
  lemma {:induction false} SweepDrainsInBatches(ps: seq<PassRecord>, limit: nat, since: int)
    requires limit >= 1 && ps != [] && Passes(ps, limit, since)
    requires |ps| * limit > RankSum(ps[0].before, since) + limit
    ensures Pending(ps[|ps| - 1].after, since) == {}
    decreases |ps|
  {
    RankSumBounds(ps[0].before, since);
    OneBatch(|ps|, limit);
    if |Pending(ps[0].before, since)| < limit {
      SmallBacklogDrains(ps, limit, since);
    } else {
      PassLowersRanks(ps[0], limit, since);
      OnwardRanks(ps[0].after, ps[1].before, since);
      PassesFrom(ps, 1, limit, since);
      OneBatchLess(|ps|, limit);
      SweepDrainsInBatches(ps[1..], limit, since);
    }
  }
}
