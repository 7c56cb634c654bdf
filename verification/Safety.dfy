/** What every step of every actor keeps. */
module Safety {
  import opened Jobs
  import opened Tables
  import opened Stores
  import opened Protocol
  import Delivery
  import Provisioning

  // ---- The lock, the identity column, and the quota ----

  ghost predicate LockInv(w: World) {
    && (forall u | u in w.locks ::
      w.locks[u] in w.subs && Holding(w.subs[w.locks[u]]) && w.subs[w.locks[u]].draft.user == u)
    && (forall sid | sid in w.subs && Holding(w.subs[sid]) ::
      var u := w.subs[sid].draft.user; u in w.locks && w.locks[u] == sid && u in w.db.users)
  }

  ghost predicate IdInv(w: World) {
    && (forall id | id in w.db.jobs :: id < w.nextId)
    && (forall sid | sid in w.subs && w.subs[sid].Inserted? ::
      w.subs[sid].id < w.nextId && w.subs[sid].id !in w.db.jobs)
    && (forall a, b | a in w.subs && b in w.subs && w.subs[a].Inserted? && w.subs[b].Inserted? && a != b ::
      w.subs[a].id != w.subs[b].id)
  }

  // The row a transaction has inserted is the one its check called for.
  predicate RowMatches(s: Sub, now: int)
    requires s.Inserted?
  {
    && RowChecks(s.draft)
    && s.row.submitted <= now
    && s.row ==
       RowFor(s.draft, if s.remaining < s.draft.cost then QuotaInsufficient else QuotaDeducted, s.row.submitted)
  }

  // The balance a transaction has read is still a lower bound.
  ghost predicate ReadHolds(db: Db, s: Sub, now: int) {
    && (s.Begun? || s.Locked? || s.Checked? ==> s.start <= now)
    && (s.Checked? || s.Inserted? ==> s.remaining <= Remaining(db, s.draft.user))
    && (s.Inserted? ==> RowMatches(s, now))
  }

  ghost predicate QuotaInv(w: World) {
    && RowsChecked(w.db)
    && (forall u: string :: Remaining(w.db, u) >= 0)
    && (forall sid | sid in w.subs :: ReadHolds(w.db, w.subs[sid], w.now))
  }

  // ---- What a step leaves alone ----

  predicate SameSubs(w: World, w': World) {
    w'.locks == w.locks && w'.subs == w.subs && w'.nextId == w.nextId
  }

  predicate SameDels(w: World, w': World) {
    w'.dels == w.dels && w'.chosen == w.chosen && w'.printed == w.printed && w'.entered == w.entered
  }

  predicate IsCommit(e: Event) { e.Submit? && e.sm.Commit? }

  lemma Frames(c: Config, w: World, e: Event)
    requires Enabled(c, w, e)
    ensures var w' := Step(c, w, e);
      && w'.db == Apply(w.db, Effect(c, w, e))
      && w'.now == w.now + (if e.Tick? then e.elapsed else 0)
      && (!e.Submit? ==> SameSubs(w, w'))
      && (!e.Deliver? && !IsCommit(e) ==> SameDels(w, w'))
      && (!e.Sweeping? ==> w'.sweeps == w.sweeps)
      && (!e.Provision? && !e.StartProvision? ==> w'.provs == w.provs && w'.founders == w.founders)
    ensures Effect(c, w, e).AddJob? <==> IsCommit(e)
    ensures e.Submit? && !IsCommit(e) ==> Effect(c, w, e) == Skip
  {
  }

  lemma TablesGrow(db: Db, a: Action)
    ensures db.users <= Apply(db, a).users
    ensures Apply(db, a).jobs.Keys == if a.AddJob? && Fires(db, a) then db.jobs.Keys + {a.id} else db.jobs.Keys
  {
  }

  lemma LockFrame(w: World, w': World)
    requires LockInv(w) && SameSubs(w, w') && w.db.users <= w'.db.users
    ensures LockInv(w')
  {
  }

  lemma LockSub(w: World, sid: int, m: SubMove, db': Db)
    requires LockInv(w) && CanSubmit(w, sid, m) && w.db.users <= db'.users
    ensures LockInv(SubStep(w, sid, m).(db := db'))
  {
  }

  lemma LockStep(c: Config, w: World, e: Event)
    requires LockInv(w) && Enabled(c, w, e)
    ensures LockInv(Step(c, w, e))
  {
    Frames(c, w, e);
    TablesGrow(w.db, Effect(c, w, e));
    if e.Submit? { LockSub(w, e.sid, e.sm, Step(c, w, e).db); } else { LockFrame(w, Step(c, w, e)); }
  }

  lemma IdFrame(w: World, w': World)
    requires IdInv(w) && SameSubs(w, w') && w'.db.jobs.Keys == w.db.jobs.Keys
    ensures IdInv(w')
  {
  }

  lemma IdSub(w: World, sid: int, m: SubMove, db': Db)
    requires IdInv(w) && CanSubmit(w, sid, m)
    requires db'.jobs.Keys <= w.db.jobs.Keys + if m.Commit? then {w.subs[sid].id} else {}
    ensures IdInv(SubStep(w, sid, m).(db := db'))
  {
  }

  lemma IdStep(c: Config, w: World, e: Event)
    requires IdInv(w) && Enabled(c, w, e)
    ensures IdInv(Step(c, w, e))
  {
    Frames(c, w, e);
    TablesGrow(w.db, Effect(c, w, e));
    if e.Submit? { IdSub(w, e.sid, e.sm, Step(c, w, e).db); } else { IdFrame(w, Step(c, w, e)); }
  }

  lemma CommitFires(w: World, sid: int)
    requires LockInv(w) && IdInv(w) && QuotaInv(w) && sid in w.subs && w.subs[sid].Inserted?
    ensures var s := w.subs[sid];
      && Fires(w.db, AddJob(s.id, s.row))
      && s.row.user == s.draft.user && s.row.cost == s.draft.cost && s.row.submitted <= w.now
      && (s.row.state == QuotaDeducted ==> s.row.cost <= Remaining(w.db, s.row.user))
  {
  }

  lemma BalancesStay(c: Config, w: World, e: Event, u: string)
    requires LockInv(w) && IdInv(w) && QuotaInv(w) && Enabled(c, w, e)
    ensures var db' := Apply(w.db, Effect(c, w, e));
      && RowsChecked(db')
      && Remaining(db', u) >= 0
      && (Remaining(db', u) >= Remaining(w.db, u) || (IsCommit(e) && w.subs[e.sid].draft.user == u))
  {
    var a := Effect(c, w, e);
    Frames(c, w, e);
    BalanceFallsOnlyByAccept(w.db, a, u);
    assert Remaining(w.db, u) >= 0;
    if IsCommit(e) {
      CommitFires(w, e.sid);
      RemainingAfter(w.db, a, u);
    }
  }

  lemma ReadFrame(db: Db, db': Db, s: Sub, now: int, later: int)
    requires ReadHolds(db, s, now) && now <= later
    requires s.Checked? || s.Inserted? ==> Remaining(db', s.draft.user) >= Remaining(db, s.draft.user)
    ensures ReadHolds(db', s, later)
  {
  }

  lemma ReadSub(w: World, sid: int, m: SubMove, db': Db)
    requires CanSubmit(w, sid, m) && (sid in w.subs ==> ReadHolds(w.db, w.subs[sid], w.now))
    requires !m.Commit? ==> db' == w.db
    ensures sid in SubStep(w, sid, m).subs && ReadHolds(db', SubStep(w, sid, m).subs[sid], w.now)
  {
  }

  lemma SubsFrame(w: World, sid: int, m: SubMove, other: int)
    requires CanSubmit(w, sid, m) && other != sid
    ensures var w' := SubStep(w, sid, m);
      && w'.now == w.now
      && (other in w'.subs <==> other in w.subs)
      && (other in w.subs ==> w'.subs[other] == w.subs[other])
  {
  }

  // Two open transactions past their lock belong to different users.
  lemma LocksExclude(w: World, a: int, b: int)
    requires LockInv(w) && a in w.subs && b in w.subs && Holding(w.subs[a]) && Holding(w.subs[b]) && a != b
    ensures w.subs[a].draft.user != w.subs[b].draft.user
  {
  }

  lemma ReadStep(c: Config, w: World, e: Event, sid: int)
    requires LockInv(w) && IdInv(w) && QuotaInv(w) && Enabled(c, w, e)
    requires sid in Step(c, w, e).subs
    ensures ReadHolds(Step(c, w, e).db, Step(c, w, e).subs[sid], Step(c, w, e).now)
  {
    Frames(c, w, e);
    var w' := Step(c, w, e);
    if e.Submit? && e.sid == sid {
      ReadSub(w, sid, e.sm, w'.db);
    } else {
      if e.Submit? { SubsFrame(w, e.sid, e.sm, sid); }
      var s := w.subs[sid];
      assert ReadHolds(w.db, s, w.now);
      if s.Checked? || s.Inserted? {
        BalancesStay(c, w, e, s.draft.user);
        if IsCommit(e) { LocksExclude(w, e.sid, sid); }
      }
      ReadFrame(w.db, w'.db, s, w.now, w'.now);
    }
  }

  lemma QuotaStep(c: Config, w: World, e: Event)
    requires LockInv(w) && IdInv(w) && QuotaInv(w) && Enabled(c, w, e)
    ensures QuotaInv(Step(c, w, e))
  {
    var w' := Step(c, w, e);
    Frames(c, w, e);
    BalancesStay(c, w, e, "");
    forall u: string
      ensures Remaining(w'.db, u) >= 0
    {
      BalancesStay(c, w, e, u);
    }
    forall sid | sid in w'.subs
      ensures ReadHolds(w'.db, w'.subs[sid], w'.now)
    {
      ReadStep(c, w, e, sid);
    }
  }

  // ---- Row consistency ----

  lemma RowsLater(db: Db, now: int, later: int)
    requires RowsConsistent(db, now) && now <= later
    ensures RowsConsistent(db, later)
  {
  }

  lemma RowStep(c: Config, w: World, e: Event)
    requires LockInv(w) && IdInv(w) && QuotaInv(w) && RowsConsistent(w.db, w.now) && Enabled(c, w, e)
    ensures RowsConsistent(Step(c, w, e).db, Step(c, w, e).now)
  {
    Frames(c, w, e);
    if IsCommit(e) { CommitFires(w, e.sid); }
    StepKeepsRows(w.db, Effect(c, w, e), w.now);
    RowsLater(Apply(w.db, Effect(c, w, e)), w.now, Step(c, w, e).now);
  }

  // ---- Grants ----

  // What a running provisioner holds agrees with the semester on record.
  ghost predicate AmountHolds(w: World, pc: Provisioning.Pc) {
    pc.Granting? ==> pc.code in w.db.semesters && pc.amount == w.db.semesters[pc.code].quota
  }

  /** Every grant is its semester's quota on record, and that is what the provisioner that first
      inserted the semester computed from its own default. */
  ghost predicate GrantInv(w: World) {
    && (forall k | k in w.db.grants ::
      k.1 in w.db.semesters && w.db.grants[k] == w.db.semesters[k.1].quota >= 0)
    && (forall s | s in w.db.semesters ::
      s in w.founders && w.db.semesters[s] == Provisioning.SemesterRow(s, w.founders[s]))
    && (forall p | p in w.provs :: AmountHolds(w, w.provs[p]))
  }

  lemma SemestersStay(db: Db, a: Action, s: int)
    requires s in db.semesters
    ensures s in Apply(db, a).semesters && Apply(db, a).semesters[s] == db.semesters[s]
  {
  }

  lemma GrantFrame(w: World, w': World)
    requires GrantInv(w) && w'.provs == w.provs && w'.founders == w.founders
    requires w'.db.semesters == w.db.semesters && w'.db.grants == w.db.grants
    ensures GrantInv(w')
  {
  }

  lemma GrantProv(w: World, p: int, m: Provisioning.Move, db': Db)
    requires GrantInv(w) && p in w.provs && Provisioning.CanMove(w.provs[p], m)
    requires db' == Apply(w.db, Provisioning.Statement(w.provs[p], m))
    ensures GrantInv(ProvStep(w, p, m).(db := db'))
  {
    var w', pc := ProvStep(w, p, m).(db := db'), w.provs[p];
    assert AmountHolds(w, pc);
    forall q | q in w'.provs
      ensures AmountHolds(w', w'.provs[q])
    {
      if q != p {
        assert AmountHolds(w, w.provs[q]);
        if w.provs[q].Granting? { SemestersStay(w.db, Provisioning.Statement(pc, m), w.provs[q].code); }
      }
    }
  }

  lemma NoGrants(c: Config, w: World, e: Event)
    requires Enabled(c, w, e) && !e.Provision?
    ensures Step(c, w, e).db.semesters == w.db.semesters && Step(c, w, e).db.grants == w.db.grants
  {
  }

  lemma GrantStart(w: World, p: int, user: string, codes: set<int>, d: int)
    requires GrantInv(w)
    ensures GrantInv(w.(provs := w.provs[p := Provisioning.Starting(user, codes, d)]))
  {
  }

  lemma GrantStep(c: Config, w: World, e: Event)
    requires GrantInv(w) && Enabled(c, w, e)
    ensures GrantInv(Step(c, w, e))
  {
    Frames(c, w, e);
    if e.Provision? {
      GrantProv(w, e.p, e.pm, Step(c, w, e).db);
    } else if e.StartProvision? {
      GrantStart(w, e.p, e.user, e.codes, e.defaultQuota);
    } else {
      NoGrants(c, w, e);
      GrantFrame(w, Step(c, w, e));
    }
  }

  // ---- Deliverers, sweepers, and the states of their jobs ----

  // What the control point of a deliverer says about the state of its job, and about its having been printed.
  predicate DelHolds(s: State, printed: bool, pc: Delivery.Pc) {
    match pc
    case Picking => s in [QuotaDeducted, PrintFailed] && !printed
    case Marking(_) => s in [QuotaDeducted, PrintFailed] && !printed
    case Sending(_) => s in [PrintSent, PrintFailed] && !printed
    case Waiting(_) => s in [PrintSent, PrintFailed] && !printed
    case Resolving(from, out) =>
      && from in [QuotaDeducted, PrintSent] && s in [from, PrintFailed]
      && (from == QuotaDeducted ==> out == Delivery.DeliveryFailed)
      && (out == Delivery.DeliverySucceeded <==> printed)
    case Returned(out, false) =>
      if out == Delivery.DeliverySucceeded then s in [PrintSucceeded, Refunded] && printed else s == PrintFailed
    case _ => true
  }

  ghost predicate DelInv(w: World) {
    && (forall id | id in w.dels :: id in w.db.jobs && DelHolds(w.db.jobs[id].state, id in w.printed, w.dels[id]))
    && (forall id | id in w.db.jobs && w.db.jobs[id].state in [PrintSucceeded, Refunded] :: id in w.printed)
    && (forall id | id in w.printed :: id in w.dels)
  }

  ghost predicate SweepInv(w: World) {
    forall k | k in w.sweeps :: forall i | 0 <= i < |w.sweeps[k]| ::
      w.sweeps[k][i].state in [QuotaDeducted, PrintSent] && w.sweeps[k][i].id in w.db.jobs
  }

  lemma SweepInvStep(c: Config, w: World, e: Event)
    requires SweepInv(w) && Enabled(c, w, e)
    ensures SweepInv(Step(c, w, e))
  {
  }

  // What a step of another actor may do to a job: nothing, fail it while it is open, or refund it.
  ghost predicate Foreign(j: Job, j': Job) {
    || j' == j
    || (j.state in [QuotaDeducted, PrintSent] && j'.state == PrintFailed && j'.dest == j.dest && j'.queue == j.queue)
    || (j.state == PrintSucceeded && j'.state == Refunded && j'.dest == j.dest && j'.queue == j.queue)
  }

  lemma OthersAreForeign(c: Config, w: World, e: Event, id: int)
    requires SweepInv(w) && Enabled(c, w, e) && id in w.db.jobs
    requires !(e.Deliver? && e.job == id)
    ensures var db' := Apply(w.db, Effect(c, w, e)); id in db'.jobs && Foreign(w.db.jobs[id], db'.jobs[id])
  {
  }

  // How the answer a deliverer gets fits the state of its job before and after.
  predicate Answered(pc: Delivery.Pc, o: Delivery.Obs, s: State, s': State) {
    match o
    case Marked(Done) => s == QuotaDeducted && s' == PrintSent
    case Marked(UnexpectedState) => s != QuotaDeducted && s' == s
    case Marked(_) => s' == s || (s == QuotaDeducted && s' == PrintSent)
    case Resolved(reply) =>
      pc.Resolving? && pc.from in [QuotaDeducted, PrintSent] &&
      if reply == Done then s == pc.from && s' == Delivery.Verdict(pc.out)
      else if reply == UnexpectedState then s != pc.from && s' == s
      else s' == s || (s == pc.from && s' == Delivery.Verdict(pc.out))
    case _ => s' == s
  }

  lemma OwnAnswered(c: Config, w: World, id: int, m: DelMove)
    requires CanDeliver(c, w, id, m)
    requires w.dels[id].Resolving? ==>
      && w.dels[id].from in [QuotaDeducted, PrintSent]
      && ValidTransition(w.dels[id].from, Delivery.Verdict(w.dels[id].out))
    ensures var db' := Apply(w.db, DelEffect(w, id, m));
      && id in db'.jobs && db'.jobs[id].queue == w.db.jobs[id].queue
      && Answered(w.dels[id], Observed(w, id, m), w.db.jobs[id].state, db'.jobs[id].state)
  {
  }

  lemma PcKeeps(pc: Delivery.Pc, o: Delivery.Obs, maxAttempts: int, s: State, s': State, printed: bool)
    requires DelHolds(s, printed, pc) && Delivery.Next(pc, o, maxAttempts).Some? && Answered(pc, o, s, s')
    requires s in [PrintSucceeded, Refunded] ==> printed
    ensures DelHolds(s', printed || o == Delivery.Sent(Delivery.SendOk), Delivery.Next(pc, o, maxAttempts).value)
    ensures s' in [PrintSucceeded, Refunded] ==> printed
  {
  }

  lemma OwnKeeps(c: Config, w: World, id: int, m: DelMove)
    requires CanDeliver(c, w, id, m)
    requires DelHolds(w.db.jobs[id].state, id in w.printed, w.dels[id])
    requires w.db.jobs[id].state in [PrintSucceeded, Refunded] ==> id in w.printed
    ensures
      var db' := Apply(w.db, DelEffect(w, id, m));
      var pc := Delivery.Next(w.dels[id], Observed(w, id, m), c.maxAttempts);
      && id in db'.jobs
      && DelHolds(db'.jobs[id].state, id in w.printed || m == Send(Delivery.SendOk), pc.value)
      && (db'.jobs[id].state in [PrintSucceeded, Refunded] ==> id in w.printed)
  {
    OwnAnswered(c, w, id, m);
    PcKeeps(w.dels[id], Observed(w, id, m), c.maxAttempts, w.db.jobs[id].state,
      Apply(w.db, DelEffect(w, id, m)).jobs[id].state, id in w.printed);
  }

  lemma DelFrame(c: Config, w: World, id: int, m: DelMove, other: int)
    requires CanDeliver(c, w, id, m) && other != id
    ensures var w' := DelStep(c, w, id, m);
      && (other in w'.dels <==> other in w.dels) && (other in w.dels ==> w'.dels[other] == w.dels[other])
      && (other in w'.printed <==> other in w.printed)
      && (other in w'.chosen <==> other in w.chosen) && (other in w.chosen ==> w'.chosen[other] == w.chosen[other])
  {
  }

  // One job's part of DelInv.
  ghost predicate JobHolds(w: World, id: int) {
    && (id in w.dels ==> id in w.db.jobs && DelHolds(w.db.jobs[id].state, id in w.printed, w.dels[id]))
    && (id in w.db.jobs && w.db.jobs[id].state in [PrintSucceeded, Refunded] ==> id in w.printed)
    && (id in w.printed ==> id in w.dels)
  }

  lemma JobByJob(w: World)
    ensures DelInv(w) <==> forall id: int :: JobHolds(w, id)
  {
    if DelInv(w) {
      forall id: int ensures JobHolds(w, id) { }
    } else if forall id: int :: JobHolds(w, id) {
      assert forall id | id in w.dels :: JobHolds(w, id);
      assert forall id | id in w.db.jobs :: JobHolds(w, id);
      assert forall id | id in w.printed :: JobHolds(w, id);
      assert false;
    }
  }

  lemma OtherJobHolds(w: World, w': World, id: int)
    requires JobHolds(w, id)
    requires id in w'.dels <==> id in w.dels
    requires id in w.dels ==> w'.dels[id] == w.dels[id]
    requires id in w'.printed <==> id in w.printed
    requires id in w'.db.jobs <==> id in w.db.jobs
    requires id in w.db.jobs ==> Foreign(w.db.jobs[id], w'.db.jobs[id])
    ensures JobHolds(w', id)
  {
  }

  lemma OwnJobHolds(c: Config, w: World, id: int, m: DelMove, db': Db)
    requires CanDeliver(c, w, id, m) && JobHolds(w, id) && db' == Apply(w.db, DelEffect(w, id, m))
    ensures JobHolds(DelStep(c, w, id, m).(db := db'), id)
  {
    OwnKeeps(c, w, id, m);
  }

  lemma CommitJobHolds(w: World, sid: int, lost: bool, db': Db, id: int)
    requires CanSubmit(w, sid, Commit(lost)) && JobHolds(w, id)
    requires w.subs[sid].id !in w.db.jobs && w.subs[sid].row.state in [QuotaDeducted, QuotaInsufficient]
    requires db' == w.db.(jobs := w.db.jobs[w.subs[sid].id := w.subs[sid].row])
    ensures JobHolds(SubStep(w, sid, Commit(lost)).(db := db'), id)
  {
  }

  lemma JobStep(c: Config, w: World, e: Event, id: int)
    requires LockInv(w) && IdInv(w) && QuotaInv(w) && SweepInv(w) && Enabled(c, w, e)
    requires JobHolds(w, id)
    ensures JobHolds(Step(c, w, e), id)
  {
    if IsCommit(e) {
      CommitFires(w, e.sid);
      CommitJobHolds(w, e.sid, e.sm.replyLost, Apply(w.db, Effect(c, w, e)), id);
    } else if e.Deliver? && e.job == id {
      OwnJobHolds(c, w, id, e.dm, Apply(w.db, Effect(c, w, e)));
    } else {
      QuietJobStep(c, w, e, id);
    }
  }

  lemma QuietJobStep(c: Config, w: World, e: Event, id: int)
    requires SweepInv(w) && Enabled(c, w, e) && !IsCommit(e) && !(e.Deliver? && e.job == id)
    requires JobHolds(w, id)
    ensures JobHolds(Step(c, w, e), id)
  {
    Frames(c, w, e);
    TablesGrow(w.db, Effect(c, w, e));
    if id in w.db.jobs { OthersAreForeign(c, w, e, id); }
    if e.Deliver? { DelFrame(c, w, e.job, e.dm, id); }
    OtherJobHolds(w, Step(c, w, e), id);
  }

  lemma DelStepInv(c: Config, w: World, e: Event)
    requires LockInv(w) && IdInv(w) && QuotaInv(w) && SweepInv(w) && DelInv(w) && Enabled(c, w, e)
    ensures DelInv(Step(c, w, e))
  {
    JobByJob(w);
    forall id ensures JobHolds(Step(c, w, e), id) { JobStep(c, w, e, id); }
    JobByJob(Step(c, w, e));
  }

  // ---- Destinations ----

  predicate GoodChoice(w: World, id: int, dest: int, queue: int) {
    id in w.chosen && w.chosen[id].id == dest && w.chosen[id].enabled && w.chosen[id].queue == queue
  }

  // A job that has been sent records the destination picked for it: one of its own queue, enabled when picked.
  ghost predicate DestHolds(w: World, id: int)
    requires id in w.db.jobs
  {
    var j := w.db.jobs[id];
    && (id in w.dels && w.dels[id].Marking? ==> GoodChoice(w, id, w.dels[id].dest, j.queue))
    && (j.state in [PrintSent, PrintSucceeded, Refunded] ==>
      j.dest.Some? && GoodChoice(w, id, j.dest.value, j.queue))
  }

  ghost predicate DestInv(w: World) {
    forall id | id in w.db.jobs :: DestHolds(w, id)
  }

  lemma PickDest(c: Config, w: World, id: int, dest: Option<int>)
    requires CanDeliver(c, w, id, Pick(dest)) && DestHolds(w, id)
    requires DelHolds(w.db.jobs[id].state, id in w.printed, w.dels[id])
    ensures DelEffect(w, id, Pick(dest)) == Skip
    ensures DestHolds(DelStep(c, w, id, Pick(dest)), id)
  {
  }

  lemma MarkDest(c: Config, w: World, id: int, fault: Fault, db': Db)
    requires CanDeliver(c, w, id, Mark(fault)) && DestHolds(w, id) && db' == Apply(w.db, DelEffect(w, id, Mark(fault)))
    ensures id in db'.jobs && DestHolds(DelStep(c, w, id, Mark(fault)).(db := db'), id)
  {
  }

  lemma ResolveDest(c: Config, w: World, id: int, m: DelMove, db': Db)
    requires CanDeliver(c, w, id, m) && DestHolds(w, id) && db' == Apply(w.db, DelEffect(w, id, m))
    requires !m.Pick? && !m.Mark?
    requires DelHolds(w.db.jobs[id].state, id in w.printed, w.dels[id])
    ensures id in db'.jobs && DestHolds(DelStep(c, w, id, m).(db := db'), id)
  {
  }

  lemma OwnDest(c: Config, w: World, id: int, m: DelMove, db': Db)
    requires CanDeliver(c, w, id, m) && DestHolds(w, id) && db' == Apply(w.db, DelEffect(w, id, m))
    requires DelHolds(w.db.jobs[id].state, id in w.printed, w.dels[id])
    ensures id in db'.jobs && DestHolds(DelStep(c, w, id, m).(db := db'), id)
  {
    match m
    case Pick(dest) => PickDest(c, w, id, dest);
    case Mark(fault) => MarkDest(c, w, id, fault, db');
    case _ => ResolveDest(c, w, id, m, db');
  }

  lemma OtherDest(w: World, w': World, id: int)
    requires id in w.db.jobs && DestHolds(w, id) && id in w'.db.jobs && Foreign(w.db.jobs[id], w'.db.jobs[id])
    requires id in w'.dels ==> id in w.dels && w'.dels[id] == w.dels[id]
    requires id in w.chosen ==> id in w'.chosen && w'.chosen[id] == w.chosen[id]
    ensures DestHolds(w', id)
  {
  }

  lemma CommitDest(w: World, sid: int, lost: bool, db': Db, id: int)
    requires CanSubmit(w, sid, Commit(lost)) && (id in w.db.jobs ==> DestHolds(w, id))
    requires w.subs[sid].id !in w.db.jobs && w.subs[sid].row.state in [QuotaDeducted, QuotaInsufficient]
    requires w.subs[sid].id !in w.dels
    requires db' == w.db.(jobs := w.db.jobs[w.subs[sid].id := w.subs[sid].row])
    ensures id in db'.jobs ==> DestHolds(SubStep(w, sid, Commit(lost)).(db := db'), id)
  {
  }

  lemma QuietDest(c: Config, w: World, e: Event, id: int)
    requires SweepInv(w) && Enabled(c, w, e) && !IsCommit(e) && !(e.Deliver? && e.job == id)
    requires id in w.db.jobs && DestHolds(w, id)
    ensures id in Step(c, w, e).db.jobs && DestHolds(Step(c, w, e), id)
  {
    Frames(c, w, e);
    OthersAreForeign(c, w, e, id);
    if e.Deliver? { DelFrame(c, w, e.job, e.dm, id); }
    OtherDest(w, Step(c, w, e), id);
  }

  lemma JobDest(c: Config, w: World, e: Event, id: int)
    requires LockInv(w) && IdInv(w) && QuotaInv(w) && SweepInv(w) && DelInv(w) && DestInv(w) && Enabled(c, w, e)
    requires id in Step(c, w, e).db.jobs
    ensures DestHolds(Step(c, w, e), id)
  {
    var db' := Apply(w.db, Effect(c, w, e));
    TablesGrow(w.db, Effect(c, w, e));
    if id in w.db.jobs { assert DestHolds(w, id); }
    if IsCommit(e) {
      CommitFires(w, e.sid);
      CommitDest(w, e.sid, e.sm.replyLost, db', id);
    } else {
      Frames(c, w, e);
      if e.Deliver? && e.job == id {
        OwnDest(c, w, id, e.dm, db');
      } else {
        QuietDest(c, w, e, id);
      }
    }
  }

  lemma DestStep(c: Config, w: World, e: Event)
    requires LockInv(w) && IdInv(w) && QuotaInv(w) && SweepInv(w) && DelInv(w) && DestInv(w) && Enabled(c, w, e)
    ensures DestInv(Step(c, w, e))
  {
    forall id | id in Step(c, w, e).db.jobs
      ensures DestHolds(Step(c, w, e), id)
    {
      JobDest(c, w, e, id);
    }
  }

  // ---- All together ----

  ghost predicate Inv(w: World) {
    && LockInv(w) && IdInv(w) && QuotaInv(w) && RowsConsistent(w.db, w.now)
    && GrantInv(w) && SweepInv(w) && DelInv(w) && DestInv(w)
  }

  lemma InitInv(w: World)
    requires Init(w)
    ensures Inv(w)
  {
  }

  lemma StepInv(c: Config, w: World, e: Event)
    requires Inv(w) && Enabled(c, w, e)
    ensures Inv(Step(c, w, e))
  {
    LockStep(c, w, e);
    IdStep(c, w, e);
    QuotaStep(c, w, e);
    RowStep(c, w, e);
    GrantStep(c, w, e);
    SweepInvStep(c, w, e);
    DelStepInv(c, w, e);
    DestStep(c, w, e);
  }

  lemma {:induction false} RunInv(c: Config, w: World, es: seq<Event>)
    requires Inv(w) && Legal(c, w, es)
    ensures Inv(Run(c, w, es))
    decreases |es|
  {
    if es != [] {
      StepInv(c, w, es[0]);
      RunInv(c, Step(c, w, es[0]), es[1..]);
    }
  }

  // ---- What it says, for every reachable world ----

  /** No double spend: the deducting jobs of a user never cost more than the grants of the user. */
  lemma NoDoubleSpend(c: Config, w: World, es: seq<Event>, u: string)
    requires Init(w) && Legal(c, w, es)
    ensures Spent(Run(c, w, es).db, u) <= Granted(Run(c, w, es).db, u)
  {
    InitInv(w);
    RunInv(c, w, es);
    assert Remaining(Run(c, w, es).db, u) >= 0;
  }

  /** completed_at is set exactly on terminal rows, refunded_at exactly on refunded ones and then equal to it;
      no timestamp precedes submission or lies in the future. */
  lemma RowsAreConsistent(c: Config, w: World, es: seq<Event>, id: int)
    requires Init(w) && Legal(c, w, es) && id in Run(c, w, es).db.jobs
    ensures var j := Run(c, w, es).db.jobs[id];
      && RowChecks(j)
      && (j.completed.Some? <==> IsTerminal(j.state))
      && (j.refunded.Some? <==> j.state == Refunded)
      && (j.refunded.Some? ==> j.refunded == j.completed)
      && (j.completed.Some? ==> j.submitted <= j.completed.value <= Run(c, w, es).now)
  {
    InitInv(w);
    RunInv(c, w, es);
    assert RowConsistent(Run(c, w, es).db.jobs[id], Run(c, w, es).now);
  }

  /** A job that counts as sent went to an enabled destination of its own queue. */
  lemma SentWhereChosen(c: Config, w: World, es: seq<Event>, id: int)
    requires Init(w) && Legal(c, w, es) && id in Run(c, w, es).db.jobs
    requires Run(c, w, es).db.jobs[id].state in [PrintSent, PrintSucceeded, Refunded]
    ensures var w' := Run(c, w, es); var j := w'.db.jobs[id];
      id in w'.chosen && j.dest == Some(w'.chosen[id].id) && w'.chosen[id].enabled && w'.chosen[id].queue == j.queue
  {
    InitInv(w);
    RunInv(c, w, es);
    assert DestHolds(Run(c, w, es), id);
  }

  lemma GrantOf(w: World, k: GrantKey)
    requires GrantInv(w) && k in w.db.grants
    ensures k.1 in w.db.semesters && k.1 in w.founders
    ensures w.db.grants[k] == w.db.semesters[k.1].quota == Provisioning.QuotaFor(k.1, w.founders[k.1])
  {
    assert w.db.semesters[k.1] == Provisioning.SemesterRow(k.1, w.founders[k.1]);
  }

  /** Under any mix of provisioners with different defaults, every grant is the quota of its semester as
      computed by the provisioner that inserted the semester. */
  lemma GrantAmounts(c: Config, w: World, es: seq<Event>, k: GrantKey)
    requires Init(w) && Legal(c, w, es) && k in Run(c, w, es).db.grants
    ensures var w' := Run(c, w, es);
      && k.1 in w'.db.semesters && k.1 in w'.founders
      && w'.db.grants[k] == w'.db.semesters[k.1].quota == Provisioning.QuotaFor(k.1, w'.founders[k.1])
  {
    InitInv(w);
    RunInv(c, w, es);
    GrantOf(Run(c, w, es), k);
  }

  /** A deliverer that returns without an error tells the truth: failed means the job is print_failed with its
      cost given back, succeeded means it printed and is charged (or was refunded since). */
  lemma AnswerAgrees(c: Config, w: World, es: seq<Event>, id: int, out: Delivery.Outcome)
    requires Init(w) && Legal(c, w, es)
    requires id in Run(c, w, es).dels && Run(c, w, es).dels[id] == Delivery.Returned(out, false)
    ensures id in Run(c, w, es).db.jobs
    ensures out == Delivery.DeliveryFailed ==>
      && Run(c, w, es).db.jobs[id].state == PrintFailed
      && Charge(Run(c, w, es).db, id, Run(c, w, es).db.jobs[id].user) == 0
    ensures out == Delivery.DeliverySucceeded ==>
      Run(c, w, es).db.jobs[id].state in [PrintSucceeded, Refunded] && id in Run(c, w, es).printed
  {
    InitInv(w);
    RunInv(c, w, es);
    JobByJob(Run(c, w, es));
    assert JobHolds(Run(c, w, es), id);
  }

  /** Nobody is charged for a job of which no send succeeded, once the job has settled. */
  lemma ChargedOnlyIfPrinted(c: Config, w: World, es: seq<Event>, id: int)
    requires Init(w) && Legal(c, w, es) && id in Run(c, w, es).db.jobs
    requires IsTerminal(Run(c, w, es).db.jobs[id].state) && DeductsQuota(Run(c, w, es).db.jobs[id].state)
    ensures id in Run(c, w, es).printed
  {
    InitInv(w);
    RunInv(c, w, es);
    JobByJob(Run(c, w, es));
    assert JobHolds(Run(c, w, es), id);
  }

  // ---- The transaction runs as the store's method assumes ----

  lemma SettledStep(c: Config, w: World, e: Event, sid: int)
    requires Enabled(c, w, e) && sid in w.subs
    ensures var w' := Step(c, w, e);
      && sid in w'.subs
      && (Open(w'.subs[sid]) ==> Open(w.subs[sid]) && w'.subs[sid].draft == w.subs[sid].draft)
      && (Holding(w.subs[sid]) && Open(w'.subs[sid]) ==> Holding(w'.subs[sid]))
  {
    Frames(c, w, e);
    if e.Submit? && e.sid != sid { SubsFrame(w, e.sid, e.sm, sid); }
  }

  lemma {:induction false} SettledRun(c: Config, w: World, es: seq<Event>, sid: int)
    requires Legal(c, w, es) && sid in w.subs
    ensures sid in Run(c, w, es).subs && (Open(Run(c, w, es).subs[sid]) ==> Open(w.subs[sid]))
    decreases |es|
  {
    if es != [] {
      SettledStep(c, w, es[0], sid);
      SettledRun(c, Step(c, w, es[0]), es[1..], sid);
    }
  }

  lemma OthersInsert(c: Config, w: World, e: Event, sid: int)
    requires Inv(w) && Enabled(c, w, e)
    requires sid in w.subs && Holding(w.subs[sid]) && Open(Step(c, w, e).subs[sid])
    ensures var a := Effect(c, w, e); a.AddJob? ==> a.job.user != w.subs[sid].draft.user
  {
    Frames(c, w, e);
    if IsCommit(e) {
      CommitFires(w, e.sid);
      LocksExclude(w, e.sid, sid);
    }
  }

  lemma {:induction false} LockKeepsOthersOut(c: Config, w: World, es: seq<Event>, sid: int)
    requires Inv(w) && Legal(c, w, es) && sid in w.subs && Holding(w.subs[sid])
    requires sid in Run(c, w, es).subs && Open(Run(c, w, es).subs[sid])
    ensures LockRespected(Effects(c, w, es), w.subs[sid].draft.user)
    decreases |es|
  {
    if es != [] {
      var w' := Step(c, w, es[0]);
      SettledStep(c, w, es[0], sid);
      SettledRun(c, w', es[1..], sid);
      OthersInsert(c, w, es[0], sid);
      StepInv(c, w, es[0]);
      LockKeepsOthersOut(c, w', es[1..], sid);
    }
  }

  lemma FreeIdStep(c: Config, w: World, e: Event, id: int)
    requires Inv(w) && Enabled(c, w, e) && id !in Step(c, w, e).db.jobs
    ensures id !in w.db.jobs && (Effect(c, w, e).AddJob? ==> Effect(c, w, e).id != id)
  {
    Frames(c, w, e);
    TablesGrow(w.db, Effect(c, w, e));
    if IsCommit(e) { CommitFires(w, e.sid); }
  }

  lemma {:induction false} FreeIdIsReserved(c: Config, w: World, es: seq<Event>, id: int)
    requires Inv(w) && Legal(c, w, es) && id !in Run(c, w, es).db.jobs
    ensures id !in w.db.jobs && IdReserved(Effects(c, w, es), id)
    decreases |es|
  {
    if es != [] {
      var w' := Step(c, w, es[0]);
      StepInv(c, w, es[0]);
      FreeIdIsReserved(c, w', es[1..], id);
      FreeIdStep(c, w, es[0], id);
    }
  }

  /** In every run from empty tables, what other actors commit while a quota transaction holds its lock meets the
      assumptions of Stores.Store.CheckQuotaAndStore: nobody inserts a job of that user, and nobody, before or
      meanwhile, uses the identity value its own insert draws. */
  lemma TransactionIsolated(c: Config, w: World, before: seq<Event>, during: seq<Event>, sid: int)
    requires Init(w) && Legal(c, w, before) && Legal(c, Run(c, w, before), during)
    requires var w1 := Run(c, w, before); sid in w1.subs && Holding(w1.subs[sid])
    requires var w2 := Run(c, Run(c, w, before), during); sid in w2.subs && Holding(w2.subs[sid])
    ensures var w1 := Run(c, w, before);
      RowsChecked(w1.db) && LockRespected(Effects(c, w1, during), w1.subs[sid].draft.user)
    ensures var w1 := Run(c, w, before); var s := Run(c, w1, during).subs[sid];
      s.Inserted? ==>
        && s.id !in w1.db.jobs
        && IdReserved(Effects(c, w, before), s.id)
        && IdReserved(Effects(c, w1, during), s.id)
  {
    var w1 := Run(c, w, before);
    InitInv(w);
    RunInv(c, w, before);
    RunInv(c, w1, during);
    LockKeepsOthersOut(c, w1, during, sid);
    if Run(c, w1, during).subs[sid].Inserted? {
      FreeIdIsReserved(c, w1, during, Run(c, w1, during).subs[sid].id);
      FreeIdIsReserved(c, w, before, Run(c, w1, during).subs[sid].id);
    }
  }
}
