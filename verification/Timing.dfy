/** The race between the sweeper and a live deliverer: exactly when every user is charged if and only if printed. */
module Timing {
  import opened Jobs
  import opened Tables
  import opened Stores
  import opened Protocol
  import opened Safety
  import Sweep

  // Upper bounds: from submission to the start of sending, for all sends of a job together, and for the resolution.
  datatype Delays = Delays(start: nat, send: nat, resolve: nat)

  // A live deliverer is within the bound of its phase.
  predicate OnTime(d: Delays, w: World, id: int)
    requires id in w.dels
  {
    id in w.db.jobs &&
    match w.dels[id]
    case Picking => w.now <= w.db.jobs[id].submitted + d.start
    case Marking(_) => w.now <= w.db.jobs[id].submitted + d.start
    case Sending(_) => id in w.entered && w.now <= w.entered[id] + d.send
    case Waiting(_) => id in w.entered && w.now <= w.entered[id] + d.send
    case Resolving(_, _) => id in w.entered && w.now <= w.entered[id] + d.resolve
    case _ => true
  }

  ghost predicate AllOnTime(d: Delays, w: World) {
    forall id | id in w.dels :: OnTime(d, w, id)
  }

  // A legal run in which the bounds hold throughout.
  ghost predicate Timely(c: Config, d: Delays, w: World, es: seq<Event>)
    decreases |es|
  {
    AllOnTime(d, w) && (es == [] || (Enabled(c, w, es[0]) && Timely(c, d, Step(c, w, es[0]), es[1..])))
  }

  // Every delivery that ended without crash or error charged its user exactly if a send succeeded.
  ghost predicate ChargedIffPrinted(w: World) {
    forall id | id in w.dels && id in w.db.jobs && w.dels[id].Returned? && !w.dels[id].err ::
      id in w.printed <==> w.db.jobs[id].state in [PrintSucceeded, Refunded]
  }

  // ---- If the delays fit the sweep age ----

  // The phases so far took no longer than their bounds; the job is where its deliverer left it.
  ghost predicate PhaseHolds(d: Delays, w: World, id: int)
    requires id in w.dels && id in w.db.jobs
  {
    var j := w.db.jobs[id];
    match w.dels[id]
    case Picking => j.state == QuotaDeducted
    case Marking(_) => j.state == QuotaDeducted
    case Sending(_) => j.state == PrintSent && id in w.entered && w.entered[id] <= j.submitted + d.start
    case Waiting(_) => j.state == PrintSent && id in w.entered && w.entered[id] <= j.submitted + d.start
    case Resolving(from, _) => j.state == from && id in w.entered && w.entered[id] <= j.submitted + d.start + d.send
    case Returned(_, false) => id in w.printed <==> j.state in [PrintSucceeded, Refunded]
    case _ => true
  }

  ghost predicate PhaseInv(d: Delays, w: World) {
    && (forall id | id in w.dels :: id in w.db.jobs && PhaseHolds(d, w, id))
    && (forall k | k in w.sweeps :: forall i | 0 <= i < |w.sweeps[k]| ::
      w.sweeps[k][i].id in w.dels ==> !Live(w.dels[w.sweeps[k][i].id]))
  }

  lemma SnapshotSparesLive(c: Config, d: Delays, w: World, cutoff: int, batch: seq<Stale>, i: nat)
    requires d.start + d.send + d.resolve <= c.age
    requires PhaseInv(d, w) && AllOnTime(d, w) && cutoff <= w.now - c.age
    requires IsStaleBatch(w.db, Sweep.OPEN, cutoff, c.limit, batch) && i < |batch|
    ensures batch[i].id in w.dels ==> !Live(w.dels[batch[i].id])
  {
  }

  // A job with a live deliverer is touched by nobody else.
  lemma LiveStaysPut(c: Config, d: Delays, w: World, e: Event, id: int)
    requires PhaseInv(d, w) && Enabled(c, w, e) && id in w.dels && Live(w.dels[id])
    requires w.db.jobs[id].state in [QuotaDeducted, PrintSent]
    requires !(e.Deliver? && e.job == id)
    ensures id in Apply(w.db, Effect(c, w, e)).jobs && Apply(w.db, Effect(c, w, e)).jobs[id] == w.db.jobs[id]
  {
  }

  lemma OwnPhase(c: Config, d: Delays, w: World, id: int, m: DelMove, db': Db)
    requires CanDeliver(c, w, id, m) && PhaseHolds(d, w, id) && OnTime(d, w, id)
    requires DelHolds(w.db.jobs[id].state, id in w.printed, w.dels[id])
    requires db' == Apply(w.db, DelEffect(w, id, m))
    ensures id in db'.jobs && PhaseHolds(d, DelStep(c, w, id, m).(db := db'), id)
  {
    if w.dels[id].Resolving? {
      OwnResolve(c, d, w, id, m, db');
    } else if w.dels[id].Marking? {
      OwnMark(c, d, w, id, m, db');
    } else {
      assert DelEffect(w, id, m) == Skip;
    }
  }

  lemma OwnMark(c: Config, d: Delays, w: World, id: int, m: DelMove, db': Db)
    requires CanDeliver(c, w, id, m) && PhaseHolds(d, w, id) && OnTime(d, w, id) && w.dels[id].Marking?
    requires db' == Apply(w.db, DelEffect(w, id, m))
    ensures id in db'.jobs && PhaseHolds(d, DelStep(c, w, id, m).(db := db'), id)
  {
  }

  lemma OwnResolve(c: Config, d: Delays, w: World, id: int, m: DelMove, db': Db)
    requires CanDeliver(c, w, id, m) && PhaseHolds(d, w, id) && w.dels[id].Resolving?
    requires DelHolds(w.db.jobs[id].state, id in w.printed, w.dels[id])
    requires db' == Apply(w.db, DelEffect(w, id, m))
    ensures id in db'.jobs && PhaseHolds(d, DelStep(c, w, id, m).(db := db'), id)
  {
    if m.Resolve? {
      OwnAnswered(c, w, id, m);
    }
  }

  lemma OtherPhase(d: Delays, w: World, w': World, id: int)
    requires id in w.dels && id in w.db.jobs && PhaseHolds(d, w, id)
    requires id in w'.dels && w'.dels[id] == w.dels[id] && id in w'.db.jobs && Foreign(w.db.jobs[id], w'.db.jobs[id])
    requires Live(w.dels[id]) ==> w'.db.jobs[id] == w.db.jobs[id]
    requires id in w'.printed <==> id in w.printed
    requires id in w.entered ==> id in w'.entered && w'.entered[id] == w.entered[id]
    requires DelHolds(w.db.jobs[id].state, id in w.printed, w.dels[id])
    ensures PhaseHolds(d, w', id)
  {
  }

  lemma EnteredFrame(c: Config, w: World, id: int, m: DelMove, other: int)
    requires CanDeliver(c, w, id, m) && other != id && other in w.entered
    ensures var w' := DelStep(c, w, id, m); other in w'.entered && w'.entered[other] == w.entered[other]
  {
  }

  lemma QuietPhase(c: Config, d: Delays, w: World, e: Event, id: int)
    requires Inv(w) && PhaseInv(d, w) && Enabled(c, w, e) && !IsCommit(e) && !(e.Deliver? && e.job == id)
    requires id in w.dels
    ensures var w' := Step(c, w, e); id in w'.dels && id in w'.db.jobs && PhaseHolds(d, w', id)
  {
    Frames(c, w, e);
    OthersAreForeign(c, w, e, id);
    if Live(w.dels[id]) {
      LiveState(d, w, id);
      LiveStaysPut(c, d, w, e, id);
    }
    if e.Deliver? {
      DelFrame(c, w, e.job, e.dm, id);
      if id in w.entered { EnteredFrame(c, w, e.job, e.dm, id); }
    }
    OtherPhase(d, w, Step(c, w, e), id);
  }

  lemma LiveState(d: Delays, w: World, id: int)
    requires PhaseInv(d, w) && DelInv(w) && id in w.dels && Live(w.dels[id])
    ensures w.db.jobs[id].state in [QuotaDeducted, PrintSent]
  {
  }

  lemma CommitPhase(d: Delays, w: World, sid: int, lost: bool, db': Db, id: int)
    requires DelInv(w) && PhaseInv(d, w) && CanSubmit(w, sid, Commit(lost))
    requires w.subs[sid].id !in w.db.jobs && w.subs[sid].row.state in [QuotaDeducted, QuotaInsufficient]
    requires db' == w.db.(jobs := w.db.jobs[w.subs[sid].id := w.subs[sid].row])
    requires id in SubStep(w, sid, Commit(lost)).dels
    ensures id in db'.jobs && PhaseHolds(d, SubStep(w, sid, Commit(lost)).(db := db'), id)
  {
  }

  lemma PhaseStep(c: Config, d: Delays, w: World, e: Event, id: int)
    requires Inv(w) && PhaseInv(d, w) && AllOnTime(d, w) && Enabled(c, w, e)
    requires id in Step(c, w, e).dels
    ensures id in Step(c, w, e).db.jobs && PhaseHolds(d, Step(c, w, e), id)
  {
    if IsCommit(e) {
      CommitFires(w, e.sid);
      CommitPhase(d, w, e.sid, e.sm.replyLost, Apply(w.db, Effect(c, w, e)), id);
    } else if e.Deliver? && e.job == id {
      OwnPhase(c, d, w, id, e.dm, Apply(w.db, Effect(c, w, e)));
    } else {
      Frames(c, w, e);
      if e.Deliver? { DelFrame(c, w, e.job, e.dm, id); }
      QuietPhase(c, d, w, e, id);
    }
  }

  // No step revives a deliverer, or gives one to a job that exists.
  lemma NeverRevived(c: Config, w: World, e: Event, id: int)
    requires Inv(w) && Enabled(c, w, e) && id in w.db.jobs && (id in w.dels ==> !Live(w.dels[id]))
    ensures id in Step(c, w, e).dels ==> !Live(Step(c, w, e).dels[id])
  {
  }

  lemma BatchStep(c: Config, d: Delays, w: World, e: Event, k: int, i: nat)
    requires d.start + d.send + d.resolve <= c.age
    requires Inv(w) && PhaseInv(d, w) && AllOnTime(d, w) && Enabled(c, w, e)
    requires k in Step(c, w, e).sweeps && i < |Step(c, w, e).sweeps[k]|
    ensures var id := Step(c, w, e).sweeps[k][i].id; id in Step(c, w, e).dels ==> !Live(Step(c, w, e).dels[id])
  {
    var s := Step(c, w, e).sweeps[k][i];
    Frames(c, w, e);
    if e.Sweeping? && e.sweeper == k && e.wm.Snapshot? {
      SnapshotSparesLive(c, d, w, e.wm.cutoff, e.wm.batch, i);
      assert IsStale(w.db, Sweep.OPEN, e.wm.cutoff, s.id);
    } else {
      BatchShrinks(c, w, e, k, i);
      var n :| 0 <= n < |w.sweeps[k]| && w.sweeps[k][n] == s;
      assert s.id in w.db.jobs && (s.id in w.dels ==> !Live(w.dels[s.id]));
    }
    NeverRevived(c, w, e, s.id);
  }

  lemma BatchShrinks(c: Config, w: World, e: Event, k: int, i: nat)
    requires Enabled(c, w, e) && !(e.Sweeping? && e.sweeper == k && e.wm.Snapshot?)
    requires k in Step(c, w, e).sweeps && i < |Step(c, w, e).sweeps[k]|
    ensures k in w.sweeps && exists n :: 0 <= n < |w.sweeps[k]| && w.sweeps[k][n] == Step(c, w, e).sweeps[k][i]
  {
    Frames(c, w, e);
    if e.Sweeping? && e.sweeper == k && e.wm.Settle? {
      assert w.sweeps[k][i + 1] == Step(c, w, e).sweeps[k][i];
    } else {
      assert w.sweeps[k][i] == Step(c, w, e).sweeps[k][i];
    }
  }

  lemma {:induction false} PhaseRun(c: Config, d: Delays, w: World, es: seq<Event>)
    requires d.start + d.send + d.resolve <= c.age
    requires Inv(w) && PhaseInv(d, w) && Timely(c, d, w, es)
    ensures Legal(c, w, es) && PhaseInv(d, Run(c, w, es))
    decreases |es|
  {
    if es != [] {
      var w' := Step(c, w, es[0]);
      forall id | id in w'.dels
        ensures id in w'.db.jobs && PhaseHolds(d, w', id)
      {
        PhaseStep(c, d, w, es[0], id);
      }
      forall k, i | k in w'.sweeps && 0 <= i < |w'.sweeps[k]|
        ensures w'.sweeps[k][i].id in w'.dels ==> !Live(w'.dels[w'.sweeps[k][i].id])
      {
        BatchStep(c, d, w, es[0], k, i);
      }
      StepInv(c, w, es[0]);
      PhaseRun(c, d, w', es[1..]);
    }
  }

  lemma FittingDelaysCharge(c: Config, d: Delays, w: World, es: seq<Event>)
    requires d.start + d.send + d.resolve <= c.age
    requires Init(w) && Timely(c, d, w, es)
    ensures Legal(c, w, es) && ChargedIffPrinted(Run(c, w, es))
  {
    InitInv(w);
    PhaseRun(c, d, w, es);
    var w' := Run(c, w, es);
    forall id | id in w'.dels && id in w'.db.jobs && w'.dels[id].Returned? && !w'.dels[id].err
      ensures id in w'.printed <==> w'.db.jobs[id].state in [PrintSucceeded, Refunded]
    {
      assert PhaseHolds(d, w', id);
    }
  }

  /** In every timely run with fitting delays no snapshot holds a job that has a live deliverer, and no step of
      anybody else changes such a job. */
  lemma LiveUntouched(c: Config, d: Delays, w: World, es: seq<Event>, e: Event, id: int)
    requires d.start + d.send + d.resolve <= c.age
    requires Init(w) && Timely(c, d, w, es)
    ensures Legal(c, w, es)
    ensures var w' := Run(c, w, es);
      id in w'.dels && Live(w'.dels[id]) ==>
        && (forall k, i | k in w'.sweeps && 0 <= i < |w'.sweeps[k]| :: w'.sweeps[k][i].id != id)
        && (Enabled(c, w', e) && !(e.Deliver? && e.job == id) ==>
          && id in w'.db.jobs && id in Step(c, w', e).db.jobs
          && Step(c, w', e).db.jobs[id] == w'.db.jobs[id])
  {
    InitInv(w);
    PhaseRun(c, d, w, es);
    RunInv(c, w, es);
    var w' := Run(c, w, es);
    if id in w'.dels && Live(w'.dels[id]) {
      LiveState(d, w', id);
      if Enabled(c, w', e) && !(e.Deliver? && e.job == id) {
        Frames(c, w', e);
        LiveStaysPut(c, d, w', e, id);
      }
    }
  }
}
