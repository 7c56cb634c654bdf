/** Draining, in the runs of the transition system: sweeps interleaved with everybody else. */
module Draining {
  import opened Jobs
  import opened Tables
  import opened Stores
  import opened Protocol
  import Sweep

  // Some quiet events, and then one sweep by a sweeper, among the events of other actors.
  datatype Round = Round(quiet: seq<Event>, sweeper: int, sweep: seq<Event>)

  predicate IsSettle(e: Event, k: int) {
    e.Sweeping? && e.sweeper == k ==> e.wm == Settle(NoFault)
  }

  // The events are a fault-free sweep of sweeper k, from its snapshot to the end of its batch.
  ghost predicate Completes(c: Config, w: World, k: int, es: seq<Event>, since: int) {
    && es != [] && Legal(c, w, es)
    && es[0].Sweeping? && es[0].sweeper == k && es[0].wm.Snapshot? && es[0].wm.cutoff >= since
    && (forall i | 0 < i < |es| :: IsSettle(es[i], k))
    && k in Run(c, w, es).sweeps && Run(c, w, es).sweeps[k] == []
  }

  // Legal rounds, in which no job submitted before `since` is inserted.
  ghost predicate Rounds(c: Config, w: World, rs: seq<Round>, since: int)
    decreases |rs|
  {
    rs == [] ||
    (var r := rs[0];
     && Legal(c, w, r.quiet) && Sweep.InsertsFrom(Effects(c, w, r.quiet), since)
     && var w1 := Run(c, w, r.quiet);
     && Completes(c, w1, r.sweeper, r.sweep, since) && Sweep.InsertsFrom(Effects(c, w1, r.sweep), since)
     && Rounds(c, Run(c, w1, r.sweep), rs[1..], since))
  }

  ghost function AfterRounds(c: Config, w: World, rs: seq<Round>, since: int): World
    requires Rounds(c, w, rs, since)
    decreases |rs|
  {
    if rs == [] then w else AfterRounds(c, Run(c, Run(c, w, rs[0].quiet), rs[0].sweep), rs[1..], since)
  }

  lemma RunOnward(c: Config, w: World, es: seq<Event>, since: int)
    requires Legal(c, w, es) && Sweep.InsertsFrom(Effects(c, w, es), since)
    ensures Sweep.Onward(w.db, Run(c, w, es).db, since)
  {
    RunIsActions(c, w, es);
    Sweep.RunIsOnward(w.db, Effects(c, w, es), since);
  }

  // ---- One sweep is one pass ----

  // The sweeper has settled the first jobs of its batch, and has the others left.
  ghost predicate Settled(snapshot: Db, w: World, k: int, batch: seq<Stale>, done: nat, since: int) {
    && done <= |batch|
    && k in w.sweeps && w.sweeps[k] == batch[done..]
    && Sweep.Onward(snapshot, w.db, since)
    && Sweep.AllProgressed(w.db, batch[..done])
  }

  lemma ProgressStays(db: Db, a: Action, s: Stale)
    requires Sweep.Progressed(db, s)
    ensures Sweep.Progressed(Apply(db, a), s)
  {
    StepIsLater(db, a, s.id);
  }

  lemma OtherStep(c: Config, w: World, e: Event, k: int)
    requires Enabled(c, w, e) && k in w.sweeps && !(e.Sweeping? && e.sweeper == k)
    ensures k in Step(c, w, e).sweeps && Step(c, w, e).sweeps[k] == w.sweeps[k]
  {
  }

  lemma SettleStep(c: Config, w: World, k: int)
    requires k in w.sweeps && w.sweeps[k] != []
    ensures var e, s := Sweeping(k, Settle(NoFault)), w.sweeps[k][0];
      && Enabled(c, w, e)
      && Effect(c, w, e) == Update(s.id, s.state, PrintFailed, w.now)
      && k in Step(c, w, e).sweeps && Step(c, w, e).sweeps[k] == w.sweeps[k][1..]
  {
  }

  lemma StepOnward(c: Config, w: World, e: Event, snapshot: Db, since: int)
    requires Enabled(c, w, e) && Sweep.Onward(snapshot, w.db, since)
    requires Effect(c, w, e).AddJob? ==> Effect(c, w, e).job.submitted >= since
    ensures Sweep.Onward(snapshot, Step(c, w, e).db, since)
  {
    Sweep.StepIsOnward(w.db, Effect(c, w, e), since);
    Sweep.OnwardTrans(snapshot, w.db, Step(c, w, e).db, since);
  }

  lemma OneMoreSettled(c: Config, w: World, k: int, snapshot: Db, batch: seq<Stale>, done: nat, since: int)
    requires Sweep.ReadFrom(snapshot, batch) && Settled(snapshot, w, k, batch, done, since) && done < |batch|
    ensures var e := Sweeping(k, Settle(NoFault));
      Enabled(c, w, e) && Settled(snapshot, Step(c, w, e), k, batch, done + 1, since)
  {
    var e, s := Sweeping(k, Settle(NoFault)), batch[done];
    SettleStep(c, w, k);
    StepOnward(c, w, e, snapshot, since);
    Sweep.UpdateProgresses(w.db, s, w.now);
    forall i | 0 <= i < done
      ensures Sweep.Progressed(Step(c, w, e).db, batch[i])
    {
      assert batch[..done][i] == batch[i];
      ProgressStays(w.db, Effect(c, w, e), batch[i]);
    }
  }

  lemma OthersKeepSettled(c: Config, w: World, e: Event, k: int, snapshot: Db, batch: seq<Stale>, done: nat, since: int)
    requires Enabled(c, w, e) && !(e.Sweeping? && e.sweeper == k) && Settled(snapshot, w, k, batch, done, since)
    requires Effect(c, w, e).AddJob? ==> Effect(c, w, e).job.submitted >= since
    ensures Settled(snapshot, Step(c, w, e), k, batch, done, since)
  {
    OtherStep(c, w, e, k);
    StepOnward(c, w, e, snapshot, since);
    forall i | 0 <= i < done
      ensures Sweep.Progressed(Step(c, w, e).db, batch[..done][i])
    {
      ProgressStays(w.db, Effect(c, w, e), batch[..done][i]);
    }
  }

  // To the end of the batch.
  lemma {:induction false} SettleAll(c: Config, w: World, k: int, es: seq<Event>, snapshot: Db, batch: seq<Stale>,
      done: nat, since: int)
    requires Legal(c, w, es) && Sweep.InsertsFrom(Effects(c, w, es), since)
    requires forall i | 0 <= i < |es| :: IsSettle(es[i], k)
    requires Sweep.ReadFrom(snapshot, batch) && Settled(snapshot, w, k, batch, done, since)
    requires k in Run(c, w, es).sweeps && Run(c, w, es).sweeps[k] == []
    ensures Sweep.Onward(snapshot, Run(c, w, es).db, since) && Sweep.AllProgressed(Run(c, w, es).db, batch)
    decreases |es|
  {
    if es == [] {
      assert batch[..done] == batch;
    } else {
      var e := es[0];
      var acts := Effects(c, w, es);
      assert acts[0] == Effect(c, w, e) && acts[1..] == Effects(c, Step(c, w, e), es[1..]);
      assert forall i | 0 <= i < |es[1..]| :: es[1..][i] == es[i + 1];
      if e.Sweeping? && e.sweeper == k {
        assert e == Sweeping(k, Settle(NoFault));
        OneMoreSettled(c, w, k, snapshot, batch, done, since);
        SettleAll(c, Step(c, w, e), k, es[1..], snapshot, batch, done + 1, since);
      } else {
        OthersKeepSettled(c, w, e, k, snapshot, batch, done, since);
        SettleAll(c, Step(c, w, e), k, es[1..], snapshot, batch, done, since);
      }
    }
  }

  /** A completed sweep is an error-free pass, whatever the other actors do meanwhile. */
  lemma SweepIsPass(c: Config, w: World, k: int, es: seq<Event>, since: int)
    requires Completes(c, w, k, es, since) && Sweep.InsertsFrom(Effects(c, w, es), since)
    ensures Sweep.PassOk(Sweep.Record(w.db, w.db, es[0].wm.batch, Run(c, w, es).db, es[0].wm.cutoff), c.limit, since)
  {
    var batch, w1 := es[0].wm.batch, Step(c, w, es[0]);
    var acts := Effects(c, w, es);
    assert w1.db == w.db;
    assert acts[1..] == Effects(c, w1, es[1..]);
    assert forall i | 0 <= i < |es[1..]| :: es[1..][i] == es[i + 1];
    assert Settled(w.db, w1, k, batch, 0, since);
    SettleAll(c, w1, k, es[1..], w.db, batch, 0, since);
  }

  lemma RoundLowersRanks(c: Config, w: World, r: Round, since: int)
    requires c.limit >= 1 && Rounds(c, w, [r], since)
    ensures var w' := Run(c, Run(c, w, r.quiet), r.sweep);
      && Sweep.RankSum(w'.db, since) <= Sweep.RankSum(w.db, since)
      && (Sweep.RankSum(w.db, since) > 0 ==> Sweep.RankSum(w'.db, since) < Sweep.RankSum(w.db, since))
  {
    var w1 := Run(c, w, r.quiet);
    RunOnward(c, w, r.quiet, since);
    Sweep.OnwardRanks(w.db, w1.db, since);
    SweepIsPass(c, w1, r.sweeper, r.sweep, since);
    Sweep.PassLowersRanks(Sweep.Record(w1.db, w1.db, r.sweep[0].wm.batch, Run(c, w1, r.sweep).db, r.sweep[0].wm.cutoff),
      c.limit, since);
    Sweep.RankSumBounds(w1.db, since);
  }

  lemma {:induction false} RoundsDrain(c: Config, w: World, rs: seq<Round>, since: int)
    requires c.limit >= 1 && Rounds(c, w, rs, since)
    requires |rs| >= Sweep.RankSum(w.db, since)
    ensures Sweep.Pending(AfterRounds(c, w, rs, since).db, since) == {}
    decreases |rs|
  {
    if rs == [] {
      Sweep.RankSumBounds(w.db, since);
    } else {
      FirstRound(c, w, rs, since);
      RoundLowersRanks(c, w, rs[0], since);
      RoundsDrain(c, Run(c, Run(c, w, rs[0].quiet), rs[0].sweep), rs[1..], since);
    }
  }

  lemma FirstRound(c: Config, w: World, rs: seq<Round>, since: int)
    requires rs != [] && Rounds(c, w, rs, since)
    ensures Rounds(c, w, [rs[0]], since)
  {
    assert [rs[0]][1..] == [];
  }

  /** With no further insert before `since`, twice as many completed sweeps as there are pending jobs leave none
      pending: whoever runs them, whatever happens in between, and though every deliverer has crashed. */
  lemma SweepsDrain(c: Config, w: World, rs: seq<Round>, since: int)
    requires c.limit >= 1 && Rounds(c, w, rs, since)
    requires |rs| >= 2 * |Sweep.Pending(w.db, since)|
    ensures Sweep.Pending(AfterRounds(c, w, rs, since).db, since) == {}
  {
    Sweep.RankSumBounds(w.db, since);
    RoundsDrain(c, w, rs, since);
  }
}
