/** The converse: when the delays can exceed the sweep age, some timely run prints a job and charges nobody. */
module Race {
  import opened Jobs
  import opened Sums
  import opened Tables
  import opened Stores
  import opened Queues
  import opened Protocol
  import opened Timing
  import Delivery
  import Provisioning

  lemma {:induction false} RunSnoc(c: Config, d: Delays, w: World, es: seq<Event>, e: Event)
    requires Timely(c, d, w, es) && Legal(c, w, es)
    requires Enabled(c, Run(c, w, es), e) && AllOnTime(d, Step(c, Run(c, w, es), e))
    ensures Timely(c, d, w, es + [e]) && Legal(c, w, es + [e])
    ensures Run(c, w, es + [e]) == Step(c, Run(c, w, es), e)
    decreases |es|
  {
    if es == [] {
      assert [e][1..] == [];
    } else {
      assert (es + [e])[1..] == es[1..] + [e];
      RunSnoc(c, d, Step(c, w, es[0]), es[1..], e);
    }
  }

  // `es` is a timely run from `w0` to `w`.
  ghost predicate Reaches(c: Config, d: Delays, w0: World, es: seq<Event>, w: World) {
    Timely(c, d, w0, es) && Legal(c, w0, es) && Run(c, w0, es) == w
  }

  lemma Go(c: Config, d: Delays, w0: World, es: seq<Event>, w: World, e: Event, w': World)
    requires Reaches(c, d, w0, es, w) && Enabled(c, w, e) && Step(c, w, e) == w' && AllOnTime(d, w')
    ensures Reaches(c, d, w0, es + [e], w')
  {
    RunSnoc(c, d, w0, es, e);
  }

  const CODE := 202609

  const DESK := Destination(1, 1, "printer/queue", "desk", true)

  const DRAFT := Job("u", 1, None, Unknown, 1, 0, 1, 1, false, false, "a.pdf", 0, None, None)

  function Row(): Job { RowFor(DRAFT, QuotaDeducted, 0) }

  function Start(): World {
    World(EMPTY, 0, 1, map[1 := DESK], map[], map[], map[], map[], map[], map[], map[], {}, map[])
  }

  // The user has a grant of one page; nobody is at work.
  predicate Funded(w: World) {
    && w.db.users == {"u"} && w.db.jobs == map[] && w.db.grants == map[("u", CODE) := 1]
    && w.now == 0 && w.nextId == 1 && w.dests == map[1 := DESK]
    && w.locks == map[] && w.subs == map[] && w.dels == map[] && w.sweeps == map[] && w.printed == {}
  }

  // Nobody is at work but provisioner 0, at `pc`.
  predicate Funding(w: World, pc: Provisioning.Pc) {
    && w.db.jobs == map[] && w.db.grants == map[]
    && w.now == 0 && w.nextId == 1 && w.dests == map[1 := DESK] && w.provs == map[0 := pc]
    && w.locks == map[] && w.subs == map[] && w.dels == map[] && w.sweeps == map[] && w.printed == {}
  }

  lemma EnsureTheUser(c: Config, d: Delays) returns (es: seq<Event>, w: World)
    ensures Reaches(c, d, Start(), es, w) && Funding(w, Provisioning.Visiting("u", {CODE}, 1))
    ensures w.db.users == {"u"} && w.db.semesters == map[]
  {
    var e1, e2 := StartProvision(0, "u", {CODE}, 1), Provision(0, Provisioning.EnsureUser(NoFault));
    assert Reaches(c, d, Start(), [], Start());
    var w1 := Step(c, Start(), e1);
    Go(c, d, Start(), [], Start(), e1, w1);
    w := Step(c, w1, e2);
    es := [] + [e1] + [e2];
    Go(c, d, Start(), [] + [e1], w1, e2, w);
  }

  lemma EnsureTheSemester(c: Config, d: Delays, es: seq<Event>, w: World) returns (es': seq<Event>, w': World)
    requires Reaches(c, d, Start(), es, w) && Funding(w, Provisioning.Visiting("u", {CODE}, 1))
    requires w.db.users == {"u"} && w.db.semesters == map[]
    ensures Reaches(c, d, Start(), es', w') && Funding(w', Provisioning.Granting("u", {CODE} - {CODE}, 1, CODE, 1))
    ensures w'.db.users == {"u"} && CODE in w'.db.semesters
  {
    var e := Provision(0, Provisioning.EnsureSemester(CODE, NoFault));
    assert Provisioning.QuotaFor(CODE, 1) == 1;
    w' := Step(c, w, e);
    es' := es + [e];
    Go(c, d, Start(), es, w, e, w');
  }

  lemma Fund(c: Config, d: Delays) returns (es: seq<Event>, w: World)
    ensures Reaches(c, d, Start(), es, w) && Funded(w)
  {
    var es0, w0 := EnsureTheUser(c, d);
    es0, w0 := EnsureTheSemester(c, d, es0, w0);
    var e := Provision(0, Provisioning.EnsureGrant(NoFault));
    w := Step(c, w0, e);
    assert w.db.grants == map[("u", CODE) := 1];
    es := es0 + [e];
    Go(c, d, Start(), es0, w0, e, w);
  }

  // Job 1 is stored and its deliverer is about to pick a destination.
  predicate Stored(w: World) {
    && w.db.jobs == map[1 := Row()] && w.now == 0 && w.dests == map[1 := DESK]
    && w.dels == map[1 := Delivery.Picking] && w.sweeps == map[] && w.printed == {}
  }

  lemma OnePageLeft(db: Db)
    requires db.jobs == map[] && db.grants == map[("u", CODE) := 1]
    ensures Remaining(db, "u") == 1
  {
    assert GrantsOf(db, "u") == map[("u", CODE) := 1];
    SumSplit(GrantsOf(db, "u"), ("u", CODE));
    assert GrantsOf(db, "u") - {("u", CODE)} == map[];
    assert ChargesOf(db, "u") == map[];
  }

  // Nobody is at work but submission 0, at `sub`; no job is stored yet.
  predicate Submitting(w: World, sub: Sub) {
    && w.db.users == {"u"} && w.db.jobs == map[] && w.db.grants == map[("u", CODE) := 1]
    && w.now == 0 && w.dests == map[1 := DESK] && w.subs == map[0 := sub]
    && w.dels == map[] && w.sweeps == map[] && w.printed == {}
  }

  lemma BeginSubmission(c: Config, d: Delays, es: seq<Event>, w: World) returns (es': seq<Event>, w': World)
    requires Reaches(c, d, Start(), es, w) && Funded(w)
    ensures Reaches(c, d, Start(), es', w') && Submitting(w', Begun(0, DRAFT)) && w'.nextId == 1 && w'.locks == map[]
  {
    var begin := Submit(0, Begin(DRAFT));
    w' := Step(c, w, begin);
    Go(c, d, Start(), es, w, begin, w');
    es' := es + [begin];
  }

  lemma LockUser(c: Config, d: Delays, es: seq<Event>, w: World) returns (es': seq<Event>, w': World)
    requires Reaches(c, d, Start(), es, w) && Submitting(w, Begun(0, DRAFT)) && w.nextId == 1 && w.locks == map[]
    ensures Reaches(c, d, Start(), es', w') && Submitting(w', Locked(0, DRAFT)) && w'.nextId == 1
  {
    var lock := Submit(0, Lock);
    w' := Step(c, w, lock);
    Go(c, d, Start(), es, w, lock, w');
    es' := es + [lock];
  }

  lemma ReadsOnePage(c: Config, w: World)
    requires Submitting(w, Locked(0, DRAFT))
    ensures Enabled(c, w, Submit(0, Check))
    ensures Step(c, w, Submit(0, Check)) == w.(subs := w.subs[0 := Checked(0, DRAFT, 1)])
  {
    OnePageLeft(w.db);
  }

  lemma CheckQuota(c: Config, d: Delays, es: seq<Event>, w: World) returns (es': seq<Event>, w': World)
    requires Reaches(c, d, Start(), es, w) && Submitting(w, Locked(0, DRAFT)) && w.nextId == 1
    ensures Reaches(c, d, Start(), es', w') && Submitting(w', Checked(0, DRAFT, 1)) && w'.nextId == 1
  {
    ReadsOnePage(c, w);
    var check := Submit(0, Check);
    w' := w.(subs := w.subs[0 := Checked(0, DRAFT, 1)]);
    Go(c, d, Start(), es, w, check, w');
    es' := es + [check];
  }

  lemma InsertRow(c: Config, d: Delays, es: seq<Event>, w: World) returns (es': seq<Event>, w': World)
    requires Reaches(c, d, Start(), es, w) && Submitting(w, Checked(0, DRAFT, 1)) && w.nextId == 1
    ensures Reaches(c, d, Start(), es', w') && Submitting(w', Inserted(DRAFT, 1, 1, Row()))
  {
    var insert := Submit(0, Insert);
    w' := Step(c, w, insert);
    Go(c, d, Start(), es, w, insert, w');
    es' := es + [insert];
  }

  lemma CommitRow(c: Config, d: Delays, es: seq<Event>, w: World) returns (es': seq<Event>, w': World)
    requires Reaches(c, d, Start(), es, w) && Submitting(w, Inserted(DRAFT, 1, 1, Row()))
    ensures Reaches(c, d, Start(), es', w') && Stored(w')
  {
    var commit := Submit(0, Commit(false));
    w' := Step(c, w, commit);
    Go(c, d, Start(), es, w, commit, w');
    es' := es + [commit];
  }

  // Job 1 is marked and its first send is under way since `at`.
  predicate SendingSince(w: World, at: nat) {
    && w.db.jobs == map[1 := Row().(state := PrintSent, dest := Some(1))] && w.now == at
    && w.dels == map[1 := Delivery.Sending(1)] && 1 in w.entered && w.entered[1] == at
    && w.sweeps == map[] && w.printed == {}
  }

  lemma PickDesk(c: Config, d: Delays, es: seq<Event>, w: World) returns (es': seq<Event>, w': World)
    requires Reaches(c, d, Start(), es, w) && Stored(w)
    ensures Reaches(c, d, Start(), es', w')
    ensures w'.db.jobs == map[1 := Row()] && w'.now == d.start && w'.dels == map[1 := Delivery.Marking(1)]
    ensures w'.sweeps == map[] && w'.printed == {}
  {
    var pick, wait := Deliver(1, Pick(Some(1))), Tick(d.start);
    var w1 := Step(c, w, pick);
    Go(c, d, Start(), es, w, pick, w1);
    w' := Step(c, w1, wait);
    Go(c, d, Start(), es + [pick], w1, wait, w');
    es' := es + [pick] + [wait];
  }

  lemma MarkedRow(db: Db)
    requires db.jobs == map[1 := Row()]
    ensures Fires(db, MarkSent(1, 1))
    ensures Apply(db, MarkSent(1, 1)).jobs == map[1 := Row().(state := PrintSent, dest := Some(1))]
  {
  }

  lemma MarkAsSent(c: Config, d: Delays, es: seq<Event>, w: World) returns (es': seq<Event>, w': World)
    requires Reaches(c, d, Start(), es, w)
    requires w.db.jobs == map[1 := Row()] && w.now == d.start && w.dels == map[1 := Delivery.Marking(1)]
    requires w.sweeps == map[] && w.printed == {}
    ensures Reaches(c, d, Start(), es', w') && SendingSince(w', d.start)
  {
    var mark := Deliver(1, Mark(NoFault));
    MarkedRow(w.db);
    w' := Step(c, w, mark);
    Go(c, d, Start(), es, w, mark, w');
    es' := es + [mark];
  }

  // Job 1 has printed; its deliverer is about to record that.
  predicate PrintedAt(w: World, at: nat) {
    && w.db.jobs == map[1 := Row().(state := PrintSent, dest := Some(1))] && w.now == at
    && w.dels == map[1 := Delivery.Resolving(PrintSent, Delivery.DeliverySucceeded)]
    && 1 in w.entered && w.sweeps == map[] && w.printed == {1}
  }

  lemma Print(c: Config, d: Delays, es: seq<Event>, w: World, sending: nat)
    returns (es': seq<Event>, w': World)
    requires Reaches(c, d, Start(), es, w) && SendingSince(w, d.start) && sending <= d.send
    ensures Reaches(c, d, Start(), es', w') && PrintedAt(w', d.start + sending) && w'.entered[1] == w'.now
  {
    var wait, sent := Tick(sending), Deliver(1, DelMove.Send(Delivery.SendOk));
    var w1 := Step(c, w, wait);
    Go(c, d, Start(), es, w, wait, w1);
    w' := Step(c, w1, sent);
    Go(c, d, Start(), es + [wait], w1, sent, w');
    es' := es + [wait] + [sent];
  }

  lemma Lag(c: Config, d: Delays, es: seq<Event>, w: World, at: nat, resolving: nat)
    returns (es': seq<Event>, w': World)
    requires Reaches(c, d, Start(), es, w) && PrintedAt(w, at) && w.entered[1] == w.now && resolving <= d.resolve
    ensures Reaches(c, d, Start(), es', w') && PrintedAt(w', at + resolving) && w'.now <= w'.entered[1] + d.resolve
  {
    var lag := Tick(resolving);
    w' := Step(c, w, lag);
    Go(c, d, Start(), es, w, lag, w');
    es' := es + [lag];
  }

  lemma SnapshotTakesIt(c: Config, w: World, at: nat)
    requires c.limit >= 1 && at > c.age && PrintedAt(w, at)
    ensures Enabled(c, w, Sweeping(0, Snapshot(at - c.age, [Stale(1, PrintSent)])))
  {
    var batch := [Stale(1, PrintSent)];
    assert batch[0].id in Ids(batch);
  }

  lemma TakeSnapshot(c: Config, d: Delays, es: seq<Event>, w: World, at: nat) returns (es': seq<Event>, w': World)
    requires c.limit >= 1 && at > c.age
    requires Reaches(c, d, Start(), es, w) && PrintedAt(w, at) && w.now <= w.entered[1] + d.resolve
    ensures Reaches(c, d, Start(), es', w') && w'.sweeps == map[0 := [Stale(1, PrintSent)]]
    ensures PrintedAt(w'.(sweeps := map[]), at) && w'.now <= w'.entered[1] + d.resolve
  {
    var snap := Sweeping(0, Snapshot(at - c.age, [Stale(1, PrintSent)]));
    SnapshotTakesIt(c, w, at);
    w' := Step(c, w, snap);
    Go(c, d, Start(), es, w, snap, w');
    es' := es + [snap];
  }

  lemma FailedRow(db: Db, now: int)
    requires db.jobs == map[1 := Row().(state := PrintSent, dest := Some(1))]
    ensures var db' := Apply(db, Update(1, PrintSent, PrintFailed, now));
      db'.jobs.Keys == {1} && db'.jobs[1].state == PrintFailed
  {
  }

  lemma SweepLive(c: Config, d: Delays, es: seq<Event>, w: World, at: nat) returns (es': seq<Event>, w': World)
    requires Reaches(c, d, Start(), es, w) && w.sweeps == map[0 := [Stale(1, PrintSent)]]
    requires PrintedAt(w.(sweeps := map[]), at) && w.now <= w.entered[1] + d.resolve
    ensures Reaches(c, d, Start(), es', w')
    ensures w'.db.jobs.Keys == {1} && w'.db.jobs[1].state == PrintFailed && w'.printed == {1}
    ensures w'.dels == map[1 := Delivery.Resolving(PrintSent, Delivery.DeliverySucceeded)]
  {
    var settle := Sweeping(0, Settle(NoFault));
    FailedRow(w.db, w.now);
    w' := Step(c, w, settle);
    Go(c, d, Start(), es, w, settle, w');
    es' := es + [settle];
  }

  lemma ResolveTooLate(c: Config, d: Delays, es: seq<Event>, w: World) returns (es': seq<Event>, w': World)
    requires Reaches(c, d, Start(), es, w)
    requires w.db.jobs.Keys == {1} && w.db.jobs[1].state == PrintFailed && w.printed == {1}
    requires w.dels == map[1 := Delivery.Resolving(PrintSent, Delivery.DeliverySucceeded)]
    ensures Reaches(c, d, Start(), es', w') && !ChargedIffPrinted(w')
  {
    var resolve := Deliver(1, Resolve(NoFault));
    w' := Step(c, w, resolve);
    Go(c, d, Start(), es, w, resolve, w');
    es' := es + [resolve];
    assert w'.dels[1] == Delivery.Returned(Delivery.DeliveryFailed, false) && 1 in w'.printed;
  }

  /** With delays that can exceed the age bound there is a timely run, without crash or fault, in which a document is
      printed, its job ends as print_failed, and the cost is given back. */
  lemma ExcessiveDelaysRace(c: Config, d: Delays) returns (es: seq<Event>)
    requires c.limit >= 1 && d.start + d.send + d.resolve > c.age
    ensures Timely(c, d, Start(), es) && Legal(c, Start(), es) && !ChargedIffPrinted(Run(c, Start(), es))
  {
    var at := if c.age + 1 >= d.start then c.age + 1 else d.start;
    var sending := if at - d.start <= d.send then at - d.start else d.send;
    var w: World;
    es, w := Fund(c, d);
    es, w := BeginSubmission(c, d, es, w);
    es, w := LockUser(c, d, es, w);
    es, w := CheckQuota(c, d, es, w);
    es, w := InsertRow(c, d, es, w);
    es, w := CommitRow(c, d, es, w);
    es, w := PickDesk(c, d, es, w);
    es, w := MarkAsSent(c, d, es, w);
    es, w := Print(c, d, es, w, sending);
    es, w := Lag(c, d, es, w, d.start + sending, at - d.start - sending);
    es, w := TakeSnapshot(c, d, es, w, at);
    es, w := SweepLive(c, d, es, w, at);
    es, w := ResolveTooLate(c, d, es, w);
  }

  /** Charged exactly when printed, in all timely runs from empty tables, if and only if the delays together
      fit the age bound. (The start-up check asks only that the age bound exceed the send timeout.) */
  lemma ChargedIffPrintedExactly(c: Config, d: Delays)
    requires c.limit >= 1
    ensures
      (forall w, es | Init(w) && Timely(c, d, w, es) :: Legal(c, w, es) && ChargedIffPrinted(Run(c, w, es)))
      <==> d.start + d.send + d.resolve <= c.age
  {
    if d.start + d.send + d.resolve <= c.age {
      forall w, es | Init(w) && Timely(c, d, w, es)
        ensures Legal(c, w, es) && ChargedIffPrinted(Run(c, w, es))
      {
        FittingDelaysCharge(c, d, w, es);
      }
    } else {
      var es := ExcessiveDelaysRace(c, d);
      assert Init(Start());
    }
  }
}
