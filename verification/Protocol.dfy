/** All actors over one database, one statement at a time.
    A run is a sequence of events; an event carries every nondeterministic choice of its step.
    Transactions read committed rows only, each statement sees the tables at that instant, and
    a row inserted by an open transaction is invisible until its commit. */
module Protocol {
  import opened Jobs
  import opened Tables
  import opened Stores
  import opened Queues
  import Delivery
  import Provisioning
  import Sweep

  // The attempts allowed per delivery (at least 1), the sweep age bound, and the sweep batch limit.
  datatype Config = Config(maxAttempts: int, age: int, limit: nat)

  // A quota transaction, by the statement it has completed, and how it ended for its caller.
  datatype Sub =
    | Begun(start: int, draft: Job)
    | Locked(start: int, draft: Job)
    | Checked(start: int, draft: Job, remaining: int)
    | Inserted(draft: Job, remaining: int, id: int, row: Job)
    | Accepted(id: int)
    | Rejected(id: int)
    | Aborted

  datatype World = World(
    db: Db,
    now: int,
    nextId: int,
    dests: map<int, Destination>,
    locks: map<string, int>,          // user row -> the submission holding its lock
    subs: map<int, Sub>,
    dels: map<int, Delivery.Pc>,      // by job
    entered: map<int, int>,           // when the deliverer of a job began to send, or to resolve
    sweeps: map<int, seq<Stale>>,     // by sweeper: what is left of its snapshot
    provs: map<int, Provisioning.Pc>,
    // History variables: no step depends on them.
    chosen: map<int, Destination>,    // the destination row picked for a job, as it was read
    printed: set<int>,                // jobs for which a send returned success
    founders: map<int, int>)          // semester -> the default quota of the provisioner that inserted it

  datatype SubMove = Begin(draft: Job) | Lock | Check | Insert | Commit(replyLost: bool) | Abort

  datatype DelMove =
    | Pick(dest: Option<int>)
    | Mark(fault: Fault)
    | Send(result: Delivery.SendResult)
    | Wait(expired: bool)
    | Resolve(fault: Fault)
    | Die

  datatype SweepMove = Snapshot(cutoff: int, batch: seq<Stale>) | Settle(fault: Fault) | Halt

  datatype Event =
    | Tick(elapsed: nat)
    | Submit(sid: int, sm: SubMove)
    | Deliver(job: int, dm: DelMove)
    | Sweeping(sweeper: int, wm: SweepMove)
    | StartProvision(p: int, user: string, codes: set<int>, defaultQuota: int)
    | Provision(p: int, pm: Provisioning.Move)
    | Refund(job: int)
    | SetDestination(dest: Destination)

  predicate Holding(s: Sub) { s.Locked? || s.Checked? || s.Inserted? }

  predicate Open(s: Sub) { s.Begun? || Holding(s) }

  predicate Live(pc: Delivery.Pc) { !pc.Returned? && !pc.Crashed? }

  function Requested(w: World, id: int, m: DelMove): Action
    requires id in w.dels
  {
    var pc := w.dels[id];
    if m.Mark? && pc.Marking? then MarkSent(id, pc.dest)
    else if m.Resolve? && pc.Resolving? then Update(id, pc.from, Delivery.Verdict(pc.out), w.now)
    else Skip
  }

  function DelEffect(w: World, id: int, m: DelMove): Action
    requires id in w.dels
  {
    if (m.Mark? || m.Resolve?) && m.fault == NotRun then Skip else Requested(w, id, m)
  }

  function Observed(w: World, id: int, m: DelMove): Delivery.Obs
    requires id in w.dels
  {
    match m
    case Pick(None) => Delivery.PickFailed
    case Pick(Some(d)) => Delivery.Picked(d)
    case Mark(f) => Delivery.Marked(ReplyWith(w.db, Requested(w, id, m), f))
    case Send(r) => Delivery.Sent(r)
    case Wait(x) => Delivery.Waited(x)
    case Resolve(f) => Delivery.Resolved(ReplyWith(w.db, Requested(w, id, m), f))
    case Die => Delivery.Crash
  }

  predicate CanSubmit(w: World, sid: int, m: SubMove) {
    match m
    case Begin(_) => sid !in w.subs
    case Lock =>
      sid in w.subs && w.subs[sid].Begun? && w.subs[sid].draft.user in w.db.users && w.subs[sid].draft.user !in w.locks
    case Check => sid in w.subs && w.subs[sid].Locked?
    case Insert => sid in w.subs && w.subs[sid].Checked? && RowChecks(w.subs[sid].draft)
    case Commit(_) => sid in w.subs && w.subs[sid].Inserted?
    case Abort => sid in w.subs && Open(w.subs[sid])
  }

  predicate CanDeliver(c: Config, w: World, id: int, m: DelMove) {
    && id in w.dels && id in w.db.jobs
    && Delivery.Next(w.dels[id], Observed(w, id, m), c.maxAttempts).Some?
    && (m.Pick? && m.dest.Some? ==>
      && m.dest.value in w.dests
      && w.dests[m.dest.value].id == m.dest.value
      && w.dests[m.dest.value].enabled
      && w.dests[m.dest.value].queue == w.db.jobs[id].queue)
  }

  ghost predicate CanSweep(c: Config, w: World, k: int, m: SweepMove) {
    match m
    case Snapshot(cutoff, batch) =>
      k !in w.sweeps && cutoff <= w.now - c.age && IsStaleBatch(w.db, Sweep.OPEN, cutoff, c.limit, batch)
    case Settle(_) => k in w.sweeps && w.sweeps[k] != []
    case Halt => k in w.sweeps
  }

  ghost predicate Enabled(c: Config, w: World, e: Event) {
    match e
    case Tick(_) => true
    case Submit(sid, m) => CanSubmit(w, sid, m)
    case Deliver(id, m) => CanDeliver(c, w, id, m)
    case Sweeping(k, m) => CanSweep(c, w, k, m)
    case StartProvision(p, _, _, _) => p !in w.provs
    case Provision(p, m) => p in w.provs && Provisioning.CanMove(w.provs[p], m)
    case Refund(id) => true
    case SetDestination(_) => true
  }

  // The statement an event commits, if any.
  ghost function Effect(c: Config, w: World, e: Event): Action
    requires Enabled(c, w, e)
  {
    match e
    case Submit(sid, Commit(_)) => AddJob(w.subs[sid].id, w.subs[sid].row)
    case Deliver(id, m) => DelEffect(w, id, m)
    case Sweeping(k, Settle(f)) =>
      if f == NotRun then Skip else Update(w.sweeps[k][0].id, w.sweeps[k][0].state, PrintFailed, w.now)
    case Provision(p, m) => Provisioning.Statement(w.provs[p], m)
    case Refund(id) => Update(id, PrintSucceeded, Refunded, w.now)
    case _ => Skip
  }

  // The next point of a quota transaction.
  ghost function SubAfter(w: World, sid: int, m: SubMove): Sub
    requires CanSubmit(w, sid, m)
  {
    match m
    case Begin(j) => Begun(w.now, j)
    case Lock => Locked(w.subs[sid].start, w.subs[sid].draft)
    case Check => Checked(w.subs[sid].start, w.subs[sid].draft, Remaining(w.db, w.subs[sid].draft.user))
    case Insert => Inserting(w.subs[sid], w.nextId)
    case Commit(lost) =>
      if lost then Aborted
      else if w.subs[sid].row.state == QuotaInsufficient then Rejected(w.subs[sid].id)
      else Accepted(w.subs[sid].id)
    case Abort => Aborted
  }

  function Inserting(s: Sub, id: int): Sub
    requires s.Checked?
  {
    var state := if s.remaining < s.draft.cost then QuotaInsufficient else QuotaDeducted;
    Inserted(s.draft, s.remaining, id, RowFor(s.draft, state, s.start))
  }

  function LocksAfter(w: World, sid: int, m: SubMove): map<string, int>
    requires CanSubmit(w, sid, m)
  {
    if m.Lock? then w.locks[w.subs[sid].draft.user := sid]
    else if m.Commit? || (m.Abort? && Holding(w.subs[sid])) then w.locks - {w.subs[sid].draft.user}
    else w.locks
  }

  // A commit that accepts the job and reaches the caller starts its delivery.
  predicate StartsDelivery(w: World, sid: int, m: SubMove)
    requires CanSubmit(w, sid, m)
  {
    m == Commit(false) && w.subs[sid].row.state != QuotaInsufficient
  }

  ghost function SubStep(w: World, sid: int, m: SubMove): World
    requires CanSubmit(w, sid, m)
  {
    w.(subs := w.subs[sid := SubAfter(w, sid, m)],
       locks := LocksAfter(w, sid, m),
       nextId := if m.Insert? then w.nextId + 1 else w.nextId,
       dels := if StartsDelivery(w, sid, m) then w.dels[w.subs[sid].id := Delivery.Picking] else w.dels)
  }

  ghost function DelStep(c: Config, w: World, id: int, m: DelMove): World
    requires CanDeliver(c, w, id, m)
  {
    var pc := w.dels[id];
    var pc' := Delivery.Next(pc, Observed(w, id, m), c.maxAttempts).value;
    w.(dels := w.dels[id := pc'],
       entered := if (pc.Marking? && pc'.Sending?) || pc'.Resolving? then w.entered[id := w.now] else w.entered,
       chosen := if m.Pick? && m.dest.Some? then w.chosen[id := w.dests[m.dest.value]] else w.chosen,
       printed := if m == Send(Delivery.SendOk) then w.printed + {id} else w.printed)
  }

  function SweepsAfter(w: World, k: int, m: SweepMove): map<int, seq<Stale>>
    requires k in w.sweeps || m.Snapshot?
    requires m.Settle? ==> w.sweeps[k] != []
  {
    match m
    case Snapshot(_, batch) => w.sweeps[k := batch]
    case Settle(_) => w.sweeps[k := w.sweeps[k][1..]]
    case Halt => w.sweeps - {k}
  }

  ghost function ProvStep(w: World, p: int, m: Provisioning.Move): World
    requires p in w.provs && Provisioning.CanMove(w.provs[p], m)
  {
    w.(provs := w.provs[p := Provisioning.After(w.provs[p], m, w.db)],
       founders := if m.EnsureSemester? && m.fault != NotRun && m.code !in w.db.semesters
                   then w.founders[m.code := w.provs[p].defaultQuota] else w.founders)
  }

  // What an event does to everything but the tables.
  ghost function ActorStep(c: Config, w: World, e: Event): World
    requires Enabled(c, w, e)
  {
    match e
    case Tick(elapsed) => w.(now := w.now + elapsed)
    case Submit(sid, m) => SubStep(w, sid, m)
    case Deliver(id, m) => DelStep(c, w, id, m)
    case Sweeping(k, m) => w.(sweeps := SweepsAfter(w, k, m))
    case StartProvision(p, user, codes, d) => w.(provs := w.provs[p := Provisioning.Starting(user, codes, d)])
    case Provision(p, m) => ProvStep(w, p, m)
    case Refund(id) => w
    case SetDestination(d) => w.(dests := w.dests[d.id := d])
  }

  ghost function Step(c: Config, w: World, e: Event): World
    requires Enabled(c, w, e)
  {
    ActorStep(c, w, e).(db := Apply(w.db, Effect(c, w, e)))
  }

  ghost predicate Legal(c: Config, w: World, es: seq<Event>)
    decreases |es|
  {
    es == [] || (Enabled(c, w, es[0]) && Legal(c, Step(c, w, es[0]), es[1..]))
  }

  ghost function Run(c: Config, w: World, es: seq<Event>): World
    requires Legal(c, w, es)
    decreases |es|
  {
    if es == [] then w else Run(c, Step(c, w, es[0]), es[1..])
  }

  // Empty tables, nobody at work; any destinations.
  predicate Init(w: World) {
    && w.db == EMPTY
    && w.locks == map[] && w.subs == map[] && w.dels == map[] && w.entered == map[]
    && w.sweeps == map[] && w.provs == map[] && w.chosen == map[] && w.printed == {} && w.founders == map[]
  }

  // The statements committed along a run.
  ghost function Effects(c: Config, w: World, es: seq<Event>): seq<Action>
    requires Legal(c, w, es)
    decreases |es|
  {
    if es == [] then [] else [Effect(c, w, es[0])] + Effects(c, Step(c, w, es[0]), es[1..])
  }

  /** Every run of the actors acts on the tables as the sequence of statements it commits:
      what is proved of all sequences of statements holds of all runs. */
  lemma {:induction false} RunIsActions(c: Config, w: World, es: seq<Event>)
    requires Legal(c, w, es)
    ensures Run(c, w, es).db == ApplyAll(w.db, Effects(c, w, es))
    decreases |es|
  {
    if es != [] {
      var acts := Effects(c, w, es);
      assert acts[1..] == Effects(c, Step(c, w, es[0]), es[1..]);
      RunIsActions(c, Step(c, w, es[0]), es[1..]);
    }
  }

  /** In particular every job ever inserted has a repetition-free path of the table as its history,
      gives its cost back at most once, and never pays again. */
  lemma JobHistories(c: Config, w: World, es: seq<Event>, id: int)
    requires Init(w) && Legal(c, w, es) && id in Run(c, w, es).db.jobs
    ensures var h := History(w.db, Effects(c, w, es), id); var s := Run(c, w, es).db.jobs[id].state;
      && IsPath(h) && |h| <= 4 && h[|h| - 1] == s
      && (forall i, j | 0 <= i < j < |h| :: h[i] != h[j])
      && Releases(h) == if DeductsQuota(h[0]) && !DeductsQuota(s) then 1 else 0
  {
    RunIsActions(c, w, es);
    RunLongHistory(w.db, Effects(c, w, es), id);
  }
}
