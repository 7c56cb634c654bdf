/** The tables as a value, and what one committed SQL statement does to them. */
module Tables {
  import opened Jobs
  import opened Sums

  datatype Semester = Semester(name: string, quota: int)

  type GrantKey = (string, int)

  datatype Db = Db(
    users: set<string>,
    semesters: map<int, Semester>,
    grants: map<GrantKey, int>,
    jobs: map<int, Job>)

  const EMPTY := Db({}, map[], map[], map[])

  // What a store call answers.
  datatype Reply = Done | UnexpectedState | InvalidTransition | Failed

  // How a call can go wrong: before the statement ran, or after it took effect.
  datatype Fault = NoFault | NotRun | ReplyLost

  datatype Action =
    | Skip
    | AddUser(user: string)
    | AddSemester(semester: int, row: Semester)
    | AddGrant(grantee: string, term: int, amount: int)
    | AddJob(id: int, job: Job)
    | Update(id: int, from: State, to: State, now: int)
    | MarkSent(id: int, dest: int)

  // The CHECK constraints on a job row.
  predicate RowChecks(j: Job) {
    && j.pages > 0
    && 0 <= j.colorPages <= j.pages
    && j.copies > 0
    && j.cost > 0
  }

  // A row as the quota transaction inserts it.
  predicate FreshRow(j: Job) {
    && RowChecks(j)
    && j.dest == None
    && j.refunded == None
    && (j.state == QuotaDeducted || j.state == QuotaInsufficient)
    && j.completed == if j.state == QuotaInsufficient then Some(j.submitted) else None
  }

  function Moved(j: Job, to: State, now: int): Job {
    j.(state := to,
       completed := if IsTerminal(to) then Some(now) else j.completed,
       refunded := if to == Refunded then Some(now) else j.refunded)
  }

  predicate InState(db: Db, id: int, s: State) {
    id in db.jobs && db.jobs[id].state == s
  }

  // Does the statement take effect (and, for a guarded update, find its row)?
  predicate Fires(db: Db, a: Action) {
    match a
    case Skip => true
    case AddUser(u) => true
    case AddSemester(s, row) => true
    case AddGrant(u, s, amount) => u in db.users && s in db.semesters && amount >= 0
    case AddJob(id, j) => id !in db.jobs && j.user in db.users && FreshRow(j)
    case Update(id, from, to, now) => ValidTransition(from, to) && InState(db, id, from)
    case MarkSent(id, dest) => InState(db, id, QuotaDeducted)
  }

  function Apply(db: Db, a: Action): Db {
    if !Fires(db, a) then db else
    match a
    case Skip => db
    case AddUser(u) => db.(users := db.users + {u})
    case AddSemester(s, row) =>
      if s in db.semesters then db else db.(semesters := db.semesters[s := row])
    case AddGrant(u, s, amount) =>
      if (u, s) in db.grants then db else db.(grants := db.grants[(u, s) := amount])
    case AddJob(id, j) => db.(jobs := db.jobs[id := j])
    case Update(id, from, to, now) => db.(jobs := db.jobs[id := Moved(db.jobs[id], to, now)])
    case MarkSent(id, dest) =>
      db.(jobs := db.jobs[id := db.jobs[id].(state := PrintSent, dest := Some(dest))])
  }

  /** An update that finds its row keeps all of it but the state and the times, which are the update's own. */
  lemma UpdateRecords(db: Db, id: int, from: State, to: State, now: int)
    requires InState(db, id, from) && ValidTransition(from, to)
    ensures var j := db.jobs[id];
      Apply(db, Update(id, from, to, now)) == db.(jobs := db.jobs[id := Moved(j, to, now)])
    ensures var j := db.jobs[id];
      Moved(j, to, now) == j.(
        state := to,
        completed := if to == PrintSent then j.completed else Some(now),
        refunded := if to == Refunded then Some(now) else j.refunded)
  {
  }

  function ReplyTo(db: Db, a: Action): Reply {
    match a
    case Update(id, from, to, now) =>
      if !ValidTransition(from, to) then InvalidTransition
      else if InState(db, id, from) then Done else UnexpectedState
    case MarkSent(id, dest) =>
      if InState(db, id, QuotaDeducted) then Done else UnexpectedState
    case _ => if Fires(db, a) then Done else Failed
  }

  function ApplyWith(db: Db, a: Action, f: Fault): Db {
    if f == NotRun then db else Apply(db, a)
  }

  // The transition table is consulted before the database is: that answer cannot be lost.
  function ReplyWith(db: Db, a: Action, f: Fault): Reply {
    if f == NoFault || ReplyTo(db, a) == InvalidTransition then ReplyTo(db, a) else Failed
  }

  function ApplyAll(db: Db, acts: seq<Action>): Db
    decreases |acts|
  {
    if acts == [] then db else ApplyAll(Apply(db, acts[0]), acts[1..])
  }

  // ---- Quota, derived from the rows ----

  ghost function GrantsOf(db: Db, u: string): map<GrantKey, int> {
    map k | k in db.grants && k.0 == u :: db.grants[k]
  }

  ghost function ChargesOf(db: Db, u: string): map<int, int> {
    map id | id in db.jobs && db.jobs[id].user == u && DeductsQuota(db.jobs[id].state) :: db.jobs[id].cost
  }

  ghost function Granted(db: Db, u: string): int { Sum(GrantsOf(db, u)) }

  ghost function Spent(db: Db, u: string): int { Sum(ChargesOf(db, u)) }

  ghost function Remaining(db: Db, u: string): int { Granted(db, u) - Spent(db, u) }

  // The states a job can be in after one more statement.
  ghost function Target(a: Action): State
    requires a.Update? || a.MarkSent?
  {
    if a.Update? then a.to else PrintSent
  }

  // How one statement moves the balance of `u`, read off the statement alone.
  ghost function Delta(db: Db, a: Action, u: string): int {
    if !Fires(db, a) then 0 else
    match a
    case AddGrant(g, s, amount) => if g == u && (g, s) !in db.grants then amount else 0
    case AddJob(id, j) => if j.user == u && j.state == QuotaDeducted then -j.cost else 0
    case Update(id, from, to, now) =>
      if db.jobs[id].user == u && (to == PrintFailed || to == Refunded) then db.jobs[id].cost else 0
    case _ => 0
  }

  lemma GrantedAfter(db: Db, a: Action, u: string)
    ensures Granted(Apply(db, a), u) ==
      Granted(db, u) + if a.AddGrant? then Delta(db, a, u) else 0
  {
    var db' := Apply(db, a);
    if db'.grants == db.grants {
      assert GrantsOf(db', u) == GrantsOf(db, u);
    } else if a.grantee == u {
      var k := (a.grantee, a.term);
      assert GrantsOf(db', u) == GrantsOf(db, u)[k := a.amount];
      SumAdd(GrantsOf(db, u), k, a.amount);
    } else {
      assert GrantsOf(db', u) == GrantsOf(db, u);
    }
  }

  // What one row contributes to the amount spent by `u`.
  ghost function Charge(db: Db, id: int, u: string): int {
    if id in db.jobs && db.jobs[id].user == u && DeductsQuota(db.jobs[id].state) then db.jobs[id].cost else 0
  }

  lemma SpentWithRow(db: Db, id: int, j: Job, u: string)
    ensures var db' := db.(jobs := db.jobs[id := j]);
      Spent(db', u) == Spent(db, u) - Charge(db, id, u) + Charge(db', id, u)
  {
    var db' := db.(jobs := db.jobs[id := j]);
    var before, after := ChargesOf(db, u), ChargesOf(db', u);
    var others := before - {id};
    assert after - {id} == others;
    if id in before { SumSplit(before, id); } else { assert before == others; }
    if id in after { SumSplit(after, id); } else { assert after == others; }
  }

  lemma SpentAfter(db: Db, a: Action, u: string)
    ensures Spent(Apply(db, a), u) == Spent(db, u) - if a.AddGrant? then 0 else Delta(db, a, u)
  {
    var db' := Apply(db, a);
    if db'.jobs == db.jobs {
      assert ChargesOf(db', u) == ChargesOf(db, u);
    }
    if Fires(db, a) && (a.AddJob? || a.Update? || a.MarkSent?) {
      SpentWithRow(db, a.id, db'.jobs[a.id], u);
    }
  }

  /** The quota the queries derive moves as an incremental ledger: by grants, accepts, failures and refunds only. */
  lemma RemainingAfter(db: Db, a: Action, u: string)
    ensures Remaining(Apply(db, a), u) == Remaining(db, u) + Delta(db, a, u)
  {
    GrantedAfter(db, a, u);
    SpentAfter(db, a, u);
  }

  ghost function Deltas(db: Db, acts: seq<Action>, u: string): int
    decreases |acts|
  {
    if acts == [] then 0
    else Delta(db, acts[0], u) + Deltas(Apply(db, acts[0]), acts[1..], u)
  }

  /** Along every run the derived quota is the balance of the incremental ledger. */
  lemma {:induction false} DerivedIsIncremental(db: Db, acts: seq<Action>, u: string)
    ensures Remaining(ApplyAll(db, acts), u) == Remaining(db, u) + Deltas(db, acts, u)
    decreases |acts|
  {
    if acts != [] {
      RemainingAfter(db, acts[0], u);
      DerivedIsIncremental(Apply(db, acts[0]), acts[1..], u);
    }
  }

  // Every job row satisfies its CHECK constraints.
  ghost predicate RowsChecked(db: Db) {
    forall id | id in db.jobs :: RowChecks(db.jobs[id])
  }

  /** Only accepting a job of the user can lower the balance of that user. */
  lemma BalanceFallsOnlyByAccept(db: Db, a: Action, u: string)
    requires RowsChecked(db)
    ensures RowsChecked(Apply(db, a))
    ensures Remaining(Apply(db, a), u) >= Remaining(db, u) ||
      (a.AddJob? && a.job.user == u && a.job.state == QuotaDeducted)
  {
    RemainingAfter(db, a, u);
  }

  // ---- One job under any sequence of statements ----

  // Rows are never deleted; states move along the table; what was asked for, its cost and its time never change.
  ghost predicate Later(j: Job, j': Job) {
    && j' == j.(state := j'.state, dest := j'.dest, completed := j'.completed, refunded := j'.refunded)
    && Rank(j'.state) <= Rank(j.state)
    && Height(j'.state) <= Height(j.state)
    && (Height(j'.state) == Height(j.state) ==> j' == j)
  }

  lemma StepIsLater(db: Db, a: Action, id: int)
    requires id in db.jobs
    ensures id in Apply(db, a).jobs && Later(db.jobs[id], Apply(db, a).jobs[id])
  {
  }

  lemma {:induction false} RunIsLater(db: Db, acts: seq<Action>, id: int)
    requires id in db.jobs
    ensures id in ApplyAll(db, acts).jobs && Later(db.jobs[id], ApplyAll(db, acts).jobs[id])
    decreases |acts|
  {
    if acts != [] {
      StepIsLater(db, acts[0], id);
      RunIsLater(Apply(db, acts[0]), acts[1..], id);
    }
  }

  // A history with one more state before it, unless it starts there.
  function Extended(s: State, h: seq<State>): seq<State> {
    if h != [] && h[0] == s then h else [s] + h
  }

  // The states job `id` passes through, each recorded when it is entered.
  ghost function History(db: Db, acts: seq<Action>, id: int): seq<State>
    decreases |acts|
  {
    if acts == [] then (if id in db.jobs then [db.jobs[id].state] else [])
    else
      var rest := History(Apply(db, acts[0]), acts[1..], id);
      if id in db.jobs then Extended(db.jobs[id].state, rest) else rest
  }

  // Each state follows from the one before it.
  predicate Steps(h: seq<State>) {
    forall i | 0 < i < |h| :: ValidTransition(h[i - 1], h[i])
  }

  lemma ExtendedSteps(s: State, h: seq<State>)
    requires Steps(h) && (h != [] ==> h[0] == s || ValidTransition(s, h[0]))
    ensures Steps(Extended(s, h))
  {
  }

  lemma HistoryStarts(db: Db, acts: seq<Action>, id: int)
    requires id in db.jobs
    ensures History(db, acts, id) != [] && History(db, acts, id)[0] == db.jobs[id].state
  {
  }

  lemma {:induction false} HistoryEnds(db: Db, acts: seq<Action>, id: int)
    requires id in db.jobs
    ensures id in ApplyAll(db, acts).jobs && History(db, acts, id) != []
    ensures var h := History(db, acts, id); h[|h| - 1] == ApplyAll(db, acts).jobs[id].state
    decreases |acts|
  {
    if acts != [] {
      StepIsLater(db, acts[0], id);
      HistoryEnds(Apply(db, acts[0]), acts[1..], id);
    }
  }

  lemma StepIsTransition(db: Db, a: Action, id: int)
    requires id in db.jobs
    ensures var db' := Apply(db, a);
      && id in db'.jobs
      && (db'.jobs[id].state == db.jobs[id].state || ValidTransition(db.jobs[id].state, db'.jobs[id].state))
  {
  }

  lemma {:induction false} HistorySteps(db: Db, acts: seq<Action>, id: int)
    requires id in db.jobs
    ensures Steps(History(db, acts, id))
    decreases |acts|
  {
    if acts != [] {
      var db' := Apply(db, acts[0]);
      StepIsTransition(db, acts[0], id);
      HistorySteps(db', acts[1..], id);
      HistoryStarts(db', acts[1..], id);
      ExtendedSteps(db.jobs[id].state, History(db', acts[1..], id));
    }
  }

  lemma {:induction false} HistoryIsPath(db: Db, acts: seq<Action>, id: int)
    requires id !in db.jobs && id in ApplyAll(db, acts).jobs
    ensures IsPath(History(db, acts, id))
    ensures var h := History(db, acts, id); h[|h| - 1] == ApplyAll(db, acts).jobs[id].state
    decreases |acts|
  {
    var db' := Apply(db, acts[0]);
    assert History(db, acts, id) == History(db', acts[1..], id);
    if id in db'.jobs {
      HistoryStarts(db', acts[1..], id);
      HistoryEnds(db', acts[1..], id);
      HistorySteps(db', acts[1..], id);
    } else {
      HistoryIsPath(db', acts[1..], id);
    }
  }

  /** The run-long history of a job that enters during the run is a path in the transition table without
      repetition: its cost is given back at most once, and exactly when it no longer counts as spent. */
  lemma RunLongHistory(db: Db, acts: seq<Action>, id: int)
    requires id !in db.jobs && id in ApplyAll(db, acts).jobs
    ensures var h := History(db, acts, id); var s := ApplyAll(db, acts).jobs[id].state;
      && IsPath(h) && |h| <= 4 && h[|h| - 1] == s
      && (forall i, j | 0 <= i < j < |h| :: h[i] != h[j])
      && Releases(h) == if DeductsQuota(h[0]) && !DeductsQuota(s) then 1 else 0
  {
    HistoryIsPath(db, acts, id);
    PathShape(History(db, acts, id));
  }

  // ---- Racing guarded updates ----

  // A request to leave state `from` of job `id` along an edge of the table.
  predicate Leaves(a: Action, id: int, from: State) {
    || (a.Update? && a.id == id && a.from == from && ValidTransition(from, a.to))
    || (a.MarkSent? && a.id == id && from == QuotaDeducted)
  }

  function Shifted(positions: seq<nat>): (r: seq<nat>)
    ensures |r| == |positions|
  {
    seq(|positions|, i requires 0 <= i < |positions| => positions[i] + 1)
  }

  // The positions of the requests to leave `from`.
  ghost function Racers(acts: seq<Action>, id: int, from: State): seq<nat> {
    if acts == [] then []
    else (if Leaves(acts[0], id, from) then [0] else []) + Shifted(Racers(acts[1..], id, from))
  }

  // The positions at which such a request is answered with success.
  ghost function Winners(db: Db, acts: seq<Action>, id: int, from: State): seq<nat>
    decreases |acts|
  {
    if acts == [] then []
    else
      (if Leaves(acts[0], id, from) && ReplyTo(db, acts[0]) == Done then [0] else []) +
        Shifted(Winners(Apply(db, acts[0]), acts[1..], id, from))
  }

  lemma {:induction false} NoWinnerOnceLeft(db: Db, acts: seq<Action>, id: int, from: State)
    requires id in db.jobs && db.jobs[id].state != from && Height(db.jobs[id].state) <= Height(from)
    ensures Winners(db, acts, id, from) == []
    decreases |acts|
  {
    if acts != [] {
      StepIsLater(db, acts[0], id);
      NoWinnerOnceLeft(Apply(db, acts[0]), acts[1..], id, from);
    }
  }

  lemma FirstRacerWins(db: Db, acts: seq<Action>, id: int, from: State)
    requires InState(db, id, from) && acts != [] && Leaves(acts[0], id, from)
    ensures Winners(db, acts, id, from) == [0] && Racers(acts, id, from) != [] && Racers(acts, id, from)[0] == 0
  {
    StepIsLater(db, acts[0], id);
    TransitionsDescend(from, Target(acts[0]));
    NoWinnerOnceLeft(Apply(db, acts[0]), acts[1..], id, from);
  }

  lemma OthersDoNotLeave(db: Db, a: Action, id: int, from: State)
    requires InState(db, id, from) && !Leaves(a, id, from)
    ensures InState(Apply(db, a), id, from)
  {
  }

  /** Any number of racers leaving the same state of one job, among any other statements:
      exactly one wins, and it is the first. */
  lemma {:induction false} OneWinner(db: Db, acts: seq<Action>, id: int, from: State)
    requires InState(db, id, from)
    ensures Winners(db, acts, id, from) ==
      if Racers(acts, id, from) == [] then [] else [Racers(acts, id, from)[0]]
    decreases |acts|
  {
    if acts != [] && Leaves(acts[0], id, from) {
      FirstRacerWins(db, acts, id, from);
    } else if acts != [] {
      OthersDoNotLeave(db, acts[0], id, from);
      OneWinner(Apply(db, acts[0]), acts[1..], id, from);
    }
  }

  // ---- Row consistency ----

  predicate RowConsistent(j: Job, now: int) {
    && RowChecks(j)
    && j.state != Unknown
    && j.submitted <= now
    && (j.completed.Some? <==> IsTerminal(j.state))
    && (j.refunded.Some? <==> j.state == Refunded)
    && (j.refunded.Some? ==> j.refunded == j.completed)
    && (j.completed.Some? ==> j.submitted <= j.completed.value <= now)
  }

  ghost predicate RowsConsistent(db: Db, now: int) {
    forall id | id in db.jobs :: RowConsistent(db.jobs[id], now)
  }

  predicate Timed(a: Action, now: int) {
    (a.Update? ==> a.now == now) && (a.AddJob? ==> a.job.submitted <= now)
  }

  lemma StepKeepsRows(db: Db, a: Action, now: int)
    requires RowsConsistent(db, now) && Timed(a, now)
    ensures RowsConsistent(Apply(db, a), now)
  {
  }
}
