/** The PostgreSQL store: each method issues the statements of one Go method, in order. */
module Stores {
  import opened Jobs
  import opened Sums
  import opened Tables
  import Semesters

  // A row of the sweeper's snapshot.
  datatype Stale = Stale(id: int, state: State)

  predicate IsStale(db: Db, states: set<State>, cutoff: int, id: int) {
    id in db.jobs && db.jobs[id].state in states && db.jobs[id].submitted < cutoff
  }

  // What ORDER BY submitted_at LIMIT n may return; ties may be broken either way.
  ghost predicate IsStaleBatch(db: Db, states: set<State>, cutoff: int, limit: nat, batch: seq<Stale>) {
    && (forall i | 0 <= i < |batch| ::
      IsStale(db, states, cutoff, batch[i].id) && batch[i].state == db.jobs[batch[i].id].state)
    && (forall i, j | 0 <= i < j < |batch| ::
      batch[i].id != batch[j].id && db.jobs[batch[i].id].submitted <= db.jobs[batch[j].id].submitted)
    && |batch| <= limit
    && (forall id | IsStale(db, states, cutoff, id) && id !in Ids(batch) ::
      |batch| == limit && forall i | 0 <= i < |batch| ::
        db.jobs[batch[i].id].submitted <= db.jobs[id].submitted)
  }

  ghost function Ids(batch: seq<Stale>): set<int> {
    set i | 0 <= i < |batch| :: batch[i].id
  }

  lemma SomeMember(s: set<int>)
    requires s != {}
    ensures exists x: int :: x in s
  {
    if forall x: int :: x !in s { assert false; }
  }

  lemma IdsAppend(batch: seq<Stale>, s: Stale)
    ensures Ids(batch + [s]) == Ids(batch) + {s.id}
  {
    var more := batch + [s];
    assert more[|batch|].id in Ids(more);
    assert forall i | 0 <= i < |batch| :: more[i] == batch[i];
  }

  // `out` holds, oldest first, the stale rows not in `rows`, and none of them is newer than those.
  ghost predicate Collected(db: Db, states: set<State>, cutoff: int, rows: set<int>, out: seq<Stale>) {
    && (forall id :: id in rows <==> IsStale(db, states, cutoff, id) && id !in Ids(out))
    && (forall i | 0 <= i < |out| ::
      IsStale(db, states, cutoff, out[i].id) && out[i].state == db.jobs[out[i].id].state)
    && (forall i, j | 0 <= i < j < |out| ::
      out[i].id != out[j].id && db.jobs[out[i].id].submitted <= db.jobs[out[j].id].submitted)
    && (forall i, id | 0 <= i < |out| && id in rows :: db.jobs[out[i].id].submitted <= db.jobs[id].submitted)
  }

  lemma CollectOldest(db: Db, states: set<State>, cutoff: int, rows: set<int>, out: seq<Stale>, first: int)
    requires Collected(db, states, cutoff, rows, out)
    requires first in rows && forall id | id in rows :: db.jobs[first].submitted <= db.jobs[id].submitted
    ensures Collected(db, states, cutoff, rows - {first}, out + [Stale(first, db.jobs[first].state)])
  {
    var s := Stale(first, db.jobs[first].state);
    IdsAppend(out, s);
    assert forall i | 0 <= i < |out| :: (out + [s])[i] == out[i] && out[i].id in Ids(out);
  }

  // Where a quota transaction breaks off, if it does.
  datatype TxFaults = TxFaults(begin: bool, lock: bool, read: bool, insert: bool, commit: Fault)

  datatype StoreResult = Stored(row: Job) | Insufficient(row: Job, remaining: int) | StoreError

  // The row the quota transaction inserts; now() is the start of the transaction.
  function RowFor(j: Job, s: State, begun: int): Job {
    j.(state := s, dest := None, refunded := None, submitted := begun,
       completed := if s == QuotaInsufficient then Some(begun) else None)
  }

  // No statement adds a job of the user: what holding the user's row lock means to other submitters.
  ghost predicate LockRespected(acts: seq<Action>, user: string) {
    forall i | 0 <= i < |acts| :: acts[i].AddJob? ==> acts[i].job.user != user
  }

  // No statement uses the identity value reserved for our row.
  ghost predicate IdReserved(acts: seq<Action>, id: int) {
    forall i | 0 <= i < |acts| :: acts[i].AddJob? ==> acts[i].id != id
  }

  /** Whatever other actors commit while the user row is locked, the balance read stays a lower bound. */
  lemma {:induction false} ReadStaysLowerBound(db: Db, acts: seq<Action>, user: string)
    requires RowsChecked(db) && LockRespected(acts, user)
    ensures RowsChecked(ApplyAll(db, acts))
    ensures Remaining(ApplyAll(db, acts), user) >= Remaining(db, user)
    decreases |acts|
  {
    if acts != [] {
      BalanceFallsOnlyByAccept(db, acts[0], user);
      ReadStaysLowerBound(Apply(db, acts[0]), acts[1..], user);
    }
  }

  lemma {:induction false} ReservedIdStaysFree(db: Db, acts: seq<Action>, id: int)
    requires id !in db.jobs && IdReserved(acts, id)
    ensures id !in ApplyAll(db, acts).jobs
    decreases |acts|
  {
    if acts != [] { ReservedIdStaysFree(Apply(db, acts[0]), acts[1..], id); }
  }

  lemma {:induction false} UsersStay(db: Db, acts: seq<Action>, user: string)
    requires user in db.users
    ensures user in ApplyAll(db, acts).users
    decreases |acts|
  {
    if acts != [] { UsersStay(Apply(db, acts[0]), acts[1..], user); }
  }

  // What the transaction's answer says about the tables it read, those it committed into, and those it left.
  ghost predicate QuotaOutcome(j: Job, id: int, begun: int, atRead: Db, atCommit: Db, after: Db, result: StoreResult) {
    match result
    case Stored(row) =>
      && Remaining(atRead, j.user) >= j.cost
      && row == RowFor(j, QuotaDeducted, begun)
      && Fires(atCommit, AddJob(id, row))
      && after == Apply(atCommit, AddJob(id, row))
      && 0 <= Remaining(after, j.user) == Remaining(atCommit, j.user) - j.cost
    case Insufficient(row, remaining) =>
      && remaining == Remaining(atRead, j.user) < j.cost
      && row == RowFor(j, QuotaInsufficient, begun)
      && Fires(atCommit, AddJob(id, row))
      && after == Apply(atCommit, AddJob(id, row))
      && Remaining(after, j.user) == Remaining(atCommit, j.user)
    case StoreError =>
      // The row may be there nevertheless, if only the answer to the commit was lost.
      id in after.jobs ==>
        && after.jobs[id] in [RowFor(j, QuotaDeducted, begun), RowFor(j, QuotaInsufficient, begun)]
        && (DeductsQuota(after.jobs[id].state) ==> Remaining(after, j.user) >= 0)
  }

  lemma CommitSettles(j: Job, id: int, begun: int, remaining: int, atRead: Db, atCommit: Db)
    requires remaining == Remaining(atRead, j.user) <= Remaining(atCommit, j.user)
    requires id !in atCommit.jobs && j.user in atCommit.users && RowChecks(j)
    ensures var row := RowFor(j, if remaining < j.cost then QuotaInsufficient else QuotaDeducted, begun);
      var after := Apply(atCommit, AddJob(id, row));
      && after == atCommit.(jobs := atCommit.jobs[id := row])
      && QuotaOutcome(j, id, begun, atRead, atCommit, after, StoreError)
      && QuotaOutcome(j, id, begun, atRead, atCommit, after,
           if remaining < j.cost then Insufficient(row, remaining) else Stored(row))
  {
    var row := RowFor(j, if remaining < j.cost then QuotaInsufficient else QuotaDeducted, begun);
    RemainingAfter(atCommit, AddJob(id, row), j.user);
  }

  // Other actors' statements while the user row is locked.
  lemma LockedInterval(db: Db, acts: seq<Action>, user: string, id: int)
    requires RowsChecked(db) && id !in db.jobs && user in db.users
    requires LockRespected(acts, user) && IdReserved(acts, id)
    ensures var db' := ApplyAll(db, acts);
      RowsChecked(db') && id !in db'.jobs && user in db'.users && Remaining(db', user) >= Remaining(db, user)
  {
    ReservedIdStaysFree(db, acts, id);
    ReadStaysLowerBound(db, acts, user);
    UsersStay(db, acts, user);
  }

  class Store {
    var users: set<string>
    var semesters: map<int, Semester>
    var grants: map<GrantKey, int>
    var jobs: map<int, Job>

    constructor ()
      ensures Tables() == EMPTY
    {
      users, semesters, grants, jobs := {}, map[], map[], map[];
    }

    function Tables(): Db
      reads this
    {
      Db(users, semesters, grants, jobs)
    }

    method SetTables(db: Db)
      modifies this
      ensures Tables() == db
    {
      users, semesters, grants, jobs := db.users, db.semesters, db.grants, db.jobs;
    }

    // Statements that other actors commit between two statements of the caller.
    method Meanwhile(acts: seq<Action>)
      modifies this
      ensures Tables() == old(ApplyAll(Tables(), acts))
    {
      for i := 0 to |acts|
        invariant ApplyAll(Tables(), acts[i..]) == old(ApplyAll(Tables(), acts))
      {
        assert acts[i..][1..] == acts[i + 1..];
        SetTables(Apply(Tables(), acts[i]));
      }
    }

    method GrantedQuota(user: string) returns (total: int)
      ensures total == Granted(Tables(), user)
    {
      total := 0;
      var rows := grants.Keys;
      assert (map k | k in grants && k !in rows && k.0 == user :: grants[k]) == map[];
      while rows != {}
        invariant rows <= grants.Keys
        invariant total == Sum(map k | k in grants && k !in rows && k.0 == user :: grants[k])
      {
        ghost var seen := map k | k in grants && k !in rows && k.0 == user :: grants[k];
        var r :| r in rows;
        rows := rows - {r};
        ghost var now := map k | k in grants && k !in rows && k.0 == user :: grants[k];
        if r.0 == user {
          SumAdd(seen, r, grants[r]);
          assert now == seen[r := grants[r]];
          total := total + grants[r];
        } else {
          assert now == seen;
        }
      }
      assert (map k | k in grants && k !in rows && k.0 == user :: grants[k]) == GrantsOf(Tables(), user);
    }

    method SpentQuota(user: string) returns (total: int)
      ensures total == Spent(Tables(), user)
    {
      total := 0;
      var rows := jobs.Keys;
      assert (map k | k in jobs && k !in rows && Charges(user, k) :: jobs[k].cost) == map[];
      while rows != {}
        invariant rows <= jobs.Keys
        invariant total == Sum(map k | k in jobs && k !in rows && Charges(user, k) :: jobs[k].cost)
      {
        ghost var seen := map k | k in jobs && k !in rows && Charges(user, k) :: jobs[k].cost;
        SomeMember(rows);
        var r :| r in rows;
        rows := rows - {r};
        ghost var now := map k | k in jobs && k !in rows && Charges(user, k) :: jobs[k].cost;
        DeductingNamesAgree(jobs[r].state);
        if jobs[r].user == user && Name(jobs[r].state) in QuotaDeductingStateNames() {
          SumAdd(seen, r, jobs[r].cost);
          assert now == seen[r := jobs[r].cost];
          total := total + jobs[r].cost;
        } else {
          assert now == seen;
        }
      }
      assert (map k | k in jobs && k !in rows && Charges(user, k) :: jobs[k].cost) == ChargesOf(Tables(), user);
    }

    predicate Charges(user: string, id: int)
      reads this
    {
      id in jobs && jobs[id].user == user && DeductsQuota(jobs[id].state)
    }

    method RemainingQuota(user: string) returns (remaining: int)
      ensures remaining == Remaining(Tables(), user)
    {
      var granted := GrantedQuota(user);
      var spent := SpentQuota(user);
      remaining := granted - spent;
    }

    /** The quota transaction, with other actors' statements before each of its own.
        `id` is the identity value its insert draws; `begun` is now() for the transaction. */
    method CheckQuotaAndStore(j: Job, id: int, begun: int, faults: TxFaults,
        beforeLock: seq<Action>, beforeRead: seq<Action>, beforeInsert: seq<Action>, beforeCommit: seq<Action>)
      returns (result: StoreResult)
      requires RowsChecked(Tables()) && id !in jobs
      requires IdReserved(beforeLock, id)
      requires forall acts | acts in [beforeRead, beforeInsert, beforeCommit] ::
        LockRespected(acts, j.user) && IdReserved(acts, id)
      modifies this
      ensures var atRead := old(ApplyAll(ApplyAll(Tables(), beforeLock), beforeRead));
        QuotaOutcome(j, id, begun, atRead, ApplyAll(ApplyAll(atRead, beforeInsert), beforeCommit), Tables(), result)
      ensures result.Stored? || result.Insufficient? ==>
        && id in jobs && jobs[id] == result.row
        && result.row == Job(j.user, j.queue, None, if result.Stored? then QuotaDeducted else QuotaInsufficient,
          j.pages, j.colorPages, j.copies, j.cost, j.color, j.duplex, j.document,
          begun, if result.Stored? then None else Some(begun), None)
      ensures result == StoreError && faults.commit != ReplyLost ==> id !in jobs
      ensures faults == TxFaults(false, false, false, false, NoFault) ==>
        (result == StoreError <==>
          j.user !in old(ApplyAll(Tables(), beforeLock)).users || !RowChecks(j))
    {
      if faults.begin { return StoreError; }

      ReservedIdStaysFree(Tables(), beforeLock, id);
      ChecksStay(Tables(), beforeLock);
      Meanwhile(beforeLock);
      if faults.lock || j.user !in users { return StoreError; }

      LockedInterval(Tables(), beforeRead, j.user, id);
      Meanwhile(beforeRead);
      if faults.read { return StoreError; }
      ghost var atRead := Tables();
      var remaining := RemainingQuota(j.user);

      var state := QuotaDeducted;
      if remaining < j.cost {
        state := QuotaInsufficient;
      }

      LockedInterval(Tables(), beforeInsert, j.user, id);
      Meanwhile(beforeInsert);
      var row := RowFor(j, state, begun);
      if faults.insert || !RowChecks(row) { return StoreError; }

      LockedInterval(Tables(), beforeCommit, j.user, id);
      Meanwhile(beforeCommit);
      if faults.commit == NotRun { return StoreError; }
      CommitSettles(j, id, begun, remaining, atRead, Tables());
      jobs := jobs[id := row];
      if faults.commit == ReplyLost { return StoreError; }

      if state == QuotaInsufficient {
        return Insufficient(row, remaining);
      }
      return Stored(row);
    }

    method UpdateJobState(id: int, from: State, to: State, now: int, fault: Fault) returns (reply: Reply)
      modifies this
      ensures Tables() == ApplyWith(old(Tables()), Update(id, from, to, now), fault)
      ensures reply == ReplyWith(old(Tables()), Update(id, from, to, now), fault)
      // The row it found keeps all but its state and the times of this update.
      ensures reply == Done ==>
        && old(InState(Tables(), id, from))
        && jobs == old(jobs)[id := old(jobs[id]).(
          state := to,
          completed := if to == PrintSent then old(jobs[id].completed) else Some(now),
          refunded := if to == Refunded then Some(now) else old(jobs[id].refunded))]
      ensures reply == UnexpectedState ==> !old(InState(Tables(), id, from)) && Tables() == old(Tables())
    {
      if !ValidTransition(from, to) { return InvalidTransition; }
      if fault == NotRun { return Failed; }
      var affected := 0;
      if id in jobs && jobs[id].state == from {
        UpdateRecords(Tables(), id, from, to, now);
        jobs := jobs[id := Moved(jobs[id], to, now)];
        affected := 1;
      }
      if fault == ReplyLost { return Failed; }
      if affected == 0 { return UnexpectedState; }
      return Done;
    }

    method MarkSent(id: int, dest: int, fault: Fault) returns (reply: Reply)
      modifies this
      ensures Tables() == ApplyWith(old(Tables()), Action.MarkSent(id, dest), fault)
      ensures reply == ReplyWith(old(Tables()), Action.MarkSent(id, dest), fault)
      ensures reply == Done ==>
        && old(InState(Tables(), id, QuotaDeducted))
        && jobs == old(jobs)[id := old(jobs[id]).(state := PrintSent, dest := Some(dest))]
      ensures reply == UnexpectedState ==> !old(InState(Tables(), id, QuotaDeducted)) && Tables() == old(Tables())
    {
      if fault == NotRun { return Failed; }
      var affected := 0;
      if id in jobs && jobs[id].state == QuotaDeducted {
        jobs := jobs[id := jobs[id].(state := PrintSent, dest := Some(dest))];
        affected := 1;
      }
      if fault == ReplyLost { return Failed; }
      if affected == 0 { return UnexpectedState; }
      return Done;
    }

    method StaleJobs(states: set<State>, olderThan: int, limit: nat) returns (out: seq<Stale>)
      ensures IsStaleBatch(Tables(), states, olderThan, limit, out)
    {
      out := [];
      var rows := set id | id in jobs && jobs[id].state in states && jobs[id].submitted < olderThan;
      while rows != {} && |out| < limit
        invariant |out| <= limit
        invariant Collected(Tables(), states, olderThan, rows, out)
        decreases rows
      {
        var first := Oldest(rows);
        CollectOldest(Tables(), states, olderThan, rows, out, first);
        rows := rows - {first};
        out := out + [Stale(first, jobs[first].state)];
      }
    }

    method Oldest(rows: set<int>) returns (first: int)
      requires rows != {} && rows <= jobs.Keys
      ensures first in rows && forall id | id in rows :: jobs[first].submitted <= jobs[id].submitted
    {
      SomeMember(rows);
      first :| first in rows;
      var rest := rows - {first};
      while rest != {}
        invariant first in rows && rest <= rows
        invariant forall id | id in rows && id !in rest :: jobs[first].submitted <= jobs[id].submitted
        decreases rest
      {
        SomeMember(rest);
        var id :| id in rest;
        if jobs[id].submitted < jobs[first].submitted { first := id; }
        rest := rest - {id};
      }
    }

    method EnsureUser(user: string, fault: Fault) returns (reply: Reply)
      modifies this
      ensures Tables() == ApplyWith(old(Tables()), AddUser(user), fault)
      ensures reply == ReplyWith(old(Tables()), AddUser(user), fault)
    {
      if fault == NotRun { return Failed; }
      users := users + {user};
      return if fault == NoFault then Done else Failed;
    }

    // Inserts the semester if it is new; either way answers with the quota on record.
    method EnsureSemester(code: int, defaultQuota: int, fault: Fault) returns (reply: Reply, effective: int)
      modifies this
      ensures Tables() ==
        ApplyWith(old(Tables()), AddSemester(code, Semester(Semesters.Name(code), defaultQuota)), fault)
      ensures reply == if fault == NoFault then Done else Failed
      ensures reply == Done ==> code in semesters && effective == semesters[code].quota
    {
      if fault == NotRun { return Failed, 0; }
      if code !in semesters {
        semesters := semesters[code := Semester(Semesters.Name(code), defaultQuota)];
      }
      if fault == ReplyLost { return Failed, 0; }
      return Done, semesters[code].quota;
    }

    method EnsureGrant(user: string, code: int, amount: int, fault: Fault) returns (reply: Reply)
      modifies this
      ensures Tables() == ApplyWith(old(Tables()), AddGrant(user, code, amount), fault)
      ensures reply == ReplyWith(old(Tables()), AddGrant(user, code, amount), fault)
    {
      if fault == NotRun { return Failed; }
      if user !in users || code !in semesters || amount < 0 { return Failed; }
      if (user, code) !in grants {
        grants := grants[(user, code) := amount];
      }
      return if fault == NoFault then Done else Failed;
    }
  }

  lemma {:induction false} ChecksStay(db: Db, acts: seq<Action>)
    requires RowsChecked(db)
    ensures RowsChecked(ApplyAll(db, acts))
    decreases |acts|
  {
    if acts != [] {
      BalanceFallsOnlyByAccept(db, acts[0], "");
      ChecksStay(Apply(db, acts[0]), acts[1..]);
    }
  }
}
