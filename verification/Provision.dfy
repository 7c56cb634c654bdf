/** Provisioning: which grants a user ends up with, in any order of upserts and after any failures. */
module Provisioning {
  import opened Jobs
  import opened Tables
  import opened Stores
  import Semesters

  datatype User = User(name: string, eligible: bool, enrolments: seq<int>)

  function QuotaFor(code: int, defaultQuota: int): int {
    if Semesters.Rem(code, 100) == 5 then 0
    else if code < 201609 then 0
    else if code == 201609 then 500
    else if 201609 < code < 201909 then 1000
    else defaultQuota
  }

  /** Summers give nothing, and neither do terms before Fall 2016; that one gave 500, the terms up to Summer 2019
      1000, and every later term the configured default. */
  lemma QuotaByTerm(season: Semesters.Season, year: nat, defaultQuota: int)
    ensures QuotaFor(year * 100 + Semesters.Month(season), defaultQuota) ==
      if season == Semesters.Summer || year < 2016 || (year == 2016 && season == Semesters.Winter) then 0
      else if year == 2016 then 500
      else if year < 2019 || (year == 2019 && season == Semesters.Winter) then 1000
      else defaultQuota
  {
  }

  function Entitled(u: User, current: int): set<int> {
    (if u.eligible then {current} else {}) + set c | c in u.enrolments && c <= current
  }

  function SemesterRow(code: int, defaultQuota: int): Semester {
    Semester(Semesters.Name(code), QuotaFor(code, defaultQuota))
  }

  // The quota on record for a semester once it has been ensured.
  function Effective(db: Db, code: int, defaultQuota: int): Semester {
    if code in db.semesters then db.semesters[code] else SemesterRow(code, defaultQuota)
  }

  // The tables after a provisioning without failures: existing rows stay, missing ones are filled in.
  // A semester with a negative quota on record grants nothing: the CHECK on the amount refuses it.
  function Provisioned(db: Db, user: string, codes: set<int>, defaultQuota: int): Db {
    Db(db.users + {user},
       (map c | c in codes :: Effective(db, c, defaultQuota)) + db.semesters,
       (map c | c in codes && Effective(db, c, defaultQuota).quota >= 0 ::
          (user, c) := Effective(db, c, defaultQuota).quota) + db.grants,
       db.jobs)
  }

  function Look<K, V>(m: map<K, V>, k: K): Option<V> {
    if k in m then Some(m[k]) else None
  }

  lemma SameLooks<K, V>(a: map<K, V>, b: map<K, V>)
    requires forall k :: Look(a, k) == Look(b, k)
    ensures a == b
  {
    assert forall k :: k in a <==> Look(a, k).Some?;
    assert forall k :: k in b <==> Look(b, k).Some?;
    assert a.Keys == b.Keys;
    assert forall k | k in a :: Look(a, k) == Some(a[k]) && Look(b, k) == Some(b[k]);
  }

  // The semester rows and grants of the goal, one at a time.
  function SemesterGoal(db: Db, codes: set<int>, d: int, c: int): Option<Semester> {
    if c in db.semesters || c in codes then Some(Effective(db, c, d)) else None
  }

  function GrantGoal(db: Db, user: string, codes: set<int>, d: int, k: GrantKey): Option<int> {
    if k in db.grants then Some(db.grants[k])
    else if k.0 == user && k.1 in codes && Effective(db, k.1, d).quota >= 0 then Some(Effective(db, k.1, d).quota)
    else None
  }

  lemma GoalIsPointwise(db: Db, user: string, codes: set<int>, d: int)
    ensures forall c :: Look(Provisioned(db, user, codes, d).semesters, c) == SemesterGoal(db, codes, d, c)
    ensures forall k :: Look(Provisioned(db, user, codes, d).grants, k) == GrantGoal(db, user, codes, d, k)
  {
  }

  lemma SameGoals(db: Db, a: set<int>, db': Db, b: set<int>, user: string, d: int)
    requires db.users + {user} == db'.users + {user} && db.jobs == db'.jobs
    requires forall c :: SemesterGoal(db, a, d, c) == SemesterGoal(db', b, d, c)
    requires forall k :: GrantGoal(db, user, a, d, k) == GrantGoal(db', user, b, d, k)
    ensures Provisioned(db, user, a, d) == Provisioned(db', user, b, d)
  {
    var goal, goal' := Provisioned(db, user, a, d), Provisioned(db', user, b, d);
    GoalIsPointwise(db, user, a, d);
    GoalIsPointwise(db', user, b, d);
    SameLooks(goal.semesters, goal'.semesters);
    SameLooks(goal.grants, goal'.grants);
  }

  // `db'` is what some of the upserts of such a provisioning make of `db`.
  ghost predicate PartWay(db: Db, db': Db, user: string, codes: set<int>, d: int) {
    && db.users <= db'.users <= db.users + {user}
    && db'.jobs == db.jobs
    && (forall c :: Look(db'.semesters, c) in [Look(db.semesters, c), SemesterGoal(db, codes, d, c)])
    && (forall k :: Look(db'.grants, k) in [Look(db.grants, k), GrantGoal(db, user, codes, d, k)])
    && (forall k | Look(db'.grants, k) != Look(db.grants, k) :: Look(db'.semesters, k.1).Some?)
  }

  lemma PartWayEffective(db: Db, db': Db, user: string, codes: set<int>, d: int, c: int)
    requires PartWay(db, db', user, codes, d)
    ensures Effective(db', c, d) == Effective(db, c, d)
    ensures SemesterGoal(db', codes, d, c) == SemesterGoal(db, codes, d, c)
  {
  }

  /** Finishing an interrupted provisioning gives what an uninterrupted one gives: grants do not depend on how many
      attempts failed, where, or what they had already written. */
  lemma FinishingInterrupted(db: Db, db': Db, user: string, codes: set<int>, defaultQuota: int)
    requires PartWay(db, db', user, codes, defaultQuota)
    ensures Provisioned(db', user, codes, defaultQuota) == Provisioned(db, user, codes, defaultQuota)
  {
    forall c
      ensures SemesterGoal(db', codes, defaultQuota, c) == SemesterGoal(db, codes, defaultQuota, c)
    {
      PartWayEffective(db, db', user, codes, defaultQuota, c);
    }
    forall k
      ensures GrantGoal(db', user, codes, defaultQuota, k) == GrantGoal(db, user, codes, defaultQuota, k)
    {
      PartWayEffective(db, db', user, codes, defaultQuota, k.1);
      assert Look(db'.grants, k) in [Look(db.grants, k), GrantGoal(db, user, codes, defaultQuota, k)];
    }
    SameGoals(db', codes, db, codes, user, defaultQuota);
  }

  lemma GoalIsPartWay(db: Db, user: string, codes: set<int>, defaultQuota: int)
    ensures PartWay(db, Provisioned(db, user, codes, defaultQuota), user, codes, defaultQuota)
  {
  }

  /** Provisioning again changes nothing, and no provisioning alters an existing grant. */
  lemma ProvisionIdempotent(db: Db, user: string, codes: set<int>, defaultQuota: int)
    ensures var once := Provisioned(db, user, codes, defaultQuota);
      && Provisioned(once, user, codes, defaultQuota) == once
      && forall k | k in db.grants :: k in once.grants && once.grants[k] == db.grants[k]
  {
    GoalIsPartWay(db, user, codes, defaultQuota);
    FinishingInterrupted(db, Provisioned(db, user, codes, defaultQuota), user, codes, defaultQuota);
  }

  /** Two sign-ins under one default give the grants of the union of their entitlements, in either order. */
  lemma ProvisionUnion(db: Db, user: string, a: set<int>, b: set<int>, d: int)
    ensures Provisioned(Provisioned(db, user, a, d), user, b, d) == Provisioned(db, user, a + b, d)
  {
    var mid := Provisioned(db, user, a, d);
    GoalIsPointwise(db, user, a, d);
    forall c
      ensures SemesterGoal(mid, b, d, c) == SemesterGoal(db, a + b, d, c) && Effective(mid, c, d) == Effective(db, c, d)
    {
      assert Look(mid.semesters, c) == SemesterGoal(db, a, d, c);
    }
    forall k
      ensures GrantGoal(mid, user, b, d, k) == GrantGoal(db, user, a + b, d, k)
    {
      assert Look(mid.grants, k) == GrantGoal(db, user, a, d, k);
      assert SemesterGoal(mid, b, d, k.1) == SemesterGoal(db, a + b, d, k.1);
    }
    SameGoals(mid, b, db, a + b, user, d);
  }

  lemma SemesterKeepsPartWay(before: Db, db: Db, user: string, codes: set<int>, d: int, code: int)
    requires PartWay(before, db, user, codes, d) && code in codes
    ensures var db' := Apply(db, AddSemester(code, SemesterRow(code, d)));
      PartWay(before, db', user, codes, d) && Look(db'.semesters, code) == Some(Effective(before, code, d))
  {
  }

  lemma GrantKeepsPartWay(before: Db, db: Db, user: string, codes: set<int>, d: int, code: int)
    requires PartWay(before, db, user, codes, d) && code in codes && user in db.users
    requires Look(db.semesters, code) == Some(Effective(before, code, d))
    ensures var db' := Apply(db, AddGrant(user, code, Effective(before, code, d).quota));
      && PartWay(before, db', user, codes, d)
      && Look(db'.grants, (user, code)) == GrantGoal(before, user, codes, d, (user, code))
  {
  }

  // The codes already dealt with are as in the goal.
  ghost predicate Filled(before: Db, db: Db, user: string, d: int, codes: set<int>, done: set<int>) {
    forall c | c in done ::
      Look(db.semesters, c).Some? && Look(db.grants, (user, c)) == GrantGoal(before, user, codes, d, (user, c))
  }

  lemma FilledIsProvisioned(before: Db, db: Db, user: string, codes: set<int>, d: int)
    requires PartWay(before, db, user, codes, d) && user in db.users
    requires Filled(before, db, user, d, codes, codes)
    ensures db == Provisioned(before, user, codes, d)
  {
    GoalIsPointwise(before, user, codes, d);
    forall k
      ensures Look(db.grants, k) == GrantGoal(before, user, codes, d, k)
    {
      assert Look(db.grants, k) in [Look(before.grants, k), GrantGoal(before, user, codes, d, k)];
      assert k == (k.0, k.1);
    }
    forall c
      ensures Look(db.semesters, c) == Look(Provisioned(before, user, codes, d).semesters, c)
    {
      assert Look(db.semesters, c) in [Look(before.semesters, c), SemesterGoal(before, codes, d, c)];
    }
    SameLooks(db.semesters, Provisioned(before, user, codes, d).semesters);
    SameLooks(db.grants, Provisioned(before, user, codes, d).grants);
  }

  lemma FilledKept(before: Db, db: Db, db': Db, user: string, d: int, codes: set<int>, done: set<int>)
    requires Filled(before, db, user, d, codes, done) && PartWay(before, db', user, codes, d)
    requires forall c | c in db.semesters :: c in db'.semesters
    requires forall k | k in db.grants :: k in db'.grants && db'.grants[k] == db.grants[k]
    ensures Filled(before, db', user, d, codes, done)
  {
  }

  // The terms a user may have grants for.
  lemma EntitledExactly(u: User, current: int, c: int)
    ensures c in Entitled(u, current) <==> (u.eligible && c == current) || (c in u.enrolments && c <= current)
  {
  }

  // Where a row of the goal differs, it is one the goal adds.
  lemma PartWayRows(db: Db, db': Db, user: string, codes: set<int>, d: int)
    requires PartWay(db, db', user, codes, d)
    ensures forall k | k in db'.grants && k !in db.grants :: k.0 == user && k.1 in codes
    ensures forall c | c in db'.semesters && c !in db.semesters :: c in codes && db'.semesters[c] == SemesterRow(c, d)
    ensures forall k | k in db.grants :: k in db'.grants && db'.grants[k] == db.grants[k]
    ensures forall c | c in db.semesters :: c in db'.semesters && db'.semesters[c] == db.semesters[c]
  {
    forall k ensures k in db'.grants && k !in db.grants ==> k.0 == user && k.1 in codes {
      assert Look(db'.grants, k) in [Look(db.grants, k), GrantGoal(db, user, codes, d, k)];
    }
    forall c ensures c in db'.semesters && c !in db.semesters ==> c in codes && db'.semesters[c] == SemesterRow(c, d) {
      assert Look(db'.semesters, c) in [Look(db.semesters, c), SemesterGoal(db, codes, d, c)];
    }
    forall k | k in db.grants ensures k in db'.grants && db'.grants[k] == db.grants[k] {
      assert Look(db'.grants, k) in [Look(db.grants, k), GrantGoal(db, user, codes, d, k)];
    }
    forall c | c in db.semesters ensures c in db'.semesters && db'.semesters[c] == db.semesters[c] {
      assert Look(db'.semesters, c) in [Look(db.semesters, c), SemesterGoal(db, codes, d, c)];
    }
  }

  lemma OnlyEntitled(db: Db, db': Db, u: User, current: int, d: int)
    requires PartWay(db, db', u.name, Entitled(u, current), d)
    ensures forall k | k in db'.grants && k !in db.grants ::
      k.0 == u.name && ((u.eligible && k.1 == current) || (k.1 in u.enrolments && k.1 <= current))
    ensures forall c | c in db'.semesters && c !in db.semesters ::
      && ((u.eligible && c == current) || (c in u.enrolments && c <= current))
      && db'.semesters[c] == Semester(Semesters.Name(c), QuotaFor(c, d))
    ensures forall k | k in db.grants :: k in db'.grants && db'.grants[k] == db.grants[k]
    ensures forall c | c in db.semesters :: c in db'.semesters && db'.semesters[c] == db.semesters[c]
    ensures !u.eligible && (forall c | c in u.enrolments :: c > current) ==>
      db'.grants == db.grants && db'.semesters == db.semesters
  {
    PartWayRows(db, db', u.name, Entitled(u, current), d);
    if !u.eligible && (forall c | c in u.enrolments :: c > current) {
      forall c ensures Look(db'.semesters, c) == Look(db.semesters, c) {
        EntitledExactly(u, current, c);
      }
      forall k ensures Look(db'.grants, k) == Look(db.grants, k) {
        EntitledExactly(u, current, k.1);
      }
      SameLooks(db'.semesters, db.semesters);
      SameLooks(db'.grants, db.grants);
    }
  }

  lemma AllEntitled(db: Db, u: User, current: int, d: int)
    ensures var db' := Provisioned(db, u.name, Entitled(u, current), d);
      forall c | (u.eligible && c == current) || (c in u.enrolments && c <= current) ::
        && c in db'.semesters
        && ((u.name, c) in db.grants || db'.semesters[c].quota >= 0 ==> (u.name, c) in db'.grants)
        && ((u.name, c) in db'.grants && (u.name, c) !in db.grants ==>
          db'.grants[(u.name, c)] == db'.semesters[c].quota)
  {
    var codes := Entitled(u, current);
    var db' := Provisioned(db, u.name, codes, d);
    GoalIsPointwise(db, u.name, codes, d);
    forall c | c in codes
      ensures Look(db'.semesters, c) == Some(Effective(db, c, d))
      ensures Look(db'.grants, (u.name, c)) == GrantGoal(db, u.name, codes, d, (u.name, c))
    {
    }
  }

  class Provisioner {
    const store: Store
    const defaultQuota: int

    constructor (store: Store, defaultQuota: int)
      ensures this.store == store && this.defaultQuota == defaultQuota
    {
      this.store, this.defaultQuota := store, defaultQuota;
    }

    /** Visits the entitled semesters in an arbitrary order. Failing upserts are skipped and logged;
        only a failure to ensure the user is reported. */
    method Provision(u: User, current: int, userFault: Fault, semFault: int -> Fault, grantFault: int -> Fault)
      returns (err: bool)
      modifies store
      ensures err <==> userFault != NoFault
      ensures err ==> store.Tables() == ApplyWith(old(store.Tables()), AddUser(u.name), userFault)
      ensures PartWay(old(store.Tables()), store.Tables(), u.name, Entitled(u, current), defaultQuota)
      ensures !err ==> u.name in store.users
      // Whatever fails: new grants and semesters only for the terms the user may have; nothing existing changes.
      ensures forall k | k in store.grants && k !in old(store.grants) ::
        k.0 == u.name && ((u.eligible && k.1 == current) || (k.1 in u.enrolments && k.1 <= current))
      ensures forall c | c in store.semesters && c !in old(store.semesters) ::
        && ((u.eligible && c == current) || (c in u.enrolments && c <= current))
        && store.semesters[c] == Semester(Semesters.Name(c), QuotaFor(c, defaultQuota))
      ensures forall k | k in old(store.grants) :: k in store.grants && store.grants[k] == old(store.grants)[k]
      ensures forall c | c in old(store.semesters) ::
        c in store.semesters && store.semesters[c] == old(store.semesters)[c]
      ensures !u.eligible && (forall c | c in u.enrolments :: c > current) ==>
        store.grants == old(store.grants) && store.semesters == old(store.semesters)
      // Without failures: each of those terms is on record, and granted its quota on record if that is not negative.
      ensures (!err && forall c: int :: semFault(c) == NoFault && grantFault(c) == NoFault) ==>
        forall c | (u.eligible && c == current) || (c in u.enrolments && c <= current) ::
          && c in store.semesters
          && ((u.name, c) in old(store.grants) || store.semesters[c].quota >= 0 ==> (u.name, c) in store.grants)
          && ((u.name, c) in store.grants && (u.name, c) !in old(store.grants) ==>
            store.grants[(u.name, c)] == store.semesters[c].quota)
      ensures
        (!err && forall c | c in Entitled(u, current) :: semFault(c) == NoFault && grantFault(c) == NoFault)
        ==> store.Tables() == Provisioned(old(store.Tables()), u.name, Entitled(u, current), defaultQuota)
    {
      ghost var before := store.Tables();
      var reply := store.EnsureUser(u.name, userFault);
      if reply != Done {
        OnlyEntitled(before, store.Tables(), u, current, defaultQuota);
        return true;
      }

      var entitled := Entitlement(u, current);
      ghost var codes := entitled;
      ghost var faultless := forall c | c in codes :: semFault(c) == NoFault && grantFault(c) == NoFault;
      while entitled != {}
        invariant entitled <= codes && u.name in store.users
        invariant PartWay(before, store.Tables(), u.name, codes, defaultQuota)
        invariant faultless ==> Filled(before, store.Tables(), u.name, defaultQuota, codes, codes - entitled)
        decreases entitled
      {
        SomeMember(entitled);
        var code :| code in entitled;
        Upsert(u.name, code, semFault(code), grantFault(code), before, codes, codes - entitled);
        entitled := entitled - {code};
      }
      assert codes - entitled == codes;
      OnlyEntitled(before, store.Tables(), u, current, defaultQuota);
      if faultless {
        FilledIsProvisioned(before, store.Tables(), u.name, codes, defaultQuota);
        AllEntitled(before, u, current, defaultQuota);
      }
      return false;
    }

    method Entitlement(u: User, current: int) returns (entitled: set<int>)
      ensures entitled == Entitled(u, current)
    {
      entitled := {};
      if u.eligible {
        entitled := entitled + {current};
      }
      for i := 0 to |u.enrolments|
        invariant entitled == (if u.eligible then {current} else {}) + set c | c in u.enrolments[..i] && c <= current
      {
        assert u.enrolments[..i + 1] == u.enrolments[..i] + [u.enrolments[i]];
        if u.enrolments[i] <= current {
          entitled := entitled + {u.enrolments[i]};
        }
      }
      assert u.enrolments[..|u.enrolments|] == u.enrolments;
    }

    // One iteration of the loop over the entitled semesters.
    method Upsert(user: string, code: int, semFault: Fault, grantFault: Fault,
        ghost before: Db, ghost codes: set<int>, ghost done: set<int>)
      requires user in store.users && code in codes
      requires PartWay(before, store.Tables(), user, codes, defaultQuota)
      modifies store
      ensures user in store.users
      ensures PartWay(before, store.Tables(), user, codes, defaultQuota)
      ensures
        (semFault == NoFault && grantFault == NoFault
         && Filled(before, old(store.Tables()), user, defaultQuota, codes, done))
        ==> Filled(before, store.Tables(), user, defaultQuota, codes, done + {code})
    {
      ghost var start := store.Tables();
      SemesterKeepsPartWay(before, start, user, codes, defaultQuota, code);
      var ensured, amount := store.EnsureSemester(code, QuotaFor(code, defaultQuota), semFault);
      if ensured != Done { return; }
      GrantKeepsPartWay(before, store.Tables(), user, codes, defaultQuota, code);
      var granted := store.EnsureGrant(user, code, amount, grantFault);
      if Filled(before, start, user, defaultQuota, codes, done) {
        FilledKept(before, start, store.Tables(), user, defaultQuota, codes, done);
      }
    }
  }

  // ---- Concurrent provisioners, statement by statement ----

  datatype Pc =
    | Starting(user: string, todo: set<int>, defaultQuota: int)
    | Visiting(user: string, todo: set<int>, defaultQuota: int)
    | Granting(user: string, todo: set<int>, defaultQuota: int, code: int, amount: int)
    | Stopped

  // What a provisioner does next; `code` is the semester it happens to visit.
  datatype Move = EnsureUser(fault: Fault) | EnsureSemester(code: int, fault: Fault) | EnsureGrant(fault: Fault) | Quit

  predicate CanMove(pc: Pc, m: Move) {
    match m
    case EnsureUser(_) => pc.Starting?
    case EnsureSemester(c, _) => pc.Visiting? && c in pc.todo
    case EnsureGrant(_) => pc.Granting?
    case Quit => true
  }

  function Statement(pc: Pc, m: Move): Action
    requires CanMove(pc, m)
  {
    match m
    case EnsureUser(f) => if f == NotRun then Skip else AddUser(pc.user)
    case EnsureSemester(c, f) => if f == NotRun then Skip else AddSemester(c, SemesterRow(c, pc.defaultQuota))
    case EnsureGrant(f) => if f == NotRun then Skip else AddGrant(pc.user, pc.code, pc.amount)
    case Quit => Skip
  }

  // `db` is the tables the statement finds.
  function After(pc: Pc, m: Move, db: Db): Pc
    requires CanMove(pc, m)
  {
    match m
    case EnsureUser(f) => if f == NoFault then Visiting(pc.user, pc.todo, pc.defaultQuota) else Stopped
    case EnsureSemester(c, f) =>
      if f == NoFault then
        Granting(pc.user, pc.todo - {c}, pc.defaultQuota, c, Effective(db, c, pc.defaultQuota).quota)
      else Visiting(pc.user, pc.todo - {c}, pc.defaultQuota)
    case EnsureGrant(_) => Visiting(pc.user, pc.todo, pc.defaultQuota)
    case Quit => Stopped
  }
}
