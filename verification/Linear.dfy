/** Linearizability: every concurrent run is a run of a sequential ledger with atomic operations. */
module Linear {
  import opened Jobs
  import opened Tables
  import opened Protocol
  import opened Safety
  import Delivery

  datatype Entry = Entry(user: string, cost: int, state: State)

  datatype Answer = AcceptedAs(id: int) | Refused

  datatype Ledger = Ledger(
    balance: map<string, int>,
    granted: set<GrantKey>,
    entries: map<int, Entry>,
    answers: map<int, Answer>)     // by submission

  const NEW_LEDGER := Ledger(map[], {}, map[], map[])

  // An operation, with the answer it gives: whether the grant was inserted, whether the update found its row.
  datatype Op =
    | Grant(user: string, term: int, amount: int, inserted: bool)
    | Accept(sid: int, id: int, user: string, cost: int)
    | Reject(sid: int, user: string, cost: int)
    | Move(id: int, from: State, to: State, reply: Reply)

  function Balance(l: Ledger, u: string): int {
    if u in l.balance then l.balance[u] else 0
  }

  predicate Stands(l: Ledger, id: int, s: State) {
    id in l.entries && l.entries[id].state == s
  }

  // When the sequential ledger can perform the operation and give that answer.
  predicate Allowed(l: Ledger, op: Op) {
    match op
    case Grant(u, s, amount, inserted) => amount >= 0 && inserted == ((u, s) !in l.granted)
    case Accept(sid, id, u, cost) => sid !in l.answers && id !in l.entries && 0 < cost <= Balance(l, u)
    case Reject(sid, u, cost) => sid !in l.answers && Balance(l, u) < cost
    case Move(id, from, to, reply) =>
      ValidTransition(from, to) && reply == if Stands(l, id, from) then Done else UnexpectedState
  }

  function Add(l: Ledger, u: string, amount: int): Ledger {
    l.(balance := l.balance[u := Balance(l, u) + amount])
  }

  function Perform(l: Ledger, op: Op): Ledger
    requires Allowed(l, op)
  {
    match op
    case Grant(u, s, amount, inserted) => if inserted then Add(l, u, amount).(granted := l.granted + {(u, s)}) else l
    case Accept(sid, id, u, cost) =>
      Add(l, u, -cost).(entries := l.entries[id := Entry(u, cost, QuotaDeducted)],
                        answers := l.answers[sid := AcceptedAs(id)])
    case Reject(sid, u, cost) => l.(answers := l.answers[sid := Refused])
    case Move(id, from, to, reply) =>
      if reply != Done then l
      else
        var e := l.entries[id];
        var l' := l.(entries := l.entries[id := e.(state := to)]);
        if DeductsQuota(from) && !DeductsQuota(to) then Add(l', e.user, e.cost) else l'
  }

  predicate AllAllowed(l: Ledger, ops: seq<Op>)
    decreases |ops|
  {
    ops == [] || (Allowed(l, ops[0]) && AllAllowed(Perform(l, ops[0]), ops[1..]))
  }

  function PerformAll(l: Ledger, ops: seq<Op>): Ledger
    requires AllAllowed(l, ops)
    decreases |ops|
  {
    if ops == [] then l else PerformAll(Perform(l, ops[0]), ops[1..])
  }

  lemma PerformOne(l: Ledger, op: Op)
    requires Allowed(l, op)
    ensures AllAllowed(l, [op]) && PerformAll(l, [op]) == Perform(l, op)
  {
  }

  // The operation a committed statement amounts to.
  ghost function OpOfStatement(db: Db, a: Action): seq<Op> {
    match a
    case AddGrant(u, s, amount) => if Fires(db, a) then [Grant(u, s, amount, (u, s) !in db.grants)] else []
    case Update(id, from, to, _) => if ValidTransition(from, to) then [Move(id, from, to, ReplyTo(db, a))] else []
    case MarkSent(id, _) => [Move(id, QuotaDeducted, PrintSent, ReplyTo(db, a))]
    case _ => []
  }

  // Accepts take effect at the commit, rejects at the read.
  ghost function OpOf(c: Config, w: World, e: Event): seq<Op>
    requires Enabled(c, w, e)
  {
    match e
    case Submit(sid, Check) =>
      var j := w.subs[sid].draft;
      if Remaining(w.db, j.user) < j.cost then [Reject(sid, j.user, j.cost)] else []
    case Submit(sid, Commit(_)) =>
      var s := w.subs[sid];
      if s.row.state == QuotaDeducted then [Accept(sid, s.id, s.row.user, s.row.cost)] else []
    case _ => OpOfStatement(w.db, Effect(c, w, e))
  }

  ghost function OpsOf(c: Config, w: World, es: seq<Event>): seq<Op>
    requires Legal(c, w, es)
    decreases |es|
  {
    if es == [] then [] else OpOf(c, w, es[0]) + OpsOf(c, Step(c, w, es[0]), es[1..])
  }

  // ---- Refinement ----

  predicate EntryFits(db: Db, l: Ledger, id: int) {
    && (id in l.entries <==> id in db.jobs && db.jobs[id].state != QuotaInsufficient)
    && (id in l.entries ==> l.entries[id] == Entry(db.jobs[id].user, db.jobs[id].cost, db.jobs[id].state))
  }

  ghost predicate TablesFit(db: Db, l: Ledger) {
    && (forall u: string :: Remaining(db, u) == Balance(l, u))
    && (forall k: GrantKey :: k in l.granted <==> k in db.grants)
    && (forall id: int :: EntryFits(db, l, id))
  }

  function Verdict(remaining: int, cost: int): Option<Answer> {
    if remaining < cost then Some(Refused) else None
  }

  function AnswerOf(l: Ledger, sid: int): Option<Answer> {
    if sid in l.answers then Some(l.answers[sid]) else None
  }

  // What a submission will answer, or has answered, is what the ledger decided.
  predicate AnswerFits(s: Sub, a: Option<Answer>) {
    match s
    case Begun(_, _) => a == None
    case Locked(_, _) => a == None
    case Checked(_, j, remaining) => a == Verdict(remaining, j.cost)
    case Inserted(j, remaining, _, _) => a == Verdict(remaining, j.cost)
    case Accepted(id) => a == Some(AcceptedAs(id))
    case Rejected(_) => a == Some(Refused)
    case Aborted => true
  }

  predicate SubFits(w: World, l: Ledger, sid: int) {
    if sid in w.subs then AnswerFits(w.subs[sid], AnswerOf(l, sid)) else AnswerOf(l, sid) == None
  }

  ghost predicate Refines(w: World, l: Ledger) {
    TablesFit(w.db, l) && forall sid: int :: SubFits(w, l, sid)
  }

  lemma StatementAllowed(db: Db, a: Action, l: Ledger)
    requires TablesFit(db, l) && !a.AddJob?
    ensures AllAllowed(l, OpOfStatement(db, a))
    ensures forall op | op in OpOfStatement(db, a) ::
      Allowed(l, op) && PerformAll(l, OpOfStatement(db, a)) == Perform(l, op)
  {
    var ops := OpOfStatement(db, a);
    if a.Update? || a.MarkSent? { assert EntryFits(db, l, a.id); }
    if ops != [] {
      assert ops == [ops[0]];
      PerformOne(l, ops[0]);
    }
  }

  lemma StatementEntries(db: Db, a: Action, l: Ledger, id: int)
    requires TablesFit(db, l) && !a.AddJob? && AllAllowed(l, OpOfStatement(db, a))
    ensures EntryFits(Apply(db, a), PerformAll(l, OpOfStatement(db, a)), id)
  {
    StatementAllowed(db, a, l);
    assert EntryFits(db, l, id);
    var ops := OpOfStatement(db, a);
    if ops != [] { assert ops[0] in ops; }
  }

  lemma StatementBalance(db: Db, a: Action, l: Ledger, u: string)
    requires TablesFit(db, l) && !a.AddJob? && AllAllowed(l, OpOfStatement(db, a))
    ensures Balance(PerformAll(l, OpOfStatement(db, a)), u) == Balance(l, u) + Delta(db, a, u)
  {
    StatementAllowed(db, a, l);
    var ops := OpOfStatement(db, a);
    if a.Update? || a.MarkSent? { assert EntryFits(db, l, a.id); }
    if ops != [] { assert ops[0] in ops; }
  }

  lemma StatementRefines(db: Db, a: Action, l: Ledger)
    requires TablesFit(db, l) && !a.AddJob?
    ensures AllAllowed(l, OpOfStatement(db, a))
    ensures TablesFit(Apply(db, a), PerformAll(l, OpOfStatement(db, a)))
    ensures PerformAll(l, OpOfStatement(db, a)).answers == l.answers
  {
    var ops, db' := OpOfStatement(db, a), Apply(db, a);
    StatementAllowed(db, a, l);
    var l' := PerformAll(l, ops);
    if ops != [] { assert ops[0] in ops; }
    forall u: string
      ensures Remaining(db', u) == Balance(l', u)
    {
      RemainingAfter(db, a, u);
      assert Remaining(db, u) == Balance(l, u);
      StatementBalance(db, a, l, u);
    }
    forall id: int ensures EntryFits(db', l', id) { StatementEntries(db, a, l, id); }
    forall k: GrantKey ensures k in l'.granted <==> k in db'.grants { }
  }

  lemma AcceptRefines(db: Db, l: Ledger, sid: int, id: int, j: Job)
    requires TablesFit(db, l) && Fires(db, AddJob(id, j)) && sid !in l.answers
    requires j.state == QuotaDeducted && j.cost <= Remaining(db, j.user)
    ensures Allowed(l, Accept(sid, id, j.user, j.cost))
    ensures TablesFit(Apply(db, AddJob(id, j)), Perform(l, Accept(sid, id, j.user, j.cost)))
  {
    var a, op := AddJob(id, j), Accept(sid, id, j.user, j.cost);
    assert EntryFits(db, l, id);
    forall u: string
      ensures Remaining(Apply(db, a), u) == Balance(Perform(l, op), u)
    {
      RemainingAfter(db, a, u);
      assert Remaining(db, u) == Balance(l, u);
    }
    forall k: int ensures EntryFits(Apply(db, a), Perform(l, op), k) { assert EntryFits(db, l, k); }
  }

  lemma RejectedRowRefines(db: Db, l: Ledger, id: int, j: Job)
    requires TablesFit(db, l) && Fires(db, AddJob(id, j)) && j.state == QuotaInsufficient
    ensures TablesFit(Apply(db, AddJob(id, j)), l)
  {
    var a := AddJob(id, j);
    forall u: string
      ensures Remaining(Apply(db, a), u) == Balance(l, u)
    {
      RemainingAfter(db, a, u);
      assert Remaining(db, u) == Balance(l, u);
    }
    forall k: int ensures EntryFits(Apply(db, a), l, k) { assert EntryFits(db, l, k); }
  }

  lemma SkipRefines(db: Db, l: Ledger, l': Ledger)
    requires TablesFit(db, l) && l' == l.(answers := l'.answers)
    ensures TablesFit(db, l')
  {
    forall id: int ensures EntryFits(db, l', id) { assert EntryFits(db, l, id); }
    forall u: string ensures Remaining(db, u) == Balance(l', u) { assert Remaining(db, u) == Balance(l, u); }
  }

  lemma CommitRefines(w: World, sid: int, l: Ledger)
    requires Inv(w) && sid in w.subs && w.subs[sid].Inserted? && Refines(w, l)
    ensures var s := w.subs[sid]; var db' := Apply(w.db, AddJob(s.id, s.row));
      if s.row.state == QuotaDeducted then
        var op := Accept(sid, s.id, s.row.user, s.row.cost);
        Allowed(l, op) && TablesFit(db', Perform(l, op))
      else TablesFit(db', l)
  {
    var s := w.subs[sid];
    CommitFires(w, sid);
    assert ReadHolds(w.db, s, w.now) && SubFits(w, l, sid);
    if s.row.state == QuotaDeducted {
      AcceptRefines(w.db, l, sid, s.id, s.row);
    } else {
      RejectedRowRefines(w.db, l, s.id, s.row);
    }
  }

  lemma CheckRefines(w: World, sid: int, l: Ledger)
    requires Refines(w, l) && CanSubmit(w, sid, Check)
    ensures var j := w.subs[sid].draft; var op := Reject(sid, j.user, j.cost);
      Remaining(w.db, j.user) < j.cost ==> Allowed(l, op) && TablesFit(w.db, Perform(l, op))
  {
    var j := w.subs[sid].draft;
    var op := Reject(sid, j.user, j.cost);
    assert SubFits(w, l, sid) && Remaining(w.db, j.user) == Balance(l, j.user);
    if Remaining(w.db, j.user) < j.cost {
      SkipRefines(w.db, l, Perform(l, op));
    }
  }

  // What one operation of a submission does to the ledger: the tables fit it, and it decides this submission only.
  ghost predicate Decides(db: Db, l: Ledger, ops: seq<Op>, sid: int, a: Option<Answer>) {
    && AllAllowed(l, ops)
    && TablesFit(db, PerformAll(l, ops))
    && (forall other | other != sid :: AnswerOf(PerformAll(l, ops), other) == AnswerOf(l, other))
    && AnswerOf(PerformAll(l, ops), sid) == a
  }

  lemma OneDecides(db: Db, l: Ledger, op: Op)
    requires (op.Accept? || op.Reject?) && Allowed(l, op) && TablesFit(db, Perform(l, op))
    ensures Decides(db, l, [op], op.sid, Some(if op.Accept? then AcceptedAs(op.id) else Refused))
  {
    PerformOne(l, op);
  }

  lemma NothingDecides(db: Db, l: Ledger, sid: int)
    requires TablesFit(db, l)
    ensures Decides(db, l, [], sid, AnswerOf(l, sid))
  {
  }

  lemma CheckDecides(c: Config, w: World, sid: int, l: Ledger)
    requires Refines(w, l) && Enabled(c, w, Submit(sid, Check))
    ensures Decides(w.db, l, OpOf(c, w, Submit(sid, Check)), sid, AnswerAfter(w, sid, Check, l))
  {
    var ops := OpOf(c, w, Submit(sid, Check));
    CheckRefines(w, sid, l);
    if ops == [] { NothingDecides(w.db, l, sid); } else { OneDecides(w.db, l, ops[0]); }
  }

  lemma CommitDecides(c: Config, w: World, sid: int, lost: bool, l: Ledger)
    requires Inv(w) && Refines(w, l) && Enabled(c, w, Submit(sid, Commit(lost)))
    ensures Decides(Apply(w.db, AddJob(w.subs[sid].id, w.subs[sid].row)), l, OpOf(c, w, Submit(sid, Commit(lost))), sid,
      AnswerAfter(w, sid, Commit(lost), l))
  {
    var ops := OpOf(c, w, Submit(sid, Commit(lost)));
    var db' := Apply(w.db, AddJob(w.subs[sid].id, w.subs[sid].row));
    CommitRefines(w, sid, l);
    if ops == [] { NothingDecides(db', l, sid); } else { OneDecides(db', l, ops[0]); }
  }

  // One step of a submission.
  lemma SubmitRefines(c: Config, w: World, sid: int, m: SubMove, l: Ledger)
    requires Inv(w) && Refines(w, l) && Enabled(c, w, Submit(sid, m))
    ensures Decides(Apply(w.db, Effect(c, w, Submit(sid, m))), l, OpOf(c, w, Submit(sid, m)), sid,
      AnswerAfter(w, sid, m, l))
  {
    match m
    case Check => CheckDecides(c, w, sid, l);
    case Commit(lost) => CommitDecides(c, w, sid, lost, l);
    case _ => NothingDecides(w.db, l, sid);
  }

  // The ledger's answer to a submission after one of its moves.
  ghost function AnswerAfter(w: World, sid: int, m: SubMove, l: Ledger): Option<Answer>
    requires CanSubmit(w, sid, m)
  {
    if m.Check? && Remaining(w.db, w.subs[sid].draft.user) < w.subs[sid].draft.cost then Some(Refused)
    else if m.Commit? && w.subs[sid].row.state == QuotaDeducted then Some(AcceptedAs(w.subs[sid].id))
    else AnswerOf(l, sid)
  }

  lemma OwnAnswer(w: World, sid: int, m: SubMove, l: Ledger, l': Ledger)
    requires CanSubmit(w, sid, m) && SubFits(w, l, sid)
    requires m.Commit? ==> RowMatches(w.subs[sid], w.now)
    requires AnswerOf(l', sid) == AnswerAfter(w, sid, m, l)
    ensures SubFits(SubStep(w, sid, m), l', sid)
  {
  }

  lemma SubmitStepRefines(c: Config, w: World, sid: int, m: SubMove, l: Ledger)
    requires Inv(w) && Refines(w, l) && Enabled(c, w, Submit(sid, m))
    ensures var ops := OpOf(c, w, Submit(sid, m));
      AllAllowed(l, ops) && Refines(Step(c, w, Submit(sid, m)), PerformAll(l, ops))
  {
    var e := Submit(sid, m);
    SubmitRefines(c, w, sid, m, l);
    Frames(c, w, e);
    var l' := PerformAll(l, OpOf(c, w, e));
    forall other: int
      ensures SubFits(Step(c, w, e), l', other)
    {
      assert SubFits(w, l, other);
      if other == sid {
        if m.Commit? { assert ReadHolds(w.db, w.subs[sid], w.now); }
        OwnAnswer(w, sid, m, l, l');
      } else {
        SubsFrame(w, sid, m, other);
      }
    }
  }

  lemma StepRefines(c: Config, w: World, e: Event, l: Ledger)
    requires Inv(w) && Enabled(c, w, e) && Refines(w, l)
    ensures AllAllowed(l, OpOf(c, w, e))
    ensures Refines(Step(c, w, e), PerformAll(l, OpOf(c, w, e)))
  {
    if e.Submit? {
      SubmitStepRefines(c, w, e.sid, e.sm, l);
    } else {
      Frames(c, w, e);
      StatementRefines(w.db, Effect(c, w, e), l);
      assert OpOf(c, w, e) == OpOfStatement(w.db, Effect(c, w, e));
      forall sid: int ensures SubFits(Step(c, w, e), PerformAll(l, OpOf(c, w, e)), sid) {
        assert SubFits(w, l, sid);
      }
    }
  }

  lemma {:induction false} PerformAppend(l: Ledger, xs: seq<Op>, ys: seq<Op>)
    requires AllAllowed(l, xs) && AllAllowed(PerformAll(l, xs), ys)
    ensures AllAllowed(l, xs + ys) && PerformAll(l, xs + ys) == PerformAll(PerformAll(l, xs), ys)
    decreases |xs|
  {
    if xs == [] {
      assert xs + ys == ys;
    } else {
      assert (xs + ys)[1..] == xs[1..] + ys;
      PerformAppend(Perform(l, xs[0]), xs[1..], ys);
    }
  }

  lemma {:induction false} RunRefines(c: Config, w: World, es: seq<Event>, l: Ledger)
    requires Inv(w) && Legal(c, w, es) && Refines(w, l)
    ensures AllAllowed(l, OpsOf(c, w, es))
    ensures Refines(Run(c, w, es), PerformAll(l, OpsOf(c, w, es)))
    decreases |es|
  {
    if es != [] {
      StepRefines(c, w, es[0], l);
      StepInv(c, w, es[0]);
      var l' := PerformAll(l, OpOf(c, w, es[0]));
      RunRefines(c, Step(c, w, es[0]), es[1..], l');
      PerformAppend(l, OpOf(c, w, es[0]), OpsOf(c, Step(c, w, es[0]), es[1..]));
    }
  }

  // ---- What the callers of single statements are told ----

  // The answer an actor gets from its guarded update or its upsert of a grant, and goes on with.
  ghost function Told(c: Config, w: World, e: Event): Option<Reply>
    requires Enabled(c, w, e)
  {
    match e
    case Deliver(id, m) => ToldDeliverer(Observed(w, id, m))
    case Sweeping(k, Settle(f)) =>
      Some(ReplyWith(w.db, Update(w.sweeps[k][0].id, w.sweeps[k][0].state, PrintFailed, w.now), f))
    case Provision(p, EnsureGrant(f)) =>
      Some(ReplyWith(w.db, AddGrant(w.provs[p].user, w.provs[p].code, w.provs[p].amount), f))
    case Refund(id) => Some(ReplyTo(w.db, Update(id, PrintSucceeded, Refunded, w.now)))
    case _ => None
  }

  function ToldDeliverer(o: Delivery.Obs): Option<Reply> {
    match o
    case Marked(reply) => Some(reply)
    case Resolved(reply) => Some(reply)
    case _ => None
  }

  // The answer the sequential operation gives.
  function AnswerBy(op: Op): Reply {
    if op.Move? then op.reply else Done
  }

  function FaultOf(e: Event): Fault {
    match e
    case Deliver(_, Mark(f)) => f
    case Deliver(_, Resolve(f)) => f
    case Sweeping(_, Settle(f)) => f
    case Provision(_, EnsureGrant(f)) => f
    case _ => NoFault
  }

  // Nobody asks for a transition the table lacks; whoever is not told of a failure is told the ledger's answer; and
  // without a fault a failure is reported only of what the ledger was not asked to do.
  ghost predicate ToldRight(c: Config, w: World, e: Event)
    requires Enabled(c, w, e)
  {
    var told := Told(c, w, e);
    && told != Some(InvalidTransition)
    && (told.Some? && told != Some(Failed) ==>
      |OpOf(c, w, e)| == 1 && told == Some(AnswerBy(OpOf(c, w, e)[0])))
    && (told == Some(Failed) && FaultOf(e) == NoFault ==> OpOf(c, w, e) == [])
  }

  ghost predicate AllToldRight(c: Config, w: World, es: seq<Event>)
    requires Legal(c, w, es)
    decreases |es|
  {
    es == [] || (ToldRight(c, w, es[0]) && AllToldRight(c, Step(c, w, es[0]), es[1..]))
  }

  lemma DelivererToldRight(c: Config, w: World, id: int, m: DelMove)
    requires DelInv(w) && CanDeliver(c, w, id, m)
    ensures ToldRight(c, w, Deliver(id, m))
  {
    assert DelHolds(w.db.jobs[id].state, id in w.printed, w.dels[id]);
  }

  lemma StepToldRight(c: Config, w: World, e: Event)
    requires Inv(w) && Enabled(c, w, e)
    ensures ToldRight(c, w, e)
  {
    if e.Deliver? {
      DelivererToldRight(c, w, e.job, e.dm);
    } else if e.Sweeping? && e.wm.Settle? {
      assert w.sweeps[e.sweeper][0].state in [QuotaDeducted, PrintSent];
    }
  }

  lemma {:induction false} RunToldRight(c: Config, w: World, es: seq<Event>)
    requires Inv(w) && Legal(c, w, es)
    ensures AllToldRight(c, w, es)
    decreases |es|
  {
    if es != [] {
      StepToldRight(c, w, es[0]);
      StepInv(c, w, es[0]);
      RunToldRight(c, Step(c, w, es[0]), es[1..]);
    }
  }

  lemma InitRefines(w: World)
    requires Init(w)
    ensures Refines(w, NEW_LEDGER)
  {
  }

  /** Every interleaving of transactions, guarded updates and upserts has the effect of its operations performed one
      after the other on a sequential ledger that accepts only covered costs and refuses only uncovered ones;
      the balance each user sees is that ledger's, every submission is told what that ledger decided, and every guarded
      update and upsert that does not report a failure is told what the operation answered. */
  lemma Linearizable(c: Config, w: World, es: seq<Event>)
    requires Init(w) && Legal(c, w, es)
    ensures AllAllowed(NEW_LEDGER, OpsOf(c, w, es))
    ensures var w', l := Run(c, w, es), PerformAll(NEW_LEDGER, OpsOf(c, w, es));
      && (forall u: string :: Remaining(w'.db, u) == Balance(l, u))
      && (forall id: int :: EntryFits(w'.db, l, id))
      && (forall sid: int :: SubFits(w', l, sid))
    ensures AllToldRight(c, w, es)
  {
    InitInv(w);
    RunToldRight(c, w, es);
    InitRefines(w);
    RunRefines(c, w, es, NEW_LEDGER);
  }
}
