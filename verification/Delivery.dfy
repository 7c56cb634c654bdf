/** The deliverer: its protocol as an automaton, and Deliver itself. */
module Delivery {
  import opened Jobs
  import opened Tables
  import opened Stores
  import opened Queues

  datatype Outcome = DeliveryFailed | DeliverySucceeded

  datatype SendResult = SendOk | SendDeadline | SendError

  // Where a deliverer is: about to receive the answer to the call the name suggests.
  datatype Pc =
    | Picking
    | Marking(dest: int)
    | Sending(attempt: nat)
    | Waiting(attempt: nat)
    | Resolving(from: State, out: Outcome)
    | Returned(out: Outcome, err: bool)
    | Crashed

  datatype Obs =
    | PickFailed
    | Picked(dest: int)
    | Marked(reply: Reply)
    | Sent(result: SendResult)
    | Waited(expired: bool)
    | Resolved(reply: Reply)
    | Crash

  function Verdict(out: Outcome): State {
    if out == DeliverySucceeded then PrintSucceeded else PrintFailed
  }

  // The next control point, if the observation is one the deliverer can make here.
  function Next(pc: Pc, o: Obs, maxAttempts: int): Option<Pc> {
    match (pc, o)
    case (Returned(_, _), Crash) => None
    case (Crashed, _) => None
    case (_, Crash) => Some(Crashed)
    case (Picking, PickFailed) => Some(Resolving(QuotaDeducted, DeliveryFailed))
    case (Picking, Picked(d)) => Some(Marking(d))
    case (Marking(_), Marked(UnexpectedState)) => Some(Returned(DeliveryFailed, false))
    case (Marking(_), Marked(Done)) => Some(Sending(1))
    case (Marking(_), Marked(_)) => Some(Returned(DeliveryFailed, true))
    case (Sending(n), Sent(SendOk)) => Some(Resolving(PrintSent, DeliverySucceeded))
    case (Sending(n), Sent(SendDeadline)) => Some(Resolving(PrintSent, DeliveryFailed))
    case (Sending(n), Sent(SendError)) =>
      if n >= maxAttempts then Some(Resolving(PrintSent, DeliveryFailed)) else Some(Waiting(n))
    case (Waiting(n), Waited(true)) => Some(Resolving(PrintSent, DeliveryFailed))
    case (Waiting(n), Waited(false)) => Some(Sending(n + 1))
    case (Resolving(_, _), Resolved(UnexpectedState)) => Some(Returned(DeliveryFailed, false))
    case (Resolving(_, out), Resolved(Done)) => Some(Returned(out, false))
    case (Resolving(_, out), Resolved(_)) => Some(Returned(out, true))
    case _ => None
  }

  function Run(pc: Pc, trace: seq<Obs>, maxAttempts: int): Option<Pc>
    decreases |trace|
  {
    if trace == [] then Some(pc)
    else
      match Run(pc, trace[..|trace| - 1], maxAttempts)
      case None => None
      case Some(mid) => Next(mid, trace[|trace| - 1], maxAttempts)
  }

  // The results of the sends in a trace, in order.
  function Sends(trace: seq<Obs>): seq<SendResult>
    decreases |trace|
  {
    if trace == [] then []
    else
      var last := trace[|trace| - 1];
      Sends(trace[..|trace| - 1]) + if last.Sent? then [last.result] else []
  }

  // Every result but the last is an ordinary failure.
  predicate Retried(results: seq<SendResult>) {
    forall i | 0 <= i < |results| - 1 :: results[i] == SendError
  }

  // What the retry loop guarantees, by control point.
  ghost predicate Disciplined(pc: Pc, trace: seq<Obs>, maxAttempts: int) {
    var results := Sends(trace);
    && |results| <= maxAttempts
    && Retried(results)
    && (results != [] ==> |trace| >= 3 && trace[0].Picked? && trace[1] == Marked(Done))
    && match pc
       case Picking => trace == []
       case Marking(d) => trace == [Picked(d)]
       case Sending(n) =>
         |results| == n - 1 && n <= maxAttempts && (results != [] ==> results[|results| - 1] == SendError)
         && |trace| >= 2 && trace[0].Picked? && trace[1] == Marked(Done)
       case Waiting(n) => |results| == n < maxAttempts && n > 0 && results[n - 1] == SendError
       case Resolving(from, out) =>
         && (from == PrintSent || (from == QuotaDeducted && out == DeliveryFailed))
         && (from == PrintSent <==> results != [])
         && (out == DeliverySucceeded <==> results != [] && results[|results| - 1] == SendOk)
       case Returned(out, err) =>
         && (out == DeliverySucceeded ==> results != [] && results[|results| - 1] == SendOk)
         && (err ==> (out == DeliverySucceeded <==> results != [] && results[|results| - 1] == SendOk))
       case Crashed => true
  }

  /** For every script of send results and every choice at the select: at most maxAttempts sends, none before
      the job is marked, none after a success or a missed deadline, and success is recorded exactly when
      the last send succeeded. */
  lemma {:induction false} SendDiscipline(trace: seq<Obs>, maxAttempts: int)
    requires maxAttempts >= 1
    requires Run(Picking, trace, maxAttempts).Some?
    ensures Disciplined(Run(Picking, trace, maxAttempts).value, trace, maxAttempts)
    ensures var pc := Run(Picking, trace, maxAttempts).value;
      pc.Resolving? ==> ValidTransition(pc.from, Verdict(pc.out))
    decreases |trace|
  {
    if trace != [] {
      var before := trace[..|trace| - 1];
      SendDiscipline(before, maxAttempts);
      var last := trace[|trace| - 1];
      var results := Sends(before);
      assert Sends(trace) == if last.Sent? then results + [last.result] else results;
      assert forall i | 0 <= i < |before| :: trace[i] == before[i];
    }
  }

  lemma RunAppend(trace: seq<Obs>, o: Obs, maxAttempts: int)
    requires Run(Picking, trace, maxAttempts).Some?
    ensures Run(Picking, trace + [o], maxAttempts) == Next(Run(Picking, trace, maxAttempts).value, o, maxAttempts)
  {
  }

  lemma TraceOfPickFailed(maxAttempts: int)
    ensures Run(Picking, [PickFailed], maxAttempts) == Some(Resolving(QuotaDeducted, DeliveryFailed))
  {
    RunAppend([], PickFailed, maxAttempts);
  }

  lemma TraceOfMarked(dest: int, reply: Reply, maxAttempts: int)
    ensures Run(Picking, [Picked(dest), Marked(reply)], maxAttempts) == Next(Marking(dest), Marked(reply), maxAttempts)
  {
    RunAppend([], Picked(dest), maxAttempts);
    RunAppend([Picked(dest)], Marked(reply), maxAttempts);
    assert [Picked(dest), Marked(reply)] == [Picked(dest)] + [Marked(reply)];
  }

  // What other actors do to a job that has a deliverer: sweeps fail it, refunds take it back.
  predicate OthersOnly(acts: seq<Action>, id: int) {
    forall i | 0 <= i < |acts| ::
      && (acts[i].MarkSent? ==> acts[i].id != id)
      && (acts[i].Update? && acts[i].id == id ==> acts[i].to in [PrintFailed, Refunded])
  }

  lemma {:induction false} OthersOnlyFail(db: Db, acts: seq<Action>, id: int)
    requires OthersOnly(acts, id)
    requires id in db.jobs && db.jobs[id].state in [QuotaDeducted, PrintSent, PrintFailed]
    ensures id in ApplyAll(db, acts).jobs
    ensures ApplyAll(db, acts).jobs[id].state in [db.jobs[id].state, PrintFailed]
    decreases |acts|
  {
    if acts != [] {
      StepIsLater(db, acts[0], id);
      OthersOnlyFail(Apply(db, acts[0]), acts[1..], id);
    }
  }

  lemma FirstInterval(db: Db, acts: seq<Action>, id: int)
    ensures InState(db, id, QuotaDeducted) && OthersOnly(acts, id) ==>
      InState(ApplyAll(db, acts), id, QuotaDeducted) || InState(ApplyAll(db, acts), id, PrintFailed)
  {
    if InState(db, id, QuotaDeducted) && OthersOnly(acts, id) { OthersOnlyFail(db, acts, id); }
  }

  lemma SecondInterval(db: Db, acts: seq<Action>, id: int)
    ensures InState(db, id, PrintSent) && OthersOnly(acts, id) ==>
      InState(ApplyAll(db, acts), id, PrintSent) || InState(ApplyAll(db, acts), id, PrintFailed)
  {
    if InState(db, id, PrintSent) && OthersOnly(acts, id) { OthersOnlyFail(db, acts, id); }
  }

  // Everything that can vary in one delivery.
  datatype Script = Script(
    listed: Option<seq<Destination>>,
    policy: Option<Policy>,
    beforeFirst: seq<Action>,
    markFault: Fault,
    sends: nat -> SendResult,
    waitExpires: nat -> bool,
    beforeResolve: seq<Action>,
    resolveFault: Fault,
    now: int)

  // The tables a delivery leaves, given where its first store call found them.
  ghost function Final(first: Db, id: int, picked: Option<int>, sent: nat, s: Script): Db {
    match picked
    case None => ApplyWith(first, Update(id, QuotaDeducted, PrintFailed, s.now), s.resolveFault)
    case Some(d) =>
      if ReplyWith(first, MarkSent(id, d), s.markFault) != Done || sent == 0 then
        ApplyWith(first, MarkSent(id, d), s.markFault)
      else
        ApplyWith(ApplyAll(Apply(first, MarkSent(id, d)), s.beforeResolve),
          Update(id, PrintSent, if s.sends(sent) == SendOk then PrintSucceeded else PrintFailed, s.now), s.resolveFault)
  }

  class Deliverer {
    const maxAttempts: int

    constructor (maxAttempts: int)
      ensures this.maxAttempts == if maxAttempts < 1 then 1 else maxAttempts
    {
      this.maxAttempts := if maxAttempts < 1 then 1 else maxAttempts;
    }

    /** The retry loop, for every script of send results and of outcomes of the select:
        `sent` sends, numbered from 1, all but the last of them ordinary failures. */
    method SendWithRetries(sends: nat -> SendResult, waitExpires: nat -> bool, ghost before: seq<Obs>)
      returns (intended: Outcome, sent: nat, ghost trace: seq<Obs>)
      requires maxAttempts >= 1 && Run(Picking, before, maxAttempts) == Some(Sending(1))
      ensures 1 <= sent <= maxAttempts && forall n | 1 <= n < sent :: sends(n) == SendError && !waitExpires(n)
      ensures sends(sent) == SendError ==> sent == maxAttempts || waitExpires(sent)
      ensures intended == DeliverySucceeded <==> sends(sent) == SendOk
      ensures Run(Picking, trace, maxAttempts) == Some(Resolving(PrintSent, intended))
    {
      var attempt := 1;
      trace := before;
      while true
        invariant 1 <= attempt <= maxAttempts
        invariant forall n | 1 <= n < attempt :: sends(n) == SendError && !waitExpires(n)
        invariant Run(Picking, trace, maxAttempts) == Some(Sending(attempt))
        decreases maxAttempts - attempt
      {
        var result := sends(attempt);
        RunAppend(trace, Sent(result), maxAttempts);
        trace := trace + [Sent(result)];
        if result == SendOk {
          return DeliverySucceeded, attempt, trace;
        }
        if result == SendDeadline {
          return DeliveryFailed, attempt, trace;
        }
        if attempt >= maxAttempts {
          return DeliveryFailed, attempt, trace;
        }
        var expired := waitExpires(attempt);
        RunAppend(trace, Waited(expired), maxAttempts);
        trace := trace + [Waited(expired)];
        if expired {
          return DeliveryFailed, attempt, trace;
        }
        attempt := attempt + 1;
      }
    }

    /** One delivery of job `id`. `sent` counts the sends; `trace` is what was observed. */
    method Deliver(store: Store, id: int, s: Script)
      returns (out: Outcome, err: bool, picked: Option<int>, sent: nat, ghost trace: seq<Obs>)
      requires maxAttempts >= 1
      modifies store
      // It is a run of the automaton, and leaves exactly the tables its calls account for.
      ensures Run(Picking, trace, maxAttempts) == Some(Returned(out, err))
      ensures store.Tables() == Final(old(ApplyAll(store.Tables(), s.beforeFirst)), id, picked, sent, s)
      ensures picked.Some? <==> s.listed.Some? && AnyEnabled(s.listed.value) && s.policy == Some(UniformPolicy)
      ensures picked.Some? ==> exists d | d in s.listed.value :: d.enabled && d.id == picked.value
      ensures sent <= maxAttempts && forall n | 1 <= n < sent :: s.sends(n) == SendError
      ensures var first := old(ApplyAll(store.Tables(), s.beforeFirst));
        sent > 0 <==> picked.Some? && ReplyWith(first, MarkSent(id, picked.value), s.markFault) == Done
      ensures out == DeliverySucceeded ==> sent > 0 && s.sends(sent) == SendOk
      // An error is one of the store's, and beside it the answer is what the last send made of it.
      ensures err <==> if picked.Some? && sent == 0 then s.markFault != NoFault else s.resolveFault != NoFault
      ensures err ==> (out == DeliverySucceeded <==> sent > 0 && s.sends(sent) == SendOk)
      // Without an error the answer is the ledger's.
      ensures
        (!err && OthersOnly(s.beforeFirst, id) && OthersOnly(s.beforeResolve, id)
         && old(InState(store.Tables(), id, QuotaDeducted)))
        ==> InState(store.Tables(), id, Verdict(out))
    {
      sent := 0;
      var chosen := PickDestination(s.listed, s.policy);
      store.Meanwhile(s.beforeFirst);
      ghost var first := store.Tables();
      FirstInterval(old(store.Tables()), s.beforeFirst, id);
      if chosen == None {
        picked := None;
        TraceOfPickFailed(maxAttempts);
        out, err, trace := Resolve(store, id, QuotaDeducted, DeliveryFailed, s.resolveFault, s.now, [PickFailed]);
        return;
      }
      picked := Some(chosen.value.id);
      var marked := store.MarkSent(id, picked.value, s.markFault);
      TraceOfMarked(picked.value, marked, maxAttempts);
      trace := [Picked(picked.value), Marked(marked)];
      if marked == UnexpectedState {
        return DeliveryFailed, false, picked, sent, trace;
      }
      if marked != Done {
        return DeliveryFailed, true, picked, sent, trace;
      }

      out, sent, trace := SendWithRetries(s.sends, s.waitExpires, trace);
      SecondInterval(store.Tables(), s.beforeResolve, id);
      store.Meanwhile(s.beforeResolve);
      out, err, trace := Resolve(store, id, PrintSent, out, s.resolveFault, s.now, trace);
    }

    method Resolve(store: Store, id: int, from: State, intended: Outcome, fault: Fault, now: int,
        ghost before: seq<Obs>)
      returns (out: Outcome, err: bool, ghost trace: seq<Obs>)
      requires Run(Picking, before, maxAttempts) == Some(Resolving(from, intended))
      requires ValidTransition(from, Verdict(intended))
      modifies store
      ensures Run(Picking, trace, maxAttempts) == Some(Returned(out, err))
      ensures store.Tables() == ApplyWith(old(store.Tables()), Update(id, from, Verdict(intended), now), fault)
      ensures err <==> fault != NoFault
      ensures err ==> out == intended
      ensures !err ==> out == if old(InState(store.Tables(), id, from)) then intended else DeliveryFailed
      ensures
        (!err && old(InState(store.Tables(), id, from) || InState(store.Tables(), id, PrintFailed)))
        ==> InState(store.Tables(), id, Verdict(out))
      ensures out == DeliverySucceeded ==> intended == DeliverySucceeded
    {
      var reply := store.UpdateJobState(id, from, Verdict(intended), now, fault);
      RunAppend(before, Resolved(reply), maxAttempts);
      trace := before + [Resolved(reply)];
      if reply == UnexpectedState {
        return DeliveryFailed, false, trace;
      }
      if reply != Done {
        return intended, true, trace;
      }
      return intended, false, trace;
    }
  }
}
