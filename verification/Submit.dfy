/** Submitting a document: the guards, the price, the quota transaction, the delivery. */
module Submission {
  import opened Jobs
  import opened Tables
  import opened Stores
  import opened Delivery
  import Escapes
  import Tickets

  datatype Input = Input(user: string, queue: int, document: string, color: bool, duplex: bool, copies: int,
    filename: string)

  // The analyzer's answer.
  datatype Count = Count(pages: int, colorPages: int)

  // Why a document is refused before anything is stored, in the order the reasons are looked for.
  datatype Reason =
    | TooLarge
    | NotPdf
    | NoQueue
    | QueueDisabled
    | NotAnalyzed
    | Unreadable
    | TooManyPages
    | InvalidCopies

  function Order(r: Reason): nat {
    match r
    case TooLarge => 0
    case NotPdf => 1
    case NoQueue => 2
    case QueueDisabled => 3
    case NotAnalyzed => 4
    case Unreadable => 5
    case TooManyPages => 6
    case InvalidCopies => 7
  }

  predicate IsPdf(document: string) {
    |document| >= 5 && document[..5] == "%PDF-"
  }

  datatype Answer =
    | Refused(reason: Reason)
    | OverQuota(pages: int, cost: int)
    | NotStored
    | Delivered(pages: int, cost: int, outcome: Outcome)
    | NotRecorded(pages: int, cost: int, outcome: Outcome)

  // ---- The price ----

  function Cost(colorRate: int, pages: int, colorPages: int): int {
    (pages - colorPages) + colorPages * colorRate
  }

  // The price of one copy, page by page: which pages are in color.
  function PriceOf(colored: seq<bool>, colorRate: int): int {
    if colored == [] then 0 else (if colored[0] then colorRate else 1) + PriceOf(colored[1..], colorRate)
  }

  function ColorPages(colored: seq<bool>): nat {
    if colored == [] then 0 else (if colored[0] then 1 else 0) + ColorPages(colored[1..])
  }

  lemma OneMorePage(colorRate: int, pages: int, colorPages: int)
    ensures Cost(colorRate, pages + 1, colorPages + 1) == Cost(colorRate, pages, colorPages) + colorRate
    ensures Cost(colorRate, pages + 1, colorPages) == Cost(colorRate, pages, colorPages) + 1
  {
  }

  /** The cost formula charges every color page the color rate and every other page one. */
  lemma {:induction false} CostIsPageByPage(colored: seq<bool>, colorRate: int)
    ensures ColorPages(colored) <= |colored|
    ensures Cost(colorRate, |colored|, ColorPages(colored)) == PriceOf(colored, colorRate)
  {
    if colored != [] {
      CostIsPageByPage(colored[1..], colorRate);
      OneMorePage(colorRate, |colored| - 1, ColorPages(colored[1..]));
    }
  }

  /** There is a way to color k of n pages. */
  lemma SomeColoring(n: nat, k: nat) returns (colored: seq<bool>)
    requires k <= n
    ensures |colored| == n && ColorPages(colored) == k
  {
    if n == 0 {
      colored := [];
    } else {
      var rest := SomeColoring(n - 1, if k > 0 then k - 1 else 0);
      colored := [k > 0] + rest;
    }
  }

  lemma CostPositive(colorRate: int, pages: int, colorPages: int, copies: int)
    requires colorRate > 0 && 0 <= colorPages <= pages && pages > 0 && copies > 0
    ensures Cost(colorRate, pages, colorPages) * copies > 0
  {
  }

  // ---- What delivery keeps of a row ----

  lemma LaterJoins(i: Job, j: Job, k: Job)
    requires Later(i, j) && Later(j, k)
    ensures Later(i, k)
  {
  }

  lemma FaultyStepIsLater(db: Db, a: Action, f: Fault, id: int)
    requires id in db.jobs
    ensures id in ApplyWith(db, a, f).jobs && Later(db.jobs[id], ApplyWith(db, a, f).jobs[id])
  {
  }

  lemma FinalIsLater(first: Db, id: int, picked: Option<int>, sent: nat, s: Script)
    requires id in first.jobs
    ensures id in Final(first, id, picked, sent, s).jobs
    ensures Later(first.jobs[id], Final(first, id, picked, sent, s).jobs[id])
  {
    match picked
    case None => FaultyStepIsLater(first, Update(id, QuotaDeducted, PrintFailed, s.now), s.resolveFault, id);
    case Some(d) =>
      FaultyStepIsLater(first, MarkSent(id, d), s.markFault, id);
      StepIsLater(first, MarkSent(id, d), id);
      var marked := Apply(first, MarkSent(id, d));
      RunIsLater(marked, s.beforeResolve, id);
      var resolving := ApplyAll(marked, s.beforeResolve);
      LaterJoins(first.jobs[id], marked.jobs[id], resolving.jobs[id]);
      var to := if s.sends(sent) == SendOk then PrintSucceeded else PrintFailed;
      FaultyStepIsLater(resolving, Update(id, PrintSent, to, s.now), s.resolveFault, id);
      LaterJoins(first.jobs[id], resolving.jobs[id],
        ApplyWith(resolving, Update(id, PrintSent, to, s.now), s.resolveFault).jobs[id]);
  }

  // Everything that can vary while a submission is under way.
  datatype Course = Course(id: int, begun: int, faults: TxFaults, beforeLock: seq<Action>, beforeRead: seq<Action>,
    beforeInsert: seq<Action>, beforeCommit: seq<Action>, delivery: Script)
  {
    // Nobody else draws our identity value, or inserts for the user while we hold the lock.
    ghost predicate Fair(user: string) {
      && IdReserved(beforeLock, id)
      && (forall acts | acts in [beforeRead, beforeInsert, beforeCommit] ::
        LockRespected(acts, user) && IdReserved(acts, id))
    }

    ghost predicate LeftAlone() {
      OthersOnly(delivery.beforeFirst, id) && OthersOnly(delivery.beforeResolve, id)
    }
  }

  function SettingsFor(id: int, copies: int, duplex: bool, color: bool, user: string): Tickets.Settings {
    Tickets.Settings(id, copies, duplex, color, Escapes.Sanitize(user))
  }

  // The row holds what the job asks for, and its cost.
  predicate Records(row: Job, j: Job) {
    && row.user == j.user && row.queue == j.queue && row.document == j.document
    && row.pages == j.pages && row.colorPages == j.colorPages && row.copies == j.copies
    && row.cost == j.cost && row.color == j.color && row.duplex == j.duplex
  }

  lemma ChargeOf(db: Db, id: int)
    ensures id in db.jobs ==>
      Charge(db, id, db.jobs[id].user) == if DeductsQuota(db.jobs[id].state) then db.jobs[id].cost else 0
  {
  }

  class Submitter {
    const deliverer: Deliverer
    const colorRate: int
    const maxBytes: int
    const maxPages: int
    const maxCopies: int

    constructor (deliverer: Deliverer, colorRate: int, maxBytes: int, maxPages: int, maxCopies: int)
      ensures this.deliverer == deliverer && this.colorRate == colorRate
      ensures this.maxBytes == maxBytes && this.maxPages == maxPages && this.maxCopies == maxCopies
    {
      this.deliverer, this.colorRate := deliverer, colorRate;
      this.maxBytes, this.maxPages, this.maxCopies := maxBytes, maxPages, maxCopies;
    }

    // What counts as color: nothing, unless the user asked for color.
    function Colored(input: Input, count: Count): int {
      if input.color then count.colorPages else 0
    }

    function Price(input: Input, count: Count): int {
      Cost(colorRate, count.pages, Colored(input, count)) * input.copies
    }

    // The row holds what was asked for and counted, at this cost.
    predicate Keeps(row: Job, input: Input, count: Count, cost: int) {
      && row.user == input.user && row.queue == input.queue && row.document == input.filename
      && row.pages == count.pages && row.colorPages == (if input.color then count.colorPages else 0)
      && row.copies == input.copies && row.cost == cost && row.color == input.color && row.duplex == input.duplex
    }

    // Every copy costs the color rate for each color page, if color was asked for, and one for each other page.
    ghost predicate PaidPageByPage(cost: int, input: Input, count: Count) {
      forall pages: seq<bool> |
          |pages| == count.pages && ColorPages(pages) == (if input.color then count.colorPages else 0) ::
        cost == input.copies * PriceOf(pages, colorRate)
    }

    // The reason applies to this document, whatever else does.
    predicate Objects(r: Reason, input: Input, queue: Option<bool>, count: Option<Count>) {
      match r
      case TooLarge => |input.document| > maxBytes
      case NotPdf => !IsPdf(input.document)
      case NoQueue => queue == None
      case QueueDisabled => queue == Some(false)
      case NotAnalyzed => count == None
      case Unreadable =>
        count.Some? && !(0 <= Colored(input, count.value) <= count.value.pages && count.value.pages > 0)
      case TooManyPages => count.Some? && count.value.pages > maxPages
      case InvalidCopies => !(1 <= input.copies <= maxCopies)
    }

    ghost predicate FirstReason(r: Reason, input: Input, queue: Option<bool>, count: Option<Count>) {
      && Objects(r, input, queue, count)
      && forall other: Reason | Order(other) < Order(r) :: !Objects(other, input, queue, count)
    }

    ghost predicate Admissible(input: Input, queue: Option<bool>, count: Option<Count>) {
      forall r: Reason :: !Objects(r, input, queue, count)
    }

    // The guards, in order.
    method Screen(input: Input, queue: Option<bool>, count: Option<Count>) returns (reason: Option<Reason>)
      ensures
        var large := |input.document| > maxBytes;
        var foreign := !("%PDF-" <= input.document);
        var unreadable := count.Some? && (count.value.pages <= 0 ||
          (input.color && !(0 <= count.value.colorPages <= count.value.pages)));
        var many := count.Some? && count.value.pages > maxPages;
        var found := !large && !foreign && queue == Some(true) && count.Some?;
        && (reason == Some(TooLarge) <==> large)
        && (reason == Some(NotPdf) <==> !large && foreign)
        && (reason == Some(NoQueue) <==> !large && !foreign && queue == None)
        && (reason == Some(QueueDisabled) <==> !large && !foreign && queue == Some(false))
        && (reason == Some(NotAnalyzed) <==> !large && !foreign && queue == Some(true) && count == None)
        && (reason == Some(Unreadable) <==> found && unreadable)
        && (reason == Some(TooManyPages) <==> found && !unreadable && many)
        && (reason == Some(InvalidCopies) <==> found && !unreadable && !many && !(1 <= input.copies <= maxCopies))
      ensures reason == None ==> Admissible(input, queue, count)
      ensures reason.Some? ==> FirstReason(reason.value, input, queue, count)
    {
      if |input.document| > maxBytes { return Some(TooLarge); }
      if !IsPdf(input.document) { return Some(NotPdf); }
      if queue == None { return Some(NoQueue); }
      if !queue.value { return Some(QueueDisabled); }
      if count == None { return Some(NotAnalyzed); }
      var pages, colorPages := count.value.pages, count.value.colorPages;
      if !input.color {
        colorPages := 0;
      }
      if pages <= 0 || colorPages < 0 || colorPages > pages { return Some(Unreadable); }
      if pages > maxPages { return Some(TooManyPages); }
      if input.copies < 1 || input.copies > maxCopies { return Some(InvalidCopies); }
      return None;
    }

    /** One submission. `queue` is the answer to the queue lookup (whether it is enabled), `count` the analyzer's;
        `stream` is what is sent to the printer, if anything is. */
    method Submit(store: Store, input: Input, queue: Option<bool>, count: Option<Count>, x: Course)
      returns (answer: Answer, stream: string)
      requires colorRate > 0 && deliverer.maxAttempts >= 1
      requires RowsChecked(store.Tables()) && x.id !in store.jobs && x.Fair(input.user)
      modifies store
      // Refused exactly when there is a reason, for the first one, and with nothing stored.
      ensures answer.Refused? <==> !Admissible(input, queue, count)
      ensures answer.Refused? ==>
        FirstReason(answer.reason, input, queue, count) && store.Tables() == old(store.Tables())
      // The price: positive, and paid for the pages counted.
      ensures !answer.Refused? ==> count.Some?
      ensures answer.OverQuota? || answer.Delivered? || answer.NotRecorded? ==>
        && answer.pages == count.value.pages
        && answer.cost == Price(input, count.value) > 0
        && PaidPageByPage(answer.cost, input, count.value)
        && x.id in store.jobs && Keeps(store.jobs[x.id], input, count.value, answer.cost)
        && store.jobs[x.id].submitted == x.begun
      ensures var atRead := old(ApplyAll(ApplyAll(store.Tables(), x.beforeLock), x.beforeRead));
        && (answer.OverQuota? ==> Remaining(atRead, input.user) < answer.cost)
        && (answer.Delivered? || answer.NotRecorded? ==> Remaining(atRead, input.user) >= answer.cost)
      // The printer is told what the user asked for.
      ensures answer.Delivered? || answer.NotRecorded? ==>
        Tickets.Tells(stream, SettingsFor(x.id, input.copies, input.duplex, input.color, input.user), input.document)
      // The answer tells what the user was charged.
      ensures answer.OverQuota? ==> Charge(store.Tables(), x.id, input.user) == 0
      ensures answer.Delivered? && x.LeftAlone() ==>
        Charge(store.Tables(), x.id, input.user) == if answer.outcome == DeliverySucceeded then answer.cost else 0
      // Without faults, only an unknown user is turned away.
      ensures answer.NotStored? && x.faults == TxFaults(false, false, false, false, NoFault) ==>
        input.user !in old(ApplyAll(store.Tables(), x.beforeLock)).users
    {
      var reason := Screen(input, queue, count);
      stream := "";
      if reason != None { return Refused(reason.value), stream; }
      var j := Draft(input, queue, count);
      var stored, outcome, err;
      stored, outcome, err, stream := Place(store, j, input.document, x);
      ChargeOf(store.Tables(), x.id);
      match stored
      case StoreError => answer := NotStored;
      case Insufficient(_, _) => answer := OverQuota(j.pages, j.cost);
      case Stored(_) =>
        answer := if err then NotRecorded(j.pages, j.cost, outcome) else Delivered(j.pages, j.cost, outcome);
    }

    // The job to store for an admissible document, with its price.
    method Draft(input: Input, queue: Option<bool>, count: Option<Count>) returns (j: Job)
      requires colorRate > 0 && Admissible(input, queue, count)
      ensures count.Some? && RowChecks(j)
      ensures j.cost == Price(input, count.value) && j.pages == count.value.pages
      ensures Keeps(j, input, count.value, j.cost)
      ensures PaidPageByPage(j.cost, input, count.value)
    {
      assert !Objects(NotAnalyzed, input, queue, count) && !Objects(Unreadable, input, queue, count);
      assert !Objects(InvalidCopies, input, queue, count);
      var pages, colorPages := count.value.pages, Colored(input, count.value);
      var cost := Cost(colorRate, pages, colorPages) * input.copies;
      CostPositive(colorRate, pages, colorPages, input.copies);
      j := Job(input.user, input.queue, None, Unknown, pages, colorPages, input.copies, cost,
        input.color, input.duplex, input.filename, 0, None, None);
      forall colored: seq<bool> | |colored| == pages && ColorPages(colored) == colorPages
        ensures cost == input.copies * PriceOf(colored, colorRate)
      {
        CostIsPageByPage(colored, colorRate);
      }
    }

    // Stores a priced job and, if it was accepted, delivers it.
    method Place(store: Store, j: Job, document: string, x: Course)
      returns (stored: StoreResult, outcome: Outcome, err: bool, stream: string)
      requires deliverer.maxAttempts >= 1 && RowChecks(j)
      requires RowsChecked(store.Tables()) && x.id !in store.jobs && x.Fair(j.user)
      modifies store
      ensures stored != StoreError ==>
        x.id in store.jobs && Records(store.jobs[x.id], j) && store.jobs[x.id].submitted == x.begun
      ensures var atRead := old(ApplyAll(ApplyAll(store.Tables(), x.beforeLock), x.beforeRead));
        && (stored.Insufficient? ==> Remaining(atRead, j.user) < j.cost)
        && (stored.Stored? ==> Remaining(atRead, j.user) >= j.cost)
      ensures stored.Insufficient? ==> store.jobs[x.id].state == QuotaInsufficient
      ensures stored.Stored? && !err && x.LeftAlone() ==> store.jobs[x.id].state == Verdict(outcome)
      ensures stored.Stored? ==>
        Tickets.Tells(stream, SettingsFor(x.id, j.copies, j.duplex, j.color, j.user), document)
      ensures stored == StoreError && x.faults == TxFaults(false, false, false, false, NoFault) ==>
        j.user !in old(ApplyAll(store.Tables(), x.beforeLock)).users
    {
      outcome, err, stream := DeliveryFailed, false, "";
      stored := store.CheckQuotaAndStore(j, x.id, x.begun, x.faults,
        x.beforeLock, x.beforeRead, x.beforeInsert, x.beforeCommit);
      if stored.Stored? {
        stream := Tickets.Ticketed(x.id, stored.row, document);
        outcome, err := DeliverRow(store, x.id, x.delivery);
      }
    }

    // What a submission relies on of the delivery.
    method DeliverRow(store: Store, id: int, s: Script) returns (outcome: Outcome, err: bool)
      requires deliverer.maxAttempts >= 1 && InState(store.Tables(), id, QuotaDeducted)
      modifies store
      ensures id in store.jobs && Records(store.jobs[id], old(store.jobs[id]))
      ensures store.jobs[id].submitted == old(store.jobs[id].submitted)
      ensures !err && OthersOnly(s.beforeFirst, id) && OthersOnly(s.beforeResolve, id) ==>
        store.jobs[id].state == Verdict(outcome)
    {
      ghost var first := ApplyAll(store.Tables(), s.beforeFirst);
      RunIsLater(store.Tables(), s.beforeFirst, id);
      var picked, sent;
      ghost var trace;
      outcome, err, picked, sent, trace := deliverer.Deliver(store, id, s);
      FinalIsLater(first, id, picked, sent, s);
      LaterJoins(old(store.jobs[id]), first.jobs[id], store.jobs[id]);
    }
  }
}
