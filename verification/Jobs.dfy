/** The print job and its state machine. */
module Jobs {

  datatype Option<+T> = None | Some(value: T)

  datatype State =
    | Unknown
    | QuotaInsufficient
    | QuotaDeducted
    | PrintSent
    | PrintSucceeded
    | PrintFailed
    | Refunded

  // Times are instants of one clock, in any unit.
  datatype Job = Job(
    user: string,
    queue: int,
    dest: Option<int>,
    state: State,
    pages: int,
    colorPages: int,
    copies: int,
    cost: int,
    color: bool,
    duplex: bool,
    document: string,
    submitted: int,
    completed: Option<int>,
    refunded: Option<int>)

  function Successors(s: State): seq<State> {
    match s
    case QuotaDeducted => [PrintSent, PrintFailed]
    case PrintSent => [PrintSucceeded, PrintFailed]
    case PrintSucceeded => [Refunded]
    case _ => []
  }

  predicate ValidTransition(from: State, to: State) {
    to in Successors(from)
  }

  predicate IsTerminal(s: State) {
    s in [QuotaInsufficient, PrintSucceeded, PrintFailed, Refunded]
  }

  /** A state is terminal exactly if the job is neither waiting to be sent nor being sent. */
  lemma TerminalExactly(s: State)
    ensures IsTerminal(s) <==> s != QuotaDeducted && s != PrintSent && s != Unknown
  {
  }

  predicate DeductsQuota(s: State) {
    s in [QuotaDeducted, PrintSent, PrintSucceeded]
  }

  function Name(s: State): string {
    match s
    case Unknown => ""
    case QuotaInsufficient => "quota_insufficient"
    case QuotaDeducted => "quota_deducted"
    case PrintSent => "print_sent"
    case PrintSucceeded => "print_succeeded"
    case PrintFailed => "print_failed"
    case Refunded => "refunded"
  }

  function QuotaDeductingStateNames(): seq<string> {
    [Name(QuotaDeducted), Name(PrintSent), Name(PrintSucceeded)]
  }

  /** The filter the quota queries run in SQL, on names, is the filter the program runs on states. */
  lemma DeductingNamesAgree(s: State)
    ensures QuotaDeductingStateNames() == ["quota_deducted", "print_sent", "print_succeeded"]
    ensures Name(s) in QuotaDeductingStateNames() <==> DeductsQuota(s)
  {
  }

  /** A name tells its state: no two states share one. */
  lemma NamesDistinct(s: State, t: State)
    ensures Name(s) == Name(t) ==> s == t
  {
  }

  // How far a job is from having no transition left.
  function Height(s: State): nat {
    match s
    case QuotaDeducted => 3
    case PrintSent => 2
    case PrintSucceeded => 1
    case _ => 0
  }

  // How many sweeps a job can still absorb.
  function Rank(s: State): nat {
    match s
    case QuotaDeducted => 2
    case PrintSent => 1
    case _ => 0
  }

  lemma TransitionsDescend(from: State, to: State)
    requires ValidTransition(from, to)
    ensures Height(to) < Height(from)
    ensures Rank(to) <= Rank(from)
    ensures DeductsQuota(from)
    ensures !IsTerminal(from) || (from == PrintSucceeded && to == Refunded)
  {
  }

  // A history: the states a job has been in, oldest first.
  ghost predicate IsPath(h: seq<State>) {
    && |h| > 0
    && h[0] in [QuotaDeducted, QuotaInsufficient]
    && forall i | 0 < i < |h| :: ValidTransition(h[i - 1], h[i])
  }

  // How often the history gives the cost of the job back.
  ghost function Releases(h: seq<State>): nat {
    if |h| <= 1 then 0
    else Releases(h[..|h| - 1]) + (if DeductsQuota(h[|h| - 2]) && !DeductsQuota(h[|h| - 1]) then 1 else 0)
  }

  lemma {:induction false} PathDescends(h: seq<State>, i: nat, j: nat)
    requires IsPath(h) && i < j < |h|
    ensures Height(h[j]) + (j - i) <= Height(h[i])
    ensures DeductsQuota(h[i])
    decreases j
  {
    TransitionsDescend(h[j - 1], h[j]);
    if i < j - 1 { PathDescends(h, i, j - 1); }
  }

  /** A job never re-enters a state, never pays twice, and is refunded at most once. */
  lemma {:induction false} PathShape(h: seq<State>)
    requires IsPath(h)
    ensures |h| <= 4
    ensures forall i, j | 0 <= i < j < |h| :: h[i] != h[j]
    ensures forall i, j | 0 <= i < j < |h| :: !DeductsQuota(h[i]) ==> !DeductsQuota(h[j])
    ensures Releases(h) == if DeductsQuota(h[0]) && !DeductsQuota(h[|h| - 1]) then 1 else 0
  {
    forall i, j | 0 <= i < j < |h|
      ensures h[i] != h[j] && DeductsQuota(h[i])
    {
      PathDescends(h, i, j);
    }
    if |h| > 1 {
      PathDescends(h, 0, |h| - 1);
      var front := h[..|h| - 1];
      assert forall k | 0 <= k < |front| :: front[k] == h[k];
      PathShape(front);
    }
  }

  // Every history there can be.
  ghost predicate IsListed(h: seq<State>) {
    || h == [QuotaInsufficient]
    || h == [QuotaDeducted]
    || h == [QuotaDeducted, PrintFailed]
    || h == [QuotaDeducted, PrintSent]
    || h == [QuotaDeducted, PrintSent, PrintFailed]
    || h == [QuotaDeducted, PrintSent, PrintSucceeded]
    || h == [QuotaDeducted, PrintSent, PrintSucceeded, Refunded]
  }

  lemma ListedGrow(h: seq<State>, s: State)
    requires IsListed(h)
    ensures IsListed(h + [s]) <==> ValidTransition(h[|h| - 1], s)
  {
    assert (h + [s])[..|h|] == h && (h + [s])[|h|] == s;
  }

  /** The table allows exactly seven histories. */
  lemma {:induction false} HistoriesExactly(h: seq<State>)
    ensures IsPath(h) <==> IsListed(h)
  {
    if |h| > 1 {
      var front := h[..|h| - 1];
      HistoriesExactly(front);
      assert h == front + [h[|h| - 1]];
      assert forall i | 0 <= i < |front| :: front[i] == h[i];
      if IsListed(front) { ListedGrow(front, h[|h| - 1]); }
      if IsListed(h) { assert IsListed(front); }
    }
  }
}
