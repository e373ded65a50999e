/** The payment lifecycle: a constant table of allowed status changes. */
module PaymentLifecycle {

  datatype PaymentIntentStatus =
    | Created
    | LinkReady
    | Pending
    | Succeeded
    | Failed
    | Expired
    | Cancelled
    | UnknownResult
    | FinancialReviewRequired

  function Transitions(from: PaymentIntentStatus): set<PaymentIntentStatus> {
    match from
    case Created => {LinkReady, Pending, Failed, Expired, Cancelled, UnknownResult, FinancialReviewRequired}
    case LinkReady => {Pending, Failed, Expired, Cancelled, UnknownResult, FinancialReviewRequired}
    case Pending => {Succeeded, Failed, Expired, Cancelled, UnknownResult, FinancialReviewRequired}
    case Succeeded => {FinancialReviewRequired}
    case Failed => {FinancialReviewRequired}
    case Expired => {FinancialReviewRequired}
    case Cancelled => {FinancialReviewRequired}
    case UnknownResult => {Succeeded, Failed, FinancialReviewRequired}
    case FinancialReviewRequired => {}
  }

  predicate CanTransition(from: PaymentIntentStatus, to: PaymentIntentStatus) {
    to in Transitions(from)
  }

  /** A level for every status; each allowed change climbs, so the table is a DAG. */
  function Level(s: PaymentIntentStatus): nat {
    match s
    case Created => 0
    case LinkReady => 1
    case Pending => 2
    case UnknownResult => 3
    case Succeeded | Failed | Expired | Cancelled => 4
    case FinancialReviewRequired => 5
  }

  /** A sequence of statuses in which every step is an allowed change. */
  ghost predicate Walk(path: seq<PaymentIntentStatus>) {
    forall k :: 0 < k < |path| ==> CanTransition(path[k - 1], path[k])
  }

  lemma {:induction false} WalkClimbs(path: seq<PaymentIntentStatus>, i: nat, j: nat)
    requires Walk(path)
    requires i < j < |path|
    ensures Level(path[i]) + (j - i) <= Level(path[j])
    decreases j
  {
    assert CanTransition(path[j - 1], path[j]);
    if i < j - 1 {
      WalkClimbs(path, i, j - 1);
    }
  }

  /** No intent ever visits a status twice, and no history is longer than six entries. */
  lemma WalkIsFinite(path: seq<PaymentIntentStatus>)
    requires Walk(path)
    ensures |path| <= 6
    ensures forall i, j :: 0 <= i < j < |path| ==> path[i] != path[j]
  {
    forall i, j | 0 <= i < j < |path|
      ensures path[i] != path[j]
    {
      WalkClimbs(path, i, j);
    }
    if |path| > 1 {
      WalkClimbs(path, 0, |path| - 1);
    }
  }

  /** From which statuses each one is entered. */
  lemma EnteredFrom(from: PaymentIntentStatus, to: PaymentIntentStatus)
    ensures CanTransition(from, to) <==>
      match to
      case Created => false
      case LinkReady => from == Created
      case Pending => from in {Created, LinkReady}
      case Succeeded => from in {Pending, UnknownResult}
      case Failed => from in {Created, LinkReady, Pending, UnknownResult}
      case Expired | Cancelled | UnknownResult => from in {Created, LinkReady, Pending}
      case FinancialReviewRequired => from != FinancialReviewRequired
  {
  }

  /** Once SUCCEEDED has been visited, only SUCCEEDED or a financial review remains. */
  lemma {:induction false} AfterSuccess(path: seq<PaymentIntentStatus>, k: nat)
    requires Walk(path)
    requires k < |path| && path[k] == Succeeded
    ensures path[|path| - 1] in {Succeeded, FinancialReviewRequired}
    ensures k > 0 ==> path[k - 1] in {Pending, UnknownResult}
  {
    if k + 1 < |path| {
      assert CanTransition(path[k], path[k + 1]);
      WalkClimbs(path, k, |path| - 1);
    }
    if k > 0 {
      assert CanTransition(path[k - 1], path[k]);
    }
  }
}
