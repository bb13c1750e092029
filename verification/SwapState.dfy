/** The bridge-side swap state machine: transition tables, terminal states and the
    action a resume pass takes for a row (src/atomic/state.ts). */
module SwapState {
  import opened Wrappers

  datatype Direction = Send | Receive

  datatype State =
    | Init
    | InvoiceIssued
    | Funded
    | LnInflight
    | Claimed
    | Settled
    | RefundWait
    | Refunded
    | Cancelled
    | Failed

  datatype UnknownState = UnknownState(direction: Direction, state: State)

  /** The states a direction's table has a row for. */
  predicate Known(d: Direction, s: State) {
    match d
    case Send => s != InvoiceIssued && s != Settled
    case Receive => s != LnInflight && s != Cancelled
  }

  /** The transition tables. */
  predicate Edge(d: Direction, from: State, to: State) {
    match d
    case Send =>
      (match from
       case Init => to == Funded || to == Cancelled || to == Failed
       case Funded => to == LnInflight || to == RefundWait || to == Cancelled || to == Failed
       case LnInflight => to == Claimed || to == RefundWait || to == Cancelled || to == Failed
       case RefundWait => to == Refunded || to == Cancelled || to == Failed
       case _ => false)
    case Receive =>
      (match from
       case Init => to == InvoiceIssued || to == Failed
       case InvoiceIssued => to == Funded || to == RefundWait || to == Failed
       case Funded => to == Claimed || to == RefundWait || to == Failed
       case Claimed => to == Settled || to == Failed
       case RefundWait => to == Refunded || to == Failed
       case _ => false)
  }

  /** The states whose row of the table is empty. */
  predicate NoEdge(d: Direction, s: State) {
    match d
    case Send => s == Claimed || s == Refunded || s == Cancelled || s == Failed
    case Receive => s == Settled || s == Refunded || s == Failed
  }

  /** A state of the other direction is not in the table: the source throws. */
  function IsTerminal(d: Direction, s: State): Result<bool, UnknownState> {
    if Known(d, s) then Success(NoEdge(d, s)) else Failure(UnknownState(d, s))
  }

  function CanTransition(d: Direction, from: State, to: State): Result<bool, UnknownState> {
    if Known(d, from) then Success(Edge(d, from, to)) else Failure(UnknownState(d, from))
  }

  predicate Legal(d: Direction, from: State, to: State) {
    Known(d, from) && Edge(d, from, to)
  }

  predicate Terminal(d: Direction, s: State) {
    Known(d, s) && NoEdge(d, s)
  }

  /** A known state is terminal exactly when no state can follow it. */
  lemma TerminalMeansNoMove(d: Direction, s: State)
    requires Known(d, s)
    ensures Terminal(d, s) <==> forall t :: !Legal(d, s, t)
    ensures forall t :: Legal(d, s, t) ==> Known(d, t)
  {
    assert Legal(d, s, Failed) || NoEdge(d, s);
  }

  /** The tables read backwards: what can lead to each state. Every state that is not terminal
      can fail, and a send can be cancelled from every such state; money is given back only by
      way of refund_wait, and claimed only in flight (a send) or funded (a receive). */
  lemma Predecessors(from: State)
    ensures Legal(Send, from, Funded) <==> from == Init
    ensures Legal(Send, from, LnInflight) <==> from == Funded
    ensures Legal(Send, from, Claimed) <==> from == LnInflight
    ensures Legal(Send, from, RefundWait) <==> from == Funded || from == LnInflight
    ensures Legal(Send, from, Refunded) <==> from == RefundWait
    ensures Legal(Send, from, Cancelled) <==> from == Init || from == Funded || from == LnInflight || from == RefundWait
    ensures Legal(Receive, from, InvoiceIssued) <==> from == Init
    ensures Legal(Receive, from, Funded) <==> from == InvoiceIssued
    ensures Legal(Receive, from, Claimed) <==> from == Funded
    ensures Legal(Receive, from, Settled) <==> from == Claimed
    ensures Legal(Receive, from, RefundWait) <==> from == InvoiceIssued || from == Funded
    ensures Legal(Receive, from, Refunded) <==> from == RefundWait
    ensures forall d :: Legal(d, from, Failed) <==> Known(d, from) && !Terminal(d, from)
    ensures forall d :: !Legal(d, from, Init)
    ensures !Legal(Send, from, InvoiceIssued) && !Legal(Send, from, Settled) && !Legal(Receive, from, LnInflight) && !Legal(Receive, from, Cancelled)
  {
  }

  /** A state of the other direction is an error, for both questions. */
  lemma UnknownIsAnError(d: Direction, from: State, to: State)
    ensures CanTransition(d, from, to) == if Known(d, from) then Success(Legal(d, from, to)) else Failure(UnknownState(d, from))
    ensures IsTerminal(d, from) == if Known(d, from) then Success(forall t :: !Legal(d, from, t)) else Failure(UnknownState(d, from))
  {
    if Known(d, from) {
      TerminalMeansNoMove(d, from);
    }
  }

  // ---- histories -----------------------------------------------------------------

  /** A row's history is a walk through the table. */
  ghost predicate IsPath(d: Direction, p: seq<State>) {
    && p != []
    && Known(d, p[0])
    && forall i :: 0 <= i < |p| - 1 ==> Legal(d, p[i], p[i + 1])
  }

  /** How many transitions are still possible from a state. */
  function Remaining(d: Direction, s: State): nat {
    match d
    case Send =>
      (match s
       case Init => 4
       case Funded => 3
       case LnInflight => 2
       case RefundWait => 1
       case _ => 0)
    case Receive =>
      (match s
       case Init => 4
       case InvoiceIssued => 3
       case Funded => 2
       case Claimed => 1
       case RefundWait => 1
       case _ => 0)
  }

  lemma StepLowersRemaining(d: Direction, from: State, to: State)
    requires Legal(d, from, to)
    ensures Remaining(d, to) < Remaining(d, from)
  {
  }

  lemma {:induction false} PathLowersRemaining(d: Direction, p: seq<State>)
    requires IsPath(d, p)
    ensures |p| - 1 + Remaining(d, p[|p| - 1]) <= Remaining(d, p[0])
    decreases |p|
  {
    if |p| > 1 {
      assert Legal(d, p[0], p[1]);
      assert IsPath(d, p[1..]) by {
        forall i | 0 <= i < |p[1..]| - 1 ensures Legal(d, p[1..][i], p[1..][i + 1]) {
          assert Legal(d, p[i + 1], p[i + 2]);
        }
      }
      PathLowersRemaining(d, p[1..]);
      StepLowersRemaining(d, p[0], p[1]);
    }
  }

  /** A swap makes at most four transitions in its life, whichever direction, and the
      bound is tight. No walk leaves a terminal state. */
  lemma {:induction false} AtMostFourTransitions(d: Direction, p: seq<State>)
    requires IsPath(d, p)
    ensures |p| <= 5
    ensures forall i :: 0 <= i < |p| - 1 ==> !Terminal(d, p[i])
    ensures forall i, j :: 0 <= i < j < |p| ==> p[i] != p[j]
  {
    PathLowersRemaining(d, p);
    forall i | 0 <= i < |p| - 1 ensures !Terminal(d, p[i]) {
      assert Legal(d, p[i], p[i + 1]);
    }
    forall i, j | 0 <= i < j < |p| ensures p[i] != p[j] {
      SubPath(d, p, i, j);
      PathLowersRemaining(d, p[i..j + 1]);
    }
  }

  lemma SubPath(d: Direction, p: seq<State>, i: nat, j: nat)
    requires IsPath(d, p) && i < j < |p|
    ensures IsPath(d, p[i..j + 1])
  {
    var q := p[i..j + 1];
    forall k | 0 <= k < |q| - 1 ensures Legal(d, q[k], q[k + 1]) {
      assert Legal(d, p[i + k], p[i + k + 1]);
    }
    assert Legal(d, p[i], p[i + 1]);
  }

  lemma FourTransitionsHappen()
    ensures IsPath(Send, [Init, Funded, LnInflight, RefundWait, Refunded])
    ensures IsPath(Receive, [Init, InvoiceIssued, Funded, Claimed, Settled])
  {
    var p := [Init, Funded, LnInflight, RefundWait, Refunded];
    assert Legal(Send, p[0], p[1]) && Legal(Send, p[1], p[2]) && Legal(Send, p[2], p[3]) && Legal(Send, p[3], p[4]);
    var q := [Init, InvoiceIssued, Funded, Claimed, Settled];
    assert Legal(Receive, q[0], q[1]) && Legal(Receive, q[1], q[2]) && Legal(Receive, q[2], q[3]) && Legal(Receive, q[3], q[4]);
  }

  lemma {:induction false} PathExtends(d: Direction, p: seq<State>, to: State)
    requires IsPath(d, p) && Legal(d, p[|p| - 1], to)
    ensures IsPath(d, p + [to])
  {
    var q := p + [to];
    forall i | 0 <= i < |q| - 1 ensures Legal(d, q[i], q[i + 1]) {
      if i < |p| - 1 {
        assert Legal(d, p[i], p[i + 1]);
      }
    }
  }

  // ---- resume --------------------------------------------------------------------

  datatype ResumeAction = NoAction | Poll | DoRefund | DoCancel | RetryClaim | RetrySettle | WaitSettle

  function ClassifyResume(d: Direction, s: State, refundLocktime: int, nowSecs: int): Result<ResumeAction, UnknownState> {
    match IsTerminal(d, s)
    case Failure(e) => Failure(e)
    case Success(true) => Success(NoAction)
    case Success(false) =>
      var tElapsed := nowSecs >= refundLocktime;
      match d
      case Send =>
        (match s
         case RefundWait => Success(if tElapsed then DoRefund else DoCancel)
         case Funded => Success(if tElapsed then DoRefund else Poll)
         case LnInflight => Success(if tElapsed then DoRefund else Poll)
         case _ => Success(Poll))
      case Receive =>
        (match s
         case Funded => Success(RetryClaim)
         case Claimed => Success(RetrySettle)
         case RefundWait => Success(WaitSettle)
         case _ => Success(Poll))
  }

  /** The other actions. A send that waits for its refund is cancelled before T and any other
      live one polled; a receive is claimed once funded, settled once claimed, watched while the
      payer is refunded, and polled before that. */
  lemma ResumeActionsAre(s: State, refundLocktime: int, nowSecs: int)
    ensures ClassifyResume(Send, s, refundLocktime, nowSecs) == Success(DoCancel) <==> s == RefundWait && nowSecs < refundLocktime
    ensures ClassifyResume(Send, s, refundLocktime, nowSecs) == Success(Poll) <==> s == Init || ((s == Funded || s == LnInflight) && nowSecs < refundLocktime)
    ensures ClassifyResume(Receive, s, refundLocktime, nowSecs) == Success(RetryClaim) <==> s == Funded
    ensures ClassifyResume(Receive, s, refundLocktime, nowSecs) == Success(RetrySettle) <==> s == Claimed
    ensures ClassifyResume(Receive, s, refundLocktime, nowSecs) == Success(WaitSettle) <==> s == RefundWait
    ensures ClassifyResume(Receive, s, refundLocktime, nowSecs) == Success(Poll) <==> s == Init || s == InvoiceIssued
    ensures forall d :: ClassifyResume(d, s, refundLocktime, nowSecs) == Failure(UnknownState(d, s)) <==> !Known(d, s)
  {
  }

  /** Once T is reached, a send row is refunded exactly when refundAtomicSend would accept
      its state, and the refund is legal from there (directly, or through refund_wait).
      Before T no row is ever refunded. */
  lemma RefundActionIsExact(s: State, refundLocktime: int, nowSecs: int)
    ensures ClassifyResume(Send, s, refundLocktime, nowSecs) == Success(DoRefund)
       <==> nowSecs >= refundLocktime && (s == Funded || s == LnInflight || s == RefundWait)
    ensures (s == Funded || s == LnInflight || s == RefundWait)
       <==> s == RefundWait || (Legal(Send, s, RefundWait) && Legal(Send, RefundWait, Refunded))
    ensures ClassifyResume(Send, s, refundLocktime, nowSecs) == Success(NoAction)
       <==> Known(Send, s) && forall t :: !Legal(Send, s, t)
  {
    if Known(Send, s) {
      TerminalMeansNoMove(Send, s);
    }
  }
}
