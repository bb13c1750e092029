/** Periodic budgets of a connection: the admission check of pay_invoice and what later settles
    or fails a payment (src/lib/budget.ts, src/handlers/pay_invoice.ts, src/boltz.ts). */
module Budget {
  import opened Wrappers

  datatype TxState = Pending | Settled | Failed

  /** An outgoing row. `left` is no column of the table: it is what left the wallet for the
      payment, once it did, whether or not the table ever hears of it. */
  datatype Tx = Tx(conn: nat, hash: string, amount: nat, fees: Option<nat>, preimage: Option<string>, state: TxState, createdAt: int,
                   left: Option<nat>)

  /** The start of the window a time falls into. */
  type Windows = int -> int

  /** A connection's budget, if it has one. */
  type Limits = nat -> Option<nat>

  ghost predicate AreWindows(start: Windows) {
    (forall t {:trigger start(t)} :: start(t) <= t) && (forall s, t :: s <= t ==> start(s) <= start(t))
  }

  predicate Live(x: Tx) {
    x.state != Failed
  }

  // ---- sums --------------------------------------------------------------------------------

  /** cycleSpentMsat for a periodic budget: amounts plus the fees known so far. */
  function SpentSince(rows: seq<Tx>, conn: nat, from: int): (n: nat) {
    if rows == [] then 0
    else
      var x := rows[|rows| - 1];
      SpentSince(rows[..|rows| - 1], conn, from) + if x.conn == conn && Live(x) && x.createdAt >= from then x.amount + x.fees.GetOr(0) else 0
  }

  /** Invoice amounts of the live payments created in one window. */
  function NominalIn(rows: seq<Tx>, conn: nat, start: Windows, window: int): (n: nat) {
    if rows == [] then 0
    else
      var x := rows[|rows| - 1];
      NominalIn(rows[..|rows| - 1], conn, start, window) + if x.conn == conn && Live(x) && start(x.createdAt) == window then x.amount else 0
  }

  function FeesIn(rows: seq<Tx>, conn: nat, start: Windows, window: int): (n: nat) {
    if rows == [] then 0
    else
      var x := rows[|rows| - 1];
      FeesIn(rows[..|rows| - 1], conn, start, window) + if x.conn == conn && Live(x) && start(x.createdAt) == window then x.fees.GetOr(0) else 0
  }

  /** A check made before a window boundary still counts everything in the window after it. */
  lemma {:induction false} CheckCoversWindow(rows: seq<Tx>, conn: nat, start: Windows, checked: int, created: int)
    requires AreWindows(start) && checked <= created
    ensures NominalIn(rows, conn, start, start(created)) + FeesIn(rows, conn, start, start(created)) <= SpentSince(rows, conn, start(checked))
  {
    if rows != [] {
      CheckCoversWindow(rows[..|rows| - 1], conn, start, checked, created);
      var x := rows[|rows| - 1];
      assert start(x.createdAt) <= x.createdAt && start(checked) <= start(created);
    }
  }

  /** And counts nothing else: when the window it was made in is the only one since, the sum is
      exactly the amounts and known fees of the payments in it that have not failed. */
  lemma {:induction false} CheckIsExact(rows: seq<Tx>, conn: nat, start: Windows, from: int, window: int)
    requires forall x :: x in rows && x.conn == conn && x.state != Failed ==> (x.createdAt >= from <==> start(x.createdAt) == window)
    ensures SpentSince(rows, conn, from) == NominalIn(rows, conn, start, window) + FeesIn(rows, conn, start, window)
  {
    if rows != [] {
      var n := |rows| - 1;
      assert rows[n] in rows && forall x :: x in rows[..n] ==> x in rows;
      CheckIsExact(rows[..n], conn, start, from, window);
    }
  }

  /** Row by row. */
  lemma SumsByRow(rows: seq<Tx>, x: Tx, conn: nat, start: Windows, from: int, window: int)
    ensures SpentSince([], conn, from) == NominalIn([], conn, start, window) == 0
    ensures SpentSince(rows + [x], conn, from) - SpentSince(rows, conn, from)
         == if x.conn == conn && x.state != Failed && x.createdAt >= from then x.amount + (if x.fees.Some? then x.fees.value else 0) else 0
    ensures NominalIn(rows + [x], conn, start, window) - NominalIn(rows, conn, start, window)
         == if x.conn == conn && x.state != Failed && start(x.createdAt) == window then x.amount else 0
  {
    assert (rows + [x])[..|rows|] == rows;
  }

  lemma {:induction false} SumsUpdate(rows: seq<Tx>, i: nat, x: Tx, conn: nat, start: Windows, window: int)
    requires i < |rows| && x.conn == rows[i].conn && x.amount == rows[i].amount && x.createdAt == rows[i].createdAt
    ensures NominalIn(rows[i := x], conn, start, window)
         == NominalIn(rows, conn, start, window)
          + (if rows[i].conn == conn && start(rows[i].createdAt) == window then (if Live(x) then x.amount else 0) - (if Live(rows[i]) then x.amount else 0) else 0)
    decreases |rows|
  {
    var n := |rows| - 1;
    assert rows[i := x][..n] == if i < n then rows[..n][i := x] else rows[..n];
    if i < n {
      SumsUpdate(rows[..n], i, x, conn, start, window);
    }
  }

  // ---- what happens to the table -----------------------------------------------------------------

  datatype Admission = Replayed(preimage: string) | AlreadyPaying | QuotaExceeded | Inserted

  datatype Event =
    | Pay(conn: nat, hash: string, amount: nat, checked: int, created: int)
    | HandlerSettles(i: nat, preimage: string, paid: nat)
    | HandlerFails(i: nat)
    | SyncSettles(i: nat, known: Option<string>, reconciled: bool, paid: nat)
    | SyncFails(i: nat, known: Option<string>)
    | GoesOut(i: nat, paid: nat)

  predicate SettledRow(x: Tx, hash: string) {
    x.state == Settled && x.hash == hash
  }

  /** A missing and an empty preimage are both none. */
  predicate Proven(x: Tx) {
    x.preimage.GetOr("") != ""
  }

  predicate PendingRow(x: Tx, conn: nat, hash: string) {
    x.state == Pending && x.conn == conn && x.hash == hash
  }

  /** The settled row a query for the hash finds first. */
  function FirstSettled(rows: seq<Tx>, hash: string): (r: Option<nat>)
    ensures r.Some? ==> r.value < |rows| && SettledRow(rows[r.value], hash) && forall k :: 0 <= k < r.value ==> !SettledRow(rows[k], hash)
    ensures r.None? <==> forall k :: 0 <= k < |rows| ==> !SettledRow(rows[k], hash)
  {
    if rows == [] then None
    else
      match FirstSettled(rows[..|rows| - 1], hash)
      case Some(k) => Some(k)
      case None => if SettledRow(rows[|rows| - 1], hash) then Some(|rows| - 1) else None
  }

  predicate SomePending(rows: seq<Tx>, conn: nat, hash: string) {
    exists k :: 0 <= k < |rows| && PendingRow(rows[k], conn, hash)
  }

  function NewRow(e: Event): Tx
    requires e.Pay?
  {
    Tx(e.conn, e.hash, e.amount, None, None, Pending, e.created, None)
  }

  /** The hash was paid, as far as the first settled row for it can prove. */
  predicate PaidBefore(rows: seq<Tx>, hash: string) {
    FirstSettled(rows, hash).Some? && Proven(rows[FirstSettled(rows, hash).value])
  }

  predicate HasQuota(rows: seq<Tx>, limits: Limits, start: Windows, e: Event)
    requires e.Pay?
  {
    limits(e.conn).Some? ==> SpentSince(rows, e.conn, start(e.checked)) + e.amount <= limits(e.conn).value
  }

  /** The checks of pay_invoice, in its order. */
  function Admitted(rows: seq<Tx>, limits: Limits, start: Windows, e: Event): Admission
    requires e.Pay?
  {
    if PaidBefore(rows, e.hash) then Replayed(rows[FirstSettled(rows, e.hash).value].preimage.value)
    else if SomePending(rows, e.conn, e.hash) then AlreadyPaying
    else if !HasQuota(rows, limits, start, e) then QuotaExceeded
    else Inserted
  }

  /** What the handler writes when its payment returns. */
  function Handled(x: Tx, preimage: string, paid: nat): Tx {
    x.(state := Settled, preimage := Some(preimage), fees := Some(if paid > x.amount then paid - x.amount else 0))
  }

  /** A listener never replaces a preimage it finds, and the reconciling one fills in missing
      fees as none. */
  function Listened(x: Tx, to: TxState, preimage: Option<string>, reconciled: bool): Tx {
    x.(state := to, preimage := if x.preimage.Some? then x.preimage else preimage,
       fees := if reconciled && x.fees.None? then Some(0) else x.fees)
  }

  /** The money of a payment leaves once. */
  function Paying(x: Tx, paid: nat): Tx {
    x.(left := if x.left.Some? then x.left else Some(paid))
  }

  /** The handler's own writes name the row only by its request, whatever state it is in by
      then; the listeners write only to pending rows. A settlement reports a payment that went
      out, also when it comes too late to be written; a payment may also go out and nobody
      reports it. */
  function After(rows: seq<Tx>, limits: Limits, start: Windows, e: Event): seq<Tx> {
    match e
    case Pay(_, _, _, _, _) => if Admitted(rows, limits, start, e).Inserted? then rows + [NewRow(e)] else rows
    case HandlerSettles(i, preimage, paid) =>
      if i < |rows| then rows[i := Paying(Handled(rows[i], preimage, paid), paid)] else rows
    case HandlerFails(i) => if i < |rows| then rows[i := rows[i].(state := Failed)] else rows
    case SyncSettles(i, preimage, reconciled, paid) =>
      if i < |rows| then rows[i := Paying(if rows[i].state == Pending then Listened(rows[i], Settled, preimage, reconciled) else rows[i], paid)] else rows
    case SyncFails(i, preimage) => if i < |rows| && rows[i].state == Pending then rows[i := Listened(rows[i], Failed, preimage, false)] else rows
    case GoesOut(i, paid) => if i < |rows| then rows[i := Paying(rows[i], paid)] else rows
  }

  /** The answer of pay_invoice: the preimage of the oldest settled payment of the hash, on
      whatever connection, if it has one; else a refusal while this connection is paying it; else
      a refusal when what was spent since the start of the window leaves no room; else a payment. */
  ghost predicate Answered(rows: seq<Tx>, limits: Limits, start: Windows, e: Event, r: Admission)
    requires e.Pay?
  {
    if exists k :: OldestSettled(rows, e.hash, k) && rows[k].preimage.Some? && rows[k].preimage.value != ""
    then exists k :: OldestSettled(rows, e.hash, k) && Some(r) == (match rows[k].preimage case Some(p) => Some(Replayed(p)) case None => None)
    else if exists x :: x in rows && x.state == Pending && x.conn == e.conn && x.hash == e.hash then r == AlreadyPaying
    else if limits(e.conn).Some? && limits(e.conn).value < SpentSince(rows, e.conn, start(e.checked)) + e.amount then r == QuotaExceeded
    else r == Inserted
  }

  predicate OldestSettled(rows: seq<Tx>, hash: string, k: int) {
    0 <= k < |rows| && rows[k].state == Settled && rows[k].hash == hash && forall i :: 0 <= i < k ==> !(rows[i].state == Settled && rows[i].hash == hash)
  }

  lemma AdmittedIs(rows: seq<Tx>, limits: Limits, start: Windows, e: Event)
    requires e.Pay?
    ensures Answered(rows, limits, start, e, Admitted(rows, limits, start, e))
  {
    hide SpentSince;
    var f := FirstSettled(rows, e.hash);
    if f.Some? {
      assert OldestSettled(rows, e.hash, f.value);
      assert forall k :: OldestSettled(rows, e.hash, k) ==> k == f.value;
    } else {
      assert forall k :: !OldestSettled(rows, e.hash, k);
    }
    if SomePending(rows, e.conn, e.hash) {
      var k :| 0 <= k < |rows| && PendingRow(rows[k], e.conn, e.hash);
      assert rows[k] in rows;
    } else {
      assert forall k :: 0 <= k < |rows| ==> !PendingRow(rows[k], e.conn, e.hash);
    }
    hide FirstSettled;
  }

  /** What a later write makes of a row. The handler settles with its preimage and what it paid
      over the invoice; its failing write only fails. A listener writes to pending rows only,
      keeps a preimage it finds, and the reconciling one takes missing fees for none. */
  ghost predicate Written(x: Tx, y: Tx, e: Event)
    requires !e.Pay?
  {
    && y.conn == x.conn && y.hash == x.hash && y.amount == x.amount && y.createdAt == x.createdAt
    && match e
       case HandlerSettles(_, preimage, paid) =>
         y.state == Settled && y.preimage == Some(preimage) && y.fees == Some(if paid <= x.amount then 0 else paid - x.amount) && y.left == Some(x.left.GetOr(paid))
       case HandlerFails(_) => y == x.(state := Failed)
       case SyncSettles(_, known, reconciled, paid) =>
         && y.left == Some(x.left.GetOr(paid))
         && (if x.state != Pending then y.state == x.state && y.preimage == x.preimage && y.fees == x.fees
             else y.state == Settled && y.preimage == (if x.preimage.None? then known else x.preimage)
                  && y.fees == (if x.fees.None? && reconciled then Some(0) else x.fees))
       case SyncFails(_, known) =>
         if x.state != Pending then y == x else y == x.(state := Failed, preimage := if x.preimage.None? then known else x.preimage)
       case GoesOut(_, paid) => y == x.(left := Some(x.left.GetOr(paid)))
  }

  class Ledger {
    const limits: Limits
    const start: Windows
    var rows: seq<Tx>

    constructor (limits: Limits, start: Windows)
      ensures rows == [] && this.limits == limits && this.start == start
    {
      this.limits, this.start, rows := limits, start, [];
    }

    method CycleSpent(conn: nat, from: int) returns (spent: nat)
      ensures spent == SpentSince(rows, conn, from)
    {
      spent := 0;
      for i := 0 to |rows|
        invariant spent == SpentSince(rows[..i], conn, from)
      {
        assert rows[..i + 1][..i] == rows[..i];
        var x := rows[i];
        if x.conn == conn && Live(x) && x.createdAt >= from {
          spent := spent + x.amount + x.fees.GetOr(0);
        }
      }
      assert rows[..|rows|] == rows;
    }

    /** The stretch of pay_invoice from its checks to its INSERT, which nothing interrupts. */
    method Admit(e: Event) returns (r: Admission)
      requires e.Pay?
      modifies this
      ensures r == Admitted(old(rows), limits, start, e) && rows == After(old(rows), limits, start, e)
      ensures rows == if r.Inserted? then old(rows) + [Tx(e.conn, e.hash, e.amount, None, None, Pending, e.created, None)] else old(rows)
      ensures Answered(old(rows), limits, start, e, r)
      ensures r.Inserted? && limits(e.conn).Some? ==> SpentSince(rows, e.conn, start(e.checked)) <= limits(e.conn).value
    {
      AdmittedIs(rows, limits, start, e);
      hide Answered;
      var k := FirstSettled(rows, e.hash);
      if k.Some? && Proven(rows[k.value]) {
        return Replayed(rows[k.value].preimage.value);
      }
      if SomePending(rows, e.conn, e.hash) {
        return AlreadyPaying;
      }
      if limits(e.conn).Some? {
        var spent := CycleSpent(e.conn, start(e.checked));
        if spent + e.amount > limits(e.conn).value {
          return QuotaExceeded;
        }
      }
      assert (rows + [NewRow(e)])[..|rows|] == rows;
      rows := rows + [NewRow(e)];
      r := Inserted;
    }

    method Update(e: Event)
      requires !e.Pay?
      modifies this
      ensures rows == After(old(rows), limits, start, e)
      ensures |rows| == |old(rows)| && forall k :: 0 <= k < |rows| ==> if k == e.i then Written(old(rows)[k], rows[k], e) else rows[k] == old(rows)[k]
    {
      if e.i < |rows| {
        var x := rows[e.i];
        match e {
          case HandlerSettles(i, preimage, paid) =>
            var fees := if paid > x.amount then paid - x.amount else 0;
            x := x.(state := Settled, preimage := Some(preimage), fees := Some(fees));
          case HandlerFails(i) => x := x.(state := Failed);
          case SyncSettles(i, preimage, reconciled, _) =>
            if x.state == Pending {
              var fees := if reconciled && x.fees.None? then Some(0) else x.fees;
              x := x.(state := Settled, preimage := if x.preimage.Some? then x.preimage else preimage, fees := fees);
            }
          case SyncFails(i, preimage) =>
            if x.state == Pending {
              x := x.(state := Failed, preimage := if x.preimage.Some? then x.preimage else preimage);
            }
          case GoesOut(_, _) =>
        }
        if (e.HandlerSettles? || e.SyncSettles? || e.GoesOut?) && x.left.None? {
          x := x.(left := Some(e.paid));
        }
        rows := rows[e.i := x];
      }
    }
  }

  // ---- the budget over runs -----------------------------------------------------------------------

  ghost predicate WithinBudget(rows: seq<Tx>, limits: Limits, start: Windows) {
    forall conn, window :: limits(conn).Some? ==> NominalIn(rows, conn, start, window) <= limits(conn).value
  }

  /** A handler that settles a row which was failed in the meantime. */
  predicate Revives(rows: seq<Tx>, e: Event) {
    e.HandlerSettles? && e.i < |rows| && rows[e.i].state == Failed
  }

  lemma AdmissionKeeps(rows: seq<Tx>, limits: Limits, start: Windows, e: Event)
    requires AreWindows(start) && WithinBudget(rows, limits, start) && e.Pay? && e.checked <= e.created
    ensures WithinBudget(After(rows, limits, start, e), limits, start)
  {
    hide AreWindows, FirstSettled, SomePending;
    var next := After(rows, limits, start, e);
    if next != rows {
      assert next[..|rows|] == rows;
      CheckCoversWindow(rows, e.conn, start, e.checked, e.created);
      forall conn, window | limits(conn).Some? ensures NominalIn(next, conn, start, window) <= limits(conn).value {
        assert NominalIn(rows, conn, start, window) <= limits(conn).value;
      }
    }
  }

  /** What a revival gives back to its window still fits. */
  predicate HasRoom(rows: seq<Tx>, limits: Limits, start: Windows, e: Event)
    requires Revives(rows, e)
  {
    var x := rows[e.i];
    limits(x.conn).Some? ==> NominalIn(rows, x.conn, start, start(x.createdAt)) + x.amount <= limits(x.conn).value
  }

  lemma UpdateKeeps(rows: seq<Tx>, limits: Limits, start: Windows, e: Event)
    requires WithinBudget(rows, limits, start) && !e.Pay? && !Revives(rows, e)
    ensures WithinBudget(After(rows, limits, start, e), limits, start)
  {
    var next := After(rows, limits, start, e);
    if e.i < |rows| {
      assert next != rows ==> next == rows[e.i := next[e.i]];
      forall conn, window | limits(conn).Some? ensures NominalIn(next, conn, start, window) <= limits(conn).value {
        assert NominalIn(rows, conn, start, window) <= limits(conn).value;
        if next != rows {
          SumsUpdate(rows, e.i, next[e.i], conn, start, window);
        }
      }
    }
  }

  /** Exactly when a revival breaks a budget: when the window has no room left for the amount
      that had been given back to it. */
  lemma RevivalExactlyWhen(rows: seq<Tx>, limits: Limits, start: Windows, e: Event)
    requires WithinBudget(rows, limits, start) && Revives(rows, e)
    ensures WithinBudget(After(rows, limits, start, e), limits, start) <==> HasRoom(rows, limits, start, e)
  {
    var next := After(rows, limits, start, e);
    var x := rows[e.i];
    forall conn, window
      ensures NominalIn(next, conn, start, window) == NominalIn(rows, conn, start, window) + (if x.conn == conn && start(x.createdAt) == window then x.amount else 0)
    {
      SumsUpdate(rows, e.i, next[e.i], conn, start, window);
    }
    if WithinBudget(next, limits, start) {
      assert limits(x.conn).Some? ==> NominalIn(next, x.conn, start, start(x.createdAt)) <= limits(x.conn).value;
    }
  }

  /** The next state is within its budgets exactly when the event is no revival without room. */
  lemma StepWithin(rows: seq<Tx>, limits: Limits, start: Windows, e: Event)
    requires AreWindows(start) && WithinBudget(rows, limits, start) && (e.Pay? ==> e.checked <= e.created)
    ensures WithinBudget(After(rows, limits, start, e), limits, start) <==> (Revives(rows, e) ==> HasRoom(rows, limits, start, e))
  {
    hide After, AreWindows, HasRoom, WithinBudget;
    if e.Pay? {
      AdmissionKeeps(rows, limits, start, e);
    } else if Revives(rows, e) {
      RevivalExactlyWhen(rows, limits, start, e);
    } else {
      UpdateKeeps(rows, limits, start, e);
    }
  }

  function Run(rows: seq<Tx>, limits: Limits, start: Windows, es: seq<Event>): seq<Tx>
    decreases |es|
  {
    if es == [] then rows else After(Run(rows, limits, start, es[..|es| - 1]), limits, start, es[|es| - 1])
  }

  ghost predicate InOrder(es: seq<Event>) {
    forall k :: 0 <= k < |es| && es[k].Pay? ==> es[k].checked <= es[k].created
  }

  /** A revival into a full window, somewhere in a run. */
  ghost predicate Overspends(limits: Limits, start: Windows, es: seq<Event>, k: nat)
    requires k < |es|
  {
    var rows := Run([], limits, start, es[..k]);
    Revives(rows, es[k]) && !HasRoom(rows, limits, start, es[k])
  }

  /** After `k` events of a run. */
  ghost predicate WithinAt(limits: Limits, start: Windows, es: seq<Event>, k: nat)
    requires k <= |es|
  {
    WithinBudget(Run([], limits, start, es[..k]), limits, start)
  }

  /** Over any interleaving of payments at their awaits with settles and failures: the invoice
      amounts of the live payments of one window stay within the budget at every point of the
      run if and only if no handler revives, into a window without room, a payment that was
      failed meanwhile. A check and its INSERT may lie on different sides of a boundary. */
  lemma {:induction false} BudgetHoldsExactlyWhen(limits: Limits, start: Windows, es: seq<Event>)
    requires AreWindows(start) && InOrder(es)
    ensures (forall k :: 0 <= k <= |es| ==> WithinAt(limits, start, es, k)) <==> (forall k :: 0 <= k < |es| ==> !Overspends(limits, start, es, k))
    decreases |es|
  {
    hide AreWindows, After, Revives, WithinBudget, Run, HasRoom;
    if es == [] {
      NothingSpent(limits, start);
      EmptyRun(limits, start);
      assert es[..0] == [];
      assert WithinAt(limits, start, es, 0);
    } else {
      var n := |es| - 1;
      var rest, e := es[..n], es[n];
      BudgetHoldsExactlyWhen(limits, start, rest);
      forall k | 0 <= k <= n ensures WithinAt(limits, start, es, k) == WithinAt(limits, start, rest, k) {
        assert rest[..k] == es[..k];
      }
      forall k | 0 <= k < n ensures Overspends(limits, start, es, k) == Overspends(limits, start, rest, k) {
        assert rest[..k] == es[..k];
      }
      assert es[..|es|] == es;
      RunNext(limits, start, es);
      if WithinAt(limits, start, es, n) {
        StepWithin(Run([], limits, start, rest), limits, start, e);
      }
      assert WithinAt(limits, start, es, n) ==> (WithinAt(limits, start, es, |es|) <==> !Overspends(limits, start, es, n));
    }
  }

  lemma EmptyRun(limits: Limits, start: Windows)
    ensures Run([], limits, start, []) == []
  {
  }

  lemma RunNext(limits: Limits, start: Windows, es: seq<Event>)
    requires es != []
    ensures Run([], limits, start, es) == After(Run([], limits, start, es[..|es| - 1]), limits, start, es[|es| - 1])
  {
  }

  lemma NothingSpent(limits: Limits, start: Windows)
    ensures WithinBudget([], limits, start)
  {
  }

  // ---- what left the wallet ----------------------------------------------------------------------

  /** A payment that left the wallet and is marked failed: no sum of the table counts it. */
  predicate Lost(x: Tx) {
    !Live(x) && x.left.Some?
  }

  function LostIn(rows: seq<Tx>, conn: nat, start: Windows, window: int): (n: nat) {
    if rows == [] then 0
    else
      var x := rows[|rows| - 1];
      LostIn(rows[..|rows| - 1], conn, start, window) + if x.conn == conn && Lost(x) && start(x.createdAt) == window then x.amount else 0
  }

  /** What a payment moves: what left for it, or as long as it may still leave, its invoice. */
  function Outlay(x: Tx): nat {
    if x.left.Some? then x.left.value else if Live(x) then x.amount else 0
  }

  /** Wallet movement of the payments created in one window. */
  function MovedIn(rows: seq<Tx>, conn: nat, start: Windows, window: int): (n: nat) {
    if rows == [] then 0
    else
      var x := rows[|rows| - 1];
      MovedIn(rows[..|rows| - 1], conn, start, window) + if x.conn == conn && start(x.createdAt) == window then Outlay(x) else 0
  }

  /** What those that left cost beyond their invoices. */
  function CostsIn(rows: seq<Tx>, conn: nat, start: Windows, window: int): (n: int) {
    if rows == [] then 0
    else
      var x := rows[|rows| - 1];
      CostsIn(rows[..|rows| - 1], conn, start, window)
      + if x.conn == conn && x.left.Some? && start(x.createdAt) == window then x.left.value - x.amount else 0
  }

  lemma {:induction false} MovementParts(rows: seq<Tx>, conn: nat, start: Windows, window: int)
    ensures MovedIn(rows, conn, start, window)
         == NominalIn(rows, conn, start, window) + LostIn(rows, conn, start, window) + CostsIn(rows, conn, start, window)
  {
    if rows != [] {
      MovementParts(rows[..|rows| - 1], conn, start, window);
    }
  }

  lemma {:induction false} LostUpdate(rows: seq<Tx>, i: nat, x: Tx, conn: nat, start: Windows, window: int)
    requires i < |rows| && x.conn == rows[i].conn && x.amount == rows[i].amount && x.createdAt == rows[i].createdAt
    ensures LostIn(rows[i := x], conn, start, window)
         == LostIn(rows, conn, start, window)
          + (if rows[i].conn == conn && start(rows[i].createdAt) == window then (if Lost(x) then x.amount else 0) - (if Lost(rows[i]) then x.amount else 0) else 0)
    decreases |rows|
  {
    var n := |rows| - 1;
    assert rows[i := x][..n] == if i < n then rows[..n][i := x] else rows[..n];
    if i < n {
      LostUpdate(rows[..n], i, x, conn, start, window);
    }
  }

  /** The invoice amounts a window stands for: live payments, and those lost to the table. */
  function CommittedIn(rows: seq<Tx>, conn: nat, start: Windows, window: int): nat {
    NominalIn(rows, conn, start, window) + LostIn(rows, conn, start, window)
  }

  /** Movement exceeds no budget by more than what the payments cost beyond their invoices. */
  ghost predicate MovesWithin(rows: seq<Tx>, limits: Limits, start: Windows) {
    forall conn, window :: limits(conn).Some? ==> MovedIn(rows, conn, start, window) <= limits(conn).value + CostsIn(rows, conn, start, window)
  }

  predicate Counts(x: Tx) {
    Live(x) || x.left.Some?
  }

  /** The payment an event newly commits its window to: an admission, the revival of a failed
      payment, or a claim that lands although its row is marked failed. */
  function Commits(rows: seq<Tx>, limits: Limits, start: Windows, e: Event): Option<Tx> {
    match e
    case Pay(_, _, _, _, _) => if Admitted(rows, limits, start, e).Inserted? then Some(NewRow(e)) else None
    case HandlerFails(_) => None
    case SyncFails(_, _) => None
    case _ => if e.i < |rows| && !Counts(rows[e.i]) then Some(rows[e.i]) else None
  }

  /** The live amounts of the window together with the lost ones leave no room for it. */
  predicate NoRoom(rows: seq<Tx>, limits: Limits, start: Windows, x: Tx) {
    limits(x.conn).Some? && CommittedIn(rows, x.conn, start, start(x.createdAt)) + x.amount > limits(x.conn).value
  }

  /** What an event does to the sum of one window, exactly or as a bound. */
  lemma CommittedNext(rows: seq<Tx>, limits: Limits, start: Windows, e: Event, conn: nat, window: int)
    ensures var next := After(rows, limits, start, e);
      var c := Commits(rows, limits, start, e);
      if c.Some?
      then CommittedIn(next, conn, start, window)
        == CommittedIn(rows, conn, start, window) + (if c.value.conn == conn && start(c.value.createdAt) == window then c.value.amount else 0)
      else CommittedIn(next, conn, start, window) <= CommittedIn(rows, conn, start, window)
  {
    hide FirstSettled, SomePending, HasQuota, PaidBefore;
    var next := After(rows, limits, start, e);
    if e.Pay? {
      if next != rows {
        assert next[..|rows|] == rows;
      }
    } else if e.i < |rows| {
      assert next == rows[e.i := next[e.i]];
      SumsUpdate(rows, e.i, next[e.i], conn, start, window);
      LostUpdate(rows, e.i, next[e.i], conn, start, window);
    }
  }

  lemma MovesStep(rows: seq<Tx>, limits: Limits, start: Windows, e: Event)
    requires MovesWithin(rows, limits, start)
    ensures var c := Commits(rows, limits, start, e);
      MovesWithin(After(rows, limits, start, e), limits, start) <==> !(c.Some? && NoRoom(rows, limits, start, c.value))
  {
    var next := After(rows, limits, start, e);
    var c := Commits(rows, limits, start, e);
    hide After, Commits, MovedIn, CostsIn, NominalIn, LostIn;
    forall conn, window | limits(conn).Some?
      ensures MovedIn(next, conn, start, window) == CommittedIn(next, conn, start, window) + CostsIn(next, conn, start, window)
      ensures CommittedIn(rows, conn, start, window) <= limits(conn).value
      ensures CommittedIn(next, conn, start, window) <= CommittedIn(rows, conn, start, window)
           || (c.Some? && c.value.conn == conn && start(c.value.createdAt) == window)
    {
      MovementParts(next, conn, start, window);
      MovementParts(rows, conn, start, window);
      CommittedNext(rows, limits, start, e, conn, window);
      assert MovedIn(rows, conn, start, window) <= limits(conn).value + CostsIn(rows, conn, start, window);
    }
    if c.Some? && limits(c.value.conn).Some? {
      var conn, window := c.value.conn, start(c.value.createdAt);
      CommittedNext(rows, limits, start, e, conn, window);
      assert MovedIn(next, conn, start, window) == CommittedIn(next, conn, start, window) + CostsIn(next, conn, start, window);
    }
  }

  /** An event that commits a window without room, somewhere in a run. */
  ghost predicate Overcommits(limits: Limits, start: Windows, es: seq<Event>, k: nat)
    requires k < |es|
  {
    var rows := Run([], limits, start, es[..k]);
    var c := Commits(rows, limits, start, es[k]);
    c.Some? && NoRoom(rows, limits, start, c.value)
  }

  ghost predicate MovesAt(limits: Limits, start: Windows, es: seq<Event>, k: nat)
    requires k <= |es|
  {
    MovesWithin(Run([], limits, start, es[..k]), limits, start)
  }

  /** Over any interleaving, whatever the table hears of it: at every point of the run the
      movement of each window exceeds its budget by no more than what the payments cost beyond
      their invoices, if and only if no admission, no revival and no late claim falls into a
      window whose live amounts, with the amounts that left and are marked failed, leave no
      room for it. */
  lemma {:induction false} MovementHoldsExactlyWhen(limits: Limits, start: Windows, es: seq<Event>)
    ensures (forall k :: 0 <= k <= |es| ==> MovesAt(limits, start, es, k)) <==> (forall k :: 0 <= k < |es| ==> !Overcommits(limits, start, es, k))
    decreases |es|
  {
    hide After, Commits, MovesWithin, Run, NoRoom;
    if es == [] {
      NothingMoved(limits, start);
      EmptyRun(limits, start);
      assert es[..0] == [];
      assert MovesAt(limits, start, es, 0);
    } else {
      var n := |es| - 1;
      var rest, e := es[..n], es[n];
      MovementHoldsExactlyWhen(limits, start, rest);
      forall k | 0 <= k <= n ensures MovesAt(limits, start, es, k) == MovesAt(limits, start, rest, k) {
        assert rest[..k] == es[..k];
      }
      forall k | 0 <= k < n ensures Overcommits(limits, start, es, k) == Overcommits(limits, start, rest, k) {
        assert rest[..k] == es[..k];
      }
      assert es[..|es|] == es;
      RunNext(limits, start, es);
      if MovesAt(limits, start, es, n) {
        MovesStep(Run([], limits, start, rest), limits, start, e);
      }
      assert MovesAt(limits, start, es, n) ==> (MovesAt(limits, start, es, |es|) <==> !Overcommits(limits, start, es, n));
    }
  }

  lemma NothingMoved(limits: Limits, start: Windows)
    ensures MovesWithin([], limits, start)
  {
  }

  // ---- when nothing is lost to the table ------------------------------------------------------------

  /** An event after which a payment that left is marked failed: a failing write names one that
      has left, or one leaves whose row is marked failed. */
  predicate Loses(rows: seq<Tx>, e: Event) {
    !e.Pay? && e.i < |rows| &&
    match e
    case HandlerFails(i) => rows[i].left.Some?
    case SyncFails(i, _) => rows[i].left.Some? && rows[i].state == Pending
    case SyncSettles(i, _, _, _) => rows[i].state == Failed
    case GoesOut(i, _) => rows[i].state == Failed
    case _ => false
  }

  ghost predicate LosesAt(limits: Limits, start: Windows, es: seq<Event>, k: nat)
    requires k < |es|
  {
    Loses(Run([], limits, start, es[..k]), es[k])
  }

  ghost predicate NoneLost(rows: seq<Tx>) {
    forall k :: 0 <= k < |rows| ==> !Lost(rows[k])
  }

  lemma LosesNothing(rows: seq<Tx>, limits: Limits, start: Windows, e: Event)
    requires NoneLost(rows) && !Loses(rows, e)
    ensures NoneLost(After(rows, limits, start, e))
  {
    hide FirstSettled, SomePending, HasQuota, PaidBefore;
  }

  lemma {:induction false} NothingLost(limits: Limits, start: Windows, es: seq<Event>)
    requires forall k :: 0 <= k < |es| ==> !LosesAt(limits, start, es, k)
    ensures NoneLost(Run([], limits, start, es))
    decreases |es|
  {
    hide After, Run, NoneLost, Loses;
    if es == [] {
      EmptyRun(limits, start);
      NoRowsLost();
    } else {
      var n := |es| - 1;
      var rest := es[..n];
      forall k | 0 <= k < n ensures !LosesAt(limits, start, rest, k) {
        assert rest[..k] == es[..k];
        assert !LosesAt(limits, start, es, k);
      }
      NothingLost(limits, start, rest);
      RunNext(limits, start, es);
      assert !LosesAt(limits, start, es, n);
      LosesNothing(Run([], limits, start, rest), limits, start, es[n]);
    }
  }

  lemma NoRowsLost()
    ensures NoneLost([])
  {
  }

  lemma {:induction false} LostSum(rows: seq<Tx>, conn: nat, start: Windows, window: int)
    requires NoneLost(rows)
    ensures LostIn(rows, conn, start, window) == 0
  {
    if rows != [] {
      LostSum(rows[..|rows| - 1], conn, start, window);
    }
  }

  /** At the end of a run in which every revival had room: the live amounts of a window are
      within the budget; and if the run lost no payment to the table, so is what left the
      wallet, but for what the payments cost beyond their invoices. */
  lemma BudgetHolds(limits: Limits, start: Windows, es: seq<Event>, conn: nat, window: int)
    requires AreWindows(start) && InOrder(es) && limits(conn).Some?
    requires forall k :: 0 <= k < |es| ==> !Overspends(limits, start, es, k)
    ensures var rows := Run([], limits, start, es);
      && NominalIn(rows, conn, start, window) <= limits(conn).value
      && ((forall k :: 0 <= k < |es| ==> !LosesAt(limits, start, es, k)) ==>
            MovedIn(rows, conn, start, window) <= limits(conn).value + CostsIn(rows, conn, start, window))
  {
    var rows := Run([], limits, start, es);
    BudgetHoldsExactlyWhen(limits, start, es);
    assert es[..|es|] == es;
    assert WithinAt(limits, start, es, |es|);
    MovementParts(rows, conn, start, window);
    if forall k :: 0 <= k < |es| ==> !LosesAt(limits, start, es, k) {
      NothingLost(limits, start, es);
      LostSum(rows, conn, start, window);
    }
    hide Run, AreWindows, InOrder;
    assert WithinBudget(rows, limits, start);
  }

  /** What a payment that left looks like when every departure is reported in time. */
  ghost predicate LeftIsSettled(rows: seq<Tx>) {
    forall k :: 0 <= k < |rows| && rows[k].left.Some? ==> rows[k].state == Settled
  }

  /** A failing write that is limited to pending rows, as the listeners' are, a settlement that
      does not come after a failure, and no payment that leaves unreported. */
  predicate Gated(rows: seq<Tx>, e: Event) {
    !e.GoesOut? &&
    (!e.Pay? && e.i < |rows| ==> (e.HandlerFails? ==> rows[e.i].state == Pending) && (e.SyncSettles? ==> rows[e.i].state != Failed))
  }

  ghost predicate GatedAt(limits: Limits, start: Windows, es: seq<Event>, k: nat)
    requires k < |es|
  {
    Gated(Run([], limits, start, es[..k]), es[k])
  }

  lemma GatedStep(rows: seq<Tx>, limits: Limits, start: Windows, e: Event)
    requires LeftIsSettled(rows) && Gated(rows, e)
    ensures LeftIsSettled(After(rows, limits, start, e)) && !Loses(rows, e)
  {
    hide FirstSettled, SomePending, HasQuota, PaidBefore;
  }

  /** Were the handler's failing write limited to pending rows too, then with no late claim
      nothing would be lost to the table. */
  lemma {:induction false} GatedFailuresLoseNothing(limits: Limits, start: Windows, es: seq<Event>)
    requires forall k :: 0 <= k < |es| ==> GatedAt(limits, start, es, k)
    ensures LeftIsSettled(Run([], limits, start, es)) && forall k :: 0 <= k < |es| ==> !LosesAt(limits, start, es, k)
    decreases |es|
  {
    hide After, Run, LeftIsSettled, Loses, Gated;
    if es == [] {
      EmptyRun(limits, start);
      NoRowsLeft();
    } else {
      var n := |es| - 1;
      var rest := es[..n];
      forall k | 0 <= k < n ensures GatedAt(limits, start, rest, k) && LosesAt(limits, start, rest, k) == LosesAt(limits, start, es, k) {
        assert rest[..k] == es[..k];
        assert GatedAt(limits, start, es, k);
      }
      GatedFailuresLoseNothing(limits, start, rest);
      RunNext(limits, start, es);
      assert GatedAt(limits, start, es, n);
      GatedStep(Run([], limits, start, rest), limits, start, es[n]);
      forall k | 0 <= k < |es| ensures !LosesAt(limits, start, es, k) {
        if k < n {
          assert !LosesAt(limits, start, rest, k);
        }
      }
    }
  }

  /** And then every revival having room is enough for the movement of a window to stay within
      its budget, but for what the payments cost beyond their invoices. */
  lemma GatedBudgetHolds(limits: Limits, start: Windows, es: seq<Event>, conn: nat, window: int)
    requires AreWindows(start) && InOrder(es) && limits(conn).Some?
    requires forall k :: 0 <= k < |es| ==> GatedAt(limits, start, es, k) && !Overspends(limits, start, es, k)
    ensures var rows := Run([], limits, start, es);
      MovedIn(rows, conn, start, window) <= limits(conn).value + CostsIn(rows, conn, start, window)
  {
    GatedFailuresLoseNothing(limits, start, es);
    BudgetHolds(limits, start, es, conn, window);
  }

  lemma NoRowsLeft()
    ensures LeftIsSettled([])
  {
  }

  // ---- one payment per invoice ------------------------------------------------------------------

  /** What counts as a payment of an invoice: a live row, and if `out`, also one whose money
      left. */
  predicate CountsAs(x: Tx, out: bool) {
    Live(x) || (out && x.left.Some?)
  }

  predicate Twin(rows: seq<Tx>, i: nat, j: nat)
    requires i < |rows| && j < |rows|
  {
    rows[i].conn == rows[j].conn && rows[i].hash == rows[j].hash
  }

  /** No two payments of one connection have the same payment hash. */
  ghost predicate OneEach(rows: seq<Tx>, out: bool) {
    forall i, j :: 0 <= i < j < |rows| && Twin(rows, i, j) ==> !(CountsAs(rows[i], out) && CountsAs(rows[j], out))
  }

  predicate PaidFor(rows: seq<Tx>, conn: nat, hash: string, out: bool) {
    exists k :: 0 <= k < |rows| && rows[k].conn == conn && rows[k].hash == hash && CountsAs(rows[k], out)
  }

  /** The connection has a payment of the hash already, but the first settled row for it cannot
      prove that it was paid; nothing is pending and the quota allows it. */
  predicate PaysAgain(rows: seq<Tx>, limits: Limits, start: Windows, e: Event, out: bool) {
    e.Pay? && PaidFor(rows, e.conn, e.hash, out) && !PaidBefore(rows, e.hash) && !SomePending(rows, e.conn, e.hash) && HasQuota(rows, limits, start, e)
  }

  /** An event after which a failed row counts that did not before. */
  predicate Returns(rows: seq<Tx>, e: Event, out: bool) {
    && (e.HandlerSettles? || (out && (e.SyncSettles? || e.GoesOut?)))
    && e.i < |rows| && !CountsAs(rows[e.i], out)
  }

  /** A failed payment comes back, or leaves after all, beside another one for its invoice. */
  predicate ReturnsBeside(rows: seq<Tx>, e: Event, out: bool) {
    Returns(rows, e, out) && exists k :: 0 <= k < |rows| && k != e.i && Twin(rows, k, e.i) && CountsAs(rows[k], out)
  }

  lemma PayStep(rows: seq<Tx>, limits: Limits, start: Windows, e: Event, out: bool)
    requires OneEach(rows, out) && e.Pay?
    ensures OneEach(After(rows, limits, start, e), out) <==> !PaysAgain(rows, limits, start, e, out)
  {
    hide SpentSince, FirstSettled, HasQuota, PaidBefore, SomePending;
    var next := After(rows, limits, start, e);
    if next != rows {
      var n := |rows|;
      assert next[n] == NewRow(e) && CountsAs(next[n], out);
      assert forall i, j :: 0 <= i < j < n ==> Twin(next, i, j) == Twin(rows, i, j);
      if k :| 0 <= k < n && rows[k].conn == e.conn && rows[k].hash == e.hash && CountsAs(rows[k], out) {
        assert next[k] == rows[k] && Twin(next, k, n);
      }
    }
  }

  lemma UpdateStep(rows: seq<Tx>, limits: Limits, start: Windows, e: Event, out: bool)
    requires OneEach(rows, out) && !e.Pay?
    ensures OneEach(After(rows, limits, start, e), out) <==> !ReturnsBeside(rows, e, out)
  {
    var next := After(rows, limits, start, e);
    UpdatedRows(rows, limits, start, e, out);
    hide After, Returns, CountsAs;
    if ReturnsBeside(rows, e, out) {
      var k :| 0 <= k < |rows| && k != e.i && Twin(rows, k, e.i) && CountsAs(rows[k], out);
      assert CountsAs(next[k], out) && CountsAs(next[e.i], out) && Twin(next, k, e.i) && Twin(next, e.i, k);
    } else {
      forall i, j | 0 <= i < j < |next| && Twin(next, i, j) ensures !(CountsAs(next[i], out) && CountsAs(next[j], out)) {
        assert Twin(rows, i, j) && Twin(rows, j, i);
      }
    }
  }

  lemma UpdatedRows(rows: seq<Tx>, limits: Limits, start: Windows, e: Event, out: bool)
    requires !e.Pay?
    ensures var next := After(rows, limits, start, e);
      && |next| == |rows|
      && (forall k :: 0 <= k < |rows| ==> next[k].conn == rows[k].conn && next[k].hash == rows[k].hash)
      && (forall k :: 0 <= k < |rows| && k != e.i ==> next[k] == rows[k])
      && (Returns(rows, e, out) ==> CountsAs(next[e.i], out))
      && (!Returns(rows, e, out) && e.i < |rows| && CountsAs(next[e.i], out) ==> CountsAs(rows[e.i], out))
  {
  }

  /** The event that gives a connection a second payment of one invoice, somewhere in a run. */
  ghost predicate PaysTwice(limits: Limits, start: Windows, es: seq<Event>, k: nat, out: bool)
    requires k < |es|
  {
    var rows := Run([], limits, start, es[..k]);
    PaysAgain(rows, limits, start, es[k], out) || ReturnsBeside(rows, es[k], out)
  }

  ghost predicate OnceAt(limits: Limits, start: Windows, es: seq<Event>, k: nat, out: bool)
    requires k <= |es|
  {
    OneEach(Run([], limits, start, es[..k]), out)
  }

  /** Over any interleaving, counting the live rows or also those whose money left: no
      connection ever has two payments of one payment hash, at any point of the run, if and
      only if the run nowhere pays again where the first settled row cannot prove a payment,
      and nowhere lets a failed payment come back, or leave after all, beside another. */
  lemma {:induction false} PaysOnceExactlyWhen(limits: Limits, start: Windows, es: seq<Event>, out: bool)
    ensures (forall k :: 0 <= k <= |es| ==> OnceAt(limits, start, es, k, out)) <==> (forall k :: 0 <= k < |es| ==> !PaysTwice(limits, start, es, k, out))
    decreases |es|
  {
    hide After, Run, OneEach, PaysAgain, ReturnsBeside;
    if es == [] {
      NoneTwice(limits, start, out);
      assert es[..0] == [];
      assert OnceAt(limits, start, es, 0, out);
    } else {
      var n := |es| - 1;
      var rest, e := es[..n], es[n];
      PaysOnceExactlyWhen(limits, start, rest, out);
      forall k | 0 <= k <= n ensures OnceAt(limits, start, es, k, out) == OnceAt(limits, start, rest, k, out) {
        assert rest[..k] == es[..k];
      }
      forall k | 0 <= k < n ensures PaysTwice(limits, start, es, k, out) == PaysTwice(limits, start, rest, k, out) {
        assert rest[..k] == es[..k];
      }
      assert es[..|es|] == es;
      RunNext(limits, start, es);
      if OnceAt(limits, start, es, n, out) {
        OnceStep(Run([], limits, start, rest), limits, start, e, out);
      }
      assert OnceAt(limits, start, es, n, out) ==> (OnceAt(limits, start, es, |es|, out) <==> !PaysTwice(limits, start, es, n, out));
    }
  }

  lemma OnceStep(rows: seq<Tx>, limits: Limits, start: Windows, e: Event, out: bool)
    requires OneEach(rows, out)
    ensures OneEach(After(rows, limits, start, e), out) <==> !PaysAgain(rows, limits, start, e, out) && !ReturnsBeside(rows, e, out)
  {
    if e.Pay? {
      PayStep(rows, limits, start, e, out);
    } else {
      UpdateStep(rows, limits, start, e, out);
    }
    hide After, OneEach, SomePending, PaidBefore, PaidFor;
  }

  lemma NoneTwice(limits: Limits, start: Windows, out: bool)
    ensures OneEach(Run([], limits, start, []), out)
  {
  }

  // ---- preimages -------------------------------------------------------------------------------

  /** Every settled row can prove its payment; a pending one has nothing to prove yet. */
  ghost predicate AllProven(rows: seq<Tx>) {
    forall k :: 0 <= k < |rows| ==> (rows[k].state == Settled ==> Proven(rows[k])) && (rows[k].state == Pending ==> rows[k].preimage.None?)
  }

  /** A settlement that brings its preimage along. */
  predicate BringsProof(e: Event) {
    && (e.HandlerSettles? ==> e.preimage != "")
    && (e.SyncSettles? ==> e.known.GetOr("") != "")
  }

  lemma ProvenStep(rows: seq<Tx>, limits: Limits, start: Windows, e: Event)
    requires AllProven(rows) && BringsProof(e)
    ensures AllProven(After(rows, limits, start, e)) && !PaysAgain(rows, limits, start, e, false)
  {
    hide SpentSince, HasQuota;
    if e.Pay? && PaidFor(rows, e.conn, e.hash, false) && !SomePending(rows, e.conn, e.hash) {
      var k :| 0 <= k < |rows| && rows[k].conn == e.conn && rows[k].hash == e.hash && CountsAs(rows[k], false);
      assert !PendingRow(rows[k], e.conn, e.hash);
      assert SettledRow(rows[k], e.hash);
      assert FirstSettled(rows, e.hash).Some?;
    }
  }

  /** So when every settlement brings a preimage, a connection never has two live payments of
      one invoice unless a handler revives one beside another; and if no payment is lost to the
      table, money never leaves twice for one invoice either. */
  lemma {:induction false} PaysOnce(limits: Limits, start: Windows, es: seq<Event>)
    requires forall k :: 0 <= k < |es| ==> BringsProof(es[k])
    requires forall k :: 0 <= k < |es| ==> !ReturnsBeside(Run([], limits, start, es[..k]), es[k], false)
    ensures OneEach(Run([], limits, start, es), false) && AllProven(Run([], limits, start, es))
    ensures (forall k :: 0 <= k < |es| ==> !LosesAt(limits, start, es, k)) ==> OneEach(Run([], limits, start, es), true)
    decreases |es|
  {
    hide After, Run, OneEach, PaysAgain, ReturnsBeside, AllProven, BringsProof;
    if es == [] {
      NoneTwice(limits, start, false);
      EmptyRun(limits, start);
      assert AllProven([]) by {
        NothingToProve();
      }
    } else {
      var rest, e := es[..|es| - 1], es[|es| - 1];
      forall k | 0 <= k < |rest| ensures !ReturnsBeside(Run([], limits, start, rest[..k]), rest[k], false) {
        assert rest[..k] == es[..k];
      }
      PaysOnce(limits, start, rest);
      RunNext(limits, start, es);
      ProvenStep(Run([], limits, start, rest), limits, start, e);
      OnceStep(Run([], limits, start, rest), limits, start, e, false);
    }
    if forall k :: 0 <= k < |es| ==> !LosesAt(limits, start, es, k) {
      NothingLost(limits, start, es);
      LiveIsAll(Run([], limits, start, es));
    }
  }

  lemma LiveIsAll(rows: seq<Tx>)
    requires NoneLost(rows) && OneEach(rows, false)
    ensures OneEach(rows, true)
  {
  }

  lemma NothingToProve()
    ensures AllProven([])
  {
  }

  const ONE_WINDOW: Windows := t => if t < 0 then t else 0
  const HUNDRED: Limits := conn => Some(100)

  /** A payment fails through a listener, its budget is spent again, and then its handler comes
      back and settles it. */
  const REVIVED: seq<Event> := [Pay(1, "a", 100, 5, 5), SyncFails(0, None), Pay(1, "b", 100, 6, 6), HandlerSettles(0, "p", 100)]

  lemma RunThree(limits: Limits, start: Windows, a: Event, b: Event, c: Event)
    ensures Run([], limits, start, [a, b, c]) == After(After(After([], limits, start, a), limits, start, b), limits, start, c)
  {
    hide After;
    assert [a, b, c][..2] == [a, b] && [a, b][..1] == [a] && [a][..0] == [];
    RunNext(limits, start, [a, b]);
    RunNext(limits, start, [a]);
    EmptyRun(limits, start);
  }

  /** A payment for an invoice nobody has paid or is paying. */
  lemma FirstPayment(rows: seq<Tx>, limits: Limits, start: Windows, e: Event)
    requires e.Pay? && (forall x :: x in rows ==> x.hash != e.hash) && HasQuota(rows, limits, start, e)
    ensures After(rows, limits, start, e) == rows + [NewRow(e)]
  {
    hide HasQuota;
    assert forall k :: 0 <= k < |rows| ==> rows[k] in rows;
  }

  lemma SpentByOne(x: Tx, conn: nat, from: int)
    ensures SpentSince([x], conn, from) == if x.conn == conn && Live(x) && x.createdAt >= from then x.amount + x.fees.GetOr(0) else 0
  {
    assert [x][..0] == [] && SpentSince([], conn, from) == 0;
  }

  lemma RevivedRows()
    ensures var es := REVIVED;
      var a, b := NewRow(es[0]), NewRow(es[2]);
      Run([], HUNDRED, ONE_WINDOW, es) == [a.(state := Settled, preimage := Some("p"), fees := Some(0), left := Some(100)), b]
  {
    var es := REVIVED;
    var a, b := NewRow(es[0]), NewRow(es[2]);
    var failed := a.(state := Failed);
    RunThree(HUNDRED, ONE_WINDOW, es[0], es[1], es[2]);
    assert es[..3] == [es[0], es[1], es[2]];
    FirstPayment([], HUNDRED, ONE_WINDOW, es[0]);
    assert After([a], HUNDRED, ONE_WINDOW, es[1]) == [failed];
    SpentByOne(failed, 1, ONE_WINDOW(6));
    FirstPayment([failed], HUNDRED, ONE_WINDOW, es[2]);
    hide SpentSince, HasQuota, PaidBefore, SomePending;
    assert Run([], HUNDRED, ONE_WINDOW, es[..3]) == [failed, b];
    RunNext(HUNDRED, ONE_WINDOW, es);
  }

  lemma RevivedPaymentOverspends()
    ensures AreWindows(ONE_WINDOW) && NominalIn(Run([], HUNDRED, ONE_WINDOW, REVIVED), 1, ONE_WINDOW, 0) == 200
  {
    RevivedRows();
    hide Run, After;
    var rows := Run([], HUNDRED, ONE_WINDOW, REVIVED);
    assert rows[..1] == [rows[0]] && rows[..1][..0] == [];
    assert NominalIn([], 1, ONE_WINDOW, 0) == 0 && NominalIn(rows[..1], 1, ONE_WINDOW, 0) == 100;
  }

  /** A payment is settled by a listener that knows no preimage, and the same invoice is paid
      once more. */
  const UNPROVEN: seq<Event> := [Pay(1, "a", 10, 5, 5), SyncSettles(0, None, false, 10), Pay(1, "a", 10, 6, 6)]

  lemma UnprovenPaymentIsPaidAgain()
    ensures var rows := Run([], HUNDRED, ONE_WINDOW, UNPROVEN);
      |rows| == 2 && Live(rows[0]) && Live(rows[1]) && Twin(rows, 0, 1)
  {
    var es := UNPROVEN;
    var a := NewRow(es[0]);
    var settled := a.(state := Settled, left := Some(10));
    RunThree(HUNDRED, ONE_WINDOW, es[0], es[1], es[2]);
    assert es == [es[0], es[1], es[2]];
    FirstPayment([], HUNDRED, ONE_WINDOW, es[0]);
    assert After([a], HUNDRED, ONE_WINDOW, es[1]) == [settled];
    SpentByOne(settled, 1, ONE_WINDOW(6));
    assert HasQuota([settled], HUNDRED, ONE_WINDOW, es[2]);
    hide Run, SpentSince, HasQuota;
    assert !PaidBefore([settled], "a") && !SomePending([settled], 1, "a");
    hide PaidBefore, SomePending, FirstSettled;
    assert After([settled], HUNDRED, ONE_WINDOW, es[2]) == [settled, NewRow(es[2])];
  }

  /** A payment goes out and is settled by a listener, then its handler's request is rejected
      and its failing write takes the row out of every sum; another payment fits. */
  const FORGOTTEN: seq<Event> := [
    Pay(1, "a", 100, 5, 5), SyncSettles(0, Some("p"), false, 100), HandlerFails(0),
    Pay(1, "b", 100, 6, 6), SyncSettles(1, Some("q"), false, 100)
  ]

  lemma ForgottenRows()
    ensures var es := FORGOTTEN;
      var a, b := NewRow(es[0]), NewRow(es[3]);
      var gone := a.(state := Failed, preimage := Some("p"), left := Some(100));
      && Run([], HUNDRED, ONE_WINDOW, es[..3]) == [gone]
      && Run([], HUNDRED, ONE_WINDOW, es[..4]) == [gone, b]
      && Run([], HUNDRED, ONE_WINDOW, es) == [gone, b.(state := Settled, preimage := Some("q"), left := Some(100))]
  {
    var es := FORGOTTEN;
    var a, b := NewRow(es[0]), NewRow(es[3]);
    var settled := a.(state := Settled, preimage := Some("p"), left := Some(100));
    var gone := settled.(state := Failed);
    RunThree(HUNDRED, ONE_WINDOW, es[0], es[1], es[2]);
    assert es[..3] == [es[0], es[1], es[2]];
    FirstPayment([], HUNDRED, ONE_WINDOW, es[0]);
    assert After([a], HUNDRED, ONE_WINDOW, es[1]) == [settled];
    assert After([settled], HUNDRED, ONE_WINDOW, es[2]) == [gone];
    SpentByOne(gone, 1, ONE_WINDOW(6));
    FirstPayment([gone], HUNDRED, ONE_WINDOW, es[3]);
    hide SpentSince, HasQuota, PaidBefore, SomePending;
    assert es[..4][..3] == es[..3] && es[..5] == es && es[..5][..4] == es[..4];
    RunNext(HUNDRED, ONE_WINDOW, es[..4]);
    RunNext(HUNDRED, ONE_WINDOW, es);
  }

  /** Twice the budget has left the wallet, although no revival lacked room and the live amounts
      never exceeded it. */
  lemma ForgottenPaymentOverspends()
    ensures var es := FORGOTTEN;
      var rows := Run([], HUNDRED, ONE_WINDOW, es);
      && AreWindows(ONE_WINDOW) && InOrder(es) && (forall k :: 0 <= k < |es| ==> !Overspends(HUNDRED, ONE_WINDOW, es, k))
      && |rows| == 2 && rows[0].left == Some(100) && rows[1].left == Some(100)
      && NominalIn(rows, 1, ONE_WINDOW, 0) == 100 && MovedIn(rows, 1, ONE_WINDOW, 0) == 200 && CostsIn(rows, 1, ONE_WINDOW, 0) == 0
  {
    var es := FORGOTTEN;
    ForgottenRows();
    hide Run, After;
    var rows := Run([], HUNDRED, ONE_WINDOW, es);
    assert rows[..1] == [rows[0]] && rows[..1][..0] == [];
    assert MovedIn([], 1, ONE_WINDOW, 0) == 0 && MovedIn(rows[..1], 1, ONE_WINDOW, 0) == 100;
    assert NominalIn([], 1, ONE_WINDOW, 0) == 0 && NominalIn(rows[..1], 1, ONE_WINDOW, 0) == 0;
    assert CostsIn([], 1, ONE_WINDOW, 0) == 0 && CostsIn(rows[..1], 1, ONE_WINDOW, 0) == 0;
  }

  /** And the same invoice, paid and proven, is paid once more. */
  const FORGOTTEN_TWIN: seq<Event> := [Pay(1, "a", 10, 5, 5), SyncSettles(0, Some("p"), false, 10), HandlerFails(0), Pay(1, "a", 10, 6, 6)]

  lemma ForgottenPaymentIsPaidAgain()
    ensures var rows := Run([], HUNDRED, ONE_WINDOW, FORGOTTEN_TWIN);
      |rows| == 2 && Twin(rows, 0, 1) && rows[0].left == Some(10) && Proven(rows[0]) && rows[1].state == Pending
  {
    var es := FORGOTTEN_TWIN;
    var a := NewRow(es[0]);
    var settled := a.(state := Settled, preimage := Some("p"), left := Some(10));
    var gone := settled.(state := Failed);
    RunThree(HUNDRED, ONE_WINDOW, es[0], es[1], es[2]);
    assert es[..3] == [es[0], es[1], es[2]];
    FirstPayment([], HUNDRED, ONE_WINDOW, es[0]);
    assert After([a], HUNDRED, ONE_WINDOW, es[1]) == [settled];
    assert After([settled], HUNDRED, ONE_WINDOW, es[2]) == [gone];
    SpentByOne(gone, 1, ONE_WINDOW(6));
    assert HasQuota([gone], HUNDRED, ONE_WINDOW, es[3]);
    assert !PaidBefore([gone], "a") && !SomePending([gone], 1, "a");
    hide SpentSince, HasQuota, PaidBefore, SomePending, FirstSettled;
    RunNext(HUNDRED, ONE_WINDOW, es);
    assert Run([], HUNDRED, ONE_WINDOW, es) == [gone, NewRow(es[3])];
  }
}
