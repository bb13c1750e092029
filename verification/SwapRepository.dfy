/** The persistent table of in-flight swaps (src/atomic/repository.ts). Every statement of the
    source is one SQL statement, so every operation here is one atomic change of the table. */
module SwapRepository {
  import opened Wrappers
  import opened SwapState
  import opened SharedScript

  type SwapId = string

  datatype Row = Row(
    direction: Direction,
    paymentHash: Hash,
    state: State,
    amount: nat,
    refundLocktime: int,
    fundingOutpoint: Option<Outpoint>,
    presigs: Option<Spend>,
    preimage: Option<string>,
    invoice: Option<string>,
    peerPubkey: Option<Key>,
    exitDelay: Option<int>,
    createdAt: int,   // milliseconds, unlike refundLocktime
    updatedAt: int
  )

  datatype RepoError =
    | DuplicateSwap(paymentHash: Hash)
    | NotFound(id: SwapId)
    | IllegalTransition(from: State, to: State)
    | Unknown(what: UnknownState)

  type Rows = map<SwapId, Row>

  // ---- what each operation does to the table --------------------------------------

  /** The unique columns: the id and the payment hash. */
  predicate Taken(rows: Rows, id: SwapId, hash: Hash) {
    id in rows || exists k :: k in rows && rows[k].paymentHash == hash
  }

  function Created(rows: Rows, id: SwapId, row: Row): Result<Rows, RepoError> {
    if Taken(rows, id, row.paymentHash) then Failure(DuplicateSwap(row.paymentHash))
    else Success(rows[id := row])
  }

  /** One row through one transition. */
  function MovedRow(row: Row, to: State, now: int): Result<Row, RepoError> {
    match CanTransition(row.direction, row.state, to)
    case Failure(e) => Failure(Unknown(e))
    case Success(false) => Failure(IllegalTransition(row.state, to))
    case Success(true) => Success(row.(state := to, updatedAt := now))
  }

  function WithOutpoint(row: Row, o: Outpoint, now: int): Row {
    row.(fundingOutpoint := Some(o), updatedAt := now)
  }

  function WithPresigs(row: Row, s: Spend, now: int): Row {
    row.(presigs := Some(s), updatedAt := now)
  }

  function WithPreimage(row: Row, preimage: string, now: int): Row {
    row.(preimage := Some(preimage), updatedAt := now)
  }

  datatype Column = OutpointColumn(o: Outpoint) | PresigsColumn(s: Spend) | PreimageColumn(preimage: string)

  function WithColumn(row: Row, c: Column, now: int): Row {
    match c
    case OutpointColumn(o) => WithOutpoint(row, o, now)
    case PresigsColumn(s) => WithPresigs(row, s, now)
    case PreimageColumn(p) => WithPreimage(row, p, now)
  }

  function Moved(rows: Rows, id: SwapId, to: State, now: int): Result<Rows, RepoError> {
    if id !in rows then Failure(NotFound(id))
    else
      match MovedRow(rows[id], to, now)
      case Failure(e) => Failure(e)
      case Success(row) => Success(rows[id := row])
  }

  // ---- what every operation keeps ----------------------------------------------------

  /** No two rows share a payment hash, and every row's state belongs to its direction. */
  ghost predicate Consistent(rows: Rows) {
    && (forall i, j :: i in rows && j in rows && i != j ==> rows[i].paymentHash != rows[j].paymentHash)
    && (forall i :: i in rows ==> Known(rows[i].direction, rows[i].state))
  }

  ghost predicate SameTerms(before: Row, after: Row) {
    && after.direction == before.direction
    && after.paymentHash == before.paymentHash
    && after.amount == before.amount
    && after.refundLocktime == before.refundLocktime
    && after.peerPubkey == before.peerPubkey
    && after.exitDelay == before.exitDelay
  }

  /** What an operation may do to a row: the terms of the swap are fixed, a state only moves
      along the table, an outpoint, once recorded, stays recorded. */
  ghost predicate Evolves(before: Row, after: Row) {
    && SameTerms(before, after)
    && (before.fundingOutpoint.Some? ==> after.fundingOutpoint.Some?)
    && (after.state == before.state || Legal(before.direction, before.state, after.state))
  }

  /** No operation deletes a row, and each row only evolves. */
  ghost predicate Later(before: Rows, after: Rows) {
    forall i :: i in before ==> i in after && Evolves(before[i], after[i])
  }

  lemma ReplaceKeeps(rows: Rows, id: SwapId, row: Row)
    requires Consistent(rows) && id in rows && Evolves(rows[id], row)
    ensures Consistent(rows[id := row]) && Later(rows, rows[id := row])
  {
    if row.state != rows[id].state {
      TerminalMeansNoMove(row.direction, rows[id].state);
    }
  }

  /** Whatever one operation does to a row, the row evolves and its state stays known. */
  lemma RowsEvolve(row: Row, to: State, o: Outpoint, s: Spend, preimage: string, now: int)
    requires Known(row.direction, row.state)
    ensures MovedRow(row, to, now).Success? <==> Legal(row.direction, row.state, to)
    ensures MovedRow(row, to, now).Success? ==> Evolves(row, MovedRow(row, to, now).value) && MovedRow(row, to, now).value.state == to
    ensures Evolves(row, WithOutpoint(row, o, now)) && Evolves(row, WithPresigs(row, s, now)) && Evolves(row, WithPreimage(row, preimage, now))
  {
  }

  /** A consistent table refuses a move exactly when the row is missing or the transition
      table has no such edge; a terminal row refuses every move. */
  lemma MoveIsRefusedExactlyWhen(rows: Rows, id: SwapId, to: State, now: int)
    requires Consistent(rows)
    ensures Moved(rows, id, to, now).Failure? <==> id !in rows || !Legal(rows[id].direction, rows[id].state, to)
    ensures id in rows && Terminal(rows[id].direction, rows[id].state) ==> Moved(rows, id, to, now).Failure?
  {
    if id in rows {
      TerminalMeansNoMove(rows[id].direction, rows[id].state);
    }
  }

  class Repository {
    var rows: Rows

    ghost predicate Valid() reads this { Consistent(rows) }

    constructor ()
      ensures Valid() && rows == map[]
    {
      rows := map[];
    }

    method Create(id: SwapId, row: Row) returns (r: Result<Row, RepoError>)
      requires Valid() && Known(row.direction, row.state)
      modifies this
      ensures Valid() && Later(old(rows), rows)
      ensures r == if Created(old(rows), id, row).Success? then Success(row) else Failure(DuplicateSwap(row.paymentHash))
      ensures rows == if r.Success? then old(rows)[id := row] else old(rows)
      ensures r.Success? <==> id !in old(rows) && forall k :: k in old(rows) ==> old(rows)[k].paymentHash != row.paymentHash
    {
      match Created(rows, id, row) {
        case Failure(e) => r := Failure(e);
        case Success(after) =>
          rows := after;
          r := Success(rows[id]);
      }
    }

    method Transition(id: SwapId, to: State, now: int) returns (r: Result<Row, RepoError>)
      requires Valid()
      modifies this
      ensures Valid() && Later(old(rows), rows)
      ensures r.Success? <==> id in old(rows) && Legal(old(rows)[id].direction, old(rows)[id].state, to)
      ensures r.Success? ==> r.value == old(rows)[id].(state := to, updatedAt := now) && rows == old(rows)[id := r.value]
      ensures r.Failure? ==> rows == old(rows)
      ensures r.Failure? ==> r.error == if id !in old(rows) then NotFound(id) else IllegalTransition(old(rows)[id].state, to)
    {
      if id !in rows {
        return Failure(NotFound(id));
      }
      var cur := rows[id];
      match CanTransition(cur.direction, cur.state, to) {
        case Failure(e) => return Failure(Unknown(e));
        case Success(ok) =>
          if !ok {
            return Failure(IllegalTransition(cur.state, to));
          }
      }
      ReplaceKeeps(rows, id, cur.(state := to, updatedAt := now));
      rows := rows[id := cur.(state := to, updatedAt := now)];
      r := Success(rows[id]);
    }

    /** setFundingOutpoint, setPresigs and setPreimage: one column of an existing row. */
    method Touch(id: SwapId, column: Column, now: int) returns (r: Result<(), RepoError>)
      requires Valid()
      modifies this
      ensures Valid() && Later(old(rows), rows)
      ensures r == if id in old(rows) then Success(()) else Failure(NotFound(id))
      ensures id !in old(rows) ==> rows == old(rows)
      ensures id in old(rows) ==>
        var before := old(rows)[id];
        rows == old(rows)[id := match column
                                case OutpointColumn(o) => before.(fundingOutpoint := Some(o), updatedAt := now)
                                case PresigsColumn(s) => before.(presigs := Some(s), updatedAt := now)
                                case PreimageColumn(p) => before.(preimage := Some(p), updatedAt := now)]
    {
      if id !in rows {
        return Failure(NotFound(id));
      }
      ReplaceKeeps(rows, id, WithColumn(rows[id], column, now));
      rows := rows[id := WithColumn(rows[id], column, now)];
      r := Success(());
    }

    /** The rows a boot or a reconcile pass resumes: exactly those with a legal move left. */
    method ListResumable() returns (ids: set<SwapId>)
      requires Valid()
      ensures forall i :: i in ids <==> i in rows && exists t :: Legal(rows[i].direction, rows[i].state, t)
    {
      ids := set i | i in rows && !Terminal(rows[i].direction, rows[i].state);
      forall i | i in rows
        ensures !Terminal(rows[i].direction, rows[i].state) <==> exists t :: Legal(rows[i].direction, rows[i].state, t)
      {
        TerminalMeansNoMove(rows[i].direction, rows[i].state);
      }
    }
  }
}
