/**
 * The relational ledger: its tables, the rows of each entity, and the
 * primitive statements (INSERT with a generated id, UPDATE and DELETE by id,
 * SELECT ... OFFSET n LIMIT 1) the workflow issues against them.
 */
module Ledger {
  import opened Wrappers
  import opened Failures
  import opened JsValues
  import opened Enums

  /** A stored row: its generated primary key and its columns. */
  datatype Row<T> = Row(id: nat, data: T)

  /** A table: rows in storage order, and the next value of its id sequence. */
  datatype Table<T> = Table(rows: seq<Row<T>>, nextId: nat)

  /** Generated ids increase along the storage order and stay below the sequence. */
  ghost predicate ValidTable<T>(t: Table<T>)
  {
    && (forall i :: 0 <= i < |t.rows| ==> t.rows[i].id < t.nextId)
    && (forall i, j :: 0 <= i < j < |t.rows| ==> t.rows[i].id < t.rows[j].id)
  }

  function Ids<T(==)>(rows: seq<Row<T>>): set<nat>
  {
    set r | r in rows :: r.id
  }

  /** INSERT: the row gets the next generated id; the new table and that id are returned. */
  function Insert<T(==)>(t: Table<T>, data: T): (r: (Table<T>, nat))
    ensures r.0.rows == t.rows + [Row(r.1, data)]
    ensures ValidTable(t) ==> ValidTable(r.0) && r.1 !in Ids(t.rows)
  {
    (Table(t.rows + [Row(t.nextId, data)], t.nextId + 1), t.nextId)
  }

  /**
   * An INSERT inside a transaction. `fault` names the statement the database
   * rejects in this run, if any (a constraint, a serialization failure, a lost
   * connection); the enclosing transaction then rolls back.
   */
  function TryInsert<T(==)>(t: Table<T>, data: T, statement: Statement, fault: Option<Statement>): (r: Result<(Table<T>, nat), Error>)
    ensures r.Err? <==> fault == Some(statement)
    ensures r.Err? ==> r.error == DatabaseError(statement)
    ensures r.Ok? ==> r.value == Insert(t, data)
  {
    if fault == Some(statement) then Err(DatabaseError(statement)) else Ok(Insert(t, data))
  }

  /** The rows of `rows` whose id is not `id`, in their order. */
  function Without<T(==)>(rows: seq<Row<T>>, id: nat): (r: seq<Row<T>>)
    ensures |r| <= |rows|
    ensures forall i :: 0 <= i < |r| ==> r[i] in rows && r[i].id != id
    ensures forall i :: 0 <= i < |rows| && rows[i].id != id ==> rows[i] in r
  {
    if |rows| == 0 then []
    else if rows[0].id == id then Without(rows[1..], id)
    else [rows[0]] + Without(rows[1..], id)
  }

  /** DELETE ... WHERE id = :id */
  function Delete<T(==)>(t: Table<T>, id: nat): (r: Table<T>)
    ensures r.nextId == t.nextId
    ensures id !in Ids(r.rows)
    ensures forall x :: x in r.rows ==> x in t.rows
    ensures forall x :: x in t.rows && x.id != id ==> x in r.rows
  {
    t.(rows := Without(t.rows, id))
  }

  /** SELECT ... WHERE id = :id LIMIT 1 */
  function FindById<T(==)>(t: Table<T>, id: nat): (r: Option<Row<T>>)
    ensures r.Some? ==> r.value in t.rows && r.value.id == id
    ensures r.None? ==> id !in Ids(t.rows)
  {
    FindIn(t.rows, id)
  }

  function FindIn<T(==)>(rows: seq<Row<T>>, id: nat): (r: Option<Row<T>>)
    ensures r.Some? ==> r.value in rows && r.value.id == id
    ensures r.None? ==> id !in Ids(rows)
  {
    if |rows| == 0 then None
    else if rows[0].id == id then Some(rows[0])
    else FindIn(rows[1..], id)
  }

  /** SELECT ... OFFSET :offset LIMIT 1, in storage order. */
  function AtOffset<T(==)>(t: Table<T>, offset: nat): (r: Option<Row<T>>)
    ensures r.Some? <==> offset < |t.rows|
    ensures r.Some? ==> r.value == t.rows[offset]
  {
    if offset < |t.rows| then Some(t.rows[offset]) else None
  }

  /** Deleting a row keeps every other row and does not disturb the order of the rest. */
  lemma {:induction false} WithoutValid<T>(t: Table<T>, id: nat)
    requires ValidTable(t)
    ensures ValidTable(Delete(t, id))
    ensures Ids(Delete(t, id).rows) == Ids(t.rows) - {id}
  {
    WithoutSubsequence(t.rows, id);
    var r := Without(t.rows, id);
    forall x | x in Ids(t.rows) - {id} ensures x in Ids(r) {
      var w :| w in t.rows && w.id == x;
    }
  }

  /** Strictly increasing ids survive any deletion. */
  lemma {:induction false} WithoutSubsequence<T>(rows: seq<Row<T>>, id: nat)
    requires forall i, j :: 0 <= i < j < |rows| ==> rows[i].id < rows[j].id
    ensures forall i, j :: 0 <= i < j < |Without(rows, id)| ==> Without(rows, id)[i].id < Without(rows, id)[j].id
  {
    if |rows| > 0 {
      WithoutSubsequence(rows[1..], id);
      var tail := Without(rows[1..], id);
      forall k | 0 <= k < |tail| ensures rows[0].id < tail[k].id {
        assert tail[k] in rows[1..];
      }
    }
  }

  /**
   * When the row with id `a` is deleted, a row standing at position `p` moves
   * to a position no greater than `p`: deletion never moves a row backwards.
   */
  lemma {:induction false} WithoutShiftsLeft<T>(rows: seq<Row<T>>, id: nat, p: nat)
    requires p < |rows| && rows[p].id != id
    ensures exists q :: 0 <= q <= p && q < |Without(rows, id)| && Without(rows, id)[q] == rows[p]
  {
    if p == 0 {
      assert Without(rows, id)[0] == rows[0];
    } else if rows[0].id == id {
      WithoutShiftsLeft(rows[1..], id, p - 1);
      var q :| 0 <= q <= p - 1 && q < |Without(rows[1..], id)| && Without(rows[1..], id)[q] == rows[1..][p - 1];
      assert Without(rows, id)[q] == rows[p];
    } else {
      WithoutShiftsLeft(rows[1..], id, p - 1);
      var q :| 0 <= q <= p - 1 && q < |Without(rows[1..], id)| && Without(rows[1..], id)[q] == rows[1..][p - 1];
      assert Without(rows, id)[q + 1] == rows[p];
    }
  }

  /** Deletion never moves a row to the right: the row at position `q` afterwards stood at `q` or later. */
  lemma {:induction false} WithoutFromRight<T>(rows: seq<Row<T>>, id: nat, q: nat)
    requires q < |Without(rows, id)|
    ensures exists p :: q <= p < |rows| && rows[p] == Without(rows, id)[q]
  {
    if rows[0].id == id {
      WithoutFromRight(rows[1..], id, q);
      var p :| q <= p < |rows[1..]| && rows[1..][p] == Without(rows[1..], id)[q];
      assert rows[p + 1] == Without(rows, id)[q];
    } else if q > 0 {
      WithoutFromRight(rows[1..], id, q - 1);
      var p :| q - 1 <= p < |rows[1..]| && rows[1..][p] == Without(rows[1..], id)[q - 1];
      assert rows[p + 1] == Without(rows, id)[q];
    } else {
      assert rows[0] == Without(rows, id)[0];
    }
  }

  /** Deleting an id no row has changes nothing. */
  lemma {:induction false} WithoutAbsent<T>(rows: seq<Row<T>>, id: nat)
    requires forall i :: 0 <= i < |rows| ==> rows[i].id != id
    ensures Without(rows, id) == rows
  {
    if |rows| > 0 {
      WithoutAbsent(rows[1..], id);
      assert [rows[0]] + rows[1..] == rows;
    }
  }

  /**
   * With strictly increasing ids, deleting the id of the row at `i` removes
   * exactly that position: the rows before it stay put and the rows after it
   * move one place left.
   */
  lemma {:induction false} WithoutAt<T>(rows: seq<Row<T>>, i: nat)
    requires forall a, b :: 0 <= a < b < |rows| ==> rows[a].id < rows[b].id
    requires i < |rows|
    ensures |Without(rows, rows[i].id)| == |rows| - 1
    ensures forall p :: 0 <= p < i ==> Without(rows, rows[i].id)[p] == rows[p]
    ensures forall p :: i <= p < |rows| - 1 ==> Without(rows, rows[i].id)[p] == rows[p + 1]
  {
    var id := rows[i].id;
    if i == 0 {
      WithoutFirst(rows);
    } else {
      var tail := rows[1..];
      assert rows[0].id < id;
      IncreasingTail(rows);
      assert tail[i - 1].id == id;
      WithoutAt(tail, i - 1);
      assert Without(rows, id) == [rows[0]] + Without(tail, id);
      ConsShift(rows, Without(rows, id), Without(tail, id), i);
    }
  }

  /** Putting the head back in front of a tail with position `i - 1` removed removes position `i`. */
  lemma ConsShift<T>(rows: seq<T>, r: seq<T>, rest: seq<T>, i: nat)
    requires 0 < i < |rows| && r == [rows[0]] + rest && |rest| == |rows| - 2
    requires forall p :: 0 <= p < i - 1 ==> rest[p] == rows[1..][p]
    requires forall p :: i - 1 <= p < |rows| - 2 ==> rest[p] == rows[1..][p + 1]
    ensures |r| == |rows| - 1
    ensures forall p :: 0 <= p < i ==> r[p] == rows[p]
    ensures forall p :: i <= p < |rows| - 1 ==> r[p] == rows[p + 1]
  {
    forall p | 0 < p < i ensures r[p] == rows[p] {
      assert r[p] == rest[p - 1] == rows[1..][p - 1];
    }
    forall p | i <= p < |rows| - 1 ensures r[p] == rows[p + 1] {
      assert r[p] == rest[p - 1] == rows[1..][p];
    }
  }

  lemma IncreasingTail<T>(rows: seq<Row<T>>)
    requires forall a, b :: 0 <= a < b < |rows| ==> rows[a].id < rows[b].id
    requires |rows| > 0
    ensures forall a, b :: 0 <= a < b < |rows[1..]| ==> rows[1..][a].id < rows[1..][b].id
  {
    forall a, b | 0 <= a < b < |rows[1..]| ensures rows[1..][a].id < rows[1..][b].id {
      assert rows[1..][a] == rows[a + 1] && rows[1..][b] == rows[b + 1];
    }
  }

  lemma WithoutFirst<T>(rows: seq<Row<T>>)
    requires forall a, b :: 0 <= a < b < |rows| ==> rows[a].id < rows[b].id
    requires |rows| > 0
    ensures Without(rows, rows[0].id) == rows[1..]
  {
    var tail := rows[1..];
    forall j | 0 <= j < |tail| ensures tail[j].id != rows[0].id {
      assert tail[j] == rows[j + 1];
    }
    WithoutAbsent(tail, rows[0].id);
  }

  // ---------------------------------------------------------------------------
  // Entities

  /** Table IncomingRequests. */
  datatype IncomingRequest = IncomingRequest(
    payload: Fields,
    metadata: Option<Fields>,
    status: RequestStatus,
    paymentSystem: PaymentSystem,
    handlerDestination: HandlerDestination)

  /** Table PaymentTransactions; `pan` is NULL unless a card number was known. */
  datatype PaymentTransaction = PaymentTransaction(
    userId: string,
    productId: string,
    amount: real,
    orderId: string,
    kind: TransactionType,
    pan: Option<string>)

  /** Table Orders: the ledger's immutable mirror of a settled document-store order. */
  datatype LedgerOrder = LedgerOrder(
    mongoOrderId: string,
    mongoProductId: string,
    paymentId: Option<Json>,
    paymentSystem: PaymentSystem,
    paymentAmount: Option<Json>,
    status: OrderStatus,
    paidAt: Option<int>,
    updatedAt: Option<int>)

  /** Table Balances; `value` is NaN (`None`) when the source balance is not numeric. */
  datatype Balance = Balance(
    mongoId: string,
    value: Option<real>,
    userId: string,
    currencyType: Option<Json>,
    verificationHash: Option<Json>,
    cardId: Option<string>,
    withdrawalAt: Option<Json>)

  /** Table BalanceUpdateQueue. */
  datatype BalanceUpdate = BalanceUpdate(balanceId: nat, amount: real, operation: BalanceOperation)

  /** Table RecurrentPaymentsQueue; `dateToExecute` is in whole seconds. */
  datatype RecurrentPayment = RecurrentPayment(
    dateToExecute: int,
    isFirstPeriod: bool,
    orderIdMongo: string,
    paymentSystem: PaymentSystem,
    metadata: Fields)

  /** The ledger database. */
  datatype Db = Db(
    incomingRequests: Table<IncomingRequest>,
    paymentTransactions: Table<PaymentTransaction>,
    orders: Table<LedgerOrder>,
    balances: Table<Balance>,
    balanceUpdates: Table<BalanceUpdate>,
    recurrentPayments: Table<RecurrentPayment>)

  ghost predicate ValidDb(db: Db)
  {
    && ValidTable(db.incomingRequests)
    && ValidTable(db.paymentTransactions)
    && ValidTable(db.orders)
    && ValidTable(db.balances)
    && ValidTable(db.balanceUpdates)
    && ValidTable(db.recurrentPayments)
  }

  function SetStatusIn(rows: seq<Row<IncomingRequest>>, id: nat, status: RequestStatus): (r: seq<Row<IncomingRequest>>)
    ensures |r| == |rows|
    ensures forall i :: 0 <= i < |rows| ==> r[i].id == rows[i].id
    ensures forall i :: 0 <= i < |rows| ==>
      r[i].data == if rows[i].id == id then rows[i].data.(status := status) else rows[i].data
  {
    if |rows| == 0 then []
    else
      var head := if rows[0].id == id then Row(rows[0].id, rows[0].data.(status := status)) else rows[0];
      [head] + SetStatusIn(rows[1..], id, status)
  }

  /** UPDATE IncomingRequests SET status = :status WHERE id = :id; a missing id changes nothing. */
  function SetRequestStatus(db: Db, id: nat, status: RequestStatus): (r: Db)
    ensures r == db.(incomingRequests := r.incomingRequests)
    ensures r.incomingRequests.nextId == db.incomingRequests.nextId
    ensures r.incomingRequests.rows == SetStatusIn(db.incomingRequests.rows, id, status)
    ensures id !in Ids(db.incomingRequests.rows) ==> r == db
  {
    var rows := SetStatusIn(db.incomingRequests.rows, id, status);
    if id !in Ids(db.incomingRequests.rows) then
      assert rows == db.incomingRequests.rows;
      db
    else
      db.(incomingRequests := db.incomingRequests.(rows := rows))
  }

  /** Looking up a request after the update finds the same row, with the new status. */
  lemma {:induction false} FindAfterSetStatus(rows: seq<Row<IncomingRequest>>, id: nat, status: RequestStatus)
    ensures FindIn(SetStatusIn(rows, id, status), id) ==
      match FindIn(rows, id)
      case None => None
      case Some(w) => Some(Row(w.id, w.data.(status := status)))
  {
    if |rows| > 0 && rows[0].id != id {
      FindAfterSetStatus(rows[1..], id, status);
      assert SetStatusIn(rows, id, status)[1..] == SetStatusIn(rows[1..], id, status);
    }
  }

  /** After the update the request with that id has the new status, and the table stays valid. */
  lemma SetRequestStatusEffect(db: Db, id: nat, status: RequestStatus)
    requires ValidTable(db.incomingRequests)
    ensures ValidTable(SetRequestStatus(db, id, status).incomingRequests)
    ensures var r := FindById(SetRequestStatus(db, id, status).incomingRequests, id);
      && (r.Some? <==> id in Ids(db.incomingRequests.rows))
      && (r.Some? ==> r.value.data == FindById(db.incomingRequests, id).value.data.(status := status))
  {
    FindAfterSetStatus(db.incomingRequests.rows, id, status);
  }
}
