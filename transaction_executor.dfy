/**
 * The atomic ledger write of a confirmed payment: the owner's rouble balance
 * is found or prepared, then one SERIALIZABLE transaction inserts the payment
 * transaction and the order, marks the request Processed, creates the
 * balance if needed, queues the next recurring payment if the product
 * recurs, and queues exactly one balance increment.
 */
module TransactionExecutor {
  import opened Wrappers
  import opened Failures
  import opened JsValues
  import opened Enums
  import opened Ledger
  import opened Documents
  import opened StoreState
  import opened RecurrentSchedule

  /** How the recurrence scheduler is invoked: as the source calls it, or with its intended arguments. */
  datatype SchedulerCall = AsCalled | Intended

  /** What the completion webhook hands to the executor. */
  datatype TransactionParams = TransactionParams(
    order: Document,
    product: Document,
    owner: Document,
    ownerBalance: Document,
    orderRecord: LedgerOrder,
    transactionRecord: PaymentTransaction,
    request: Row<IncomingRequest>,
    recurring: bool)

  /** The clock, the ledger's behaviour in this run, and the scheduler call. */
  datatype LedgerRun = LedgerRun(nowMs: nat, fault: Option<Statement>, scheduler: SchedulerCall)

  predicate IsOwnersRoubleBalance(b: Balance, userId: string)
  {
    b.userId == userId && b.currencyType == Some(JStr(RubText))
  }

  /** `findBalanceInPostgres`: the first ledger balance of the owner in roubles. */
  function FindLedgerBalance(rows: seq<Row<Balance>>, userId: string): (r: Option<Row<Balance>>)
    ensures r.Some? ==> r.value in rows && IsOwnersRoubleBalance(r.value.data, userId)
    ensures r.None? <==> forall x :: x in rows ==> !IsOwnersRoubleBalance(x.data, userId)
  {
    if |rows| == 0 then None
    else if IsOwnersRoubleBalance(rows[0].data, userId) then Some(rows[0])
    else
      var r := FindLedgerBalance(rows[1..], userId);
      assert forall x :: x in rows ==> x == rows[0] || x in rows[1..];
      r
  }

  /** The ledger balance prepared from the document-store balance; card and withdrawal date only when present. */
  function BalanceRecordFrom(doc: Document): (b: Balance)
    ensures b.cardId.Some? <==> "card" in doc.fields
    ensures b.withdrawalAt.Some? <==> "withdrawalAt" in doc.fields
    ensures b.currencyType == Field(doc, "type") && b.userId == ToText(Field(doc, "user"))
  {
    Balance(
      ToText(Some(doc.id)),
      ToNumber(Field(doc, "balance")),
      ToText(Field(doc, "user")),
      Field(doc, "type"),
      Field(doc, "balance_hash"),
      if "card" in doc.fields then Some(ToText(Some(doc.fields["card"]))) else None,
      if "withdrawalAt" in doc.fields then Some(doc.fields["withdrawalAt"]) else None)
  }

  /** The scheduler step of the transaction. */
  function Schedule(db: Db, p: TransactionParams, run: LedgerRun): Result<Db, Error>
  {
    match run.scheduler
    case AsCalled => ScheduleAsCalled(db, p.order, p.product, p.request.data.payload)
    case Intended => SetSchedule(db, p.order, p.product, p.request.data.payload, run.nowMs, run.fault)
  }

  /**
   * `runTransaction`: the statements in their fixed order; the first one
   * that fails rolls the whole transaction back.
   */
  function LedgerTransaction(db: Db, p: TransactionParams, existing: Option<Row<Balance>>, record: Option<Balance>, run: LedgerRun): (r: Result<Db, Error>)
    ensures r.Err? ==> r.error.DatabaseError? || r.error == TypeError
  {
    var transactions :- TryInsert(db.paymentTransactions, p.transactionRecord, InsertPaymentTransaction, run.fault);
    var orders :- TryInsert(db.orders, p.orderRecord, InsertOrder, run.fault);
    if run.fault == Some(UpdateIncomingRequest) then Err(DatabaseError(UpdateIncomingRequest))
    else
      var db1 := SetRequestStatus(db.(paymentTransactions := transactions.0, orders := orders.0), p.request.id, Processed);
      var balance :-
        if record.Some? then TryInsert(db1.balances, record.value, InsertBalance, run.fault)
        else if existing.Some? then Ok((db1.balances, existing.value.id))
        else Err(TypeError);
      var db2 := db1.(balances := balance.0);
      var db3 :- if p.recurring then Schedule(db2, p, run) else Ok(db2);
      var updates :- TryInsert(db3.balanceUpdates, BalanceUpdate(balance.1, p.transactionRecord.amount, Increment), InsertBalanceUpdate, run.fault);
      Ok(db3.(balanceUpdates := updates.0))
  }

  /** The whole executor: look the balance up, prepare a record when there is none, run the transaction. */
  function ExecuteSpec(db: Db, p: TransactionParams, run: LedgerRun): (r: Result<Db, Error>)
    ensures r.Err? ==> r.error.DatabaseError? || r.error == TypeError
    ensures run.fault == None && run.scheduler == Intended ==> r.Ok?
    ensures r.Err? && run.scheduler == Intended ==> run.fault.Some? && r.error == DatabaseError(run.fault.value)
    ensures r.Ok? ==> r.value.incomingRequests == SetRequestStatus(db, p.request.id, Processed).incomingRequests
    ensures r.Ok? ==> r.value.paymentTransactions == Insert(db.paymentTransactions, p.transactionRecord).0
  {
    var existing := FindLedgerBalance(db.balances.rows, ToText(Some(p.owner.id)));
    var record := if existing.None? then Some(BalanceRecordFrom(p.ownerBalance)) else None;
    LedgerTransaction(db, p, existing, record, run)
  }

  /** The balance the increment is queued against: the new row's id, or the existing balance's. */
  function BalanceIdFor(db: Db, p: TransactionParams): nat
  {
    match FindLedgerBalance(db.balances.rows, ToText(Some(p.owner.id)))
    case None => db.balances.nextId
    case Some(row) => row.id
  }

  /**
   * What a committed executor run wrote: one payment transaction, one order,
   * the request Processed, a balance exactly when none existed, a queue row
   * exactly when the product recurs, and exactly one Increment of the
   * transaction amount against the balance.
   */
  lemma ExecuteEffects(db: Db, p: TransactionParams, run: LedgerRun)
    requires ExecuteSpec(db, p, run).Ok?
    ensures var db' := ExecuteSpec(db, p, run).value;
      var existing := FindLedgerBalance(db.balances.rows, ToText(Some(p.owner.id)));
      && db'.paymentTransactions == Insert(db.paymentTransactions, p.transactionRecord).0
      && db'.orders == Insert(db.orders, p.orderRecord).0
      && db'.incomingRequests == SetRequestStatus(db, p.request.id, Processed).incomingRequests
      && db'.balances == (if existing.None? then Insert(db.balances, BalanceRecordFrom(p.ownerBalance)).0 else db.balances)
      && db'.recurrentPayments ==
           (if p.recurring then Insert(db.recurrentPayments, QueueRow(p.order, p.product, p.request.data.payload, run.nowMs)).0
            else db.recurrentPayments)
      && db'.balanceUpdates == Insert(db.balanceUpdates, BalanceUpdate(BalanceIdFor(db, p), p.transactionRecord.amount, Increment)).0
  {
    var existing := FindLedgerBalance(db.balances.rows, ToText(Some(p.owner.id)));
    if p.recurring {
      assert run.scheduler == Intended by {
        if run.scheduler == AsCalled {
          ScheduleAsCalledAlwaysFails(db, p.order, p.product, p.request.data.payload);
        }
      }
    }
  }

  /** With the scheduler called as written, every recurring confirmation rolls back. */
  lemma RecurringConfirmationAsCalledRollsBack(db: Db, p: TransactionParams, run: LedgerRun)
    requires p.recurring && run.scheduler == AsCalled
    ensures ExecuteSpec(db, p, run).Err?
  {
    var existing := FindLedgerBalance(db.balances.rows, ToText(Some(p.owner.id)));
    var record := if existing.None? then Some(BalanceRecordFrom(p.ownerBalance)) else None;
    ScheduleAsCalledAlwaysFails(db, p.order, p.product, p.request.data.payload);
  }

  /** When the ledger accepts every statement and the scheduler is called as intended, the run commits. */
  lemma ExecuteCommits(db: Db, p: TransactionParams, run: LedgerRun)
    requires run.fault == None && run.scheduler == Intended
    ensures ExecuteSpec(db, p, run).Ok?
  {
  }

  /** A failed run is reported with the statement the ledger refused or the error raised. */
  lemma ExecuteFailsOnlyByFault(db: Db, p: TransactionParams, run: LedgerRun)
    requires run.scheduler == Intended && ExecuteSpec(db, p, run).Err?
    ensures run.fault.Some? && ExecuteSpec(db, p, run).error == DatabaseError(run.fault.value)
  {
  }

  /** A committed run keeps every table's ids fresh and increasing. */
  lemma ExecuteKeepsValid(db: Db, p: TransactionParams, run: LedgerRun)
    requires ValidDb(db) && ExecuteSpec(db, p, run).Ok?
    ensures ValidDb(ExecuteSpec(db, p, run).value)
  {
    ExecuteEffects(db, p, run);
    SetRequestStatusEffect(db, p.request.id, Processed);
    var db' := ExecuteSpec(db, p, run).value;
    assert db'.incomingRequests == SetRequestStatus(db, p.request.id, Processed).incomingRequests;
  }

  /**
   * A balance created for the owner is found by the next lookup, so a second
   * payment to the same owner does not create another one.
   */
  lemma CreatedBalanceIsFoundAgain(db: Db, p: TransactionParams, run: LedgerRun)
    requires ExecuteSpec(db, p, run).Ok?
    requires ToText(Field(p.ownerBalance, "user")) == ToText(Some(p.owner.id))
    requires Field(p.ownerBalance, "type") == Some(JStr(RubText))
    ensures FindLedgerBalance(ExecuteSpec(db, p, run).value.balances.rows, ToText(Some(p.owner.id))).Some?
  {
    ExecuteEffects(db, p, run);
    var userId := ToText(Some(p.owner.id));
    var rows' := ExecuteSpec(db, p, run).value.balances.rows;
    match FindLedgerBalance(db.balances.rows, userId)
    case Some(row) =>
      assert row in rows';
    case None =>
      assert rows'[|rows'| - 1] in rows';
      assert IsOwnersRoubleBalance(rows'[|rows'| - 1].data, userId);
  }

  /** The executor object, with the balance it finds and the record it prepares. */
  class CompleteTransactionExecutor {
    const params: TransactionParams
    var balanceInstance: Option<Row<Balance>>
    var balanceRecord: Option<Balance>

    constructor (params: TransactionParams)
      ensures this.params == params && balanceInstance == None && balanceRecord == None
    {
      this.params := params;
      balanceInstance := None;
      balanceRecord := None;
    }

    /** `findBalanceInPostgres`. */
    method FindBalanceInPostgres(st: Stores) returns (b: Option<Row<Balance>>)
      ensures b == FindLedgerBalance(st.db.balances.rows, ToText(Some(params.owner.id)))
    {
      var rows := st.db.balances.rows;
      var userId := ToText(Some(params.owner.id));
      var i := 0;
      while i < |rows| && !IsOwnersRoubleBalance(rows[i].data, userId)
        invariant 0 <= i <= |rows|
        invariant FindLedgerBalance(rows, userId) == FindLedgerBalance(rows[i..], userId)
      {
        assert rows[i..][1..] == rows[i + 1..];
        i := i + 1;
      }
      b := if i < |rows| then Some(rows[i]) else None;
    }

    /** `execute`: find or prepare the balance, then run the transaction. */
    method Execute(st: Stores, run: LedgerRun) returns (r: Result<(), Error>)
      modifies this, st
      ensures balanceInstance == FindLedgerBalance(old(st.db).balances.rows, ToText(Some(params.owner.id)))
      ensures balanceRecord == (if balanceInstance.None? then Some(BalanceRecordFrom(params.ownerBalance)) else None)
      ensures r.Ok? <==> ExecuteSpec(old(st.db), params, run).Ok?
      ensures r.Ok? ==> st.db == ExecuteSpec(old(st.db), params, run).value
      ensures r.Err? ==> r.error == ExecuteSpec(old(st.db), params, run).error && st.db == old(st.db)
      ensures st.mongo == old(st.mongo) && st.log == old(st.log)
    {
      balanceInstance := FindBalanceInPostgres(st);
      balanceRecord := None;
      if balanceInstance.None? {
        balanceRecord := Some(BalanceRecordFrom(params.ownerBalance));
      }
      r := RunTransaction(st, run);
    }

    /**
     * `runTransaction`: the statements run on a working copy of the ledger,
     * which is committed only when all of them succeed.
     */
    method RunTransaction(st: Stores, run: LedgerRun) returns (r: Result<(), Error>)
      modifies st
      ensures r.Ok? <==> LedgerTransaction(old(st.db), params, balanceInstance, balanceRecord, run).Ok?
      ensures r.Ok? ==> st.db == LedgerTransaction(old(st.db), params, balanceInstance, balanceRecord, run).value
      ensures r.Err? ==> r.error == LedgerTransaction(old(st.db), params, balanceInstance, balanceRecord, run).error && st.db == old(st.db)
      ensures st.mongo == old(st.mongo) && st.log == old(st.log)
    {
      var tx := st.db;
      var inserted := TryInsert(tx.paymentTransactions, params.transactionRecord, InsertPaymentTransaction, run.fault);
      if inserted.Err? { return Err(inserted.error); }
      tx := tx.(paymentTransactions := inserted.value.0);
      var orders := TryInsert(tx.orders, params.orderRecord, InsertOrder, run.fault);
      if orders.Err? { return Err(orders.error); }
      tx := tx.(orders := orders.value.0);
      if run.fault == Some(UpdateIncomingRequest) { return Err(DatabaseError(UpdateIncomingRequest)); }
      tx := SetRequestStatus(tx, params.request.id, Processed);

      var balanceId: nat;
      if balanceRecord.Some? {
        var balance := TryInsert(tx.balances, balanceRecord.value, InsertBalance, run.fault);
        if balance.Err? { return Err(balance.error); }
        tx := tx.(balances := balance.value.0);
        balanceId := balance.value.1;
      } else if balanceInstance.Some? {
        balanceId := balanceInstance.value.id;
      } else {
        return Err(TypeError);
      }

      if params.recurring {
        var scheduled := Schedule(tx, params, run);
        if scheduled.Err? { return Err(scheduled.error); }
        tx := scheduled.value;
      }

      var update := TryInsert(tx.balanceUpdates, BalanceUpdate(balanceId, params.transactionRecord.amount, Increment), InsertBalanceUpdate, run.fault);
      if update.Err? { return Err(update.error); }
      tx := tx.(balanceUpdates := update.value.0);
      st.db := tx;
      r := Ok(());
    }
  }
}
