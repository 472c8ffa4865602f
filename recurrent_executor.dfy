/**
 * The offset-paged recurrent-payments executor: it counts the queue once,
 * then fetches one row per offset 0, 1, ..., count - 1 from the live table,
 * which its own deletions shrink as it goes.
 */
module RecurrentExecutor {
  import opened Wrappers
  import opened Failures
  import opened Ledger
  import opened StoreState
  import opened RecurrentHelper

  /** `Date.now() >= new Date(row.dateToExecute).getTime()`, the due date being in seconds. */
  function Due(rec: Row<RecurrentPayment>, nowMs: nat): (due: bool)
    ensures due <==> rec.data.dateToExecute <= nowMs / 1000
  {
    nowMs >= rec.data.dateToExecute * 1000
  }

  /** One pass of the loop body at `index`: fetch, skip a missing or not yet due row, else process it. */
  function Step(w: World, index: nat, it: Iteration, cfg: RecurrentConfig): (o: Outcome<()>)
    ensures o.world.db == w.db.(recurrentPayments := o.world.db.recurrentPayments)
    ensures AtOffset(w.db.recurrentPayments, index).None? ==> o == Outcome(w, Ok(()))
    ensures AtOffset(w.db.recurrentPayments, index).Some? ==>
      var rec := AtOffset(w.db.recurrentPayments, index).value;
      && (!Due(rec, it.nowMs) ==> o == Outcome(w, Ok(())))
      && o.world.db.recurrentPayments in {w.db.recurrentPayments, Delete(w.db.recurrentPayments, rec.id)}
  {
    match AtOffset(w.db.recurrentPayments, index)
    case None => Outcome(w, Ok(()))
    case Some(rec) => if Due(rec, it.nowMs) then ProcessRow(w, rec, it, cfg) else Outcome(w, Ok(()))
  }

  /** The passes from `index` up to the count taken at the start; an exception ends the run. */
  function Run(w: World, index: nat, count: nat, its: nat -> Iteration, cfg: RecurrentConfig): (o: Outcome<()>)
    ensures o.world.db == w.db.(recurrentPayments := o.world.db.recurrentPayments)
    decreases count - index
  {
    if index >= count then Outcome(w, Ok(()))
    else
      var s :- Step(w, index, its(index), cfg);
      Run(s.0, index + 1, count, its, cfg)
  }

  /** `execute`: as many passes as the queue had rows when it was counted. */
  function ExecuteSpec(w: World, its: nat -> Iteration, cfg: RecurrentConfig): (o: Outcome<()>)
    ensures o.world.db == w.db.(recurrentPayments := o.world.db.recurrentPayments)
    ensures forall r :: r in o.world.db.recurrentPayments.rows ==> r in w.db.recurrentPayments.rows
  {
    RunOnlyDeletes(w, 0, |w.db.recurrentPayments.rows|, its, cfg);
    Run(w, 0, |w.db.recurrentPayments.rows|, its, cfg)
  }

  /** The passes only delete queue rows: every row left afterwards was queued before. */
  lemma {:induction false} RunOnlyDeletes(w: World, index: nat, count: nat, its: nat -> Iteration, cfg: RecurrentConfig)
    ensures forall r :: r in Run(w, index, count, its, cfg).world.db.recurrentPayments.rows ==> r in w.db.recurrentPayments.rows
    decreases count - index
  {
    if index < count {
      var s := Step(w, index, its(index), cfg);
      if s.result.Ok? {
        RunOnlyDeletes(s.world, index + 1, count, its, cfg);
      }
    }
  }

  /** The ids of the rows the passes from `index` fetch, in order. */
  function Visited(w: World, index: nat, count: nat, its: nat -> Iteration, cfg: RecurrentConfig): seq<nat>
    decreases count - index
  {
    if index >= count then []
    else
      var o := Step(w, index, its(index), cfg);
      var here := match AtOffset(w.db.recurrentPayments, index) case None => [] case Some(rec) => [rec.id];
      here + (if o.result.Ok? then Visited(o.world, index + 1, count, its, cfg) else [])
  }

  /** The run fetches at most one row per offset below the count. */
  lemma {:induction false} VisitedAtMostCount(w: World, index: nat, count: nat, its: nat -> Iteration, cfg: RecurrentConfig)
    ensures |Visited(w, index, count, its, cfg)| <= if index >= count then 0 else count - index
    decreases count - index
  {
    if index < count {
      var o := Step(w, index, its(index), cfg);
      if o.result.Ok? {
        VisitedAtMostCount(o.world, index + 1, count, its, cfg);
      }
    }
  }

  /**
   * A row that stands before the next offset is never fetched in the rest of
   * the run: later offsets only grow, and deletions only move rows left.
   */
  lemma {:induction false} RowsBehindAreNotVisited(w: World, index: nat, count: nat, its: nat -> Iteration, cfg: RecurrentConfig, x: nat)
    requires forall p :: index <= p < |w.db.recurrentPayments.rows| ==> w.db.recurrentPayments.rows[p].id != x
    ensures x !in Visited(w, index, count, its, cfg)
    decreases count - index
  {
    if index < count {
      var rows := w.db.recurrentPayments.rows;
      var o := Step(w, index, its(index), cfg);
      if o.result.Ok? {
        var after := o.world.db.recurrentPayments.rows;
        forall p | index + 1 <= p < |after| ensures after[p].id != x {
          if after != rows {
            var rec := AtOffset(w.db.recurrentPayments, index).value;
            WithoutFromRight(rows, rec.id, p);
          }
        }
        RowsBehindAreNotVisited(o.world, index + 1, count, its, cfg, x);
      }
    }
  }

  /**
   * The paging defect: when the pass at `index` deletes its row, the row that
   * followed it slides into the deleted row's offset, which has already been
   * read, and is not fetched again in the same run.
   */
  lemma SuccessorOfDeletedRowIsSkipped(w: World, index: nat, count: nat, its: nat -> Iteration, cfg: RecurrentConfig)
    requires ValidTable(w.db.recurrentPayments)
    requires index < count && index + 1 < |w.db.recurrentPayments.rows|
    requires var o := Step(w, index, its(index), cfg);
      o.result.Ok? && o.world.db.recurrentPayments == Delete(w.db.recurrentPayments, w.db.recurrentPayments.rows[index].id)
    ensures w.db.recurrentPayments.rows[index + 1].id !in Visited(w, index, count, its, cfg)
  {
    var rows := w.db.recurrentPayments.rows;
    var x := rows[index + 1].id;
    var o := Step(w, index, its(index), cfg);
    WithoutAt(rows, index);
    var after := o.world.db.recurrentPayments.rows;
    forall p | index + 1 <= p < |after| ensures after[p].id != x {
      assert after[p] == rows[p + 1];
    }
    RowsBehindAreNotVisited(o.world, index + 1, count, its, cfg, x);
    assert rows[index].id != x;
  }

  // ---------------------------------------------------------------------------
  // The loop as written

  /**
   * A due row as the executor calls it: a helper is built and its
   * `processRecurrentPaymentsQueueRecord` called, a method the helper does not
   * define, so the call raises a TypeError.
   */
  function StepAsWritten(w: World, index: nat, it: Iteration): Outcome<()>
  {
    match AtOffset(w.db.recurrentPayments, index)
    case None => Outcome(w, Ok(()))
    case Some(rec) => if Due(rec, it.nowMs) then Raise(w, TypeError) else Outcome(w, Ok(()))
  }

  function RunAsWritten(w: World, index: nat, count: nat, its: nat -> Iteration): Outcome<()>
    decreases count - index
  {
    if index >= count then Outcome(w, Ok(()))
    else
      var s :- StepAsWritten(w, index, its(index));
      RunAsWritten(s.0, index + 1, count, its)
  }

  /**
   * As written, nothing changes until the first due row, and the run aborts
   * there with a TypeError: no recurrent payment is ever initiated.
   */
  lemma {:induction false} RunAsWrittenFailsAtFirstDueRow(w: World, index: nat, count: nat, its: nat -> Iteration)
    ensures RunAsWritten(w, index, count, its) ==
      if exists i :: index <= i < count && i < |w.db.recurrentPayments.rows| && Due(w.db.recurrentPayments.rows[i], its(i).nowMs)
      then Raise(w, TypeError)
      else Outcome(w, Ok(()))
    decreases count - index
  {
    if index < count {
      RunAsWrittenFailsAtFirstDueRow(w, index + 1, count, its);
    }
  }

  // ---------------------------------------------------------------------------
  // The executor object

  class RecurrentPaymentsExecutor {
    constructor ()
    {
    }

    /** `execute`, with the data check the helper defines. */
    method Execute(st: Stores, its: nat -> Iteration, cfg: RecurrentConfig) returns (r: Result<(), Error>)
      modifies st
      ensures ExecuteSpec(old(st.State()), its, cfg) == Outcome(st.State(), r)
    {
      var count := |st.db.recurrentPayments.rows|;
      ghost var w0 := st.State();
      var index := 0;
      while index < count
        invariant 0 <= index <= count
        invariant Run(w0, 0, count, its, cfg) == Run(st.State(), index, count, its, cfg)
      {
        var rec := AtOffset(st.db.recurrentPayments, index);
        if rec.Some? && Due(rec.value, its(index).nowMs) {
          var served := ServeRow(st, rec.value, its(index), cfg);
          if served.Err? {
            return served;
          }
        }
        index := index + 1;
      }
      r := Ok(());
    }

    /** One due row: the data check, then the order, the URL and the gateway call when allowed. */
    method ServeRow(st: Stores, rec: Row<RecurrentPayment>, it: Iteration, cfg: RecurrentConfig) returns (r: Result<(), Error>)
      modifies st
      ensures ProcessRow(old(st.State()), rec, it, cfg) == Outcome(st.State(), r)
    {
      var helper := new RecurrentPaymentsHelper(rec);
      var filled := helper.FillDataSource(st, cfg.system, it.freshOid);
      if filled.Err? {
        return filled;
      }
      if helper.isItAllowableToProceedExecution {
        var created := helper.CreateOrder(st, it);
        if created.Err? {
          return created;
        }
        var built := helper.BuildPaymentUrl(cfg);
        if built.Err? {
          return built;
        }
        helper.InitiatePayment(st, it.gatewayOk);
        if helper.isItAllowableToProceedExecution {
          helper.DeleteRecurrentPaymentsQueueRecord(st);
        }
      }
      r := Ok(());
    }
  }
}
