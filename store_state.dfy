/**
 * The three stores the workflow changes — the ledger, the document store and
 * the audit log — as one value, and as the object the imperative operations
 * update in place.
 */
module StoreState {
  import opened Ledger
  import opened Documents
  import opened Audit

  import opened Failures
  import opened Wrappers

  datatype World = World(db: Db, mongo: Mongo, log: seq<LogEntry>)

  /** What a step leaves behind: the stores after it, and its value or the error it raised. */
  datatype Outcome<T> = Outcome(world: World, result: Result<T, Error>) {
    predicate IsFailure() { result.Err? }

    function PropagateFailure<U>(): Outcome<U>
      requires result.Err?
    {
      Outcome(world, Err(result.error))
    }

    /** The stores after the step, and its value. */
    function Extract(): (World, T)
      requires result.Ok?
    {
      (world, result.value)
    }
  }

  /** A step that raises `e` after leaving the stores as `w`. */
  function Raise<T>(w: World, e: Error): (o: Outcome<T>)
    ensures o.world == w && o.result == Err(e)
  {
    Outcome(w, Err(e))
  }

  /** The stores with one more audit entry. */
  function Logged(w: World, e: LogEntry): (r: World)
    ensures r.db == w.db && r.mongo == w.mongo && r.log == w.log + [e]
  {
    w.(log := w.log + [e])
  }

  class Stores {
    var db: Db
    var mongo: Mongo
    var log: seq<LogEntry>

    function State(): World
      reads this
    {
      World(db, mongo, log)
    }

    constructor (w: World)
      ensures State() == w
    {
      db := w.db;
      mongo := w.mongo;
      log := w.log;
    }
  }
}
