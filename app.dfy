/** One invocation of the expense tracker: dispatch the arguments, load the collection,
    run the command on the store, and decide what is reported, the exit status and
    whether the collection is written back. */
module App {
  import opened Wrappers
  import opened Store
  import Cli

  /** What the invocation reports on standard output. */
  datatype Report =
    | Guide                                          // no command: the usage guide
    | Rejected(usage: Cli.Usage)                     // a usage error (the guide too for an unknown command)
    | Added(newId: int)                              // "Expense added successfully (ID: ...)"
    | Updated(id: string)                            // "Expense updated successfully (ID: ...)"
    | Deleted                                        // "Expense deleted successfully."
    | NotFound(id: string)                           // "Expense not found (ID: ...)"
    | EmptyList(warned: bool)                        // "No expenses found."
    | Listing(warned: bool, rows: seq<Expense>)      // the table, one row per record
    | EmptySummary                                   // "No expenses found. Total expenses: $0"
    | TotalOf(month: Option<string>, total: int)     // "Total expenses ...: $total"

  /** The effect of one invocation; `written` is the collection saved to the expense
      file, `None` when nothing is saved. */
  datatype Outcome = Outcome(report: Report, exitCode: int, written: Option<seq<Expense>>)

  /** The effect of one invocation on the collection `loaded` from the expense file,
      with `now` the invocation's clock. */
  function Execute(argv: seq<string>, loaded: seq<Expense>, now: Timestamp): (o: Outcome)
    ensures o.exitCode == 0 || o.exitCode == 1
    // a usage error stops the invocation with status 1 before anything is saved
    ensures Cli.Parse(argv).Failure? ==> o.exitCode == 1 && o.written == None
    ensures |argv| < 2 ==> o.report == Guide
    // only add, and update or delete of an existing id, save; they succeed
    ensures o.written.Some? <==>
      && Cli.Parse(argv).Success?
      && (|| Cli.Parse(argv).value.Add?
          || ((Cli.Parse(argv).value.Update? || Cli.Parse(argv).value.Delete?)
              && FirstMatch(loaded, Cli.Parse(argv).value.id).Some?))
    ensures o.written.Some? ==> o.exitCode == 0
    // a listing or a total is only produced for a non-empty collection, and lists all of it
    ensures o.report.Listing? ==> loaded != [] && o.report.rows == loaded
    ensures o.report.TotalOf? ==> loaded != []
    // status 1 for a usage error, or for list and summary of an empty collection
    ensures o.exitCode == 1 <==>
      || Cli.Parse(argv).Failure?
      || (loaded == [] && (Cli.Parse(argv).value.List? || Cli.Parse(argv).value.Summary?))
  {
    match Cli.Parse(argv)
    case Failure(usage) =>
      Outcome(if usage == Cli.NoCommand then Guide else Rejected(usage), 1, None)
    case Success(command) =>
      Perform(command, loaded, now)
  }

  /** The store's side of a dispatched command. */
  function Perform(command: Cli.Command, loaded: seq<Expense>, now: Timestamp): Outcome {
    match command
    case Add(description, amount) =>
      Outcome(Added(NextId(loaded)), 0, Some(WithAdded(loaded, description, amount, now)))
    case Update(id, description, amount) =>
      if FirstMatch(loaded, id).Some? then
        Outcome(Updated(id), 0, Some(WithUpdated(loaded, id, description, amount, now)))
      else
        Outcome(NotFound(id), 0, None)
    case Delete(id) =>
      if FirstMatch(loaded, id).Some? then Outcome(Deleted, 0, Some(WithDeleted(loaded, id)))
      else Outcome(NotFound(id), 0, None)
    case List(warned) =>
      if loaded == [] then Outcome(EmptyList(warned), 1, None) else Outcome(Listing(warned, loaded), 0, None)
    case Summary(month) =>
      match SummaryOf(loaded, month)
      case None => Outcome(EmptySummary, 1, None)
      case Some(total) => Outcome(TotalOf(month, total), 0, None)
  }

  /** One invocation as the program runs it: dispatch, then load the collection into a
      store and run the command on it. */
  method Run(argv: seq<string>, loaded: seq<Expense>, now: Timestamp) returns (o: Outcome)
    ensures o == Execute(argv, loaded, now)
  {
    var dispatched := Cli.Dispatch(argv);
    if dispatched.Failure? {
      var report := if dispatched.error == Cli.NoCommand then Guide else Rejected(dispatched.error);
      return Outcome(report, 1, None);
    }
    var store := new ExpenseStore(loaded);
    match dispatched.value {
      case Add(description, amount) =>
        var newId := store.Add(description, amount, now);
        o := Outcome(Added(newId), 0, Some(store.expenses));
      case Update(id, description, amount) =>
        var found := store.Update(id, description, amount, now);
        o := if found then Outcome(Updated(id), 0, Some(store.expenses)) else Outcome(NotFound(id), 0, None);
      case Delete(id) =>
        var found := store.Delete(id);
        o := if found then Outcome(Deleted, 0, Some(store.expenses)) else Outcome(NotFound(id), 0, None);
      case List(warned) =>
        var rows := store.List();
        o := if rows.None? then Outcome(EmptyList(warned), 1, None) else Outcome(Listing(warned, rows.value), 0, None);
      case Summary(month) =>
        var total := store.Summary(month);
        o := if total.None? then Outcome(EmptySummary, 1, None) else Outcome(TotalOf(month, total.value), 0, None);
    }
  }
}
