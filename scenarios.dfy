/** Whole invocations on small collections, end to end from the argument vector. */
module Scenarios {
  import opened Wrappers
  import opened Php
  import opened Store
  import opened App

  const Script := "expense-tracker.php"

  /** Adding to an empty collection gives the record id 1 and saves it. */
  lemma AddToEmptyStore(now: Timestamp)
    ensures Execute([Script, "add", "--description", "Lunch", "--amount", "20"], [], now)
      == Outcome(Added(1), 0, Some([Expense(1, "Lunch", "20", now, now)]))
  {
    var argv := [Script, "add", "--description", "Lunch", "--amount", "20"];
    assert argv[1] == "add" && argv[3] == "Lunch" && argv[5] == "20";
    assert Cli.Parse(argv) == Success(Cli.Add("Lunch", "20"));
    assert WithAdded([], "Lunch", "20", now) == [Expense(1, "Lunch", "20", now, now)];
    assert Execute(argv, [], now) == Perform(Cli.Add("Lunch", "20"), [], now);
  }

  /** `update --id <id> --amount <amount>` is dispatched as an update of the amount
      alone, whenever both values are truthy and neither is itself one of the flags. */
  lemma UpdateAmountParses(id: string, amount: string)
    requires Truthy(id) && Truthy(amount)
    requires id !in [Cli.IdFlag, Cli.DescriptionFlag, Cli.AmountFlag]
    requires amount !in [Cli.IdFlag, Cli.DescriptionFlag, Cli.AmountFlag]
    ensures Cli.Parse([Script, "update", Cli.IdFlag, id, Cli.AmountFlag, amount]) == Success(Cli.Update(id, None, Some(amount)))
  {
    var argv := [Script, "update", Cli.IdFlag, id, Cli.AmountFlag, amount];
    assert argv[1] == "update";
    assert argv[5] != Cli.IdFlag && argv[4] != Cli.IdFlag && argv[3] != Cli.IdFlag;
    assert Cli.ValueAfterLast(argv, Cli.IdFlag, 3) == Some(id);
    assert Cli.ValueAfterLast(argv, Cli.AmountFlag, 5) == Some(amount);
    assert argv[5] != Cli.AmountFlag;
    assert forall k :: 0 <= k < 6 ==> argv[k] != Cli.DescriptionFlag;
  }

  /** On the store side, updating only the amount of the one record with id 1 keeps
      its description and creation time and refreshes `updatedAt`. */
  lemma PatchAmountOfOnlyRecord(e: Expense, now: Timestamp)
    requires e.id == 1
    ensures Perform(Cli.Update("1", None, Some("30")), [e], now)
      == Outcome(Updated("1"), 0, Some([e.(amount := "30", updatedAt := now)]))
  {
    assert ParseInt("1") == Some(1);
    assert IsFirstMatch([e], "1", 0);
    var r := WithUpdated([e], "1", None, Some("30"), now);
    assert r == [e.(amount := "30", updatedAt := now)] by {
      assert |r| == 1 && r[0].id == e.id && r[0].createdAt == e.createdAt;
    }
  }

  /** Updating only the amount keeps the description and creation time and refreshes
      `updatedAt`. */
  lemma UpdateAmountOnly(e: Expense, now: Timestamp)
    requires e.id == 1
    ensures Execute([Script, "update", "--id", "1", "--amount", "30"], [e], now)
      == Outcome(Updated("1"), 0, Some([e.(amount := "30", updatedAt := now)]))
  {
    var argv := [Script, "update", "--id", "1", "--amount", "30"];
    assert argv == [Script, "update", Cli.IdFlag, "1", Cli.AmountFlag, "30"];
    UpdateAmountParses("1", "30");
    PatchAmountOfOnlyRecord(e, now);
  }

  /** Deleting the only record empties the collection; listing it then fails with status 1. */
  lemma DeleteOnlyRecordThenList(e: Expense, now: Timestamp)
    requires e.id == 1
    ensures Execute([Script, "delete", "--id", "1"], [e], now) == Outcome(Deleted, 0, Some([]))
    ensures Execute([Script, "list"], [], now) == Outcome(EmptyList(false), 1, None)
  {
    var argv := [Script, "delete", "--id", "1"];
    assert argv[1] == "delete" && argv[3] == "1";
    assert [Script, "list"][1] == "list";
    assert ParseInt("1") == Some(1);
    assert IsFirstMatch([e], "1", 0);
  }

  /** With one record in March and one in April, `summary --month 3` counts only the first. */
  lemma SummaryOfOneMonth(march: Expense, april: Expense, now: Timestamp)
    requires march.createdAt.month == 3 && april.createdAt.month == 4
    ensures Execute([Script, "summary", "--month", "3"], [march, april], now)
      == Outcome(TotalOf(Some("3"), IntCast(march.amount)), 0, None)
  {
    var argv := [Script, "summary", "--month", "3"];
    assert argv[1] == "summary" && argv[3] == "3";
    assert Cli.Parse(argv) == Success(Cli.Summary(Some("3")));
    assert ParseInt("3") == Some(3);
    MarchTotal(march, april);
    assert Execute(argv, [march, april], now) == Perform(Cli.Summary(Some("3")), [march, april], now);
  }

  /** The March total of a March and an April record is the March amount. */
  lemma MarchTotal(march: Expense, april: Expense)
    requires march.createdAt.month == 3 && april.createdAt.month == 4
    ensures MonthTotal([march, april], Some(3)) == IntCast(march.amount)
  {
    var s := [march, april];
    assert s[..1] == [march] && s[..1][..0] == [];
    assert MonthTotal(s, Some(3)) == MonthTotal([march], Some(3)) + 0;
    assert MonthTotal([march], Some(3)) == MonthTotal([], Some(3)) + IntCast(march.amount);
  }

  /** `update --id <id>` with neither a description nor an amount is refused with
      status 1 and saves nothing, whatever the collection holds. */
  lemma UpdateWithoutValueRefused(s: seq<Expense>, now: Timestamp)
    ensures Execute([Script, "update", "--id", "99"], s, now) == Outcome(Rejected(Cli.UpdateUsage), 1, None)
  {
    var argv := [Script, "update", "--id", "99"];
    assert argv == [Script, "update", Cli.IdFlag, "99"];
    assert argv[1] == "update";
    assert forall k :: 0 <= k < 4 ==> argv[k] != Cli.DescriptionFlag && argv[k] != Cli.AmountFlag;
    assert Cli.Parse(argv) == Failure(Cli.UpdateUsage);
  }

  /** Updating an id the collection does not hold reports it and saves nothing. */
  lemma UpdateMissingId(s: seq<Expense>, now: Timestamp)
    requires forall j :: 0 <= j < |s| ==> s[j].id != 99
    ensures Execute([Script, "update", "--id", "99", "--amount", "5"], s, now) == Outcome(NotFound("99"), 0, None)
  {
    var argv := [Script, "update", "--id", "99", "--amount", "5"];
    assert argv == [Script, "update", Cli.IdFlag, "99", Cli.AmountFlag, "5"];
    UpdateAmountParses("99", "5");
    assert Execute(argv, s, now) == Perform(Cli.Update("99", None, Some("5")), s, now);
    assert DigitsValue("9") == 9 by { assert "9"[..0] == []; }
    assert DigitsValue("99") == 99 by { assert "99"[..1] == "9"; }
    assert ParseInt("99") == Some(99);
    assert FirstMatch(s, "99").None?;
  }
}
