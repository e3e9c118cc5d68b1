/** The expense store: the ordered collection of expense records and the operations
    `add`, `update`, `delete`, `list` and `summary` apply to it once it is loaded. */
module Store {
  import opened Wrappers
  import opened Php

  /** A calendar month, as `date('m')` reports it. */
  type Month = m: int | 1 <= m <= 12 witness 1

  /** A timestamp as written by `date('c')`; `month` is the month that
      `date('m', strtotime(text))` reads back from it. */
  datatype Timestamp = Timestamp(text: string, month: Month)

  /** One record of the collection. The amount is kept as the text it was entered as. */
  datatype Expense = Expense(
    id: int,
    description: string,
    amount: string,
    createdAt: Timestamp,
    updatedAt: Timestamp)

  /** `$expense["id"] == $id` for an id given on the command line. */
  predicate Matches(e: Expense, idArg: string) {
    LooselyEquals(e.id, idArg)
  }

  // ---------------------------------------------------------------------------
  // Specification functions

  /** The id `add` hands out: one more than the LAST record's id, 1 for an empty collection. */
  function NextId(s: seq<Expense>): int {
    if s == [] then 1 else s[|s| - 1].id + 1
  }

  /** The collection after `add`. */
  function WithAdded(s: seq<Expense>, description: string, amount: string, now: Timestamp): seq<Expense> {
    s + [Expense(NextId(s), description, amount, now, now)]
  }

  /** The position of the first record whose id matches, if any. */
  function FirstMatch(s: seq<Expense>, idArg: string): (r: Option<nat>)
    ensures r.Some? ==> r.value < |s| && Matches(s[r.value], idArg)
    ensures r.Some? ==> forall j :: 0 <= j < r.value ==> !Matches(s[j], idArg)
    ensures r.None? ==> forall j :: 0 <= j < |s| ==> !Matches(s[j], idArg)
  {
    if s == [] then None
    else if Matches(s[0], idArg) then Some(0)
    else match FirstMatch(s[1..], idArg)
      case None => None
      case Some(k) => Some(k + 1)
  }

  /** `k` is the position of the first record whose id matches. */
  predicate IsFirstMatch(s: seq<Expense>, idArg: string, k: int) {
    0 <= k < |s| && Matches(s[k], idArg) && forall j :: 0 <= j < k ==> !Matches(s[j], idArg)
  }

  /** A record after `update`: the given fields overwritten, `updatedAt` refreshed. */
  function Patched(e: Expense, description: Option<string>, amount: Option<string>, now: Timestamp): Expense {
    e.(description := if description.Some? then description.value else e.description,
       amount := if amount.Some? then amount.value else e.amount,
       updatedAt := now)
  }

  /** The collection after `update`: only the first matching record changes, and of
      it only the fields that were given and `updatedAt`. */
  function WithUpdated(s: seq<Expense>, idArg: string, description: Option<string>, amount: Option<string>, now: Timestamp): (r: seq<Expense>)
    ensures |r| == |s|
    ensures FirstMatch(s, idArg).None? ==> r == s
    ensures forall j :: 0 <= j < |s| && r[j] != s[j] ==> IsFirstMatch(s, idArg, j)
    ensures forall k :: IsFirstMatch(s, idArg, k) ==>
      && r[k].id == s[k].id
      && r[k].createdAt == s[k].createdAt
      && r[k].updatedAt == now
      && r[k].description == (if description.Some? then description.value else s[k].description)
      && r[k].amount == (if amount.Some? then amount.value else s[k].amount)
  {
    match FirstMatch(s, idArg)
    case None => s
    case Some(k) => s[k := Patched(s[k], description, amount, now)]
  }

  /** The collection after `delete`: the first matching record removed and the rest
      closed up in their original order. */
  function WithDeleted(s: seq<Expense>, idArg: string): (r: seq<Expense>)
    ensures FirstMatch(s, idArg).None? ==> r == s
    ensures forall k :: IsFirstMatch(s, idArg, k) ==>
      && |r| == |s| - 1
      && (forall j :: 0 <= j < k ==> r[j] == s[j])
      && (forall j :: k <= j < |r| ==> r[j] == s[j + 1])
      && multiset(r) + multiset{s[k]} == multiset(s)
  {
    match FirstMatch(s, idArg)
    case None => s
    case Some(k) =>
      assert s == s[..k] + [s[k]] + s[k + 1..];
      s[..k] + s[k + 1..]
  }

  /** The sum of the `(int)` values of all amounts. */
  function Total(s: seq<Expense>): int {
    if s == [] then 0 else Total(s[..|s| - 1]) + IntCast(s[|s| - 1].amount)
  }

  /** The sum of the `(int)` values of the amounts of the records created in `month`.
      A month argument that is not an integer is `None`, which no record matches. */
  function MonthTotal(s: seq<Expense>, month: Option<int>): (r: int)
    ensures (forall j :: 0 <= j < |s| ==> month != Some(s[j].createdAt.month)) ==> r == 0
    ensures (forall j :: 0 <= j < |s| ==> month == Some(s[j].createdAt.month)) ==> r == Total(s)
  {
    if s == [] then 0
    else
      var last := s[|s| - 1];
      MonthTotal(s[..|s| - 1], month) + (if month == Some(last.createdAt.month) then IntCast(last.amount) else 0)
  }

  lemma TotalStep(s: seq<Expense>, i: nat)
    requires i < |s|
    ensures Total(s[..i + 1]) == Total(s[..i]) + IntCast(s[i].amount)
  {
    assert s[..i + 1][..i] == s[..i];
  }

  lemma MonthTotalStep(s: seq<Expense>, i: nat, month: Option<int>)
    requires i < |s|
    ensures MonthTotal(s[..i + 1], month) ==
      MonthTotal(s[..i], month) + (if month == Some(s[i].createdAt.month) then IntCast(s[i].amount) else 0)
  {
    assert s[..i + 1][..i] == s[..i];
  }

  /** What `summary` reports: nothing for an empty collection, otherwise the total of
      all records or of the records of one month. */
  function SummaryOf(s: seq<Expense>, month: Option<string>): Option<int> {
    if s == [] then None
    else match month
      case None => Some(Total(s))
      case Some(m) => Some(MonthTotal(s, ParseInt(m)))
  }

  // ---------------------------------------------------------------------------
  // The store

  /** The expense collection of one invocation, loaded at the start and changed in place. */
  class ExpenseStore {
    var expenses: seq<Expense>

    /** The collection as loaded from the expense file. */
    constructor (loaded: seq<Expense>)
      ensures expenses == loaded
    {
      expenses := loaded;
    }

    /** Appends a record with the next id; both timestamps are `now`. */
    method Add(description: string, amount: string, now: Timestamp) returns (newId: int)
      modifies this
      ensures newId == NextId(old(expenses))
      ensures expenses == WithAdded(old(expenses), description, amount, now)
    {
      if |expenses| == 0 {
        newId := 1;
      } else {
        newId := expenses[|expenses| - 1].id + 1;
      }
      expenses := expenses + [Expense(newId, description, amount, now, now)];
    }

    /** Patches the first record whose id matches; reports whether there was one. */
    method Update(idArg: string, description: Option<string>, amount: Option<string>, now: Timestamp) returns (found: bool)
      modifies this
      ensures found <==> exists k :: 0 <= k < |old(expenses)| && Matches(old(expenses)[k], idArg)
      ensures expenses == WithUpdated(old(expenses), idArg, description, amount, now)
    {
      var s := expenses;
      var i := 0;
      while i < |s|
        invariant 0 <= i <= |s|
        invariant forall j :: 0 <= j < i ==> !Matches(s[j], idArg)
      {
        if Matches(s[i], idArg) {
          assert FirstMatch(s, idArg) == Some(i);
          expenses := s[i := Patched(s[i], description, amount, now)];
          return true;
        }
        i := i + 1;
      }
      assert FirstMatch(s, idArg) == None;
      return false;
    }

    /** Removes the first record whose id matches and closes the gap; reports whether
        there was one. */
    method Delete(idArg: string) returns (found: bool)
      modifies this
      ensures found <==> exists k :: 0 <= k < |old(expenses)| && Matches(old(expenses)[k], idArg)
      ensures expenses == WithDeleted(old(expenses), idArg)
    {
      var s := expenses;
      var i := 0;
      while i < |s|
        invariant 0 <= i <= |s|
        invariant forall j :: 0 <= j < i ==> !Matches(s[j], idArg)
      {
        if Matches(s[i], idArg) {
          assert FirstMatch(s, idArg) == Some(i);
          expenses := s[..i] + s[i + 1..];
          return true;
        }
        i := i + 1;
      }
      assert FirstMatch(s, idArg) == None;
      return false;
    }

    /** The records to list, in stored order; `None` when there are none. */
    method List() returns (rows: Option<seq<Expense>>)
      ensures rows.None? <==> expenses == []
      ensures rows.Some? ==> rows.value == expenses
    {
      if |expenses| == 0 {
        return None;
      }
      rows := Some(expenses);
    }

    /** The summary total: `None` for an empty collection; otherwise the total of all
        records, or, given a month argument, of the records created in that month. */
    method Summary(month: Option<string>) returns (total: Option<int>)
      ensures total == SummaryOf(expenses, month)
    {
      var s := expenses;
      if |s| == 0 {
        return None;
      }
      var sum := 0;
      var i := 0;
      if month.Some? {
        var m := month.value;
        while i < |s|
          invariant 0 <= i <= |s|
          invariant sum == MonthTotal(s[..i], ParseInt(m))
        {
          MonthTotalStep(s, i, ParseInt(m));
          if LooselyEquals(s[i].createdAt.month, m) {
            sum := sum + IntCast(s[i].amount);
          }
          i := i + 1;
        }
      } else {
        while i < |s|
          invariant 0 <= i <= |s|
          invariant sum == Total(s[..i])
        {
          TotalStep(s, i);
          sum := sum + IntCast(s[i].amount);
          i := i + 1;
        }
      }
      assert s[..i] == s;
      return Some(sum);
    }
  }
}
