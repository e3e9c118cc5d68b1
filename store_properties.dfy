/** Properties of the expense store that relate several operations: how ids are
    handed out, what keeps them unique, and how the monthly summaries add up. */
module StoreProperties {
  import opened Wrappers
  import opened Php
  import opened Store

  // ---------------------------------------------------------------------------
  // Ids

  /** Ids grow strictly along the collection, so no two records share one. */
  predicate IdsAscending(s: seq<Expense>) {
    forall i, j :: 0 <= i < j < |s| ==> s[i].id < s[j].id
  }

  /** The record at position i has id i + 1, as after adds to an empty collection. */
  predicate NumberedFromOne(s: seq<Expense>) {
    forall i :: 0 <= i < |s| ==> s[i].id == i + 1
  }

  /** `add` keeps the ids ascending: the new id is above the last one. */
  lemma AddKeepsIdsAscending(s: seq<Expense>, description: string, amount: string, now: Timestamp)
    requires IdsAscending(s)
    ensures IdsAscending(WithAdded(s, description, amount, now))
  {
  }

  /** `update` keeps every id, so it keeps them ascending. */
  lemma UpdateKeepsIds(s: seq<Expense>, idArg: string, description: Option<string>, amount: Option<string>, now: Timestamp)
    ensures var r := WithUpdated(s, idArg, description, amount, now);
      forall j :: 0 <= j < |s| ==> r[j].id == s[j].id
    ensures IdsAscending(s) ==> IdsAscending(WithUpdated(s, idArg, description, amount, now))
  {
    var r := WithUpdated(s, idArg, description, amount, now);
    forall j | 0 <= j < |s| ensures r[j].id == s[j].id {
      if r[j] != s[j] {
        assert IsFirstMatch(s, idArg, j);
      }
    }
  }

  /** `delete` keeps the ids ascending: what remains is a subsequence. */
  lemma DeleteKeepsIdsAscending(s: seq<Expense>, idArg: string)
    requires IdsAscending(s)
    ensures IdsAscending(WithDeleted(s, idArg))
  {
    match FirstMatch(s, idArg)
    case None =>
    case Some(k) =>
      assert IsFirstMatch(s, idArg, k);
      var d := WithDeleted(s, idArg);
      forall i, j | 0 <= i < j < |d| ensures d[i].id < d[j].id {
        var i' := if i < k then i else i + 1;
        var j' := if j < k then j else j + 1;
        assert d[i] == s[i'] && d[j] == s[j'];
      }
  }

  /** The effect of a run of `add` commands, each with its own description, amount and clock. */
  datatype Entry = Entry(description: string, amount: string, at: Timestamp)

  function AddAll(s: seq<Expense>, entries: seq<Entry>): seq<Expense>
    decreases |entries|
  {
    if entries == [] then s
    else AddAll(WithAdded(s, entries[0].description, entries[0].amount, entries[0].at), entries[1..])
  }

  /** Adds to a collection numbered 1..n append records numbered n+1, n+2, ... in
      call order, and leave the earlier records alone. */
  lemma {:induction false} AddAllContinuesNumbering(s: seq<Expense>, entries: seq<Entry>)
    requires NumberedFromOne(s)
    ensures |AddAll(s, entries)| == |s| + |entries|
    ensures AddAll(s, entries)[..|s|] == s
    ensures forall i :: 0 <= i < |entries| ==>
      AddAll(s, entries)[|s| + i] == Expense(|s| + i + 1, entries[i].description, entries[i].amount, entries[i].at, entries[i].at)
    decreases |entries|
  {
    if entries != [] {
      var e := entries[0];
      var s' := WithAdded(s, e.description, e.amount, e.at);
      assert NextId(s) == |s| + 1;
      assert NumberedFromOne(s');
      AddAllContinuesNumbering(s', entries[1..]);
      var r := AddAll(s', entries[1..]);
      assert r[..|s'|][..|s|] == s;
      forall i | 0 <= i < |entries|
        ensures r[|s| + i] == Expense(|s| + i + 1, entries[i].description, entries[i].amount, entries[i].at, entries[i].at)
      {
        if i == 0 {
          assert r[|s|] == r[..|s'|][|s|] == s'[|s|];
        } else {
          assert entries[1..][i - 1] == entries[i];
        }
      }
    }
  }

  /** Adds to an empty collection hand out the ids 1..N in call order. */
  lemma AddsFromEmptyNumberFromOne(entries: seq<Entry>)
    ensures |AddAll([], entries)| == |entries|
    ensures NumberedFromOne(AddAll([], entries))
  {
    AddAllContinuesNumbering([], entries);
    var r := AddAll([], entries);
    forall i | 0 <= i < |r| ensures r[i].id == i + 1 {
      assert r[0 + i] == Expense(0 + i + 1, entries[i].description, entries[i].amount, entries[i].at, entries[i].at);
    }
  }

  /** Ids are reused: deleting the newest record of a collection numbered 1..n and then
      adding hands out the deleted id again, because the next id is computed from the
      last record rather than from every id ever issued. */
  lemma DeleteLastThenAddReusesId(s: seq<Expense>, description: string, amount: string, now: Timestamp)
    requires NumberedFromOne(s) && s != []
    ensures var deletedId := s[|s| - 1].id;
      var r := WithAdded(WithDeleted(s, IntToString(deletedId)), description, amount, now);
      |r| == |s| && r[|s| - 1].id == deletedId
  {
    var k := |s| - 1;
    var arg := IntToString(s[k].id);
    ParseIntRoundTrip(s[k].id);
    assert IsFirstMatch(s, arg, k);
    var d := WithDeleted(s, arg);
    assert |d| == k;
    assert k > 0 ==> d[k - 1] == s[k - 1];
  }

  // ---------------------------------------------------------------------------
  // Summaries

  /** `summary --month m`, with m written as PHP writes an int, totals the records of month m. */
  lemma SummaryOfMonthNumber(s: seq<Expense>, m: int)
    requires s != []
    ensures SummaryOf(s, Some(IntToString(m))) == Some(MonthTotal(s, Some(m)))
  {
    ParseIntRoundTrip(m);
  }

  /** The sum of the month totals for months 1 .. n. */
  function MonthsTotal(s: seq<Expense>, n: nat): int {
    if n == 0 then 0 else MonthsTotal(s, n - 1) + MonthTotal(s, Some(n))
  }

  lemma {:induction false} MonthsTotalOfLast(s: seq<Expense>, n: nat)
    requires s != []
    ensures var last := s[|s| - 1];
      MonthsTotal(s, n) == MonthsTotal(s[..|s| - 1], n) + (if last.createdAt.month <= n then IntCast(last.amount) else 0)
  {
    if n > 0 {
      MonthsTotalOfLast(s, n - 1);
    }
  }

  lemma {:induction false} MonthsTotalOfEmpty(n: nat)
    ensures MonthsTotal([], n) == 0
  {
    if n > 0 {
      MonthsTotalOfEmpty(n - 1);
    }
  }

  /** The twelve monthly totals add up to the total over all records. */
  lemma {:induction false} MonthlyTotalsAddUp(s: seq<Expense>)
    ensures MonthsTotal(s, 12) == Total(s)
  {
    if s != [] {
      MonthlyTotalsAddUp(s[..|s| - 1]);
      MonthsTotalOfLast(s, 12);
      assert Total(s) == Total(s[..|s| - 1]) + IntCast(s[|s| - 1].amount);
    } else {
      MonthsTotalOfEmpty(12);
    }
  }
}
