/** The command dispatcher: maps the argument vector (`$argv`, script name first) to a
    command for the store, or to the usage error that stops the invocation. */
module Cli {
  import opened Wrappers
  import opened Php

  /** A command the store carries out, with the argument strings it was given. */
  datatype Command =
    | Add(description: string, amount: string)
    | Update(id: string, newDescription: Option<string>, newAmount: Option<string>)
    | Delete(id: string)
    | List(extraArgs: bool)
    | Summary(month: Option<string>)

  /** Why an invocation is refused before the store is touched. */
  datatype Usage =
    | NoCommand
    | AddUsage
    | UpdateUsage
    | DeleteUsage
    | SummaryUsage
    | UnknownCommand(name: string)

  const IdFlag := "--id"
  const DescriptionFlag := "--description"
  const AmountFlag := "--amount"

  /** The value a left-to-right scan of argv[..n] captures for `flag`: the token after
      the last occurrence of `flag`, or null when it has none or that token is missing. */
  function ValueAfterLast(argv: seq<string>, flag: string, n: nat): (v: Option<string>)
    requires n <= |argv|
    ensures (forall k :: 0 <= k < n ==> argv[k] != flag) ==> v == None
    ensures forall k :: 0 <= k < n && argv[k] == flag && (forall j :: k < j < n ==> argv[j] != flag) ==>
      v == Arg(argv, k + 1)
  {
    if n == 0 then None
    else if argv[n - 1] == flag then Arg(argv, n)
    else ValueAfterLast(argv, flag, n - 1)
  }

  /** The value `update` captures for `flag` from the whole argument vector. */
  function FlagValue(argv: seq<string>, flag: string): Option<string> {
    ValueAfterLast(argv, flag, |argv|)
  }

  /** The pure reading of the dispatcher. `add`, `delete` and `summary` read fixed
      slots whatever the flag names there are; `update` takes the value after the last
      occurrence of each flag; an empty string and "0" count as missing. */
  function Parse(argv: seq<string>): (r: Result<Command, Usage>)
    ensures |argv| < 2 <==> r == Failure(NoCommand)
    ensures |argv| >= 2 && argv[1] == "add" ==>
      if |argv| > 5 && Truthy(argv[3]) && Truthy(argv[5]) then r == Success(Add(argv[3], argv[5]))
      else r == Failure(AddUsage)
    ensures |argv| >= 2 && argv[1] == "update" ==>
      var id, description, amount := FlagValue(argv, IdFlag), FlagValue(argv, DescriptionFlag), FlagValue(argv, AmountFlag);
      if TruthyOrNull(id) && (TruthyOrNull(description) || TruthyOrNull(amount)) then
        r == Success(Update(id.value, description, amount))
      else
        r == Failure(UpdateUsage)
    ensures |argv| >= 2 && argv[1] == "delete" ==>
      if |argv| > 3 && Truthy(argv[3]) then r == Success(Delete(argv[3])) else r == Failure(DeleteUsage)
    ensures |argv| >= 2 && argv[1] == "list" ==> r == Success(List(|argv| > 2))
    ensures |argv| >= 2 && argv[1] == "summary" ==>
      if |argv| > 4 then r == Failure(SummaryUsage)
      else r == Success(Summary(if |argv| == 4 then Some(argv[3]) else None))
    ensures |argv| >= 2 && argv[1] !in ["add", "update", "delete", "list", "summary"] ==>
      r == Failure(UnknownCommand(argv[1]))
  {
    if |argv| < 2 then
      Failure(NoCommand)
    else if argv[1] == "add" then
      var description, amount := Arg(argv, 3), Arg(argv, 5);
      if !TruthyOrNull(description) || !TruthyOrNull(amount) then Failure(AddUsage)
      else Success(Add(description.value, amount.value))
    else if argv[1] == "update" then
      var id, description, amount := FlagValue(argv, IdFlag), FlagValue(argv, DescriptionFlag), FlagValue(argv, AmountFlag);
      if !TruthyOrNull(id) || (!TruthyOrNull(description) && !TruthyOrNull(amount)) then Failure(UpdateUsage)
      else Success(Update(id.value, description, amount))
    else if argv[1] == "delete" then
      var id := Arg(argv, 3);
      if !TruthyOrNull(id) then Failure(DeleteUsage) else Success(Delete(id.value))
    else if argv[1] == "list" then
      Success(List(|argv| > 2))
    else if argv[1] == "summary" then
      var month := Arg(argv, 3);
      if |argv| > 4 then Failure(SummaryUsage) else Success(Summary(month))
    else
      Failure(UnknownCommand(argv[1]))
  }

  /** The flag scan of `update`: every token is compared with the three flags and the
      token after it (null past the end) overwrites that flag's value, so the last
      occurrence wins. */
  method ScanUpdateFlags(argv: seq<string>) returns (id: Option<string>, description: Option<string>, amount: Option<string>)
    ensures id == FlagValue(argv, IdFlag)
    ensures description == FlagValue(argv, DescriptionFlag)
    ensures amount == FlagValue(argv, AmountFlag)
  {
    id, description, amount := None, None, None;
    for i := 0 to |argv|
      invariant id == ValueAfterLast(argv, IdFlag, i)
      invariant description == ValueAfterLast(argv, DescriptionFlag, i)
      invariant amount == ValueAfterLast(argv, AmountFlag, i)
    {
      var next := if i + 1 < |argv| then Some(argv[i + 1]) else None;
      if argv[i] == IdFlag {
        id := next;
      } else if argv[i] == DescriptionFlag {
        description := next;
      } else if argv[i] == AmountFlag {
        amount := next;
      }
    }
  }

  /** The dispatcher as the program runs it. */
  method Dispatch(argv: seq<string>) returns (r: Result<Command, Usage>)
    ensures r == Parse(argv)
  {
    if |argv| < 2 {
      return Failure(NoCommand);
    }
    var command := argv[1];
    if command == "add" {
      var description := if |argv| > 3 then Some(argv[3]) else None;
      var amount := if |argv| > 5 then Some(argv[5]) else None;
      if !TruthyOrNull(description) || !TruthyOrNull(amount) {
        return Failure(AddUsage);
      }
      r := Success(Add(description.value, amount.value));
    } else if command == "update" {
      var id, description, amount := ScanUpdateFlags(argv);
      if !TruthyOrNull(id) || (!TruthyOrNull(description) && !TruthyOrNull(amount)) {
        return Failure(UpdateUsage);
      }
      r := Success(Update(id.value, description, amount));
    } else if command == "delete" {
      var id := if |argv| > 3 then Some(argv[3]) else None;
      if !TruthyOrNull(id) {
        return Failure(DeleteUsage);
      }
      r := Success(Delete(id.value));
    } else if command == "list" {
      r := Success(List(|argv| > 2));
    } else if command == "summary" {
      var month := if |argv| > 3 then Some(argv[3]) else None;
      if |argv| > 4 {
        return Failure(SummaryUsage);
      }
      r := Success(Summary(month));
    } else {
      r := Failure(UnknownCommand(command));
    }
  }
}
