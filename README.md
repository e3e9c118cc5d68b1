# Expense tracker, modelled in Dafny

A model of `expense-tracker.php`, a single-file PHP 8 command-line tool that keeps a
list of expenses `{id, description, amount, createdAt, updatedAt}` in a JSON file and
offers five commands: `add`, `update`, `delete`, `list` and `summary`.

The project has two halves, as the program does:

- **The expense store** (`store.dfy`, `store_properties.dfy`). The collection is a
  `seq<Expense>` held in the field of class `ExpenseStore`. `Add`, `Update` and
  `Delete` change it in place, as the PHP functions change `$expenses`. `Update`,
  `Delete` and `Summary` walk it with loops, as the `foreach` loops do. `Add`, `Update`,
  `Delete` and `Summary` are each proved against a specification function that states
  what the operation promises: `WithAdded`, `WithUpdated`, `WithDeleted`, and
  `SummaryOf` (built on `Total` and `MonthTotal`). `List` states its result directly. The function contracts and the lemmas in `StoreProperties` prove the rest:
  - ids are handed out 1..N in call order;
  - every operation keeps ids ascending, so they stay unique;
  - deleting the newest record lets its id be handed out again;
  - the twelve monthly totals add up to the grand total.
- **The command dispatcher** (`cli.dfy`). `Parse` is the pure reading of the argv
  `switch`. The fixed slots of `add`, `delete` and `summary` are read whatever the
  flag names are, and PHP truthiness treats `""` and `"0"` as missing.
  `ScanUpdateFlags` is the forward `foreach` scan of `update`, where the last
  occurrence of a flag wins. It is proved equal to a backward search
  (`ValueAfterLast`), and the contract of `ValueAfterLast` states the "value after the
  last occurrence" rule directly.

`app.dfy` joins the two halves. `Execute` gives the effect of one invocation: the
report, the exit status, and the collection written back to the file (if any). `Run`
is the same invocation done with the dispatcher method and the store object. `Run` is
proved equal to `Execute`. `scenarios.dfy` proves the outcome of whole invocations
on small collections.

PHP's own rules live in `php.dfy`:
- truthiness of strings;
- `$argv[i] ?? null`;
- the `(int)` cast of a string (`IntCast`);
- loose `==` between the stored int id (or month) and a command-line string
  (`LooselyEquals`: the string must be an optional sign followed by digits spelling
  that integer);
- how an int is written out (`IntToString`).

The model follows the code as written:

- A new id is the LAST record's id + 1 (expense-tracker.php:103-109), not one more
  than the largest id. `StoreProperties.DeleteLastThenAddReusesId` proves that
  deleting the newest record and then adding hands out the deleted id again. Ids
  still stay unique: see `StoreProperties.AddKeepsIdsAscending`, `UpdateKeepsIds` and
  `DeleteKeepsIdsAscending`.
- The usage guide (expense-tracker.php:235) shows `add --description "<name>" --amount
  <value>`. The code reads argv slots 3 and 5 and never looks at slots 2 and 4.
- The usage guide (expense-tracker.php:242) offers `summary --month <number>` for "a
  specific month (of current year)". The code (expense-tracker.php:219-220) compares
  only the month of `createdAt`, so records of that month in ANY year are counted.
  This is why `Timestamp` carries a month and no year: the code never reads one.
- The code takes any string in slot 3 as the month. A string that names no month
  gives a total of 0.

## Model

| member | source | states |
|---|---|---|
| `Php.ParseIntRoundTrip` | expense-tracker.php:130 | An id printed by the program and given back on the command line matches exactly the record it was printed for, and no other id. |
| `Php.CastAgreesWithParse` | expense-tracker.php:220-221 | For a string that is a plain integer, the `(int)` cast and the loose `==` read the same integer. |
| `Php.IntCastRoundTrip` | expense-tracker.php:227 | An amount written as a decimal integer is summed at its face value. |
| `Php.NatDigits` | expense-tracker.php:121 | The decimal digits a non-negative id is printed with read back as that id. |
| `Php.LeadingDigits` | expense-tracker.php:227 | The `(int)` cast reads the longest prefix of digits, and the character after it is not a digit. |
| `Php.SkipSpace` | expense-tracker.php:221 | The `(int)` cast skips exactly the leading whitespace. |
| `Php.Truthy` | expense-tracker.php:17 | Definition: a string is truthy unless it is `""` or `"0"`, so `!$x` holds of exactly those two. |
| `Php.TruthyOrNull` | expense-tracker.php:42 | Definition: a string-or-null value is truthy when it is a truthy string; null is falsy. |
| `Php.Arg` | expense-tracker.php:14-15 | Definition: `$argv[i] ?? null` is the i-th token when there is one, and null past the end. |
| `Php.IntToString` | expense-tracker.php:121 | Definition: how an int is written out (`"$newId"`): a minus sign for a negative value, then the decimal digits of its magnitude. |
| `Php.IntCast` | expense-tracker.php:227 | Definition: the `(int)` cast skips leading whitespace, reads an optional sign and the longest run of digits after it, and gives 0 when there are none. |
| `Php.ParseInt` | expense-tracker.php:220 | Definition: the integer a string spells when the whole string is an optional sign followed by at least one digit; no integer otherwise. |
| `Php.LooselyEquals` | expense-tracker.php:130 | Definition: loose `==` between a stored int and a command-line string holds when the string spells that int. |
| `Store.NextId` | expense-tracker.php:103-109 | Definition: the id `add` hands out is 1 for an empty collection, otherwise the last record's id + 1. |
| `Store.WithAdded` | expense-tracker.php:111-119 | Definition: `add` appends a record with the next id, the given description and amount, and both timestamps `now`; earlier records are kept. |
| `Store.Total` | expense-tracker.php:226-228 | Definition: the unfiltered total is the sum of the `(int)` values of all amounts. |
| `Store.SummaryOf` | expense-tracker.php:212-228 | Definition: `summary` reports nothing for an empty collection. Otherwise it reports the total of all records, or, given a month argument, of the records whose month that argument spells. |
| `App.Perform` | expense-tracker.php:21-73 | Definition: the store's side of each command. Add always saves. Update and delete save only when an id matches, and otherwise report not found with status 0. List and summary save nothing and exit 1 on an empty collection. |
| `Store.Matches` | expense-tracker.php:130 | Definition: a record matches an id argument when its int id loosely equals the argument string, as at lines 130 and 160. |
| `Store.Patched` | expense-tracker.php:131-139 | Definition: a record after the patch: description and amount overwritten only when given, `updatedAt` set to `now`. |
| `Store.FirstMatch` | expense-tracker.php:129-130 | Finds the position of the FIRST record whose id equals the argument, or says that no record matches. |
| `Store.WithUpdated` | expense-tracker.php:129-143 | Update keeps the length and changes only the first matching record. In it, `id` and `createdAt` stay the same, `updatedAt` becomes `now`, and `description` and `amount` are overwritten only when given (non-null). With no match nothing changes. |
| `Store.WithDeleted` | expense-tracker.php:159-168 | Delete removes exactly the first matching record. The others keep their relative order at closed-up positions, and the multiset drops exactly that record. With no match nothing changes. |
| `Store.MonthTotal` | expense-tracker.php:217-223 | The month-filtered total is 0 when no record was created in the given month (always so when the argument is not an integer), and it is the full total when every record was. |
| `Store.ExpenseStore.constructor` | expense-tracker.php:102 | The store starts with the collection as loaded. |
| `Store.ExpenseStore.Add` | expense-tracker.php:100-122 | The new id is `NextId` of the old collection, and the collection becomes `WithAdded` of the old one. |
| `Store.ExpenseStore.Update` | expense-tracker.php:124-153 | Reports found exactly when some record's id matches. The collection becomes `WithUpdated` of the old one, so it is unchanged when nothing matches. |
| `Store.ExpenseStore.Delete` | expense-tracker.php:155-174 | Reports found exactly when some record's id matches. The collection becomes `WithDeleted` of the old one (unset, then reindex). |
| `Store.ExpenseStore.List` | expense-tracker.php:176-192 | An empty collection yields no listing. Otherwise every record is listed in stored order. |
| `Store.ExpenseStore.Summary` | expense-tracker.php:194-231 | An empty collection yields no total. Otherwise the loops give the sum of `(int)` amounts, over all records or over those whose month equals the argument. |
| `StoreProperties.AddKeepsIdsAscending` | expense-tracker.php:103-119 | Add keeps ids strictly ascending along the collection: the new id is above every earlier one. |
| `StoreProperties.UpdateKeepsIds` | expense-tracker.php:129-143 | Update leaves every record's id where it was, so ascending ids stay ascending. |
| `StoreProperties.DeleteKeepsIdsAscending` | expense-tracker.php:159-168 | Delete keeps ids strictly ascending, because what remains is the old collection with one record taken out. |
| `StoreProperties.AddAllContinuesNumbering` | expense-tracker.php:103-119 | Adds to a collection numbered 1..n append records n+1, n+2, ... in call order, each with its own description, amount and timestamps. Earlier records are untouched. |
| `StoreProperties.AddsFromEmptyNumberFromOne` | expense-tracker.php:105-108 | Repeated adds from an empty collection hand out the ids 1..N in order. |
| `StoreProperties.DeleteLastThenAddReusesId` | expense-tracker.php:108 | Deleting the newest record of a collection numbered 1..n and then adding reuses the deleted id. |
| `StoreProperties.MonthsTotalOfLast` | expense-tracker.php:218-223 | The monthly totals for months 1..n gain the last record's amount exactly when its month is at most n. |
| `StoreProperties.MonthsTotalOfEmpty` | expense-tracker.php:218-223 | The monthly totals of an empty collection are 0. |
| `StoreProperties.MonthlyTotalsAddUp` | expense-tracker.php:217-228 | The twelve `summary --month m` totals add up to the unfiltered `summary` total. |
| `StoreProperties.SummaryOfMonthNumber` | expense-tracker.php:217-228 | For a non-empty collection, `summary --month m` with m written as a plain integer totals exactly the records created in month m. |
| `Cli.ValueAfterLast` | expense-tracker.php:28-40 | A flag's captured value is null when the flag does not occur. Otherwise it is the token after its LAST occurrence, or null when that occurrence is the final token. |
| `Cli.FlagValue` | expense-tracker.php:28-40 | Definition: the value the scan over the whole argument vector leaves for a flag, which is `ValueAfterLast` over every token. |
| `Cli.Parse` | expense-tracker.php:6-80 | Fewer than two tokens is an error. `add` is accepted only with truthy slots 3 and 5, and `update` only with a truthy id and a truthy description or amount. `delete` needs a truthy slot 3. `list` is always accepted and flags extra arguments. `summary` is refused above four tokens and otherwise takes slot 3 as the month. Any other command is unknown. |
| `Cli.ScanUpdateFlags` | expense-tracker.php:28-40 | The forward scan leaves each of `--id`, `--description` and `--amount` holding the value after its last occurrence. |
| `Cli.Dispatch` | expense-tracker.php:6-80 | The dispatcher as written agrees with `Parse` on every argument vector. |
| `App.Execute` | expense-tracker.php:6-80 | A usage error exits 1 without saving. Only add, and update or delete of an existing id, save, and those exit 0. Exit status 1 means a usage error, or list/summary of an empty collection. A listing or total appears only for a non-empty collection. |
| `App.Run` | expense-tracker.php:6-80 | The invocation run with the store object gives exactly the outcome of `Execute`. |
| `Scenarios.AddToEmptyStore` | expense-tracker.php:100-121 | `add --description Lunch --amount 20` on an empty collection saves one record with id 1 and reports id 1. |
| `Scenarios.UpdateAmountParses` | expense-tracker.php:28-45 | `update --id <id> --amount <amount>`, with both values truthy and neither a flag name, is dispatched as an update of the amount alone. |
| `Scenarios.PatchAmountOfOnlyRecord` | expense-tracker.php:129-149 | Updating only the amount of the one record with id 1 saves that record with the new amount and a fresh `updatedAt`, and nothing else changed. |
| `Scenarios.UpdateAmountOnly` | expense-tracker.php:129-149 | `update --id 1 --amount 30` changes only the amount and `updatedAt` of record 1. |
| `Scenarios.DeleteOnlyRecordThenList` | expense-tracker.php:159-182 | Deleting the only record saves an empty collection, and `list` on it then reports no expenses with status 1. |
| `Scenarios.SummaryOfOneMonth` | expense-tracker.php:217-224 | With a March and an April record, `summary --month 3` totals only the March one. |
| `Scenarios.MarchTotal` | expense-tracker.php:218-223 | Of a March and an April record, the month-3 total is the March record's `(int)` amount. |
| `Scenarios.UpdateWithoutValueRefused` | expense-tracker.php:42-46 | `update --id 99` with neither a description nor an amount is refused with status 1, and nothing is saved. |
| `Scenarios.UpdateMissingId` | expense-tracker.php:147-152 | `update --id 99 --amount 5` on a collection without id 99 reports not found, exits 0 and saves nothing. |

## Left out

- Persistence (`loadExpenses` / `saveExpenses`, expense-tracker.php:82-98). This covers the file, `json_decode` with its silent fallback to an empty list, and `json_encode`. The loaded collection is a parameter. `Outcome.written` is the collection that would be saved, or `None`.
- The clock (`date('c')`, expense-tracker.php:4) is the parameter `now`.
- Date parsing (`strtotime`, `date('m')`, `date('Y-m-d')`, expense-tracker.php:187 and 219). The month of `createdAt` is a field of `Timestamp`, in 1..12. The calendar day shown by `list` is not modelled.
- `Php.LooselyEquals` accepts only an optional sign followed by digits. PHP 8's `==` also accepts other numeric strings, such as `" 1"`, `"1.0"` or `"1e0"`. The model reports "not found" (or a zero month total) where PHP would match.
- `Php.IntCast` reads leading whitespace, a sign and digits. PHP 8 also reads exponent notation (`"1e3"` is 1000) and saturates at the 64-bit bounds. Neither is modelled.
- Integers are unbounded. The 64-bit overflow of `$newId` or of `$total` (PHP turns them into floats) is not modelled.
- The stored fields have fixed types: `id` is an int, and `amount` and the timestamps are strings. A hand-edited file with other JSON types is not modelled.
- Presentation: the echo texts, the column padding of `list`, the `cliGuide` text (expense-tracker.php:233-243) and the `$months` name lookup (expense-tracker.php:197-210, 224). The lookup prints an empty name with a warning for a month outside 1..12 or one spelled "03". The model keeps only which report is made.
- Concurrent invocations racing on the file: there is no locking to model.
