# Family expense bot — a Dafny model

This project models the core of a Telegram bot with which a family records
expenses and income in a shared spreadsheet (`main.py`). The model covers these parts:

- **Entry capture.** A user types an amount, picks a category from the fixed
  two-level taxonomy (`CATEGORY_MAP`), and picks a subcategory when the
  category has any. One signed row `[timestamp, name, value, category,
  subcategory]` is then appended to the ledger worksheet. Income ("прихід")
  is stored positive and every other category negative.
- **The limit checker.** Before the row is appended, the bot sums the
  category's spending since the start of the month. It reads the "Ліміти"
  worksheet as a dictionary in which a later row overrides an earlier one,
  and warns when the entry takes the month's spending strictly over a
  non-zero limit.
- **The report aggregator.** After `/report`, the next message chooses a
  period: "з початку місяця" (since the month start), "від зп" (since the last
  recorded income) or "від YYYY-MM-DD". The rows dated in the period are
  summed into income and into per-(category, subcategory) expense totals. The
  categories are sorted, and the balance is income plus all expenses.
- **The conversation state.** This is the per-user pending entry, the
  per-user "waiting for a period" flag and the per-user time of the last
  salary. It also covers `/salary` and `/setlimit`.

How the model is laid out:

- **Decisions are pure functions.** `Dialogue.CaptureStep`,
  `Dialogue.ChoosePeriod`, `Limits.MonthSpend`, `Limits.LimitsTable`,
  `Limits.LimitCheck` and `Reporting.ReportOf` take the decisions. The
  properties are proved about these functions.
- **State lives in a class.** The process-wide dictionaries and the two
  worksheets are fields of the class `FamilyBot.Bot`. Its methods apply the
  effects, and their `ensures` clauses tie the new state to the pure
  functions.
- **Loops are methods.** The two sheet scans that are loops in the source,
  `get_spent_in_category_this_month` and `send_report`, are methods with
  loop invariants. Each method is proved equal to its specification function.

The Python library calls the bot relies on are parameters of the model,
collected in the datatype `Ledger.Env`:

- `lower().strip()`;
- `strptime` with the two formats;
- `float()`;
- `strftime`;
- the conversion of a float to a sheet cell.

Lemmas that need a parse to undo the matching format take that as a
precondition about the one value written (`Ledger.TimestampReadsBack`,
`Ledger.NumberReadsBack`). These string operations are modelled concretely:

- the amount recogniser `text.replace(".", "", 1).isdigit()`;
- `float()` of a text that recogniser accepts;
- `str.startswith` and `replace(old, "")`, which read "від YYYY-MM-DD";
- `split(" ", 2)`, which `/setlimit` uses.

## Two behaviours of the code worth knowing

- **Report order.** The report's categories are sorted by their signed
  total with `reverse=True` (`main.py:91`), not by the size of the expense.
  Expense totals are negative, so the smallest expense comes first and the
  largest last. `Reporting.ReportSectionsOrder` states this order.
- **Month start.** Month-to-date spending is counted from
  `now.replace(day=1)` (`main.py:56`), which keeps the current time of day
  rather than starting at 00:00. A row on the first of the month written
  earlier in the day than "now" is therefore not counted.
  `Clock.FirstDayEarlierInDayIsBeforeMonthStart` and
  `Limits.FirstDayCommitNotCounted` state this.

## Model

| member | source | states |
|---|---|---|
| Taxonomy.Subcategories | main.py:12-33 | A name has a subcategory list exactly when it is one of the twenty keys of the taxonomy, in their declared order |
| Taxonomy.NamesDistinct | main.py:12-33 | The twenty category names are pairwise distinct |
| Taxonomy.IncomeHasNoSubcategories | main.py:32 | "прихід" is a key with an empty subcategory list, so an income is committed straight from the category choice |
| Taxonomy.CategoriesWithSubcategories | main.py:18-26 | Exactly "авто", "здоров'я", "стрільба" and "навчання" have subcategories |
| Taxonomy.NoCategoryIsAnAmount | main.py:12-33 | No category name passes the amount recogniser, so the capture dialogue never confuses the two |
| Text.RemoveFirst | main.py:146 | `replace(".", "", 1)` shortens a text holding a '.' by one character, and leaves a text with no '.' as it was |
| Text.RemoveFirstCount | main.py:146 | `replace(".", "", 1)` leaves one '.' fewer than there were, and none when there were none |
| Text.RemoveFirstSkips | main.py:146 | `replace(c, "", 1)` passes over a prefix free of `c` and removes from what follows it |
| Text.AllDigitsAfterRemoveFirst | main.py:146 | After `replace(".", "", 1)` only digits remain iff the text had at most one '.' and every other character is a digit |
| Text.IsAmountText | main.py:146 | The recogniser `text.replace(".", "", 1).isdigit()`, defined from Text.RemoveFirst and Text.IsDigits; Text.AmountTextIff characterises it independently |
| Text.AmountTextIff | main.py:146 | A text is accepted as an amount iff it has at most one '.', at least one other character, and only digits besides the '.' |
| Text.NotAmountByFirstChar | main.py:146 | A text that starts with a character other than a digit or '.' (such as "-5") is not an amount |
| Text.DigitsAreAmount | main.py:141-146 | A non-empty string of digits is accepted, and `float()` reads it as the number the digits denote |
| Text.DigitsDotDigitsIsAmount | main.py:146 | Digits, one '.', digits, with at least one digit in all, are accepted as an amount |
| Text.DigitsDotDigits | main.py:141-144 | `float()` of digits `a`, '.', digits `b` is the value of `a` plus the value of `b` scaled down by ten to the number of digits in `b` |
| Text.DecimalValueAtDot | main.py:141-144 | `float()` of an accepted amount whose first '.' is at `k` is read from the digits on both sides of `k` |
| Text.ThousandIsAmount | main.py:141-146 | "1000" is accepted and read as 1000 |
| Text.DecimalWithDotIsAmount | main.py:141-146 | "250.5" is accepted and read as 250.5 |
| Text.FractionIsAmount | main.py:146 | ".5" is accepted: the digits may all follow the '.' |
| Text.ZeroIsAmount | main.py:193 | "0", the amount `/salary` stores, is accepted and read as 0 |
| Text.AcceptedAmountExamples | main.py:141-146 | "1000", "250.5", ".5" and "0" are accepted as amounts, and `float()` reads the first two and the last as 1000, 250.5 and 0 |
| Text.RejectedAmountExamples | main.py:146 | "-5", "1.2.3", "" and "." are rejected |
| Text.DecimalValue | main.py:141-144 | `float()` of an accepted amount is a non-negative number, and equals its digits' value when there is no '.' |
| Text.StartsWith | main.py:121 | `text.startswith(prefix)`: the prefix fits and the text's first characters are the prefix; Text.RemoveAllPrefix uses it for "від " |
| Text.RemoveAll | main.py:123 | `s.replace(p, "")` removes the occurrences of `p` left to right and never lengthens the text; Text.RemoveAllAbsent and Text.RemoveAllPrefix pin down the result |
| Text.RemoveAllPrefix | main.py:123 | `("від " + d).replace("від ", "")` is `d` when `d` does not itself contain "від " |
| Text.RemoveAllAbsent | main.py:123 | `replace(p, "")` leaves a text in which `p` does not occur as it was |
| Text.SplitOnce | main.py:198 | Splitting at the first separator gives two parts iff the separator occurs, the first part holds none, and the parts join back to the text |
| Text.SplitTwice | main.py:198 | `split(" ", 2)` gives one to three parts, no space in any part but the last, and the parts join back to the text with spaces |
| Text.SplitTwiceThreeParts | main.py:198-199 | `split(" ", 2)` gives three parts exactly when the text has two or more spaces |
| Text.SplitOnceOfJoin | main.py:198 | Splitting `a + c + b` at `c`, when `a` holds no `c`, gives back `a` and `b` |
| Text.SplitTwiceOfJoin | main.py:198-199 | `"/setlimit c v".split(" ", 2)` is `["/setlimit", c, v]` when `c` has no space, whatever `v` holds |
| Clock.Before | main.py:56 | Python's `<` on datetimes, compared field by field from the year down to the microsecond; Clock.BeforeIsStrictTotalOrder states it is a strict total order |
| Clock.AtOrBefore | main.py:72 | Python's `<=` on datetimes holds iff the first is strictly before the second or equal to it |
| Clock.BeforeIsStrictTotalOrder | main.py:56 | Comparing datetimes is a strict total order |
| Clock.MonthStart | main.py:56 | `now.replace(day=1)` changes only the day, keeps the time of day, and is not after `now` |
| Clock.Minute | main.py:157 | A timestamp cut to the minute is not after the moment, and is strictly before it iff there were seconds or microseconds |
| Clock.FirstDayEarlierInDayIsBeforeMonthStart | main.py:56 | On the first of the month, a time earlier in the day than now falls before the month start |
| Ledger.DataRows | main.py:49 | `get_all_values()[1:]` drops the header row and keeps every other row in order |
| Ledger.SignedValue | main.py:155-156 | A positive amount is stored positive iff the category is "прихід", and the stored value always has the amount's magnitude |
| Ledger.CommitRow | main.py:154-169 | The appended row has five cells: the timestamp, the user's name, the signed value, the category and the subcategory |
| Limits.RowSpend | main.py:51-62 | A row adds nothing or the magnitude of its negative amount, never a negative number; a row of the category with at least four cells, a parseable timestamp not before the month start and a parseable negative amount adds exactly that magnitude |
| Limits.MonthSpend | main.py:48-63 | The month-to-date spend is never negative |
| Limits.MonthSpendAppend | main.py:51 | Scanning one more row adds exactly that row's contribution |
| Limits.SpentInCategoryThisMonth | main.py:48-63 | The loop returns the month-to-date spend of the category over the sheet's data rows, counted from `now.replace(day=1)` |
| Limits.SkippedRowAddsNothing | main.py:52-62 | A short row, another category, an unparseable timestamp or amount, an earlier date or a non-negative amount leaves the spend unchanged |
| Limits.CommittedExpenseCounts | main.py:154-169 | An expense row read back as written and dated from the month start raises its category's spend by exactly the amount entered |
| Limits.FirstDayCommitNotCounted | main.py:154-159 | On the first of the month, an expense committed at a moment with seconds past the minute is written before the month start and is not counted |
| Limits.LimitsTable | main.py:160 | The dict comprehension over the limits rows, None where `float()` raises; Limits.LimitsTableFails and Limits.LastRowWins state when it fails and which limit each key gets |
| Limits.LimitsTableFails | main.py:160 | Reading the limits fails exactly when some row of two or more cells holds a limit `float()` rejects |
| Limits.LastRowWins | main.py:160-161 | A category has a limit iff some row of two or more cells names it, and the limit is the one in the last such row |
| Limits.AppendedLimitOverrides | main.py:160-161 | A row appended by `/setlimit` overrides every earlier limit of its category and leaves the others alone |
| Limits.LimitCheck | main.py:162-164 | A warning is given iff the category has a non-zero limit, is not income, and the spend plus the entry is strictly over the limit; it carries the limit and that sum |
| Limits.LimitBoundary | main.py:164 | Reaching the limit exactly does not warn, and going 0.01 over it does |
| Limits.WarningIffOverLimitAfterCommit | main.py:158-169 | The warning fires iff the month-to-date spend counting the committed row goes over a non-zero limit |
| Groups.FindSubNone | main.py:79-80 | A subcategory lookup fails iff no entry has that subcategory |
| Groups.FindGroupNone | main.py:79 | A category lookup fails iff no entry has that category |
| Groups.AddExpense | main.py:79-80 | `setdefault(category, {}).setdefault(sub, 0)` then `+=`: the number of categories is kept when the category is present, and grows by one when it is new |
| Groups.AddToSubs | main.py:79-80 | Adding to a subcategory keeps the number of entries, and a new subcategory adds one |
| Groups.FindSubAfterAdd | main.py:79-80 | After `setdefault(sub, 0)` and `+= amount`, that subcategory holds its old total plus the amount (or the amount), and the others are unchanged |
| Groups.AddToSubsKeepsKeysDistinct | main.py:79-80 | Subcategory keys that were distinct stay distinct |
| Groups.AddToSubsKeepsOrder | main.py:79-80 | A new subcategory goes last and adding to an existing one moves no key, as a Python dictionary keeps insertion order |
| Groups.SubsTotalAfterAdd | main.py:79-80 | Adding an amount raises the category's total by that amount |
| Groups.FindGroupAfterAdd | main.py:79 | Adding under a category leaves every other category's entries unchanged |
| Groups.LookupAfterAdd | main.py:79-80 | The pair (category, subcategory) added to holds its old sum plus the amount, and every other pair is unchanged |
| Groups.AddExpenseKeepsCategoriesDistinct | main.py:79 | Category keys that were distinct stay distinct |
| Groups.AddExpenseKeepsEntriesWellFormed | main.py:79-80 | Every category keeps distinct subcategory keys |
| Groups.AddExpenseKeepsWellFormed | main.py:79-80 | Category keys stay distinct, each with distinct subcategory keys |
| Groups.AddExpenseKeepsOrder | main.py:79 | A new category goes last and adding under an existing one moves no category, so equal totals are reported in first-seen order |
| Groups.GroupTotal | main.py:91-92 | `sum(subcats.values())`, the signed total the report sorts by; Groups.SubsTotalAfterAdd states how adding changes it |
| Groups.TotalOf | main.py:102 | The sum over all categories of their totals; Groups.TotalOfAfterAdd states how adding changes it |
| Groups.TotalOfAfterAdd | main.py:102 | Adding an amount raises the sum over all categories by that amount |
| Groups.LookupFindsStored | main.py:79-80 | In a well-formed dictionary, looking up a stored pair finds its stored total |
| Groups.LookupIsStored | main.py:79-80 | A lookup that succeeds found an entry actually stored |
| Groups.FindSubStored | main.py:80 | With distinct keys, looking up a stored subcategory finds its stored total |
| Groups.FindSubIsStored | main.py:80 | A subcategory lookup that succeeds found an entry actually stored |
| Sorting.InsertByTotal | main.py:91 | Insertion adds exactly the one group to the sequence |
| Sorting.InsertByTotalKeepsOrder | main.py:91 | Inserting into a sequence ordered by total, largest first, keeps it ordered |
| Sorting.SortByTotal | main.py:91 | The sort is a permutation of the categories |
| Sorting.SortByTotalIsSorted | main.py:91 | The sorted categories run from the largest signed total down |
| Sorting.InsertByTotalBounded | main.py:91 | Inserting a group keeps every total under a bound that all of them were under |
| Sorting.InsertByTotalIsStable | main.py:91 | Among the groups with any one total, insertion leaves them in the order of the group put in front of the others, as a stable sort does |
| Sorting.SortByTotalIsStable | main.py:91 | Categories with equal totals keep their first-seen order, as Python's stable `sorted` does |
| Reporting.EntryOf | main.py:69-80 | A row is kept iff it has at least four cells, a parseable timestamp within [start, end] (both ends included) and a parseable amount; the entry carries that amount, the fourth cell as category and the fifth cell, or "" without one, as subcategory |
| Reporting.Entries | main.py:68-83 | The kept rows' entries, in sheet order, never more than the data rows |
| Reporting.EntriesAreKeptRows | main.py:68-82 | Every entry comes from some data row that yields it, and every data row that yields an entry contributes it |
| Reporting.EntriesAppend | main.py:68-83 | Reading one more row adds its entry, if it has one, at the end |
| Reporting.Accumulate | main.py:76-80 | One loop body: an income raises `income` by its amount and leaves the expense sum alone; an expense leaves `income` alone and raises the expense sum by its amount |
| Reporting.TallyOf | main.py:67-80 | The accumulators after the loop over the entries, from `income = 0, expenses = {}`; Reporting.TallyIncome, Reporting.TallyTotal and Reporting.TallyLookup state their contents |
| Reporting.TallyOfAppend | main.py:76-80 | One more entry changes the accumulators as the loop body does |
| Reporting.TallyStep | main.py:68-83 | One loop iteration turns the accumulators for the rows read so far into those for one row more |
| Reporting.SendReport | main.py:65-103 | The loop computes the report of the sheet's data rows for [start, end] |
| Reporting.NetSumSplits | main.py:102 | The sum of all amounts is the income sum plus the expense sum |
| Reporting.TallyIncome | main.py:76-77 | The `income` accumulator is the sum of the income amounts read |
| Reporting.TallyTotal | main.py:76-80 | The totals in the `expenses` dictionary add up to the sum of the expense amounts read |
| Reporting.TallyWellFormed | main.py:76-80 | The expenses dictionary never holds "прихід", and its keys are distinct at both levels |
| Reporting.TallyLookup | main.py:79-80 | Each expense pair maps to the sum of its amounts in the period, and is present iff some kept row names it |
| Reporting.ReportIncomeAndBalance | main.py:65-102 | Income is the sum of the income amounts in the period; the balance is the sum of all amounts in it, which is income plus the expense sum |
| Reporting.ReportSectionsSound | main.py:91-99 | Every report line is an expense pair dated in the period and carries the sum of its amounts |
| Reporting.ReportSectionsComplete | main.py:91-99 | Every expense pair dated in the period has its line in the report |
| Reporting.ReportSectionsOrder | main.py:91 | Sections run from the largest signed total down, and sections with equal totals keep the dictionary's order |
| Reporting.ReportOf | main.py:65-103 | The report covers exactly [start, end], and its sections are the categories of the expenses dictionary, each once (a permutation) |
| Reporting.Lines | main.py:96-99 | The lines printed under a category are exactly its subcategories with a non-empty name |
| Reporting.ExampleEntries | main.py:68-80 | An expense and an income row dated in April 2025 are both kept, in order, with subcategory "" |
| Reporting.ExampleTally | main.py:76-80 | That expense and that income give income 5000 and one dictionary entry "продукти" → "" → -100 |
| Reporting.ExampleReport | main.py:65-103 | An expense of 100 on "продукти" and an income of 5000 in April 2025 give income 5000, one section of -100 (printed 100) and balance 4900 |
| Reporting.SalaryRowBeforeItsOwnReport | main.py:154-173 | A salary recorded at a moment with seconds past the minute is written cut to the minute, so a "від зп" report leaves that salary row out |
| Dialogue.CaptureStep | main.py:130-152 | From idle, an amount starts an entry and any other text gets the hint; awaiting a category, an unknown name is asked again; a commit carries the amount typed first |
| Dialogue.ForwardTransitions | main.py:130-144 | Awaiting a category, a category without subcategories commits at once with subcategory "" and one with subcategories has them asked for; awaiting a subcategory, any text is committed as the subcategory |
| Dialogue.AmountHandling | main.py:130-150 | An amount typed while idle opens an entry; an amount typed while a category is awaited is an unknown category and the entry stays |
| Dialogue.NoCommitBeforeSubcategory | main.py:132-144 | A commit comes either from a subcategory step, with the message as an unchecked subcategory, or from a category with no subcategories and subcategory "" |
| Dialogue.CaptureStepWellFormed | main.py:130-150 | Stored entries always hold a recognised amount (and a category with subcategories); every commit has a recognised amount and a known category |
| Dialogue.ChoosePeriod | main.py:111-128 | "з початку місяця" reports from the month start to now; "від зп" reports from the last salary or says it is unknown; only these and a "від " prefix are read as a period; every period ends now |
| Dialogue.SinceDate | main.py:121-126 | "від " + d reports from the parsed date to now, and gives the format hint when the date does not parse |
| FamilyBot.PeriodReply | main.py:114-126 | A period choice produces a report for exactly that period; the two failures produce their hints |
| FamilyBot.Bot.constructor | main.py:44-46 | The process starts with no entries, no pending period and no salary dates, over the worksheets as given |
| FamilyBot.Bot.SaveTransaction | main.py:154-176 | When the limits cannot be read nothing changes; otherwise exactly one row is appended, the user's entry is dropped, an income sets the salary date, and the reply carries the magnitude and the limit check against the spend before the row |
| FamilyBot.Bot.ReportCommand | main.py:178-183 | The user's next message is read as a period; nothing else changes |
| FamilyBot.Bot.SalaryCommand | main.py:191-194 | The user's entry becomes "awaiting a category" with amount "0", replacing any entry in progress |
| FamilyBot.Bot.SetLimitCommand | main.py:196-203 | With three parts and an amount `float()` accepts, one row [category, amount] is appended to the limits; otherwise the limits are unchanged and the format is shown |
| FamilyBot.Bot.AnswerPeriod | main.py:111-126 | The "waiting for a period" flag is cleared whatever the text; a period choice replies with that period's report or its hint and changes nothing else; any other text is left unhandled |
| FamilyBot.Bot.CaptureMessage | main.py:128-152 | The capture step decides: the hint, a new entry awaiting a category, the category asked again, the entry moved to awaiting a subcategory, or the effect of save_transaction; limits are never changed |
| FamilyBot.Bot.HandleMessage | main.py:106-152 | A pending period flag is always cleared; a period choice only replies, over the ledger as it was; any other message has the effect the capture step decides |
| FamilyBot.AmountMessage | main.py:146-150 | From idle, a recognised amount becomes an entry awaiting a category, the categories are offered, and the ledger is unchanged |
| FamilyBot.CategoryMessage | main.py:130-139 | Awaiting a category, a category with subcategories moves the entry to awaiting a subcategory and offers them; the ledger is unchanged |
| FamilyBot.SalaryScenario | main.py:191-194 | /salary, then "5000", then "прихід" asks for a category again and then records an income of 0 with the salary date set |
| FamilyBot.SubcategoryScenario | main.py:130-176 | An amount, then a category with subcategories, then any text leave the ledger unchanged for two messages and then append one expense row with that text as subcategory, replying with the limit check against the spend before it |
| FamilyBot.DirectCategoryScenario | main.py:130-176 | An amount, then a category without subcategories, leave the ledger unchanged after the first message and then append one row with subcategory "", signed by the category, with the limit check against the spend before it; the salary date is set iff the category is "прихід" |
| FamilyBot.SetLimitScenario | main.py:196-203 | After "/setlimit c v", the limit read for c at the next commit is v, and the other limits are unchanged |

## Left out

- Amounts are exact reals. IEEE floating point is not modelled: no rounding, no NaN or infinity from `float()`.
- Only the ASCII digits are digits. Python's `isdigit` also accepts other Unicode digits, which `float()` may then reject.
- `lower().strip()`, `strptime`, `strftime`, `float()` of a sheet cell or a `/setlimit` argument, and the sheet's number formatting are opaque parameters of the model, not concrete code. `float()` of a typed amount the recogniser accepts is concrete.
- The reply texts, Markdown, emoji and keyboards are not modelled. A reply is a datatype value carrying the data the text shows, and `total_exp`, which the code computes but never shows, is not modelled.
- The spreadsheet client, the credentials and the bot start-up (`main.py:36-42`, `main.py:205-215`) are not modelled, and google_sheets.py is not part of this model. The worksheets are sequences of rows held by the `Bot` object.
- Storage failures on reading or appending rows are not modelled. In the code, `/setlimit` shows its format hint on them, and so does a "від <date>" report, whose whole `send_report` call sits inside the `try` (`main.py:122-127`).
- `/start` and `/ping` only send a fixed text, and are not modelled.
- The clock is a parameter. Each handler is given one `now`. The code calls `datetime.now()` again for every row of the category it compares (`main.py:56`), once for the row's timestamp (`main.py:157`), and once more for an income's salary date (`main.py:173`).
- Concurrent updates to the shared dictionaries and worksheets are not modelled. Handlers run one at a time.
- FamilyBot.Bot.SaveTransaction: when `float()` raises while the limits are read, the code's handler ends with an exception and sends no reply. The model reports this as the reply `CommitFailed`, with the state unchanged.
