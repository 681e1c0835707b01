/**
  The report aggregator `send_report(update, start, end)`: the rows dated in
  [start, end] are split into income and expenses, the expenses are summed per
  (category, subcategory), the categories are sorted, and the balance is
  income plus all expense sums. The report is kept as data; its Markdown
  rendering is not modelled.
*/
module Reporting {
  import opened Wrappers
  import opened Clock
  import opened Taxonomy
  import opened Ledger
  import opened Groups
  import opened Sorting

  /** What one kept row contributes: its amount, category and subcategory. */
  datatype Entry = Entry(amount: real, category: string, sub: string)

  /**
    The entry a data row yields, None for a row the loop skips: a row with fewer
    than four cells raises IndexError, a timestamp or amount that does not parse
    raises ValueError, and a row dated outside [start, end] is passed over. A
    row without a fifth cell has subcategory "".
  */
  function EntryOf(row: Row, start: DateTime, end: DateTime, env: Env): (e: Option<Entry>)
    ensures e.Some? ==> |row| >= 4 && e.value.category == row[3] && e.value.sub == (if |row| > 4 then row[4] else "")
    ensures e.Some? ==> env.parseTimestamp(row[0]).Some? && env.parseNumber(row[2]) == Some(e.value.amount)
    ensures e.Some? <==> && |row| >= 4 && env.parseTimestamp(row[0]).Some? && env.parseNumber(row[2]).Some?
                         && AtOrBefore(start, env.parseTimestamp(row[0]).value)
                         && AtOrBefore(env.parseTimestamp(row[0]).value, end)
  {
    if |row| < 4 then None
    else match env.parseTimestamp(row[0])
      case None => None
      case Some(dt) =>
        if !(AtOrBefore(start, dt) && AtOrBefore(dt, end)) then None
        else match env.parseNumber(row[2])
          case None => None
          case Some(amount) => Some(Entry(amount, row[3], if |row| > 4 then row[4] else ""))
  }

  /** The entries of the kept rows, in sheet order. */
  function Entries(rows: seq<Row>, start: DateTime, end: DateTime, env: Env): (es: seq<Entry>)
    ensures |es| <= |rows|
    decreases |rows|
  {
    if rows == [] then []
    else
      var last := EntryOf(rows[|rows| - 1], start, end, env);
      Entries(rows[..|rows| - 1], start, end, env) + (if last.Some? then [last.value] else [])
  }

  lemma EntriesAppend(rows: seq<Row>, row: Row, start: DateTime, end: DateTime, env: Env)
    ensures Entries(rows + [row], start, end, env) ==
              Entries(rows, start, end, env) + (if EntryOf(row, start, end, env).Some? then [EntryOf(row, start, end, env).value] else [])
  {
    assert (rows + [row])[..|rows|] == rows;
  }

  /** Every entry comes from a data row, and every row that yields an entry contributes it. */
  lemma {:induction false} EntriesAreKeptRows(rows: seq<Row>, start: DateTime, end: DateTime, env: Env)
    ensures forall e :: e in Entries(rows, start, end, env) ==>
              exists i :: 0 <= i < |rows| && EntryOf(rows[i], start, end, env) == Some(e)
    ensures forall i :: 0 <= i < |rows| && EntryOf(rows[i], start, end, env).Some? ==>
              EntryOf(rows[i], start, end, env).value in Entries(rows, start, end, env)
    decreases |rows|
  {
    if rows != [] {
      var init := rows[..|rows| - 1];
      var last := EntryOf(rows[|rows| - 1], start, end, env);
      EntriesAreKeptRows(init, start, end, env);
      var es := Entries(rows, start, end, env);
      assert es == Entries(init, start, end, env) + (if last.Some? then [last.value] else []);
      assert forall i :: 0 <= i < |init| ==> init[i] == rows[i];
      forall e | e in es
        ensures exists i :: 0 <= i < |rows| && EntryOf(rows[i], start, end, env) == Some(e)
      {
        if e !in Entries(init, start, end, env) {
          assert EntryOf(rows[|rows| - 1], start, end, env) == Some(e);
        }
      }
    }
  }

  /** The loop's accumulators: `income` and the `expenses` dictionary. */
  datatype Tally = Tally(income: real, expenses: seq<Group>)

  /** One iteration of the loop over a kept row. */
  function Accumulate(t: Tally, e: Entry): (r: Tally)
    ensures r.income == t.income + (if e.category == Income then e.amount else 0.0)
    ensures TotalOf(r.expenses) == TotalOf(t.expenses) + (if e.category == Income then 0.0 else e.amount)
  {
    if e.category == Income then t.(income := t.income + e.amount)
    else
      TotalOfAfterAdd(t.expenses, e.category, e.sub, e.amount);
      t.(expenses := AddExpense(t.expenses, e.category, e.sub, e.amount))
  }

  /** The accumulators after the loop has gone over `es`, from `income = 0, expenses = {}`. */
  function TallyOf(es: seq<Entry>): Tally
    decreases |es|
  {
    if es == [] then Tally(0.0, [])
    else Accumulate(TallyOf(es[..|es| - 1]), es[|es| - 1])
  }

  lemma TallyOfAppend(es: seq<Entry>, e: Entry)
    ensures TallyOf(es + [e]) == Accumulate(TallyOf(es), e)
  {
    assert (es + [e])[..|es|] == es;
  }

  /** The sum of the income amounts among `es`. */
  function IncomeSum(es: seq<Entry>): real
    decreases |es|
  {
    if es == [] then 0.0
    else IncomeSum(es[..|es| - 1]) + (if es[|es| - 1].category == Income then es[|es| - 1].amount else 0.0)
  }

  /** The sum of every other amount among `es`. */
  function ExpenseSum(es: seq<Entry>): real
    decreases |es|
  {
    if es == [] then 0.0
    else ExpenseSum(es[..|es| - 1]) + (if es[|es| - 1].category != Income then es[|es| - 1].amount else 0.0)
  }

  /** The sum of all amounts among `es`. */
  function NetSum(es: seq<Entry>): real
    decreases |es|
  {
    if es == [] then 0.0 else NetSum(es[..|es| - 1]) + es[|es| - 1].amount
  }

  /** The sum of the amounts of category `c`, subcategory `s`. */
  function GroupSum(es: seq<Entry>, c: string, s: string): real
    decreases |es|
  {
    if es == [] then 0.0
    else GroupSum(es[..|es| - 1], c, s) + (if es[|es| - 1].category == c && es[|es| - 1].sub == s then es[|es| - 1].amount else 0.0)
  }

  /** Some entry has category `c` and subcategory `s`. */
  predicate Mentions(es: seq<Entry>, c: string, s: string)
    decreases |es|
  {
    es != [] && (Mentions(es[..|es| - 1], c, s) || (es[|es| - 1].category == c && es[|es| - 1].sub == s))
  }

  /** Income and expenses split the kept amounts. */
  lemma {:induction false} NetSumSplits(es: seq<Entry>)
    ensures NetSum(es) == IncomeSum(es) + ExpenseSum(es)
    decreases |es|
  {
    if es != [] {
      NetSumSplits(es[..|es| - 1]);
    }
  }

  /** The loop's `income` is the sum of the income amounts. */
  lemma {:induction false} TallyIncome(es: seq<Entry>)
    ensures TallyOf(es).income == IncomeSum(es)
    decreases |es|
  {
    if es != [] {
      TallyIncome(es[..|es| - 1]);
    }
  }

  /** The loop's `expenses` always is a dictionary: distinct keys, no empty category, no income category. */
  lemma {:induction false} TallyWellFormed(es: seq<Entry>)
    ensures WellFormed(TallyOf(es).expenses)
    ensures FindGroup(TallyOf(es).expenses, Income).None?
    decreases |es|
  {
    if es != [] {
      var init := es[..|es| - 1];
      var e := es[|es| - 1];
      TallyWellFormed(init);
      if e.category != Income {
        var gs := TallyOf(init).expenses;
        AddExpenseKeepsWellFormed(gs, e.category, e.sub, e.amount);
        FindGroupAfterAdd(gs, e.category, e.sub, e.amount, Income);
      }
    }
  }

  /**
    For every expense category `c` and subcategory `s`, `expenses[c][s]` exists
    exactly when some kept row has that pair, and it holds the sum of their amounts.
  */
  lemma {:induction false} TallyLookup(es: seq<Entry>, c: string, s: string)
    requires c != Income
    ensures Lookup(TallyOf(es).expenses, c, s) == if Mentions(es, c, s) then Some(GroupSum(es, c, s)) else None
    ensures !Mentions(es, c, s) ==> GroupSum(es, c, s) == 0.0
    decreases |es|
  {
    if es != [] {
      var init := es[..|es| - 1];
      var e := es[|es| - 1];
      TallyLookup(init, c, s);
      if e.category != Income {
        LookupAfterAdd(TallyOf(init).expenses, e.category, e.sub, e.amount, c, s);
      }
    }
  }

  /** The expense sums add up to the sum of the expense amounts. */
  lemma {:induction false} TallyTotal(es: seq<Entry>)
    ensures TotalOf(TallyOf(es).expenses) == ExpenseSum(es)
    decreases |es|
  {
    if es != [] {
      var init := es[..|es| - 1];
      var e := es[|es| - 1];
      TallyTotal(init);
      if e.category != Income {
        TotalOfAfterAdd(TallyOf(init).expenses, e.category, e.sub, e.amount);
      }
    }
  }

  /** The report as structured data: the period, the income, the sorted categories and the balance. */
  datatype Report = Report(start: DateTime, end: DateTime, income: real, sections: seq<Group>, balance: real)

  /** The report `send_report` renders for the rows `sheet` holds. */
  function ReportOf(sheet: seq<Row>, start: DateTime, end: DateTime, env: Env): (r: Report)
    ensures r.start == start && r.end == end
    ensures multiset(r.sections) == multiset(TallyOf(Entries(DataRows(sheet), start, end, env)).expenses)
  {
    var t := TallyOf(Entries(DataRows(sheet), start, end, env));
    Report(start, end, t.income, SortByTotal(t.expenses), t.income + TotalOf(t.expenses))
  }

  /** The subcategory lines printed under a category: only those with a non-empty name, in order. */
  function Lines(subs: seq<SubTotal>): (lines: seq<SubTotal>)
    ensures forall x :: x in lines <==> x in subs && x.sub != ""
  {
    if subs == [] then []
    else (if subs[0].sub != "" then [subs[0]] else []) + Lines(subs[1..])
  }

  /** One more row read: its entry, if any, is accumulated into the tally. */
  lemma TallyStep(rows: seq<Row>, i: nat, start: DateTime, end: DateTime, env: Env)
    requires i < |rows|
    ensures var before := TallyOf(Entries(rows[..i], start, end, env));
            var e := EntryOf(rows[i], start, end, env);
            TallyOf(Entries(rows[..i + 1], start, end, env)) == if e.Some? then Accumulate(before, e.value) else before
  {
    var seen := Entries(rows[..i], start, end, env);
    var e := EntryOf(rows[i], start, end, env);
    assert rows[..i + 1] == rows[..i] + [rows[i]];
    EntriesAppend(rows[..i], rows[i], start, end, env);
    if e.Some? {
      assert Entries(rows[..i + 1], start, end, env) == seen + [e.value];
      TallyOfAppend(seen, e.value);
    } else {
      assert Entries(rows[..i + 1], start, end, env) == seen;
    }
  }

  /**
    `send_report` over the rows `sheet` holds: one pass accumulating `income`
    and the `expenses` dictionary, then the sort and the balance.
  */
  method SendReport(sheet: seq<Row>, start: DateTime, end: DateTime, env: Env) returns (r: Report)
    ensures r == ReportOf(sheet, start, end, env)
  {
    var rows := DataRows(sheet);
    var income := 0.0;
    var expenses: seq<Group> := [];
    for i := 0 to |rows|
      invariant Tally(income, expenses) == TallyOf(Entries(rows[..i], start, end, env))
    {
      var row := rows[i];
      TallyStep(rows, i, start, end, env);
      // the body of the try block: None where it raises or the row is out of the period
      var e := EntryOf(row, start, end, env);
      if e.Some? {
        if e.value.category == Income {
          income := income + e.value.amount;
        } else {
          expenses := AddExpense(expenses, e.value.category, e.value.sub, e.value.amount);
        }
      }
    }
    assert rows[..|rows|] == rows;
    r := Report(start, end, income, SortByTotal(expenses), income + TotalOf(expenses));
  }

  /**
    The report's income is the sum of the income amounts dated in the period,
    and its balance the sum of all amounts dated in it (expenses being negative).
  */
  lemma ReportIncomeAndBalance(sheet: seq<Row>, start: DateTime, end: DateTime, env: Env)
    ensures var es := Entries(DataRows(sheet), start, end, env);
            var r := ReportOf(sheet, start, end, env);
            && r.income == IncomeSum(es)
            && r.balance == NetSum(es)
            && r.balance == r.income + ExpenseSum(es)
  {
    var es := Entries(DataRows(sheet), start, end, env);
    TallyIncome(es);
    TallyTotal(es);
    NetSumSplits(es);
  }

  /**
    Every line of the report is an expense (category, subcategory) pair dated
    in the period, carrying the sum of its amounts; income is never listed.
  */
  lemma ReportSectionsSound(sheet: seq<Row>, start: DateTime, end: DateTime, env: Env, i: int, j: int)
    requires var sections := ReportOf(sheet, start, end, env).sections;
             0 <= i < |sections| && 0 <= j < |sections[i].subs|
    ensures var es := Entries(DataRows(sheet), start, end, env);
            var g := ReportOf(sheet, start, end, env).sections[i];
            && g.category != Income
            && Mentions(es, g.category, g.subs[j].sub)
            && g.subs[j].total == GroupSum(es, g.category, g.subs[j].sub)
  {
    var es := Entries(DataRows(sheet), start, end, env);
    var groups := TallyOf(es).expenses;
    var g := SortByTotal(groups)[i];
    TallyWellFormed(es);
    assert g in multiset(groups);
    var k :| 0 <= k < |groups| && groups[k] == g;
    LookupFindsStored(groups, k, j);
    TallyLookup(es, g.category, g.subs[j].sub);
  }

  /** Every expense (category, subcategory) pair dated in the period has its line in the report. */
  lemma ReportSectionsComplete(sheet: seq<Row>, start: DateTime, end: DateTime, env: Env, c: string, s: string)
    requires c != Income && Mentions(Entries(DataRows(sheet), start, end, env), c, s)
    ensures var sections := ReportOf(sheet, start, end, env).sections;
            exists i, j :: 0 <= i < |sections| && 0 <= j < |sections[i].subs| &&
              sections[i].category == c && sections[i].subs[j].sub == s
  {
    var es := Entries(DataRows(sheet), start, end, env);
    var groups := TallyOf(es).expenses;
    var sections := SortByTotal(groups);
    TallyLookup(es, c, s);
    LookupIsStored(groups, c, s);
    var k, j :| 0 <= k < |groups| && 0 <= j < |groups[k].subs| &&
                groups[k].category == c && groups[k].subs[j] == SubTotal(s, Lookup(groups, c, s).value);
    assert groups[k] in multiset(sections);
    var i :| 0 <= i < |sections| && sections[i] == groups[k];
    assert sections[i].category == c && sections[i].subs[j].sub == s;
  }

  /**
    Categories run from the largest signed total down (so, expenses being
    negative, the smallest expense first), and those with equal totals keep the
    order of the expenses dictionary.
  */
  lemma ReportSectionsOrder(sheet: seq<Row>, start: DateTime, end: DateTime, env: Env, k: real)
    ensures var sections := ReportOf(sheet, start, end, env).sections;
            && NonIncreasing(sections)
            && WithTotal(sections, k) == WithTotal(TallyOf(Entries(DataRows(sheet), start, end, env)).expenses, k)
  {
    var groups := TallyOf(Entries(DataRows(sheet), start, end, env)).expenses;
    SortByTotalIsSorted(groups);
    SortByTotalIsStable(groups, k);
  }

  /** The two rows of an example, both dated in April 2025, yield their entries. */
  lemma ExampleEntries(env: Env)
    requires env.parseTimestamp("2025-04-02 10:00") == Some(DateTime(2025, 4, 2, 10, 0, 0, 0))
    requires env.parseTimestamp("2025-04-03 09:00") == Some(DateTime(2025, 4, 3, 9, 0, 0, 0))
    requires env.parseNumber("-100") == Some(-100.0) && env.parseNumber("5000") == Some(5000.0)
    ensures Entries([["2025-04-02 10:00", "A", "-100", "продукти", ""], ["2025-04-03 09:00", "A", "5000", "прихід", ""]],
                    DateTime(2025, 4, 1, 0, 0, 0, 0), DateTime(2025, 4, 30, 0, 0, 0, 0), env)
            == [Entry(-100.0, "продукти", ""), Entry(5000.0, Income, "")]
  {
    var start, end := DateTime(2025, 4, 1, 0, 0, 0, 0), DateTime(2025, 4, 30, 0, 0, 0, 0);
    var r1: Row := ["2025-04-02 10:00", "A", "-100", "продукти", ""];
    var r2: Row := ["2025-04-03 09:00", "A", "5000", "прихід", ""];
    assert EntryOf(r1, start, end, env) == Some(Entry(-100.0, "продукти", ""));
    assert EntryOf(r2, start, end, env) == Some(Entry(5000.0, Income, ""));
    assert [r1, r2] == [r1] + [r2];
    EntriesAppend([r1], r2, start, end, env);
    assert [r1] == [] + [r1];
    EntriesAppend([], r1, start, end, env);
  }

  /** The expense of 100 and the income of 5000 accumulate into income 5000 and one expense group. */
  lemma ExampleTally()
    ensures TallyOf([Entry(-100.0, "продукти", ""), Entry(5000.0, Income, "")]) ==
              Tally(5000.0, [Group("продукти", [SubTotal("", -100.0)])])
  {
    var e1, e2 := Entry(-100.0, "продукти", ""), Entry(5000.0, Income, "");
    assert [e1, e2] == [e1] + [e2];
    TallyOfAppend([e1], e2);
    assert [e1] == [] + [e1];
    TallyOfAppend([], e1);
  }

  /**
    An example: an expense of 100 on "продукти" and an income of 5000,
    both dated in April 2025, give income 5000, one section "продукти" with
    total -100 (printed as 100), and balance 4900.
  */
  lemma ExampleReport(env: Env)
    requires env.parseTimestamp("2025-04-02 10:00") == Some(DateTime(2025, 4, 2, 10, 0, 0, 0))
    requires env.parseTimestamp("2025-04-03 09:00") == Some(DateTime(2025, 4, 3, 9, 0, 0, 0))
    requires env.parseNumber("-100") == Some(-100.0) && env.parseNumber("5000") == Some(5000.0)
    ensures var sheet := [["Дата", "Ім'я", "Сума", "Категорія", "Підкатегорія"],
                          ["2025-04-02 10:00", "A", "-100", "продукти", ""],
                          ["2025-04-03 09:00", "A", "5000", "прихід", ""]];
            ReportOf(sheet, DateTime(2025, 4, 1, 0, 0, 0, 0), DateTime(2025, 4, 30, 0, 0, 0, 0), env) ==
              Report(DateTime(2025, 4, 1, 0, 0, 0, 0), DateTime(2025, 4, 30, 0, 0, 0, 0), 5000.0,
                     [Group("продукти", [SubTotal("", -100.0)])], 4900.0)
  {
    var r1: Row := ["2025-04-02 10:00", "A", "-100", "продукти", ""];
    var r2: Row := ["2025-04-03 09:00", "A", "5000", "прихід", ""];
    var sheet := [["Дата", "Ім'я", "Сума", "Категорія", "Підкатегорія"], r1, r2];
    assert DataRows(sheet) == [r1, r2];
    ExampleEntries(env);
    ExampleTally();
    var g := Group("продукти", [SubTotal("", -100.0)]);
    assert SortByTotal([g]) == [g];
    assert TotalOf([g]) == -100.0;
  }

  /**
    A report "від зп" starts at the moment the salary was recorded, but the
    salary row is written cut to the minute; when that moment has seconds or
    microseconds past the minute, the salary row itself falls outside the report.
  */
  lemma SalaryRowBeforeItsOwnReport(now: DateTime, end: DateTime, name: string, amount: real, env: Env)
    requires TimestampReadsBack(env, now)
    requires now.second > 0 || now.micro > 0
    ensures EntryOf(CommitRow(now, name, amount, Income, "", env), now, end, env).None?
  {
    assert env.parseTimestamp(env.formatTimestamp(now)) == Some(Minute(now));
  }
}
