/**
  The limit checker of `save_transaction`: month-to-date spend in a category
  (`get_spent_in_category_this_month`), the limits table read as a dictionary
  in which a later row overrides an earlier one, and the over-limit warning.
*/
module Limits {
  import opened Wrappers
  import opened Clock
  import opened Taxonomy
  import opened Ledger

  /**
    What one data row adds to the month-to-date spend: `|amount|` when it has
    at least four cells, names the category, has a timestamp that parses and
    is not before `from`, and holds a negative amount; nothing otherwise.
  */
  function RowSpend(row: Row, category: string, from: DateTime, env: Env): (r: real)
    ensures r >= 0.0
    ensures r != 0.0 ==> |row| >= 4 && row[3] == category && env.parseNumber(row[2]).Some? && r == -env.parseNumber(row[2]).value
    ensures (&& |row| >= 4 && row[3] == category
             && env.parseTimestamp(row[0]).Some? && !Before(env.parseTimestamp(row[0]).value, from)
             && env.parseNumber(row[2]).Some? && env.parseNumber(row[2]).value < 0.0)
            ==> r == -env.parseNumber(row[2]).value
  {
    if |row| < 4 || row[3] != category then 0.0
    else match env.parseTimestamp(row[0])
      case None => 0.0
      case Some(dt) =>
        if Before(dt, from) then 0.0
        else match env.parseNumber(row[2])
          case None => 0.0
          case Some(amount) => if amount < 0.0 then -amount else 0.0
  }

  /** The spend the loop of `get_spent_in_category_this_month` accumulates over `rows`, in order. */
  function MonthSpend(rows: seq<Row>, category: string, from: DateTime, env: Env): (r: real)
    ensures r >= 0.0
    decreases |rows|
  {
    if rows == [] then 0.0
    else MonthSpend(rows[..|rows| - 1], category, from, env) + RowSpend(rows[|rows| - 1], category, from, env)
  }

  lemma MonthSpendAppend(rows: seq<Row>, row: Row, category: string, from: DateTime, env: Env)
    ensures MonthSpend(rows + [row], category, from, env) == MonthSpend(rows, category, from, env) + RowSpend(row, category, from, env)
  {
    assert (rows + [row])[..|rows|] == rows;
  }

  /**
    `get_spent_in_category_this_month(category)` over the rows `sheet` holds
    at time `now`: it reads the sheet and changes nothing, so two calls with
    no append in between give the same total.
  */
  method SpentInCategoryThisMonth(sheet: seq<Row>, category: string, now: DateTime, env: Env) returns (total: real)
    ensures total == MonthSpend(DataRows(sheet), category, MonthStart(now), env)
  {
    var rows := DataRows(sheet);
    var from := MonthStart(now);
    total := 0.0;
    for i := 0 to |rows|
      invariant total == MonthSpend(rows[..i], category, from, env)
    {
      var row := rows[i];
      assert rows[..i + 1] == rows[..i] + [row];
      MonthSpendAppend(rows[..i], row, category, from, env);
      if |row| < 4 || row[3] != category {
        continue;
      }
      var dt := env.parseTimestamp(row[0]);
      if dt.None? || Before(dt.value, from) {
        continue;
      }
      var amount := env.parseNumber(row[2]);
      if amount.None? {
        continue;
      }
      if amount.value < 0.0 {
        total := total + -amount.value;
      }
    }
    assert rows[..|rows|] == rows;
  }

  /**
    A row that is too short, names another category, has a timestamp or an
    amount that does not parse, is dated before the month start, or is not
    negative, leaves the month-to-date spend as it was.
  */
  lemma SkippedRowAddsNothing(sheet: seq<Row>, row: Row, category: string, from: DateTime, env: Env)
    requires |sheet| > 0
    requires || |row| < 4
             || row[3] != category
             || env.parseTimestamp(row[0]).None?
             || Before(env.parseTimestamp(row[0]).value, from)
             || env.parseNumber(row[2]).None?
             || env.parseNumber(row[2]).value >= 0.0
    ensures MonthSpend(DataRows(sheet + [row]), category, from, env) == MonthSpend(DataRows(sheet), category, from, env)
  {
    DataRowsAppend(sheet, row);
    MonthSpendAppend(DataRows(sheet), row, category, from, env);
  }

  /**
    When the row an expense commit appends is read back as written and is not
    dated before the month start, it raises the month-to-date spend of its
    category by exactly the amount entered.
  */
  lemma CommittedExpenseCounts(sheet: seq<Row>, now: DateTime, name: string, amount: real, category: string, subcat: string, env: Env)
    requires |sheet| > 0 && TimestampReadsBack(env, now) && NumberReadsBack(env, -amount)
    requires category != Income && amount > 0.0
    requires !Before(Minute(now), MonthStart(now))
    ensures MonthSpend(DataRows(sheet + [CommitRow(now, name, amount, category, subcat, env)]), category, MonthStart(now), env)
            == MonthSpend(DataRows(sheet), category, MonthStart(now), env) + amount
  {
    var row := CommitRow(now, name, amount, category, subcat, env);
    DataRowsAppend(sheet, row);
    MonthSpendAppend(DataRows(sheet), row, category, MonthStart(now), env);
    assert env.parseTimestamp(row[0]) == Some(Minute(now));
    assert env.parseNumber(row[2]) == Some(-amount);
  }

  /**
    The month start keeps the time of day, so on the first of a month an
    expense committed at a moment with seconds or microseconds past the minute
    is written with a timestamp before the month start, and is not counted.
  */
  lemma FirstDayCommitNotCounted(sheet: seq<Row>, now: DateTime, name: string, amount: real, category: string, subcat: string, env: Env)
    requires |sheet| > 0 && TimestampReadsBack(env, now)
    requires now.day == 1 && (now.second > 0 || now.micro > 0)
    ensures MonthSpend(DataRows(sheet + [CommitRow(now, name, amount, category, subcat, env)]), category, MonthStart(now), env)
            == MonthSpend(DataRows(sheet), category, MonthStart(now), env)
  {
    var row := CommitRow(now, name, amount, category, subcat, env);
    assert env.parseTimestamp(row[0]) == Some(Minute(now));
    SkippedRowAddsNothing(sheet, row, category, MonthStart(now), env);
  }

  /** A limits row keys category `c` at index `i`. */
  predicate KeysAt(rows: seq<Row>, i: int, c: string) {
    0 <= i < |rows| && |rows[i]| >= 2 && rows[i][0] == c
  }

  /**
    `{row[0]: float(row[1]) for row in limits_sheet.get_all_values() if len(row) >= 2}`:
    None when `float()` raises on some row, which aborts the commit.
  */
  function LimitsTable(rows: seq<Row>, env: Env): (r: Option<map<string, real>>)
    decreases |rows|
  {
    if rows == [] then Some(map[])
    else
      var last := rows[|rows| - 1];
      match LimitsTable(rows[..|rows| - 1], env)
      case None => None
      case Some(m) =>
        if |last| < 2 then Some(m)
        else match env.parseNumber(last[1])
          case None => None
          case Some(v) => Some(m[last[0] := v])
  }

  /** Reading the limits fails exactly when some row of two or more cells has a limit `float()` rejects. */
  lemma {:induction false} LimitsTableFails(rows: seq<Row>, env: Env)
    ensures LimitsTable(rows, env).None? <==>
              exists i :: 0 <= i < |rows| && |rows[i]| >= 2 && env.parseNumber(rows[i][1]).None?
    decreases |rows|
  {
    if rows != [] {
      var init := rows[..|rows| - 1];
      LimitsTableFails(init, env);
      assert forall i :: 0 <= i < |init| ==> init[i] == rows[i];
    }
  }

  /**
    The last row wins: a category has a limit exactly when some row keys it,
    and then the limit is the one of the last row that keys it.
  */
  lemma {:induction false} LastRowWins(rows: seq<Row>, env: Env, c: string)
    requires LimitsTable(rows, env).Some?
    ensures var m := LimitsTable(rows, env).value;
            && (c in m <==> exists i :: KeysAt(rows, i, c))
            && (c in m ==> exists i :: KeysAt(rows, i, c) && env.parseNumber(rows[i][1]) == Some(m[c]) &&
                                       forall j :: i < j < |rows| ==> !KeysAt(rows, j, c))
    decreases |rows|
  {
    if rows != [] {
      var init := rows[..|rows| - 1];
      var last := rows[|rows| - 1];
      LastRowWins(init, env, c);
      assert forall i :: KeysAt(init, i, c) ==> KeysAt(rows, i, c);
      assert forall i :: KeysAt(rows, i, c) && i < |rows| - 1 ==> KeysAt(init, i, c);
      var m := LimitsTable(rows, env).value;
      if |last| >= 2 && last[0] == c {
        assert KeysAt(rows, |rows| - 1, c);
      } else if c in m {
        var i :| KeysAt(init, i, c) && env.parseNumber(init[i][1]) == Some(m[c]) &&
                 forall j :: i < j < |init| ==> !KeysAt(init, j, c);
        assert KeysAt(rows, i, c) && forall j :: i < j < |rows| ==> !KeysAt(rows, j, c);
      }
    }
  }

  /** `/setlimit` takes effect: the appended row overrides whatever the table held for the category. */
  lemma AppendedLimitOverrides(rows: seq<Row>, env: Env, c: string, v: real)
    requires NumberReadsBack(env, v)
    ensures LimitsTable(rows + [[c, env.formatNumber(v)]], env) ==
              match LimitsTable(rows, env)
              case None => None
              case Some(m) => Some(m[c := v])
  {
    assert (rows + [[c, env.formatNumber(v)]])[..|rows|] == rows;
    assert env.parseNumber(env.formatNumber(v)) == Some(v);
  }

  datatype LimitWarning = LimitWarning(limit: real, spentWithEntry: real)

  /**
    `if limit and not is_income and (spent + abs(value)) > limit`: a limit of
    0 (or none) never warns, income never warns, and the comparison is strict.
  */
  function LimitCheck(limits: map<string, real>, category: string, spent: real, value: real): (w: Option<LimitWarning>)
    ensures w.Some? <==> category in limits && limits[category] != 0.0 && category != Income && spent + Abs(value) > limits[category]
    ensures w.Some? ==> w.value.limit == limits[category] && w.value.spentWithEntry == spent + Abs(value)
  {
    var limit := Get(limits, category);
    if limit.Some? && limit.value != 0.0 && category != Income && spent + Abs(value) > limit.value then
      Some(LimitWarning(limit.value, spent + Abs(value)))
    else None
  }

  /** Reaching the limit exactly does not warn; a kopeck over it does. */
  lemma LimitBoundary(limits: map<string, real>, category: string, spent: real, value: real)
    requires category in limits && limits[category] != 0.0 && category != Income
    ensures spent + Abs(value) == limits[category] ==> LimitCheck(limits, category, spent, value).None?
    ensures spent + Abs(value) == limits[category] + 0.01 ==> LimitCheck(limits, category, spent, value).Some?
  {
  }

  /**
    The warning fires exactly when the month-to-date spend, counting the row
    being committed, goes over a non-zero limit (for a row that is read back as
    written and is not dated before the month start).
  */
  lemma WarningIffOverLimitAfterCommit(sheet: seq<Row>, limits: map<string, real>, now: DateTime, name: string,
                                       amount: real, category: string, subcat: string, env: Env)
    requires |sheet| > 0 && TimestampReadsBack(env, now) && NumberReadsBack(env, -amount)
    requires category != Income && amount > 0.0
    requires !Before(Minute(now), MonthStart(now))
    ensures var before := MonthSpend(DataRows(sheet), category, MonthStart(now), env);
            var after := MonthSpend(DataRows(sheet + [CommitRow(now, name, amount, category, subcat, env)]), category, MonthStart(now), env);
            LimitCheck(limits, category, before, SignedValue(amount, category)).Some? <==>
              category in limits && limits[category] != 0.0 && after > limits[category]
  {
    CommittedExpenseCounts(sheet, now, name, amount, category, subcat, env);
  }
}
