/**
  The spreadsheet as the bot sees it, and the library calls it cannot be
  given a definition here. A sheet is what `get_all_values()` returns: rows
  of text cells, the first of them a header. The ledger rows are
  `[timestamp, name, signed amount, category, subcategory]`; the limits rows
  are `[category, limit]`.
*/
module Ledger {
  import opened Wrappers
  import opened Clock
  import opened Taxonomy

  type Row = seq<string>
  type UserId = int

  /**
    The library functions the bot calls, as parameters:
    - normalize: `str.lower().strip()` applied to every incoming message;
    - parseTimestamp: `datetime.strptime(_, "%Y-%m-%d %H:%M")`, None where it raises;
    - parseDate: `datetime.strptime(_, "%Y-%m-%d")`, None where it raises;
    - parseNumber: `float(_)` on a sheet cell or a command argument, None where it raises;
    - formatTimestamp: `strftime("%Y-%m-%d %H:%M")` of the commit time;
    - formatNumber: the cell text the sheet holds for a number the bot appended.
  */
  datatype Env = Env(
    normalize: string -> string,
    parseTimestamp: string -> Option<DateTime>,
    parseDate: string -> Option<DateTime>,
    parseNumber: string -> Option<real>,
    formatTimestamp: DateTime -> string,
    formatNumber: real -> string)

  /** Writing the commit time `t` and reading it back gives `t` cut to the minute. */
  predicate TimestampReadsBack(env: Env, t: DateTime) {
    t.second >= 0 && t.micro >= 0 && env.parseTimestamp(env.formatTimestamp(t)) == Some(Minute(t))
  }

  /** Writing the number `x` to the sheet and reading it back with `float()` gives `x`. */
  predicate NumberReadsBack(env: Env, x: real) {
    env.parseNumber(env.formatNumber(x)) == Some(x)
  }

  /** `sheet.get_all_values()[1:]`: every row but the header. */
  function DataRows(sheet: seq<Row>): (rows: seq<Row>)
    ensures |sheet| > 0 ==> |rows| == |sheet| - 1 && forall i :: 0 <= i < |rows| ==> rows[i] == sheet[i + 1]
    ensures |sheet| == 0 ==> rows == []
  {
    if |sheet| == 0 then [] else sheet[1..]
  }

  /** Appending to a sheet that has its header appends to its data rows. */
  lemma DataRowsAppend(sheet: seq<Row>, row: Row)
    requires |sheet| > 0
    ensures DataRows(sheet + [row]) == DataRows(sheet) + [row]
  {
    assert (sheet + [row])[1..] == sheet[1..] + [row];
  }

  /** The stored amount: positive for income, negative for every other category. */
  function SignedValue(amount: real, category: string): (v: real)
    ensures amount > 0.0 ==> (v > 0.0 <==> category == Income)
    ensures Abs(v) == Abs(amount)
  {
    if category == Income then amount else -amount
  }

  function Abs(x: real): (r: real)
    ensures r >= 0.0 && (r == x || r == -x)
  {
    if x < 0.0 then -x else x
  }

  /** The row `save_transaction` appends: `[now, user_name, value, category, subcat]`. */
  function CommitRow(now: DateTime, name: string, amount: real, category: string, subcat: string, env: Env): (row: Row)
    ensures |row| == 5 && row[1] == name && row[3] == category && row[4] == subcat
    ensures row[0] == env.formatTimestamp(now) && row[2] == env.formatNumber(SignedValue(amount, category))
  {
    [env.formatTimestamp(now), name, env.formatNumber(SignedValue(amount, category)), category, subcat]
  }
}
