/**
  The bot's process-wide state and its handlers: `handle_message`,
  `save_transaction` and the state updates of /report, /salary and /setlimit.
  The two worksheets are fields holding their rows; the clock is the `now`
  each handler is given.
*/
module FamilyBot {
  import opened Wrappers
  import opened Clock
  import opened Text
  import opened Taxonomy
  import opened Ledger
  import opened Limits
  import opened Reporting
  import opened Dialogue

  /** What the bot replies; texts, emoji and keyboards are left out. */
  datatype Reply =
    | ReportReply(report: Report)
    | SalaryDateUnknown                   // "від зп" without a recorded income
    | DateFormatHint                      // "від <date>" that does not parse
    | AskCategory(options: seq<string>)   // an amount was accepted
    | ChooseCategory(options: seq<string>) // not a category: asked again
    | ChooseSubcategory(category: string, options: seq<string>)
    | Recorded(amount: real, category: string, sub: string, warning: Option<LimitWarning>)
    | CommitFailed                        // float() raised while reading the limits
    | EnterAmountHint                     // neither an amount nor an answer awaited
    | AskPeriod
    | AskSalary
    | LimitSet(category: string, limit: real)
    | LimitFormatHint

  /** The reply to a period choice. */
  function PeriodReply(p: PeriodChoice, ledger: seq<Row>, env: Env): (r: Reply)
    requires !p.NotAPeriod?
    ensures p.Period? <==> r.ReportReply?
    ensures p.Period? ==> r == ReportReply(ReportOf(ledger, p.start, p.end, env))
    ensures p.Period? ==> r.report.start == p.start && r.report.end == p.end
    ensures p.NoSalaryDate? ==> r == SalaryDateUnknown
    ensures p.BadDate? ==> r == DateFormatHint
  {
    match p
    case Period(start, end) => ReportReply(ReportOf(ledger, start, end, env))
    case NoSalaryDate => SalaryDateUnknown
    case BadDate => DateFormatHint
  }

  class Bot {
    const env: Env
    /** `pending_state` */
    var pending: map<UserId, Pending>
    /** the users `report_state` holds "waiting_for_period" for */
    var awaitingPeriod: set<UserId>
    /** `last_salary_date` */
    var lastSalary: map<UserId, DateTime>
    /** the rows of the ledger worksheet, header first */
    var ledger: seq<Row>
    /** the rows of the "Ліміти" worksheet */
    var limitRows: seq<Row>

    ghost predicate Valid()
      reads this
    {
      forall u :: u in pending ==> WellFormedPending(pending[u])
    }

    /** The process at start-up: no dialogue in progress, the worksheets as they are. */
    constructor (env: Env, ledger: seq<Row>, limitRows: seq<Row>)
      ensures Valid()
      ensures this.env == env && this.ledger == ledger && this.limitRows == limitRows
      ensures pending == map[] && awaitingPeriod == {} && lastSalary == map[]
    {
      this.env := env;
      this.ledger := ledger;
      this.limitRows := limitRows;
      pending := map[];
      awaitingPeriod := {};
      lastSalary := map[];
    }

    /** The effect of `save_transaction(update, name, amount, category, sub, user)` at time `now`. */
    twostate predicate Saved(user: UserId, name: string, amount: real, category: string, sub: string, now: DateTime, reply: Reply)
      reads this
    {
      && limitRows == old(limitRows)
      && match LimitsTable(old(limitRows), env)
         case None =>
           pending == old(pending) && ledger == old(ledger) && lastSalary == old(lastSalary) && reply == CommitFailed
         case Some(limits) =>
           var value := SignedValue(amount, category);
           var spent := MonthSpend(DataRows(old(ledger)), category, MonthStart(now), env);
           && ledger == old(ledger) + [CommitRow(now, name, amount, category, sub, env)]
           && pending == old(pending) - {user}
           && lastSalary == (if category == Income then old(lastSalary)[user := now] else old(lastSalary))
           && reply == Recorded(Abs(value), category, sub, LimitCheck(limits, category, spent, value))
    }

    /**
      `save_transaction`: the month-to-date spend is taken before the row is
      appended; when the limits cannot be read nothing changes; otherwise one
      row is appended, then this user's entry is dropped, and an income
      records the time of the last salary.
    */
    method SaveTransaction(user: UserId, name: string, amount: real, category: string, sub: string, now: DateTime)
      returns (reply: Reply)
      requires Valid()
      modifies this
      ensures Valid()
      ensures awaitingPeriod == old(awaitingPeriod)
      ensures Saved(user, name, amount, category, sub, now, reply)
    {
      var isIncome := category == Income;
      var value := if isIncome then amount else -amount;
      var spent := SpentInCategoryThisMonth(ledger, category, now, env);
      var limits := LimitsTable(limitRows, env);
      if limits.None? {
        reply := CommitFailed;
        return;
      }
      var limit := Get(limits.value, category);
      var warning := None;
      if limit.Some? && limit.value != 0.0 && !isIncome && spent + Abs(value) > limit.value {
        warning := Some(LimitWarning(limit.value, spent + Abs(value)));
      }
      ledger := ledger + [[env.formatTimestamp(now), name, env.formatNumber(value), category, sub]];
      pending := pending - {user};
      if isIncome {
        lastSalary := lastSalary[user := now];
      }
      reply := Recorded(Abs(value), category, sub, warning);
    }

    /** `/report`: the user's next message is read as a period. */
    method ReportCommand(user: UserId) returns (reply: Reply)
      requires Valid()
      modifies this
      ensures Valid()
      ensures awaitingPeriod == old(awaitingPeriod) + {user}
      ensures pending == old(pending) && lastSalary == old(lastSalary)
      ensures ledger == old(ledger) && limitRows == old(limitRows)
      ensures reply == AskPeriod
    {
      awaitingPeriod := awaitingPeriod + {user};
      reply := AskPeriod;
    }

    /** `/salary`: an entry of amount "0" awaiting its category, whatever was pending before. */
    method SalaryCommand(user: UserId) returns (reply: Reply)
      requires Valid()
      modifies this
      ensures Valid()
      ensures pending == old(pending)[user := AwaitCategory("0")]
      ensures awaitingPeriod == old(awaitingPeriod) && lastSalary == old(lastSalary)
      ensures ledger == old(ledger) && limitRows == old(limitRows)
      ensures reply == AskSalary
    {
      ZeroIsAmount();
      pending := pending[user := AwaitCategory("0")];
      reply := AskSalary;
    }

    /**
      `/setlimit <category> <amount>` on the raw command text: the text is split
      at its first two spaces; a missing part or an amount `float()` rejects
      gives the format hint, otherwise a `[category, limit]` row is appended.
    */
    method SetLimitCommand(raw: string) returns (reply: Reply)
      requires Valid()
      modifies this
      ensures Valid()
      ensures pending == old(pending) && awaitingPeriod == old(awaitingPeriod)
      ensures lastSalary == old(lastSalary) && ledger == old(ledger)
      ensures var parts := SplitTwice(raw);
              if |parts| == 3 && env.parseNumber(parts[2]).Some? then
                var v := env.parseNumber(parts[2]).value;
                limitRows == old(limitRows) + [[parts[1], env.formatNumber(v)]] && reply == LimitSet(parts[1], v)
              else
                limitRows == old(limitRows) && reply == LimitFormatHint
    {
      var parts := SplitTwice(raw);
      if |parts| < 3 {
        reply := LimitFormatHint;
        return;
      }
      var value := env.parseNumber(parts[2]);
      if value.None? {
        reply := LimitFormatHint;
        return;
      }
      limitRows := limitRows + [[parts[1], env.formatNumber(value.value)]];
      reply := LimitSet(parts[1], value.value);
    }

    /** The effect of the entry-capture part of `handle_message` for `text` from `user`. */
    twostate predicate Captured(user: UserId, name: string, text: string, now: DateTime, reply: Reply)
      reads this
    {
      && limitRows == old(limitRows)
      && match CaptureStep(Get(old(pending), user), text)
         case Help =>
           pending == old(pending) && ledger == old(ledger) && lastSalary == old(lastSalary) && reply == EnterAmountHint
         case StartEntry(amount) =>
           && pending == old(pending)[user := AwaitCategory(amount)]
           && ledger == old(ledger) && lastSalary == old(lastSalary) && reply == AskCategory(Names)
         case Reprompt =>
           pending == old(pending) && ledger == old(ledger) && lastSalary == old(lastSalary) && reply == ChooseCategory(Names)
         case AskSubcategory(amount, category) =>
           && pending == old(pending)[user := AwaitSubcategory(amount, category)]
           && ledger == old(ledger) && lastSalary == old(lastSalary)
           && reply == ChooseSubcategory(category, Subcategories(category).GetOr([]))
         case Commit(amount, category, sub) =>
           IsAmountText(amount) && Saved(user, name, DecimalValue(amount), category, sub, now, reply)
    }

    /**
      The period branch of `handle_message` for a user awaiting a period: the
      wait ends whatever the text, and a text that is a period choice gets the
      report or a hint; any other text is left to entry capture.
    */
    method AnswerPeriod(user: UserId, text: string, now: DateTime) returns (handled: bool, reply: Reply)
      requires Valid() && user in awaitingPeriod
      modifies this
      ensures Valid()
      ensures awaitingPeriod == old(awaitingPeriod) - {user}
      ensures pending == old(pending) && ledger == old(ledger)
      ensures lastSalary == old(lastSalary) && limitRows == old(limitRows)
      ensures var p := ChoosePeriod(text, now, Get(lastSalary, user), env);
              handled == !p.NotAPeriod? && (handled ==> reply == PeriodReply(p, ledger, env))
    {
      awaitingPeriod := awaitingPeriod - {user};
      handled := true;
      if text == "з початку місяця" {
        var report := SendReport(ledger, MonthStart(now), now, env);
        reply := ReportReply(report);
      } else if text == "від зп" {
        if user in lastSalary {
          var report := SendReport(ledger, lastSalary[user], now, env);
          reply := ReportReply(report);
        } else {
          reply := SalaryDateUnknown;
        }
      } else if StartsWith(text, "від ") {
        var start := env.parseDate(RemoveAll(text, "від "));
        if start.Some? {
          var report := SendReport(ledger, start.value, now, env);
          reply := ReportReply(report);
        } else {
          reply := DateFormatHint;
        }
      } else {
        handled, reply := false, EnterAmountHint;
      }
    }

    /** The entry-capture part of `handle_message`. */
    method CaptureMessage(user: UserId, name: string, text: string, now: DateTime) returns (reply: Reply)
      requires Valid()
      modifies this
      ensures Valid()
      ensures awaitingPeriod == old(awaitingPeriod)
      ensures Captured(user, name, text, now, reply)
    {
      var state := Get(pending, user);
      CaptureStepWellFormed(state, text);
      if state.Some? && state.value.AwaitCategory? {
        var category := text;
        var subs := Subcategories(category);
        if subs.None? {
          reply := ChooseCategory(Names);
          return;
        }
        if subs.value != [] {
          pending := pending[user := AwaitSubcategory(state.value.amount, category)];
          reply := ChooseSubcategory(category, subs.value);
          return;
        }
        reply := SaveTransaction(user, name, DecimalValue(state.value.amount), category, "", now);
        return;
      }
      if state.Some? && state.value.AwaitSubcategory? {
        reply := SaveTransaction(user, name, DecimalValue(state.value.amount), state.value.category, text, now);
        return;
      }
      if IsAmountText(text) {
        pending := pending[user := AwaitCategory(text)];
        reply := AskCategory(Names);
        return;
      }
      reply := EnterAmountHint;
    }

    /**
      `handle_message` for a text message from `user` (first name `name`) at
      time `now`. A pending period choice is consumed by any message; a text
      that is not a period falls through to entry capture.
    */
    method HandleMessage(user: UserId, name: string, raw: string, now: DateTime) returns (reply: Reply)
      requires Valid()
      modifies this
      ensures Valid()
      ensures awaitingPeriod == old(awaitingPeriod) - {user}
      ensures var text := env.normalize(raw);
              var period := if user in old(awaitingPeriod) then ChoosePeriod(text, now, Get(old(lastSalary), user), env) else NotAPeriod;
              if period.NotAPeriod? then
                Captured(user, name, text, now, reply)
              else
                && pending == old(pending) && ledger == old(ledger)
                && lastSalary == old(lastSalary) && limitRows == old(limitRows)
                && reply == PeriodReply(period, old(ledger), env)
    {
      var text := env.normalize(raw);
      if user in awaitingPeriod {
        var handled;
        handled, reply := AnswerPeriod(user, text, now);
        if handled {
          return;
        }
      }
      reply := CaptureMessage(user, name, text, now);
    }
  }

  /**
    /salary followed by the salary typed as a number: the number is not a
    category, so the entry stays at amount "0", and choosing "прихід" then
    records an income of 0 and sets the last salary date.
  */
  method SalaryScenario(env: Env, sheet: seq<Row>, limitRows: seq<Row>, user: UserId, name: string, now: DateTime)
    returns (replies: seq<Reply>, ledgerAfter: seq<Row>, salaryDate: Option<DateTime>)
    requires LimitsTable(limitRows, env).Some?
    requires env.normalize("5000") == "5000" && env.normalize(Income) == Income
    ensures replies == [AskSalary, ChooseCategory(Names), Recorded(0.0, Income, "", None)]
    ensures ledgerAfter == sheet + [CommitRow(now, name, 0.0, Income, "", env)]
    ensures salaryDate == Some(now)
  {
    var bot := new Bot(env, sheet, limitRows);
    var r1 := bot.SalaryCommand(user);
    assert IsDigits("5000") by {
      assert IsDigit("5000"[0]) && IsDigit("5000"[1]) && IsDigit("5000"[2]) && IsDigit("5000"[3]);
    }
    DigitsAreAmount("5000");
    AmountHandling("5000", "0");
    assert bot.awaitingPeriod == {} && Get(bot.pending, user) == Some(AwaitCategory("0"));
    var r2 := bot.HandleMessage(user, name, "5000", now);
    assert r2 == ChooseCategory(Names);
    assert bot.awaitingPeriod == {} && Get(bot.pending, user) == Some(AwaitCategory("0"));
    IncomeHasNoSubcategories();
    assert CaptureStep(Some(AwaitCategory("0")), Income) == Commit("0", Income, "");
    ZeroIsAmount();
    var r3 := bot.HandleMessage(user, name, Income, now);
    replies := [r1, r2, r3];
    ledgerAfter := bot.ledger;
    salaryDate := Get(bot.lastSalary, user);
  }

  /** The first message of an entry: a recognised amount opens it and asks for a category. */
  method AmountMessage(bot: Bot, user: UserId, name: string, amount: string, now: DateTime) returns (reply: Reply)
    requires bot.Valid() && user !in bot.awaitingPeriod && user !in bot.pending
    requires IsAmountText(amount) && bot.env.normalize(amount) == amount
    modifies bot
    ensures bot.Valid()
    ensures bot.pending == old(bot.pending)[user := AwaitCategory(amount)]
    ensures bot.awaitingPeriod == old(bot.awaitingPeriod) && bot.ledger == old(bot.ledger)
    ensures bot.lastSalary == old(bot.lastSalary) && bot.limitRows == old(bot.limitRows)
    ensures reply == AskCategory(Names)
  {
    AmountHandling(amount, amount);
    reply := bot.HandleMessage(user, name, amount, now);
  }

  /** The second message: a category that has subcategories gets them offered. */
  method CategoryMessage(bot: Bot, user: UserId, name: string, amount: string, category: string, now: DateTime)
    returns (reply: Reply)
    requires bot.Valid() && user !in bot.awaitingPeriod
    requires user in bot.pending && bot.pending[user] == AwaitCategory(amount)
    requires Subcategories(category).Some? && Subcategories(category).value != []
    requires bot.env.normalize(category) == category
    modifies bot
    ensures bot.Valid()
    ensures bot.pending == old(bot.pending)[user := AwaitSubcategory(amount, category)]
    ensures bot.awaitingPeriod == old(bot.awaitingPeriod) && bot.ledger == old(bot.ledger)
    ensures bot.lastSalary == old(bot.lastSalary) && bot.limitRows == old(bot.limitRows)
    ensures reply == ChooseSubcategory(category, Subcategories(category).value)
  {
    assert CaptureStep(Get(bot.pending, user), category) == AskSubcategory(amount, category);
    reply := bot.HandleMessage(user, name, category, now);
  }

  /**
    An expense in a category with subcategories takes three messages: the
    amount and the category leave the ledger as it was, and the third message
    is taken as the subcategory, whatever it says, and appends the one row.
  */
  method SubcategoryScenario(env: Env, sheet: seq<Row>, limitRows: seq<Row>, user: UserId, name: string,
                             amount: string, category: string, sub: string, now: DateTime)
    returns (replies: seq<Reply>, ledgers: seq<seq<Row>>)
    requires LimitsTable(limitRows, env).Some?
    requires IsAmountText(amount) && Subcategories(category).Some? && Subcategories(category).value != []
    requires env.normalize(amount) == amount && env.normalize(category) == category && env.normalize(sub) == sub
    ensures |replies| == 3 && |ledgers| == 2
    ensures replies[0] == AskCategory(Names) && replies[1] == ChooseSubcategory(category, Subcategories(category).value)
    ensures ledgers[0] == sheet
    ensures ledgers[1] == sheet + [CommitRow(now, name, DecimalValue(amount), category, sub, env)]
    ensures replies[2] == Recorded(DecimalValue(amount), category, sub,
                                   LimitCheck(LimitsTable(limitRows, env).value, category,
                                              MonthSpend(DataRows(sheet), category, MonthStart(now), env),
                                              -DecimalValue(amount)))
  {
    var bot := new Bot(env, sheet, limitRows);
    var r1 := AmountMessage(bot, user, name, amount, now);
    var r2 := CategoryMessage(bot, user, name, amount, category, now);
    var before := bot.ledger;
    IncomeHasNoSubcategories();
    assert category != Income;
    assert CaptureStep(Get(bot.pending, user), sub) == Commit(amount, category, sub);
    var r3 := bot.HandleMessage(user, name, sub, now);
    replies := [r1, r2, r3];
    ledgers := [before, bot.ledger];
  }

  /**
    An entry in a category without subcategories takes two messages: the
    amount leaves the ledger as it was, and the category commits at once with
    subcategory "", stored negative unless the category is "прихід", which
    also records the salary date.
  */
  method DirectCategoryScenario(env: Env, sheet: seq<Row>, limitRows: seq<Row>, user: UserId, name: string,
                                amount: string, category: string, now: DateTime)
    returns (replies: seq<Reply>, ledgers: seq<seq<Row>>, salaryDate: Option<DateTime>)
    requires LimitsTable(limitRows, env).Some?
    requires IsAmountText(amount) && Subcategories(category) == Some([])
    requires env.normalize(amount) == amount && env.normalize(category) == category
    ensures |replies| == 2 && |ledgers| == 2
    ensures replies[0] == AskCategory(Names) && ledgers[0] == sheet
    ensures ledgers[1] == sheet + [CommitRow(now, name, DecimalValue(amount), category, "", env)]
    ensures replies[1] == Recorded(DecimalValue(amount), category, "",
                                   LimitCheck(LimitsTable(limitRows, env).value, category,
                                              MonthSpend(DataRows(sheet), category, MonthStart(now), env),
                                              SignedValue(DecimalValue(amount), category)))
    ensures salaryDate == if category == Income then Some(now) else None
  {
    var bot := new Bot(env, sheet, limitRows);
    var r1 := AmountMessage(bot, user, name, amount, now);
    var before := bot.ledger;
    ForwardTransitions(amount, category, category);
    assert CaptureStep(Get(bot.pending, user), category) == Commit(amount, category, "");
    var r2 := bot.HandleMessage(user, name, category, now);
    replies := [r1, r2];
    ledgers := [before, bot.ledger];
    salaryDate := Get(bot.lastSalary, user);
  }

  /**
    `/setlimit <category> <amount>` with a one-word category and an amount
    `float()` accepts: the limit read at the next commit is that amount,
    whatever earlier rows said for the category.
  */
  method SetLimitScenario(env: Env, sheet: seq<Row>, limitRows: seq<Row>, category: string, amount: string)
    returns (reply: Reply, limitsAfter: Option<map<string, real>>)
    requires ' ' !in category && env.parseNumber(amount).Some?
    requires NumberReadsBack(env, env.parseNumber(amount).value)
    ensures reply == LimitSet(category, env.parseNumber(amount).value)
    ensures limitsAfter == match LimitsTable(limitRows, env)
                           case None => None
                           case Some(m) => Some(m[category := env.parseNumber(amount).value])
  {
    var bot := new Bot(env, sheet, limitRows);
    SplitTwiceOfJoin("/setlimit", category, amount);
    reply := bot.SetLimitCommand("/setlimit" + " " + category + " " + amount);
    AppendedLimitOverrides(limitRows, env, category, env.parseNumber(amount).value);
    limitsAfter := LimitsTable(bot.limitRows, env);
  }
}
