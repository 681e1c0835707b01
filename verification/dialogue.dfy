/**
  The decisions `handle_message` takes on a normalised message: the reading of
  a period choice after /report, and the entry-capture step
  Idle -> await_category -> (await_subcategory) -> commit.
*/
module Dialogue {
  import opened Wrappers
  import opened Clock
  import opened Text
  import opened Taxonomy
  import opened Ledger

  /** `pending_state[user]`: the step reached and the amount text typed (and the category chosen). */
  datatype Pending = AwaitCategory(amount: string) | AwaitSubcategory(amount: string, category: string)

  /** What a pending entry always satisfies: its amount was recognised, its category asks for a subcategory. */
  predicate WellFormedPending(p: Pending) {
    && IsAmountText(p.amount)
    && (p.AwaitSubcategory? ==> Subcategories(p.category).Some? && Subcategories(p.category).value != [])
  }

  /** What the capture dialogue does with a message. */
  datatype Capture =
    | Help                                                    // not an amount while idle
    | StartEntry(amount: string)                              // store await_category
    | Reprompt                                                // not a category: ask again
    | AskSubcategory(amount: string, category: string)        // store await_subcategory
    | Commit(amount: string, category: string, sub: string)   // call save_transaction

  /** The capture step of `handle_message` for a user in `state` (None when idle) sending `text`. */
  function CaptureStep(state: Option<Pending>, text: string): (c: Capture)
    ensures c.StartEntry? <==> state.None? && IsAmountText(text)
    ensures c.Help? <==> state.None? && !IsAmountText(text)
    ensures c.Reprompt? <==> state.Some? && state.value.AwaitCategory? && !IsKnown(text)
    ensures c.Commit? || c.AskSubcategory? ==> state.Some? && c.amount == state.value.amount
  {
    match state
    case None => if IsAmountText(text) then StartEntry(text) else Help
    case Some(AwaitCategory(amount)) =>
      (match Subcategories(text)
       case None => Reprompt
       case Some(subs) => if subs != [] then AskSubcategory(amount, text) else Commit(amount, text, ""))
    case Some(AwaitSubcategory(amount, category)) => Commit(amount, category, text)
  }

  /**
    The forward transitions of an open entry: awaiting a category, a category
    with no subcategories is committed at once with subcategory "" and one
    with subcategories has them asked for; awaiting a subcategory, whatever
    is typed is committed as the subcategory.
  */
  lemma ForwardTransitions(amount: string, category: string, text: string)
    ensures Subcategories(text) == Some([]) ==> CaptureStep(Some(AwaitCategory(amount)), text) == Commit(amount, text, "")
    ensures Subcategories(text).Some? && Subcategories(text).value != [] ==>
              CaptureStep(Some(AwaitCategory(amount)), text) == AskSubcategory(amount, text)
    ensures CaptureStep(Some(AwaitSubcategory(amount, category)), text) == Commit(amount, category, text)
  {
  }

  /**
    From idle, a recognised amount opens an entry and nothing is committed;
    a number typed while a category is awaited is an unknown category, so the
    entry is kept as it was.
  */
  lemma AmountHandling(text: string, amount: string)
    ensures IsAmountText(text) ==> CaptureStep(None, text) == StartEntry(text)
    ensures IsAmountText(text) ==> CaptureStep(Some(AwaitCategory(amount)), text) == Reprompt
  {
    NoCategoryIsAnAmount(text);
  }

  /**
    A category with subcategories is never committed straight from the
    category choice: a commit of it comes from await_subcategory, with the
    message as subcategory, unchecked. A commit with no subcategory step
    names a category that has none.
  */
  lemma NoCommitBeforeSubcategory(state: Option<Pending>, text: string)
    requires CaptureStep(state, text).Commit?
    ensures var c := CaptureStep(state, text);
            || (state == Some(AwaitSubcategory(c.amount, c.category)) && c.sub == text)
            || (state == Some(AwaitCategory(c.amount)) && c.category == text && c.sub == "" && Subcategories(text) == Some([]))
  {
  }

  /**
    The capture step keeps pending entries well formed, and what it commits has
    a recognised amount (so `float()` cannot raise) and a known category.
  */
  lemma CaptureStepWellFormed(state: Option<Pending>, text: string)
    requires state.Some? ==> WellFormedPending(state.value)
    ensures var c := CaptureStep(state, text);
            && (c.StartEntry? ==> WellFormedPending(AwaitCategory(c.amount)))
            && (c.AskSubcategory? ==> WellFormedPending(AwaitSubcategory(c.amount, c.category)))
            && (c.Commit? ==> IsAmountText(c.amount) && IsKnown(c.category))
  {
  }

  /** How the message after /report is read. */
  datatype PeriodChoice =
    | Period(start: DateTime, end: DateTime)   // send_report(start, end)
    | NoSalaryDate                             // "від зп" with no recorded income
    | BadDate                                  // "від <date>" that does not parse
    | NotAPeriod                               // falls through to entry capture

  /** The period choice of `handle_message` for a user awaiting one. */
  function ChoosePeriod(text: string, now: DateTime, lastSalary: Option<DateTime>, env: Env): (p: PeriodChoice)
    ensures p.Period? ==> p.end == now
    ensures p.NotAPeriod? <==> text != "з початку місяця" && text != "від зп" && !StartsWith(text, "від ")
    ensures text == "з початку місяця" ==> p == Period(MonthStart(now), now)
    ensures text == "від зп" ==> p == if lastSalary.Some? then Period(lastSalary.value, now) else NoSalaryDate
  {
    if text == "з початку місяця" then Period(MonthStart(now), now)
    else if text == "від зп" then
      (if lastSalary.Some? then Period(lastSalary.value, now) else NoSalaryDate)
    else if StartsWith(text, "від ") then
      (match env.parseDate(RemoveAll(text, "від "))
       case Some(start) => Period(start, now)
       case None => BadDate)
    else NotAPeriod
  }

  /** "від <date>" reports from the parsed date to now, or gives the format hint when the date does not parse. */
  lemma SinceDate(d: string, now: DateTime, lastSalary: Option<DateTime>, env: Env)
    requires d != "зп" && !Occurs(d, "від ")
    ensures ChoosePeriod("від " + d, now, lastSalary, env) ==
              match env.parseDate(d)
              case Some(start) => Period(start, now)
              case None => BadDate
  {
    var text := "від " + d;
    assert text[..|"від "|] == "від ";
    assert text != "з початку місяця" by { assert text[0] != "з початку місяця"[0]; }
    assert text[4..] == d;
    RemoveAllPrefix(d, "від ");
  }
}
