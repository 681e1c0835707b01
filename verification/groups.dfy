/**
  The `expenses` dictionary of `send_report`: category -> (subcategory -> sum),
  both levels in insertion order, as Python dictionaries keep them. It is an
  association list; `setdefault(k, 0)` followed by `+=` is `AddToSubs`.
*/
module Groups {
  import opened Wrappers

  datatype SubTotal = SubTotal(sub: string, total: real)
  datatype Group = Group(category: string, subs: seq<SubTotal>)

  /** `subs.get(sub)`. */
  function FindSub(subs: seq<SubTotal>, sub: string): (r: Option<real>)
    ensures r.Some? ==> subs != []
  {
    if subs == [] then None
    else if subs[0].sub == sub then Some(subs[0].total)
    else FindSub(subs[1..], sub)
  }

  /** `subs.setdefault(sub, 0); subs[sub] += amount`. */
  function AddToSubs(subs: seq<SubTotal>, sub: string, amount: real): (r: seq<SubTotal>)
    ensures |r| == if FindSub(subs, sub).Some? then |subs| else |subs| + 1
  {
    if subs == [] then [SubTotal(sub, amount)]
    else if subs[0].sub == sub then [subs[0].(total := subs[0].total + amount)] + subs[1..]
    else [subs[0]] + AddToSubs(subs[1..], sub, amount)
  }

  /** `expenses.get(category)`. */
  function FindGroup(groups: seq<Group>, category: string): (r: Option<seq<SubTotal>>)
    ensures r.Some? ==> groups != []
  {
    if groups == [] then None
    else if groups[0].category == category then Some(groups[0].subs)
    else FindGroup(groups[1..], category)
  }

  /** `expenses.setdefault(category, {}).setdefault(sub, 0)` followed by `expenses[category][sub] += amount`. */
  function AddExpense(groups: seq<Group>, category: string, sub: string, amount: real): (r: seq<Group>)
    ensures |r| == if FindGroup(groups, category).Some? then |groups| else |groups| + 1
  {
    if groups == [] then [Group(category, [SubTotal(sub, amount)])]
    else if groups[0].category == category then [groups[0].(subs := AddToSubs(groups[0].subs, sub, amount))] + groups[1..]
    else [groups[0]] + AddExpense(groups[1..], category, sub, amount)
  }

  /** `expenses[category][sub]`, None where either key is missing. */
  function Lookup(groups: seq<Group>, category: string, sub: string): Option<real> {
    FindSub(FindGroup(groups, category).GetOr([]), sub)
  }

  /** A subcategory lookup fails exactly when no entry has that subcategory. */
  lemma {:induction false} FindSubNone(subs: seq<SubTotal>, sub: string)
    ensures FindSub(subs, sub).None? <==> forall j :: 0 <= j < |subs| ==> subs[j].sub != sub
  {
    if subs != [] {
      FindSubNone(subs[1..], sub);
      assert forall j :: 1 <= j < |subs| ==> subs[j] == subs[1..][j - 1];
    }
  }

  /** A category lookup fails exactly when no entry has that category. */
  lemma {:induction false} FindGroupNone(groups: seq<Group>, category: string)
    ensures FindGroup(groups, category).None? <==> forall i :: 0 <= i < |groups| ==> groups[i].category != category
  {
    if groups != [] {
      FindGroupNone(groups[1..], category);
      assert forall i :: 1 <= i < |groups| ==> groups[i] == groups[1..][i - 1];
    }
  }

  /** `sum(subs.values())`. */
  function SubsTotal(subs: seq<SubTotal>): real {
    if subs == [] then 0.0 else subs[0].total + SubsTotal(subs[1..])
  }

  /** The signed total of one category, the key the report sorts by. */
  function GroupTotal(g: Group): real {
    SubsTotal(g.subs)
  }

  /** `sum(sum(v.values()) for v in expenses.values())`. */
  function TotalOf(groups: seq<Group>): real {
    if groups == [] then 0.0 else GroupTotal(groups[0]) + TotalOf(groups[1..])
  }

  /** The dictionary invariant: keys are distinct at both levels, and no category is empty. */
  ghost predicate WellFormed(groups: seq<Group>) {
    CategoriesDistinct(groups) && EntriesWellFormed(groups)
  }

  ghost predicate CategoriesDistinct(groups: seq<Group>) {
    forall i, j :: 0 <= i < j < |groups| ==> groups[i].category != groups[j].category
  }

  ghost predicate EntriesWellFormed(groups: seq<Group>) {
    forall i :: 0 <= i < |groups| ==> |groups[i].subs| > 0 && DistinctSubcategories(groups[i].subs)
  }

  ghost predicate DistinctSubcategories(subs: seq<SubTotal>) {
    forall i, j :: 0 <= i < j < |subs| ==> subs[i].sub != subs[j].sub
  }

  /** Adding to a subcategory changes that entry only, creating it at 0 when missing. */
  lemma {:induction false} FindSubAfterAdd(subs: seq<SubTotal>, sub: string, amount: real, x: string)
    ensures FindSub(AddToSubs(subs, sub, amount), x) ==
              if x == sub then Some(FindSub(subs, sub).GetOr(0.0) + amount) else FindSub(subs, x)
  {
    if subs == [] {
      assert AddToSubs(subs, sub, amount) == [SubTotal(sub, amount)];
    } else if subs[0].sub == sub {
      var r := [subs[0].(total := subs[0].total + amount)] + subs[1..];
      assert AddToSubs(subs, sub, amount) == r;
      assert r[0].sub == sub && r[1..] == subs[1..];
      if x == sub {
        assert FindSub(r, x) == Some(subs[0].total + amount);
      } else {
        assert FindSub(r, x) == FindSub(subs[1..], x) == FindSub(subs, x);
      }
    } else {
      var rest := AddToSubs(subs[1..], sub, amount);
      var r := [subs[0]] + rest;
      assert AddToSubs(subs, sub, amount) == r;
      assert r[0] == subs[0] && r[1..] == rest;
      FindSubAfterAdd(subs[1..], sub, amount, x);
      assert FindSub(subs, sub) == FindSub(subs[1..], sub);
      if x == subs[0].sub {
        assert FindSub(r, x) == Some(subs[0].total) == FindSub(subs, x);
      } else {
        assert FindSub(r, x) == FindSub(rest, x);
        assert FindSub(subs, x) == FindSub(subs[1..], x);
      }
    }
  }

  /** Adding to a subcategory keeps the subcategory keys distinct. */
  lemma AddToSubsKeepsKeysDistinct(subs: seq<SubTotal>, sub: string, amount: real)
    requires DistinctSubcategories(subs)
    ensures DistinctSubcategories(AddToSubs(subs, sub, amount))
  {
    AddToSubsKeepsOrder(subs, sub, amount);
    FindSubNone(subs, sub);
  }

  lemma {:induction false} SubsTotalAfterAdd(subs: seq<SubTotal>, sub: string, amount: real)
    ensures SubsTotal(AddToSubs(subs, sub, amount)) == SubsTotal(subs) + amount
  {
    if subs != [] && subs[0].sub != sub {
      SubsTotalAfterAdd(subs[1..], sub, amount);
    }
  }

  lemma {:induction false} FindGroupAfterAdd(groups: seq<Group>, category: string, sub: string, amount: real, c: string)
    ensures FindGroup(AddExpense(groups, category, sub, amount), c) ==
              if c == category then Some(AddToSubs(FindGroup(groups, category).GetOr([]), sub, amount))
              else FindGroup(groups, c)
  {
    if groups != [] && groups[0].category != category {
      FindGroupAfterAdd(groups[1..], category, sub, amount, c);
    }
  }

  /** Adding an expense changes the one (category, subcategory) entry it names, and nothing else. */
  lemma LookupAfterAdd(groups: seq<Group>, category: string, sub: string, amount: real, c: string, l: string)
    ensures Lookup(AddExpense(groups, category, sub, amount), c, l) ==
              if c == category && l == sub then Some(Lookup(groups, category, sub).GetOr(0.0) + amount)
              else Lookup(groups, c, l)
  {
    var r := AddExpense(groups, category, sub, amount);
    FindGroupAfterAdd(groups, category, sub, amount, c);
    if c == category {
      var subs := FindGroup(groups, category).GetOr([]);
      assert FindGroup(r, c).GetOr([]) == AddToSubs(subs, sub, amount);
      FindSubAfterAdd(subs, sub, amount, l);
    } else {
      assert FindGroup(r, c) == FindGroup(groups, c);
    }
  }

  /** Adding an expense keeps the dictionary invariant. */
  lemma AddExpenseKeepsWellFormed(groups: seq<Group>, category: string, sub: string, amount: real)
    requires WellFormed(groups)
    ensures WellFormed(AddExpense(groups, category, sub, amount))
  {
    AddExpenseKeepsCategoriesDistinct(groups, category, sub, amount);
    AddExpenseKeepsEntriesWellFormed(groups, category, sub, amount);
  }

  lemma AddExpenseKeepsCategoriesDistinct(groups: seq<Group>, category: string, sub: string, amount: real)
    requires CategoriesDistinct(groups)
    ensures CategoriesDistinct(AddExpense(groups, category, sub, amount))
  {
    AddExpenseKeepsOrder(groups, category, sub, amount);
    FindGroupNone(groups, category);
  }

  lemma {:induction false} AddExpenseKeepsEntriesWellFormed(groups: seq<Group>, category: string, sub: string, amount: real)
    requires EntriesWellFormed(groups)
    ensures EntriesWellFormed(AddExpense(groups, category, sub, amount))
  {
    if groups == [] {
    } else if groups[0].category == category {
      AddToSubsKeepsKeysDistinct(groups[0].subs, sub, amount);
      var r := [groups[0].(subs := AddToSubs(groups[0].subs, sub, amount))] + groups[1..];
      assert r == AddExpense(groups, category, sub, amount);
      forall i | 1 <= i < |r| ensures r[i] == groups[i] {
        assert r[i] == groups[1..][i - 1];
      }
    } else {
      var tail := groups[1..];
      var rt := AddExpense(tail, category, sub, amount);
      AddExpenseKeepsEntriesWellFormed(tail, category, sub, amount);
      var r := [groups[0]] + rt;
      assert r == AddExpense(groups, category, sub, amount);
      forall i | 1 <= i < |r| ensures r[i] == rt[i - 1] {
      }
    }
  }

  lemma {:induction false} TotalOfAfterAdd(groups: seq<Group>, category: string, sub: string, amount: real)
    ensures TotalOf(AddExpense(groups, category, sub, amount)) == TotalOf(groups) + amount
  {
    if groups == [] {
      assert SubsTotal([SubTotal(sub, amount)]) == amount + SubsTotal([]);
    } else if groups[0].category == category {
      SubsTotalAfterAdd(groups[0].subs, sub, amount);
    } else {
      TotalOfAfterAdd(groups[1..], category, sub, amount);
    }
  }

  /** With distinct keys, every stored (category, subcategory, total) is what a lookup returns. */
  lemma {:induction false} LookupFindsStored(groups: seq<Group>, i: int, j: int)
    requires WellFormed(groups)
    requires 0 <= i < |groups| && 0 <= j < |groups[i].subs|
    ensures Lookup(groups, groups[i].category, groups[i].subs[j].sub) == Some(groups[i].subs[j].total)
  {
    var c := groups[i].category;
    if i == 0 {
      assert FindGroup(groups, c) == Some(groups[0].subs);
      FindSubStored(groups[0].subs, j);
    } else {
      assert groups[0].category != c;
      assert WellFormed(groups[1..]);
      LookupFindsStored(groups[1..], i - 1, j);
    }
  }

  lemma {:induction false} FindSubStored(subs: seq<SubTotal>, j: int)
    requires DistinctSubcategories(subs) && 0 <= j < |subs|
    ensures FindSub(subs, subs[j].sub) == Some(subs[j].total)
  {
    if j > 0 {
      assert subs[0].sub != subs[j].sub;
      FindSubStored(subs[1..], j - 1);
    }
  }

  /** Whatever a lookup finds is stored at some position. */
  lemma {:induction false} LookupIsStored(groups: seq<Group>, c: string, l: string)
    requires Lookup(groups, c, l).Some?
    ensures exists i, j :: 0 <= i < |groups| && 0 <= j < |groups[i].subs| &&
              groups[i].category == c && groups[i].subs[j] == SubTotal(l, Lookup(groups, c, l).value)
  {
    if groups[0].category == c {
      FindSubIsStored(groups[0].subs, l);
      var j :| 0 <= j < |groups[0].subs| && groups[0].subs[j] == SubTotal(l, Lookup(groups, c, l).value);
      assert groups[0].category == c && groups[0].subs[j] == SubTotal(l, Lookup(groups, c, l).value);
    } else {
      LookupIsStored(groups[1..], c, l);
      var i, j :| 0 <= i < |groups[1..]| && 0 <= j < |groups[1..][i].subs| &&
                  groups[1..][i].category == c && groups[1..][i].subs[j] == SubTotal(l, Lookup(groups, c, l).value);
      assert groups[i + 1] == groups[1..][i];
    }
  }

  lemma {:induction false} FindSubIsStored(subs: seq<SubTotal>, l: string)
    requires FindSub(subs, l).Some?
    ensures exists j :: 0 <= j < |subs| && subs[j] == SubTotal(l, FindSub(subs, l).value)
  {
    if subs[0].sub != l {
      FindSubIsStored(subs[1..], l);
      var j :| 0 <= j < |subs[1..]| && subs[1..][j] == SubTotal(l, FindSub(subs, l).value);
      assert subs[j + 1] == subs[1..][j];
    } else {
      assert subs[0] == SubTotal(l, FindSub(subs, l).value);
    }
  }

  /** Dictionaries keep insertion order: a new subcategory goes last, and adding to an existing one moves nothing. */
  lemma {:induction false} AddToSubsKeepsOrder(subs: seq<SubTotal>, sub: string, amount: real)
    ensures FindSub(subs, sub).None? ==> AddToSubs(subs, sub, amount) == subs + [SubTotal(sub, amount)]
    ensures FindSub(subs, sub).Some? ==>
              forall j :: 0 <= j < |subs| ==> AddToSubs(subs, sub, amount)[j].sub == subs[j].sub
  {
    if subs != [] && subs[0].sub != sub {
      AddToSubsKeepsOrder(subs[1..], sub, amount);
      assert [subs[0]] + (subs[1..] + [SubTotal(sub, amount)]) == subs + [SubTotal(sub, amount)];
    }
  }

  /** A new category goes last, and adding under an existing one moves no category. */
  lemma {:induction false} AddExpenseKeepsOrder(groups: seq<Group>, category: string, sub: string, amount: real)
    ensures FindGroup(groups, category).None? ==>
              AddExpense(groups, category, sub, amount) == groups + [Group(category, [SubTotal(sub, amount)])]
    ensures FindGroup(groups, category).Some? ==>
              |AddExpense(groups, category, sub, amount)| == |groups| &&
              forall i :: 0 <= i < |groups| ==> AddExpense(groups, category, sub, amount)[i].category == groups[i].category
  {
    if groups != [] && groups[0].category != category {
      AddExpenseKeepsOrder(groups[1..], category, sub, amount);
      var g := Group(category, [SubTotal(sub, amount)]);
      assert [groups[0]] + (groups[1..] + [g]) == groups + [g];
    }
  }
}
