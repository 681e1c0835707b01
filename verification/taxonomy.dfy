/** `CATEGORY_MAP`: the two-level category taxonomy, keys in their declared order. */
module Taxonomy {
  import opened Wrappers
  import opened Text

  /** The one category whose amounts are stored positive. */
  const Income: string := "прихід"

  /** `CATEGORY_MAP.keys()` in declaration order: the options offered when asking for a category. */
  const Names: seq<string> := [
    "продукти", "господарські товари", "ресторани", "кіно", "кав'ярня", "авто",
    "косметика", "краса", "одяг та взуття", "комуналка, мобільний, інтернет",
    "дні народження, свята", "здоров'я", "стрільба", "навчання", "таксі",
    "донати", "квіти", "батькам", "техніка", "прихід"
  ]

  /**
    `CATEGORY_MAP.get(name)`: the subcategory list of a known category
    (empty for most of them), None for a name that is not a key.
  */
  function Subcategories(name: string): (r: Option<seq<string>>)
    ensures r.Some? <==> name in Names
  {
    match name
    case "авто" =>
      Some(["заправка", "техобслуговування", "мийка", "стоянка", "паркування", "кредит", "страхування"])
    case "здоров'я" => Some(["бади", "лікарі", "ліки", "психолог", "масаж"])
    case "стрільба" => Some(["патрони", "внески", "запчастини"])
    case "навчання" => Some(["школа", "англійська", "інститут", "інше"])
    case _ => if name in Names then Some([]) else None
  }

  /** `name in CATEGORY_MAP`. */
  predicate IsKnown(name: string) {
    Subcategories(name).Some?
  }

  /** The keys are distinct, as those of a Python dictionary are. */
  lemma NamesDistinct()
    ensures forall i, j :: 0 <= i < j < |Names| ==> Names[i] != Names[j]
  {
  }

  /** Income is a category without subcategories. */
  lemma IncomeHasNoSubcategories()
    ensures Subcategories(Income) == Some([])
  {
  }

  /** Exactly four categories ask for a subcategory. */
  lemma CategoriesWithSubcategories(name: string)
    ensures (Subcategories(name).Some? && Subcategories(name).value != []) <==>
              name in ["авто", "здоров'я", "стрільба", "навчання"]
  {
  }

  /** No category name is an amount, so a number typed while a category is awaited is an unknown category. */
  lemma NoCategoryIsAnAmount(name: string)
    ensures IsKnown(name) ==> !IsAmountText(name)
  {
    if IsKnown(name) {
      assert forall i :: 0 <= i < |Names| ==> |Names[i]| > 0 && Names[i][0] != '.' && !IsDigit(Names[i][0]);
      NotAmountByFirstChar(name);
    }
  }
}
