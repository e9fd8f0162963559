/** The ingredient badges of a cart line (app/components/ingredient-selector.tsx): what each
    badge shows, how a click cycles its modification, and what reaches the parent. */
module IngredientSelector {
  import opened MenuTypes

  /** The badge variants the selector picks from. */
  datatype Variant = Destructive | Secondary | Outline

  /** One call of `onModificationChange(ingredient, modification)`. */
  datatype ModificationChange = ModificationChange(ingredient: string, modification: IngredientModification)

  /** The modification of the first entry named `ingredient`, or `Regular` when there is none. */
  function GetModification(modifications: seq<CartItemIngredient>, ingredient: string): (m: IngredientModification)
    ensures (forall i :: 0 <= i < |modifications| ==> modifications[i].name != ingredient) ==> m == Regular
    ensures forall i ::
              (0 <= i < |modifications| && modifications[i].name == ingredient &&
               forall j :: 0 <= j < i ==> modifications[j].name != ingredient)
              ==> m == modifications[i].modification
  {
    if modifications == [] then Regular
    else if modifications[0].name == ingredient then modifications[0].modification
    else
      var rest := modifications[1..];
      var m := GetModification(rest, ingredient);
      assert forall i :: 0 <= i < |rest| ==> rest[i] == modifications[i + 1];
      m
  }

  /** With the default (empty) list every ingredient reads `Regular`. */
  lemma DefaultIsRegular(ingredient: string)
    ensures GetModification([], ingredient) == Regular
  {
  }

  /** The cycle `regular -> removed -> extra -> regular`. */
  function NextModification(current: IngredientModification): (next: IngredientModification)
    ensures next != current
  {
    match current
    case Regular => Removed
    case Removed => Extra
    case Extra => Regular
  }

  /** Three steps of the cycle come back to the start, and every value is reached. */
  lemma CycleHasPeriodThree(m: IngredientModification)
    ensures NextModification(NextModification(NextModification(m))) == m
    ensures NextModification(NextModification(m)) != m
  {
  }

  /** `cycleModification(ingredient)`: exactly one call to the parent, naming the same ingredient
      and carrying the next value of the cycle. */
  function CycleModification(modifications: seq<CartItemIngredient>, ingredient: string): (calls: seq<ModificationChange>)
    ensures |calls| == 1 && calls[0].ingredient == ingredient
    ensures calls[0].modification == NextModification(GetModification(modifications, ingredient))
    ensures calls[0].modification != GetModification(modifications, ingredient)
  {
    [ModificationChange(ingredient, NextModification(GetModification(modifications, ingredient)))]
  }

  /** A click on the badge of `ingredient`: a disabled badge has no handler, so nothing happens. */
  function ClickBadge(modifications: seq<CartItemIngredient>, ingredient: string, disabled: bool): (calls: seq<ModificationChange>)
    ensures disabled ==> calls == []
    ensures !disabled ==> calls == CycleModification(modifications, ingredient)
  {
    if disabled then [] else CycleModification(modifications, ingredient)
  }

  /** `getVariant`: removed reads destructive by day and outline by night, extra reads secondary,
      and regular reads outline. */
  function GetVariant(modification: IngredientModification, isNightMode: bool): (v: Variant)
    ensures v == Destructive <==> modification == Removed && !isNightMode
    ensures v == Secondary <==> modification == Extra
    ensures modification == Regular ==> v == Outline
  {
    if isNightMode then
      match modification
      case Removed => Outline
      case Extra => Secondary
      case _ => Outline
    else
      match modification
      case Removed => Destructive
      case Extra => Secondary
      case _ => Outline
  }
}
