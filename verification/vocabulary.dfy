/**
 Values shared by the whole model: optional columns, the action vocabulary of the fixed
 rules, and the text test used by every command's input check.
 */
module Vocabulary {

  datatype Option<+T> = None | Some(value: T)

  datatype BusinessAction = Clearance | StopLoss | Observe | Invest | Maintain

  datatype InventoryAction = Restock | NoRestock | ProhibitRestock

  /** A loss-making action: it always comes with a ban on restocking. */
  predicate LossAction(action: BusinessAction) {
    action.Clearance? || action.StopLoss?
  }

  /** The business action is present, and restocking is prohibited exactly for loss actions. */
  predicate Coupled(business: Option<BusinessAction>, inventory: Option<InventoryAction>) {
    business.Some? && (LossAction(business.value) <==> inventory == Some(ProhibitRestock))
  }

  predicate White(c: char) {
    c == ' ' || c == '\t' || c == '\n' || c == '\r'
  }

  /** The text is empty once trimmed. */
  predicate Blank(text: string) {
    forall i :: 0 <= i < |text| ==> White(text[i])
  }

  /** A text is blank when nothing but spaces, tabs and line ends occurs in it. */
  lemma BlankTexts(text: string)
    ensures Blank(text) <==> forall c :: c in text ==> c in [' ', '\t', '\n', '\r']
  {
    assert forall i :: 0 <= i < |text| ==> text[i] in text;
  }

  /** The position of the first wanted item. */
  function First<T>(items: seq<T>, wanted: T -> bool): (found: Option<nat>)
    ensures found.None? ==> forall i :: 0 <= i < |items| ==> !wanted(items[i])
    ensures found.Some? ==> found.value < |items| && wanted(items[found.value])
    ensures found.Some? ==> forall i :: 0 <= i < found.value ==> !wanted(items[i])
  {
    if |items| == 0 then None
    else
      var last := |items| - 1;
      var rest := First(items[..last], wanted);
      if rest.Some? then rest else if wanted(items[last]) then Some(last) else None
  }
}
