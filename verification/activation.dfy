/**
 * Where the tree views meet the registry: activating a branch item runs the
 * registered checkout handler with the item's argument.
 */
module Activation {
  import opened Wrappers
  import opened JsString
  import opened TreeItems
  import opened Providers
  import opened Registry

  /** The argument a handler receives when an item's command runs: its first
      argument, when that is text. */
  function FirstTextArgument(c: Command): Option<string> {
    if |c.arguments| > 0 && c.arguments[0].Text? then Some(c.arguments[0].text) else None
  }

  /** Activating an item built the way the branch view builds them (every
      item of `BranchItems`) runs the registered checkout handler with the
      item's label: a non-empty label is checked out without asking, and only
      an empty one (a line holding nothing but the marker and whitespace) falls
      back to the input box. */
  lemma ActivateBranchItem(item: GitItem, answer: Option<string>)
    requires item.command == Some(CheckoutCommand(item.caption))
    ensures item.command.value.command == Name(Checkout)
    ensures FirstTextArgument(item.command.value) == Some(item.caption)
    ensures item.caption != [] ==> PromptShown(Checkout, Some(item.caption)).None?
    ensures item.caption != [] ==> Sent(Checkout, Some(item.caption), answer) == ["git checkout " + item.caption]
    ensures item.caption == [] ==> PromptShown(Checkout, Some(item.caption)) == Some("Branch name")
  {
    CheckoutHandler(Some(item.caption), answer);
  }

  /** Clicking the i-th branch of a `* `/two-space listing checks out exactly that branch. */
  lemma ActivateListedBranch(names: seq<string>, current: int, i: int, answer: Option<string>)
    requires forall n :: n in names ==> n != [] && IsTrimmed(n) && '*' !in n && '\n' !in n
    requires 0 <= i < |names|
    ensures var items := BranchItems(BranchListing(names, current));
            && i < |items|
            && items[i].command.Some?
            && Sent(Checkout, FirstTextArgument(items[i].command.value), answer) == ["git checkout " + names[i]]
  {
    var items := BranchItems(BranchListing(names, current));
    BranchItemsOfListing(names, current);
    assert items[i].command == Some(CheckoutCommand(names[i]));
    assert FirstTextArgument(CheckoutCommand(names[i])) == Some(names[i]);
    CheckoutHandler(Some(names[i]), answer);
  }
}
