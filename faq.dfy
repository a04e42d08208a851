/**
 * The questions-and-answers page: a list of questions, each of which
 * unfolds its answer when clicked, one at a time.
 */
module Faq {
  import opened Wrappers

  /** How many questions the page lists. */
  const FAQ_COUNT := 6

  /** The chevron's rotation, in degrees, on an open and on a closed entry. */
  const OPEN_ROTATION := 180
  const CLOSED_ROTATION := 0

  /** The answers on show when `openIndex` is the open entry, in list order. */
  function ShownAnswers(openIndex: Option<nat>, n: nat): (shown: seq<nat>)
    ensures shown == if openIndex.Some? && openIndex.value < n then [openIndex.value] else []
  {
    if n == 0 then []
    else ShownAnswers(openIndex, n - 1) + (if openIndex == Some(n - 1) then [n - 1] else [])
  }

  /** The rotation of entry `index`'s chevron. */
  function ChevronRotation(openIndex: Option<nat>, index: nat): (degrees: int)
    ensures degrees == OPEN_ROTATION <==> openIndex == Some(index)
    ensures degrees == OPEN_ROTATION || degrees == CLOSED_ROTATION
  {
    if openIndex == Some(index) then OPEN_ROTATION else CLOSED_ROTATION
  }

  class FaqView {
    var openIndex: Option<nat>

    ghost predicate Valid()
      reads this
    {
      openIndex.Some? ==> openIndex.value < FAQ_COUNT
    }

    constructor()
      ensures Valid() && openIndex == None
    {
      openIndex := None;
    }

    /** Clicking an entry opens it, closing any other; clicking the open one closes it. */
    method Click(index: nat)
      requires Valid() && index < FAQ_COUNT
      modifies this
      ensures Valid()
      ensures old(openIndex) == Some(index) ==> openIndex == None
      ensures old(openIndex) != Some(index) ==> openIndex == Some(index)
    {
      if openIndex == Some(index) {
        openIndex := None;
      } else {
        openIndex := Some(index);
      }
    }
  }

  /** After any click, the clicked entry's answer is on show exactly when it was closed before. */
  lemma ClickFlipsOnlyTheClickedEntry(before: Option<nat>, index: nat, other: nat)
    requires index < FAQ_COUNT && other < FAQ_COUNT && other != index
    ensures var after := if before == Some(index) then None else Some(index);
      (index in ShownAnswers(after, FAQ_COUNT) <==> index !in ShownAnswers(before, FAQ_COUNT))
      && other !in ShownAnswers(after, FAQ_COUNT)
  {
  }
}
