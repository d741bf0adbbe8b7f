/** The single-expansion toggle shared by the project cards and the experience timeline:
    one nullable id names the expanded card, and clicking a card's chevron toggles it. */
module Expansion {
  import opened Wrappers
  import Seqs

  /** Card `id` renders its expanded content. */
  predicate IsExpanded(expanded: Option<string>, id: string) {
    expanded == Some(id)
  }

  /** The new expanded id after clicking the toggle of card `id`. */
  function Toggle(expanded: Option<string>, id: string): (r: Option<string>)
    ensures forall x {:trigger IsExpanded(r, x)} :: IsExpanded(r, x) <==> x == id && !IsExpanded(expanded, id)
    ensures r.None? <==> IsExpanded(expanded, id)
  {
    if expanded == Some(id) then None else Some(id)
  }

  /** Clicking the same card twice leaves it expanded if it was, and closes every card otherwise. */
  lemma ToggleTwice(expanded: Option<string>, id: string)
    ensures Toggle(Toggle(expanded, id), id) == if IsExpanded(expanded, id) then Some(id) else None
  {
  }

  /** How many of the cards with keys `ids` render their expanded content. */
  function ExpandedCards(ids: seq<string>, expanded: Option<string>): (n: nat)
    ensures n <= |ids|
    ensures n == 0 <==> forall i :: 0 <= i < |ids| ==> !IsExpanded(expanded, ids[i])
  {
    if ids == [] then 0
    else (if IsExpanded(expanded, ids[0]) then 1 else 0) + ExpandedCards(ids[1..], expanded)
  }

  /** The expanded cards are the cards whose key is the stored id. */
  lemma {:induction false} ExpandedCardsCountKey(ids: seq<string>, expanded: Option<string>)
    ensures ExpandedCards(ids, expanded) == match expanded
                                            case None => 0
                                            case Some(id) => Seqs.Count(ids, id)
  {
    if ids != [] {
      ExpandedCardsCountKey(ids[1..], expanded);
    }
  }

  /** With distinct keys a single stored id expands at most one card, and the initial null
      expands none. */
  lemma AtMostOneExpanded(ids: seq<string>, expanded: Option<string>)
    requires Seqs.Distinct(ids)
    ensures ExpandedCards(ids, expanded) <= 1
    ensures ExpandedCards(ids, None) == 0
  {
    ExpandedCardsCountKey(ids, expanded);
    if expanded.Some? {
      Seqs.DistinctCountsAtMostOne(ids, expanded.value);
    }
  }

  /** A toggle collapses every card other than the clicked one. */
  lemma ToggleCollapsesOthers(expanded: Option<string>, id: string, other: string)
    requires other != id
    ensures !IsExpanded(Toggle(expanded, id), other)
  {
  }
}
