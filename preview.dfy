/** The "first three, then +N" preview of a list of tags or technologies:
    `items.slice(0, 3)` followed by a `+{items.length - 3}` badge when `items.length > 3`. */
module Preview {
  import opened Wrappers

  /** How many items a card shows before the badge. */
  const Shown: nat := 3

  /** What a card renders: the leading items, and the number on the badge if there is one. */
  datatype Truncated<T> = Truncated(shown: seq<T>, badge: Option<nat>)

  function Truncate<T>(items: seq<T>): (t: Truncated<T>)
    ensures |t.shown| == if |items| <= Shown then |items| else Shown
    ensures t.shown <= items
    ensures t.badge.Some? <==> |items| > Shown
    ensures t.badge.Some? ==> t.badge.value > 0 && |t.shown| + t.badge.value == |items|
  {
    if |items| > Shown then Truncated(items[..Shown], Some(|items| - Shown))
    else Truncated(items, None)
  }

  /** The preview loses nothing: the shown items followed by the hidden ones are the list,
      and the badge counts exactly the hidden ones. */
  lemma PreviewAccountsForAll<T>(items: seq<T>)
    ensures Truncate(items).shown + items[|Truncate(items).shown|..] == items
    ensures |items[|Truncate(items).shown|..]| == match Truncate(items).badge
                                                 case None => 0
                                                 case Some(n) => n
  {
    var t := Truncate(items);
    assert t.shown == items[..|t.shown|];
  }
}
