/** The suggestion chips under the greeting: a fixed list of eight, of which a prefix is shown. */
module Suggestion {
  /** Tailwind's `lg` breakpoint in pixels, as `handleResize` tests it. */
  const LargeScreenWidth := 1024

  /** One chip: the name of its icon component and its title. */
  datatype SuggestionItem = SuggestionItem(icon: string, title: string)

  /** `suggestionContent`, in display order. */
  const SuggestionContent: seq<SuggestionItem> := [
    SuggestionItem("BiMessage", "Get advice"),
    SuggestionItem("BiCode", "Write a code"),
    SuggestionItem("BiEditAlt", "Creative poem"),
    SuggestionItem("MdOutlineNotes", "Summarize text"),
    SuggestionItem("BsCpu", "Tech news"),
    SuggestionItem("BiMoney", "Finance News"),
    SuggestionItem("BiMath", "Math"),
    SuggestionItem("BiAtom", "Physics")
  ]

  /** `xs.slice(0, n)`: the first `n` items, or all of them when there are fewer. */
  function SlicePrefix<T>(xs: seq<T>, n: nat): (r: seq<T>)
    ensures |r| == if n <= |xs| then n else |xs|
    ensures r <= xs
  {
    if n <= |xs| then xs[..n] else xs
  }

  /** The chip count `handleResize` picks: 8 on a desktop-wide window, 6 otherwise. */
  function VisibleCount(width: int): (n: nat)
    ensures n == 8 || n == 6
    ensures n == 8 <==> width >= LargeScreenWidth
  {
    if width >= LargeScreenWidth then 8 else 6
  }

  function Titles(items: seq<SuggestionItem>): (titles: seq<string>)
    ensures |titles| == |items|
    ensures forall k :: 0 <= k < |items| ==> titles[k] == items[k].title
  {
    seq(|items|, k requires 0 <= k < |items| => items[k].title)
  }

  class SuggestionList {
    var visibleItems: nat

    ghost predicate Valid()
      reads this
    {
      visibleItems == 8 || visibleItems == 6
    }

    /** `useState(8)`. */
    constructor ()
      ensures Valid() && visibleItems == 8
    {
      visibleItems := 8;
    }

    /** `handleResize`, run once on mount and on every window resize. */
    method HandleResize(width: int)
      modifies this
      ensures Valid() && visibleItems == VisibleCount(width)
    {
      visibleItems := VisibleCount(width);
    }

    /** The chips rendered: the first `visibleItems` entries of the list, in order. */
    function Displayed(): (shown: seq<SuggestionItem>)
      requires Valid()
      reads this
      ensures |shown| == visibleItems
      ensures shown <= SuggestionContent
    {
      SlicePrefix(SuggestionContent, visibleItems)
    }
  }

  /** The list holds exactly these eight chips, in this order. */
  lemma ContentHasEight()
    ensures |SuggestionContent| == 8
    ensures Titles(SuggestionContent)
         == ["Get advice", "Write a code", "Creative poem", "Summarize text",
             "Tech news", "Finance News", "Math", "Physics"]
  {
  }

  /** What a window of a given width ends up showing after the resize check. */
  lemma ShownAfterResize(width: int)
    ensures width >= LargeScreenWidth ==> SlicePrefix(SuggestionContent, VisibleCount(width)) == SuggestionContent
    ensures width < LargeScreenWidth ==>
              Titles(SlicePrefix(SuggestionContent, VisibleCount(width)))
              == ["Get advice", "Write a code", "Creative poem", "Summarize text", "Tech news", "Finance News"]
  {
    if width < LargeScreenWidth {
      var shown := SlicePrefix(SuggestionContent, 6);
      assert shown == SuggestionContent[..6];
    }
  }
}
