/** The story reader: a page cursor that the Previous and Next buttons move within the
    story's pages, and what the page shows (the picture, or the image description as a
    caption) with its `Page n of m` label. */
module StoryDisplay {
  import opened Wrappers
  import opened Strings

  /** The story as the reader receives it; `images` may be absent, and an element may be
      `null` where generation failed. */
  datatype DisplayedStory = DisplayedStory(
    title: string,
    pages: seq<string>,
    imagePrompts: seq<string>,
    images: Option<seq<Option<string>>>)

  /** What the illustration area shows. An index past the prompts shows an empty caption. */
  datatype Visual = ShowImage(url: string) | ShowCaption(caption: Option<string>)

  /** The largest page the cursor can reach: the last page, or 0 when there are none. */
  function LastPage(pageCount: nat): nat {
    if pageCount == 0 then 0 else pageCount - 1
  }

  /** `nextPage`: one page on, unless already on the last. */
  function NextPage(current: nat, pageCount: nat): (n: nat)
    ensures current < pageCount - 1 ==> n == current + 1
    ensures current >= pageCount - 1 ==> n == current
  {
    if current < pageCount - 1 then current + 1 else current
  }

  /** `prevPage`: one page back, unless already on the first. */
  function PrevPage(current: nat): (n: nat)
    ensures current > 0 ==> n == current - 1
    ensures current == 0 ==> n == 0
  {
    if current > 0 then current - 1 else current
  }

  /** Both moves keep the cursor within `0 ..= LastPage`. */
  lemma MovesStayInRange(current: nat, pageCount: nat)
    requires current <= LastPage(pageCount)
    ensures NextPage(current, pageCount) <= LastPage(pageCount)
    ensures PrevPage(current) <= LastPage(pageCount)
  {
  }

  /** Going back after a move forward returns to the same page. */
  lemma PrevUndoesNext(current: nat, pageCount: nat)
    requires current < pageCount - 1
    ensures PrevPage(NextPage(current, pageCount)) == current
  {
  }

  /** The page after `k` presses of Next from `start`. */
  function NextTimes(start: nat, pageCount: nat, k: nat): nat {
    if k == 0 then start else NextPage(NextTimes(start, pageCount, k - 1), pageCount)
  }

  /** From the first page, `k` presses of Next reach page `k`, or the last page when there
      are fewer. */
  lemma {:induction false} NextTimesFromStart(pageCount: nat, k: nat)
    ensures NextTimes(0, pageCount, k) == if k < LastPage(pageCount) then k else LastPage(pageCount)
  {
    if k > 0 {
      NextTimesFromStart(pageCount, k - 1);
    }
  }

  /** The Previous button is disabled exactly when pressing it would do nothing. */
  predicate PrevDisabled(current: nat) {
    current == 0
  }

  /** The Next button's `currentPage === pages.length - 1`. */
  predicate NextDisabled(current: nat, pageCount: nat) {
    current as int == pageCount as int - 1
  }

  /** Previous is disabled exactly when it would not move; so is Next, except that with no
      pages Next stays enabled and does nothing. */
  lemma DisabledMeansNoMove(current: nat, pageCount: nat)
    requires current <= LastPage(pageCount)
    ensures PrevDisabled(current) <==> PrevPage(current) == current
    ensures pageCount > 0 ==> (NextDisabled(current, pageCount) <==> NextPage(current, pageCount) == current)
    ensures pageCount == 0 ==> !NextDisabled(current, pageCount) && NextPage(current, pageCount) == current
  {
  }

  /** The illustration area: the page's image when the story has images and that one is
      non-empty, the description otherwise. */
  function VisualFor(story: DisplayedStory, page: nat): (v: Visual)
    ensures v.ShowImage? <==>
      story.images.Some? && page < |story.images.value| && IsSet(story.images.value[page])
    ensures v.ShowImage? ==> v.url == story.images.value[page].value
    ensures v.ShowCaption? && page < |story.imagePrompts| ==> v.caption == Some(story.imagePrompts[page])
    ensures v.ShowCaption? && page >= |story.imagePrompts| ==> v.caption.None?
  {
    if story.images.Some? && page < |story.images.value| && IsSet(story.images.value[page]) then
      ShowImage(story.images.value[page].value)
    else if page < |story.imagePrompts| then ShowCaption(Some(story.imagePrompts[page]))
    else ShowCaption(None)
  }

  /** `Page ${currentPage + 1} of ${story.pages.length}` */
  function PageLabel(current: nat, pageCount: nat): string {
    "Page " + NatToString(current + 1) + " of " + NatToString(pageCount)
  }

  /** Distinct pages have distinct labels. */
  lemma PageLabelInjective(a: nat, b: nat, pageCount: nat)
    requires PageLabel(a, pageCount) == PageLabel(b, pageCount)
    ensures a == b
  {
    var la := PageLabel(a, pageCount);
    var lb := PageLabel(b, pageCount);
    var tail := " of " + NatToString(pageCount);
    assert la == "Page " + NatToString(a + 1) + tail;
    assert lb == "Page " + NatToString(b + 1) + tail;
    assert |NatToString(a + 1)| == |NatToString(b + 1)|;
    assert NatToString(a + 1) == la[5..|la| - |tail|];
    assert NatToString(b + 1) == lb[5..|lb| - |tail|];
    NatToStringInjective(a + 1, b + 1);
  }

  /** The reader's state. */
  class StoryReader {
    const story: DisplayedStory
    var currentPage: nat

    predicate Valid()
      reads this
    {
      currentPage <= LastPage(|story.pages|)
    }

    constructor (story: DisplayedStory)
      ensures this.story == story && currentPage == 0 && Valid()
    {
      this.story := story;
      currentPage := 0;
    }

    method Next()
      requires Valid()
      modifies this
      ensures currentPage == NextPage(old(currentPage), |story.pages|)
      ensures Valid()
    {
      if currentPage < |story.pages| - 1 {
        currentPage := currentPage + 1;
      }
    }

    method Prev()
      requires Valid()
      modifies this
      ensures currentPage == PrevPage(old(currentPage))
      ensures Valid()
    {
      if currentPage > 0 {
        currentPage := currentPage - 1;
      }
    }

    /** What the current page shows, and its label. */
    method Render() returns (visual: Visual, text: Option<string>, pageLabel: string)
      requires Valid()
      ensures visual == VisualFor(story, currentPage)
      ensures |story.pages| > 0 ==> text == Some(story.pages[currentPage])
      ensures |story.pages| == 0 ==> text.None?
      ensures pageLabel == PageLabel(currentPage, |story.pages|)
    {
      visual := VisualFor(story, currentPage);
      text := if currentPage < |story.pages| then Some(story.pages[currentPage]) else None;
      pageLabel := PageLabel(currentPage, |story.pages|);
    }
  }
}
