/** `verify_page_content` of gif_version.py: a page is taken to have
  * loaded when it has more than 10 elements, more than 50 characters of
  * trimmed body text, and either an image or more than 100 characters of
  * body markup. The counts come from a script run in the browser; a script
  * that raises makes the check fail. */
module PageCheck {
  import opened Basics

  /** What the script reports about the page. */
  datatype PageStats = PageStats(elementCount: int, textLength: int, imageCount: int, markupLength: int)

  const MIN_ELEMENTS: int := 10
  const MIN_TEXT: int := 50
  const MIN_MARKUP: int := 100

  /** The verdict; None stands for a script that raised. */
  function PageHasContent(probe: Option<PageStats>): bool {
    match probe
    case None => false
    case Some(p) =>
      p.elementCount > MIN_ELEMENTS && p.textLength > MIN_TEXT &&
      (p.imageCount > 0 || p.markupLength > MIN_MARKUP)
  }

  /** One page has at least as much of everything as another. */
  predicate AtLeast(a: PageStats, b: PageStats) {
    a.elementCount >= b.elementCount && a.textLength >= b.textLength &&
    a.imageCount >= b.imageCount && a.markupLength >= b.markupLength
  }

  /** More content never turns a passing page into a failing one. */
  lemma MoreContentStillPasses(a: PageStats, b: PageStats)
    requires AtLeast(a, b) && PageHasContent(Some(b))
    ensures PageHasContent(Some(a))
  {
  }

  /** Enough elements and enough text are both needed; given them, a
    * single image suffices even on a page with almost no markup. */
  lemma PageContentThresholds(p: PageStats)
    ensures p.elementCount <= MIN_ELEMENTS || p.textLength <= MIN_TEXT ==> !PageHasContent(Some(p))
    ensures p.elementCount > MIN_ELEMENTS && p.textLength > MIN_TEXT && p.imageCount > 0 ==> PageHasContent(Some(p))
  {
  }
}
