/** What the two scraper agents share about their browser: the four
    handles they hold, opening the missing ones, closing them in order, and
    the observations a page query or a navigation can give. */
module Browser {
  import opened Wrappers

  /** An exception as the agents' `except` clauses sort it: one caught by
      `except TimeoutError`, or any other `Exception`. `message` is `str(e)`. */
  datatype Raised = Timeout(message: string) | Failure(message: string)

  /** A page action that either completes or raises. */
  datatype Step = Completes | Raises(error: Raised)

  /** A `query_selector` call: an element, `None`, or an exception. */
  datatype Probe = Found | NotFound | ProbeRaises

  /** The handles an agent keeps: `playwright`, `browser`, `context` and
      `page`, each either set or `None` (false). */
  datatype Handles = Handles(playwright: bool, browser: bool, context: bool, page: bool)

  const NoHandles: Handles := Handles(false, false, false, false)

  /** The handles `close` releases, in the order it releases them. */
  datatype Slot = PageSlot | ContextSlot | BrowserSlot | PlaywrightSlot

  function ClosingIndex(s: Slot): nat {
    match s
    case PageSlot => 0
    case ContextSlot => 1
    case BrowserSlot => 2
    case PlaywrightSlot => 3
  }

  function IsOpen(h: Handles, s: Slot): bool {
    match s
    case PageSlot => h.page
    case ContextSlot => h.context
    case BrowserSlot => h.browser
    case PlaywrightSlot => h.playwright
  }

  /** Each handle is only set when the ones it was created from are: a
      page needs a context, a context a browser, a browser Playwright. */
  predicate Chained(h: Handles) {
    (h.page ==> h.context) && (h.context ==> h.browser) && (h.browser ==> h.playwright)
  }

  /** `_launch_browser` / `_launch_browser_with_proxy`: every missing
      handle is created, in the order Playwright, browser, context, page. */
  function Launch(h: Handles): (r: Handles)
    ensures forall s: Slot :: IsOpen(r, s)
    ensures Chained(r)
  {
    Handles(true, true, true, true)
  }

  /** `close`: each set handle is closed and cleared in the order page,
      context, browser, Playwright. When closing the handle `fault` raises,
      the exception is swallowed and that handle and the later ones stay. */
  function Close(h: Handles, fault: Option<Slot>): Handles {
    if h.page && fault == Some(PageSlot) then h
    else
      var h1 := h.(page := false);
      if h1.context && fault == Some(ContextSlot) then h1
      else
        var h2 := h1.(context := false);
        if h2.browser && fault == Some(BrowserSlot) then h2
        else
          var h3 := h2.(browser := false);
          if h3.playwright && fault == Some(PlaywrightSlot) then h3
          else h3.(playwright := false)
  }

  /** Whether closing stops early: the failing handle was set. */
  predicate Interrupted(h: Handles, fault: Option<Slot>) {
    fault.Some? && IsOpen(h, fault.value)
  }

  /** After `close` a handle is still set exactly when it was set and the
      close broke off at it or at a handle released before it. */
  lemma CloseReleases(h: Handles, fault: Option<Slot>, s: Slot)
    ensures IsOpen(Close(h, fault), s)
            <==> IsOpen(h, s) && Interrupted(h, fault) && ClosingIndex(fault.value) <= ClosingIndex(s)
  {
  }

  /** Without a failure `close` clears every handle. */
  lemma CloseClearsAll(h: Handles)
    ensures Close(h, None) == NoHandles
  {
  }

  /** `close` keeps handles chained, and so does launching. */
  lemma CloseKeepsChained(h: Handles, fault: Option<Slot>)
    requires Chained(h)
    ensures Chained(Close(h, fault))
  {
    forall s: Slot ensures IsOpen(Close(h, fault), s)
      <==> IsOpen(h, s) && Interrupted(h, fault) && ClosingIndex(fault.value) <= ClosingIndex(s)
    {
      CloseReleases(h, fault, s);
    }
  }

  /** Closing twice without failures is the same as closing once. */
  lemma CloseIdempotent(h: Handles)
    ensures Close(Close(h, None), None) == Close(h, None)
  {
  }
}
