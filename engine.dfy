/** The browser-automation engine as the session manager sees it: opaque steps that
    hand out fresh handles (a Playwright connection, a browser, a context, a page) or
    mark a handle closed. Every step is recorded in the engine's call log, so the
    order of engine calls can be stated about. */
module Automation {

  datatype Option<T> = None | Some(value: T)

  /** An opaque engine object. Handles are handed out in increasing order. */
  type Handle = nat

  /** One call into the engine; `h` is the handle the call creates or closes. */
  datatype Call =
    | CreatePlaywright(h: Handle)
    | LaunchBrowser(h: Handle, playwright: Handle, headless: bool)
    | NewContext(h: Handle, browser: Handle)
    | NewPage(h: Handle, context: Handle)
    | Closed(h: Handle)

  /** `after` is `before` followed by calls that only allocate, and only handles in
      [lo, hi): none of the added calls closes anything. */
  predicate AppendsFresh(before: seq<Call>, after: seq<Call>, lo: Handle, hi: Handle) {
    && before <= after
    && forall i :: |before| <= i < |after| ==> !after[i].Closed? && lo <= after[i].h < hi
  }

  class Engine {
    /** The next handle the engine will hand out. */
    var next: Handle
    /** Every engine call made so far, oldest first. */
    var log: seq<Call>

    constructor ()
      ensures next == 0 && log == []
    {
      next, log := 0, [];
    }

    /** `Playwright.create()`. */
    method Create() returns (h: Handle)
      modifies this
      ensures h == old(next) && next == h + 1
      ensures log == old(log) + [CreatePlaywright(h)]
    {
      h := next;
      next, log := next + 1, log + [CreatePlaywright(h)];
    }

    /** `playwright.chromium().launch(options)`, with the options' headless flag. */
    method Launch(playwright: Handle, headless: bool) returns (h: Handle)
      modifies this
      ensures h == old(next) && next == h + 1
      ensures log == old(log) + [LaunchBrowser(h, playwright, headless)]
    {
      h := next;
      next, log := next + 1, log + [LaunchBrowser(h, playwright, headless)];
    }

    /** `browser.newContext()`. */
    method OpenContext(browser: Handle) returns (h: Handle)
      modifies this
      ensures h == old(next) && next == h + 1
      ensures log == old(log) + [NewContext(h, browser)]
    {
      h := next;
      next, log := next + 1, log + [NewContext(h, browser)];
    }

    /** `context.newPage()`. */
    method OpenPage(context: Handle) returns (h: Handle)
      modifies this
      ensures h == old(next) && next == h + 1
      ensures log == old(log) + [NewPage(h, context)]
    {
      h := next;
      next, log := next + 1, log + [NewPage(h, context)];
    }

    /** `close()` on a context, a browser or a Playwright connection. */
    method Close(target: Handle)
      modifies this
      ensures next == old(next)
      ensures log == old(log) + [Closed(target)]
    {
      log := log + [Closed(target)];
    }
  }
}
