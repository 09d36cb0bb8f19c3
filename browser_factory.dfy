/** The browser-session lifecycle manager. The source keeps its state in static fields
    and two ThreadLocal slots; here one object holds that state, and every per-thread
    operation names the calling thread explicitly. */
module Factory {
  import opened Automation
  import Sessions

  class BrowserFactory {
    /** The process-wide Playwright connection, or null. */
    var playwright: Option<Handle>
    /** The process-wide browser, or null. */
    var browser: Option<Handle>
    /** The per-thread browser context slot: a thread without an entry reads null. */
    var contexts: map<Sessions.ThreadId, Handle>
    /** The per-thread page slot: a thread without an entry reads null. */
    var pages: map<Sessions.ThreadId, Handle>
    /** The automation engine every handle comes from. */
    const engine: Engine

    /** The whole state as a value, to compare with the transitions of Sessions. */
    ghost function State(): Sessions.FactoryState
      reads this, engine
    {
      Sessions.FactoryState(playwright, browser, contexts, pages, engine.next, engine.log)
    }

    ghost predicate Valid()
      reads this, engine
    {
      Sessions.Good(State())
    }

    /** Every slot starts null, before any engine call. */
    constructor ()
      ensures State() == Sessions.Start() && Valid()
      ensures fresh(engine)
    {
      engine := new Engine();
      playwright, browser := None, None;
      contexts, pages := map[], map[];
      new;
      Sessions.StartIsGood();
    }

    method Initialize()
      modifies this, engine
      ensures State() == Sessions.Initialize(old(State()))
      ensures old(Valid()) ==> Valid()
    {
      if playwright.None? {
        var h := engine.Create();
        playwright := Some(h);
      }
      if browser.None? {
        var h := engine.Launch(playwright.value, true);
        browser := Some(h);
      }
      if old(Valid()) {
        Sessions.InitializeKeepsGood(old(State()));
      }
    }

    method CreatePage(t: Sessions.ThreadId) returns (page: Handle)
      modifies this, engine
      ensures State() == Sessions.CreatePage(old(State()), t)
      ensures Sessions.GetPage(State(), t) == Some(page)
      ensures old(Valid()) ==> Valid()
    {
      if playwright.None? || browser.None? {
        Initialize();
      }
      ghost var ready := State();
      var context := engine.OpenContext(browser.value);
      contexts := contexts[t := context];
      page := engine.OpenPage(context);
      pages := pages[t := page];
      assert State() == Sessions.OpenSession(ready, t);
      if old(Valid()) {
        Sessions.CreatePageKeepsGood(old(State()), t);
      }
    }

    /** `getBrowserContext()`, specified by `Sessions.GetBrowserContext`. */
    method GetBrowserContext(t: Sessions.ThreadId) returns (context: Option<Handle>)
      ensures context == Sessions.GetBrowserContext(State(), t)
    {
      context := if t in contexts then Some(contexts[t]) else None;
    }

    /** `getPage()`, specified by `Sessions.GetPage`. */
    method GetPage(t: Sessions.ThreadId) returns (page: Option<Handle>)
      ensures page == Sessions.GetPage(State(), t)
    {
      page := if t in pages then Some(pages[t]) else None;
    }

    method GetBrowser() returns (b: Handle)
      modifies this, engine
      ensures State() == Sessions.GetBrowser(old(State()))
      ensures browser == Some(b)
      ensures old(browser).Some? ==> b == old(browser).value && unchanged(this, engine)
      ensures old(Valid()) ==> Valid() && !Sessions.WasClosed(State(), b)
    {
      if browser.None? {
        Initialize();
      }
      b := browser.value;
      if old(Valid()) {
        Sessions.GetBrowserKeepsGood(old(State()));
      }
    }

    method CloseContext(t: Sessions.ThreadId)
      modifies this, engine
      ensures State() == Sessions.CloseContext(old(State()), t)
      ensures old(Valid()) ==> Valid()
    {
      if t in contexts {
        engine.Close(contexts[t]);
        contexts := contexts - {t};
      }
      if t in pages {
        pages := pages - {t};
      }
      if old(Valid()) {
        Sessions.CloseContextKeepsGood(old(State()), t);
      }
    }

    method Close()
      modifies this, engine
      ensures State() == Sessions.Close(old(State()))
      ensures old(Valid()) ==> Valid()
    {
      if browser.Some? {
        engine.Close(browser.value);
        browser := None;
      }
      if playwright.Some? {
        engine.Close(playwright.value);
        playwright := None;
      }
      if old(Valid()) {
        Sessions.CloseKeepsGood(old(State()));
      }
    }
  }
}
