/** The JUnit lifecycle of a test class built on BaseTest, driven against the session
    manager: initialize before all tests; before each test createPage and
    getBrowserContext; after each test closeContext; close after all tests. */
module Lifecycle {
  import opened Automation
  import Sessions
  import opened Factory

  /** One test on thread `t` between @BeforeEach and @AfterEach, with the connection and
      the browser already up and nothing bound to `t`: a context and a page are opened,
      the test sees both, and the context is closed afterwards. */
  method OneTest(factory: BrowserFactory, t: Sessions.ThreadId)
    returns (page: Handle, context: Option<Handle>)
    requires factory.playwright.Some? && factory.browser.Some?
    requires t !in factory.contexts && t !in factory.pages
    modifies factory, factory.engine
    ensures var n := old(factory.engine.next);
      && context == Some(n) && page == n + 1
      && factory.State() == old(factory.State()).(next := n + 2,
           log := old(factory.engine.log) + [NewContext(n, old(factory.browser).value), NewPage(n + 1, n), Closed(n)])
  {
    ghost var before := factory.State();
    page := factory.CreatePage(t);
    assert factory.State() == Sessions.OpenSession(before, t);
    context := factory.GetBrowserContext(t);
    factory.CloseContext(t);
    assert factory.contexts == before.contexts && factory.pages == before.pages;
  }

  /** Two tests one after the other, on threads `a` and `b` (the same thread or not).
      Each test gets a context and a page of its own, each context is closed after
      its test, and the run ends by closing the browser and then the connection. */
  method SequentialTests(a: Sessions.ThreadId, b: Sessions.ThreadId)
    returns (pageA: Handle, contextA: Option<Handle>, pageB: Handle, contextB: Option<Handle>,
             calls: seq<Call>)
    ensures contextA.Some? && contextB.Some? && contextA != contextB && pageA != pageB
    ensures calls == [CreatePlaywright(0), LaunchBrowser(1, 0, true),
                      NewContext(2, 1), NewPage(3, 2), Closed(2),
                      NewContext(4, 1), NewPage(5, 4), Closed(4),
                      Closed(1), Closed(0)]
  {
    var factory := new BrowserFactory();
    factory.Initialize();
    assert factory.State() == Sessions.FactoryState(Some(0), Some(1), map[], map[], 2,
      [CreatePlaywright(0), LaunchBrowser(1, 0, true)]);
    pageA, contextA := OneTest(factory, a);
    assert factory.engine.log == [CreatePlaywright(0), LaunchBrowser(1, 0, true),
                                  NewContext(2, 1), NewPage(3, 2), Closed(2)];
    pageB, contextB := OneTest(factory, b);
    assert factory.engine.log == [CreatePlaywright(0), LaunchBrowser(1, 0, true),
                                  NewContext(2, 1), NewPage(3, 2), Closed(2),
                                  NewContext(4, 1), NewPage(5, 4), Closed(4)];
    assert factory.playwright == Some(0) && factory.browser == Some(1);
    factory.Close();
    calls := factory.engine.log;
  }

  /** Two tests that overlap on distinct threads: the first to finish tears down only
      its own session, and the other thread still sees its page. */
  method OverlappingTests(a: Sessions.ThreadId, b: Sessions.ThreadId)
    returns (pageB: Handle, seenByA: Option<Handle>, seenByB: Option<Handle>)
    requires a != b
    ensures seenByA == None && seenByB == Some(pageB)
  {
    var factory := new BrowserFactory();
    factory.Initialize();
    var pageA := factory.CreatePage(a);
    pageB := factory.CreatePage(b);
    ghost var both := factory.State();
    factory.CloseContext(a);
    Sessions.CloseContextIsolated(both, a, b);
    seenByA := factory.GetPage(a);
    seenByB := factory.GetPage(b);
    factory.CloseContext(b);
    factory.Close();
  }
}
