/** The state of the browser-session lifecycle manager as a value, and each of its
    operations as a pure transition on that value. The class in browser_factory.dfy
    is proved to follow these transitions; the lemmas here state what they promise. */
module Sessions {
  import opened Automation

  /** The identity of a thread; the per-thread slots are maps keyed by it. */
  type ThreadId = nat

  /** The two process-wide slots, the two per-thread slots and the engine's state. */
  datatype FactoryState = FactoryState(
    playwright: Option<Handle>,
    browser: Option<Handle>,
    contexts: map<ThreadId, Handle>,
    pages: map<ThreadId, Handle>,
    next: Handle,
    log: seq<Call>)

  /** Nothing created yet: every slot is null and the engine has not been called. */
  function Start(): FactoryState {
    FactoryState(None, None, map[], map[], 0, [])
  }

  predicate WasClosed(f: FactoryState, h: Handle) {
    Closed(h) in f.log
  }

  /** Every handle the manager holds or the log mentions was handed out by the engine. */
  ghost predicate Allocated(f: FactoryState) {
    && (f.playwright.Some? ==> f.playwright.value < f.next)
    && (f.browser.Some? ==> f.browser.value < f.next)
    && (forall t :: t in f.contexts ==> f.contexts[t] < f.next)
    && (forall t :: t in f.pages ==> f.pages[t] < f.next)
    && (forall i :: 0 <= i < |f.log| ==> f.log[i].h < f.next)
  }

  /** A thread's context and page are bound and unbound together, the page was opened
      in that context, and no two threads share a context or a page. */
  ghost predicate Isolated(f: FactoryState) {
    && f.contexts.Keys == f.pages.Keys
    && (forall t :: t in f.contexts ==> NewPage(f.pages[t], f.contexts[t]) in f.log)
    && (forall t, u :: t in f.contexts && u in f.contexts && t != u ==>
          f.contexts[t] != f.contexts[u] && f.pages[t] != f.pages[u])
  }

  /** The manager has not called close() on any handle in a slot; a bound context is
      neither the browser nor the connection; a browser in the slot was launched headless by the connection in the slot. */
  ghost predicate Live(f: FactoryState) {
    && (f.browser.Some? ==> f.playwright.Some?)
    && (f.browser.Some? ==> !WasClosed(f, f.browser.value))
    && (f.playwright.Some? ==> !WasClosed(f, f.playwright.value))
    && (f.playwright.Some? ==> CreatePlaywright(f.playwright.value) in f.log)
    && (f.browser.Some? ==> LaunchBrowser(f.browser.value, f.playwright.value, true) in f.log)
    && (forall t :: t in f.contexts ==>
          Some(f.contexts[t]) != f.browser && Some(f.contexts[t]) != f.playwright)
    && (forall t :: t in f.contexts ==> !WasClosed(f, f.contexts[t]))
  }

  /** At most one connection and one browser are open: every connection and every browser
      the engine ever created, other than the one in its slot, has been closed. */
  ghost predicate Unique(f: FactoryState) {
    && (forall c :: c in f.log && c.CreatePlaywright? && !WasClosed(f, c.h) ==> f.playwright == Some(c.h))
    && (forall c :: c in f.log && c.LaunchBrowser? && !WasClosed(f, c.h) ==> f.browser == Some(c.h))
  }

  /** The connections the engine created and the manager has not closed. */
  ghost function OpenConnections(f: FactoryState): set<Handle> {
    set c | c in f.log && c.CreatePlaywright? && !WasClosed(f, c.h) :: c.h
  }

  /** The browsers the engine launched and the manager has not closed. */
  ghost function OpenBrowsers(f: FactoryState): set<Handle> {
    set c | c in f.log && c.LaunchBrowser? && !WasClosed(f, c.h) :: c.h
  }

  /** The handle in a process-wide slot, as a set: empty when the slot is null. */
  function Slot(o: Option<Handle>): set<Handle> {
    if o.Some? then {o.value} else {}
  }

  /** The invariant of every state the operations can reach from Start(). */
  ghost predicate Good(f: FactoryState) {
    Allocated(f) && Isolated(f) && Live(f) && Unique(f)
  }

  /** `initialize()`: create the connection if it is missing, then launch a headless
      browser if that is missing. */
  function Initialize(f: FactoryState): (r: FactoryState)
    ensures r.playwright.Some? && r.browser.Some?
    ensures f.playwright.Some? ==> r.playwright == f.playwright
    ensures f.browser.Some? ==> r.browser == f.browser
    ensures f.playwright.Some? && f.browser.Some? ==> r == f
    ensures f.playwright.None? ==> r.playwright.value >= f.next
    ensures f.browser.None? ==> r.browser.value >= f.next
    ensures f.browser.None? ==> LaunchBrowser(r.browser.value, r.playwright.value, true) in r.log
    ensures r.contexts == f.contexts && r.pages == f.pages
    ensures f.next <= r.next && AppendsFresh(f.log, r.log, f.next, r.next)
  {
    var connected :=
      if f.playwright.None? then
        f.(playwright := Some(f.next), next := f.next + 1, log := f.log + [CreatePlaywright(f.next)])
      else f;
    if connected.browser.None? then
      var b := connected.next;
      connected.(browser := Some(b), next := b + 1,
                 log := connected.log + [LaunchBrowser(b, connected.playwright.value, true)])
    else connected
  }

  /** `createPage()` on thread `t`: initialize if either global slot is null, then open a
      context on the browser and a page in it, and bind both to `t`. The page returned
      is `r.pages[t]`. */
  function CreatePage(f: FactoryState, t: ThreadId): (r: FactoryState)
    ensures r.playwright.Some? && r.browser.Some?
    ensures f.playwright.Some? ==> r.playwright == f.playwright
    ensures f.browser.Some? ==> r.browser == f.browser
    ensures t in r.contexts && t in r.pages
    ensures r.contexts[t] >= f.next && r.pages[t] >= f.next && r.contexts[t] != r.pages[t]
    ensures NewContext(r.contexts[t], r.browser.value) in r.log
    ensures NewPage(r.pages[t], r.contexts[t]) in r.log
    ensures r.contexts - {t} == f.contexts - {t} && r.pages - {t} == f.pages - {t}
    ensures f.next <= r.next && AppendsFresh(f.log, r.log, f.next, r.next)
  {
    var ready := if f.playwright.None? || f.browser.None? then Initialize(f) else f;
    OpenSession(ready, t)
  }

  /** The second half of `createPage()`: open a context on the browser, open a page in
      it, and bind both to `t`. */
  function OpenSession(g: FactoryState, t: ThreadId): FactoryState
    requires g.browser.Some?
  {
    var c := g.next;
    var p := c + 1;
    g.(contexts := g.contexts[t := c], pages := g.pages[t := p], next := p + 1,
       log := g.log + [NewContext(c, g.browser.value), NewPage(p, c)])
  }

  /** `getBrowserContext()` on thread `t`: the context bound to `t`, or null. The method
      of the same name in browser_factory.dfy is specified by this function. */
  function GetBrowserContext(f: FactoryState, t: ThreadId): Option<Handle> {
    if t in f.contexts then Some(f.contexts[t]) else None
  }

  /** `getPage()` on thread `t`: the page bound to `t`, or null. The method of the same
      name in browser_factory.dfy is specified by this function. */
  function GetPage(f: FactoryState, t: ThreadId): Option<Handle> {
    if t in f.pages then Some(f.pages[t]) else None
  }

  /** `getBrowser()`: initialize only when the browser slot is null; the browser
      returned is `r.browser.value`. */
  function GetBrowser(f: FactoryState): (r: FactoryState)
    ensures r.browser.Some?
    ensures r == f <==> f.browser.Some?
    ensures f.playwright.Some? ==> r.playwright == f.playwright
    ensures f.browser.None? ==> r.playwright.Some? && LaunchBrowser(r.browser.value, r.playwright.value, true) in r.log
    ensures f.browser.None? ==> r.browser.value >= f.next
    ensures r.contexts == f.contexts && r.pages == f.pages
    ensures f.next <= r.next && AppendsFresh(f.log, r.log, f.next, r.next)
  {
    if f.browser.None? then Initialize(f) else f
  }

  /** `closeContext()` on thread `t`: close and unbind `t`'s context if one is bound,
      and unbind `t`'s page if one is bound. */
  function CloseContext(f: FactoryState, t: ThreadId): (r: FactoryState)
    ensures GetBrowserContext(r, t) == None && GetPage(r, t) == None
    ensures r.contexts - {t} == f.contexts - {t} && r.pages - {t} == f.pages - {t}
    ensures r.playwright == f.playwright && r.browser == f.browser && r.next == f.next
    ensures t in f.contexts ==> r.log == f.log + [Closed(f.contexts[t])]
    ensures t !in f.contexts ==> r.log == f.log
    ensures t !in f.contexts && t !in f.pages ==> r == f
  {
    var unbound :=
      if t in f.contexts then
        f.(contexts := f.contexts - {t}, log := f.log + [Closed(f.contexts[t])])
      else f;
    if t in unbound.pages then unbound.(pages := unbound.pages - {t}) else unbound
  }

  /** `close()`: close the browser, then the connection, clearing each slot. */
  function Close(f: FactoryState): (r: FactoryState)
    ensures r.playwright.None? && r.browser.None?
    ensures r.contexts == f.contexts && r.pages == f.pages && r.next == f.next
    ensures f.browser.Some? && f.playwright.Some? ==>
              r.log == f.log + [Closed(f.browser.value), Closed(f.playwright.value)]
    ensures f.browser.None? && f.playwright.Some? ==> r.log == f.log + [Closed(f.playwright.value)]
    ensures f.browser.Some? && f.playwright.None? ==> r.log == f.log + [Closed(f.browser.value)]
    ensures f.browser.None? && f.playwright.None? ==> r == f
  {
    var browserClosed :=
      if f.browser.Some? then f.(browser := None, log := f.log + [Closed(f.browser.value)]) else f;
    if browserClosed.playwright.Some? then
      browserClosed.(playwright := None, log := browserClosed.log + [Closed(browserClosed.playwright.value)])
    else browserClosed
  }

  // ---------------------------------------------------------------------------
  // The invariant holds initially and every operation preserves it.

  /** Appending fresh allocations to the log keeps every logged handle allocated, keeps
      every earlier call, and closes nothing. */
  lemma FreshAllocationsKeep(f: FactoryState, r: FactoryState)
    requires forall i :: 0 <= i < |f.log| ==> f.log[i].h < f.next
    requires f.next <= r.next && AppendsFresh(f.log, r.log, f.next, r.next)
    ensures forall i :: 0 <= i < |r.log| ==> r.log[i].h < r.next
    ensures forall c :: c in f.log ==> c in r.log
    ensures forall h :: WasClosed(r, h) <==> WasClosed(f, h)
  {
  }

  lemma StartIsGood()
    ensures Good(Start())
    ensures forall t :: GetBrowserContext(Start(), t) == None && GetPage(Start(), t) == None
  {
  }

  lemma InitializeKeepsGood(f: FactoryState)
    requires Good(f)
    ensures Good(Initialize(f))
  {
    InitializeKeepsUnique(f);
  }

  /** `initialize()` creates a connection or a browser only when its slot is null, and a
      null slot means every earlier one was closed. */
  lemma InitializeKeepsUnique(f: FactoryState)
    requires Good(f)
    ensures Unique(Initialize(f))
  {
    var r := Initialize(f);
    var added := r.log[|f.log|..];
    assert r.log == f.log + added;
    if f.playwright.None? {
      assert added == [CreatePlaywright(f.next), LaunchBrowser(f.next + 1, f.next, true)];
    } else if f.browser.None? {
      assert added == [LaunchBrowser(f.next, f.playwright.value, true)];
    } else {
      assert added == [];
    }
    assert forall h :: WasClosed(r, h) <==> WasClosed(f, h);
  }

  lemma GetBrowserKeepsGood(f: FactoryState)
    requires Good(f)
    ensures Good(GetBrowser(f))
  {
    if f.browser.None? {
      InitializeKeepsGood(f);
    }
  }

  lemma CreatePageKeepsGood(f: FactoryState, t: ThreadId)
    requires Good(f)
    ensures Good(CreatePage(f, t))
  {
    if f.playwright.None? || f.browser.None? {
      InitializeKeepsGood(f);
      OpenSessionKeepsGood(Initialize(f), t);
    } else {
      OpenSessionKeepsGood(f, t);
    }
  }

  lemma OpenSessionKeepsGood(g: FactoryState, t: ThreadId)
    requires Good(g) && g.browser.Some?
    ensures Good(OpenSession(g, t))
  {
    OpenSessionIsolated(g, t);
    OpenSessionLive(g, t);
  }

  lemma OpenSessionIsolated(g: FactoryState, t: ThreadId)
    requires Good(g) && g.browser.Some?
    ensures Isolated(OpenSession(g, t))
  {
  }

  lemma OpenSessionLive(g: FactoryState, t: ThreadId)
    requires Good(g) && g.browser.Some?
    ensures Live(OpenSession(g, t))
  {
  }

  lemma CloseContextKeepsGood(f: FactoryState, t: ThreadId)
    requires Good(f)
    ensures Good(CloseContext(f, t))
  {
    OnlyClosesKeepUnique(f, CloseContext(f, t));
  }

  /** Appending only closes, with the slots unchanged, keeps at most one connection and
      one browser open. */
  lemma OnlyClosesKeepUnique(f: FactoryState, r: FactoryState)
    requires Unique(f) && r.playwright == f.playwright && r.browser == f.browser
    requires f.log <= r.log && forall i :: |f.log| <= i < |r.log| ==> r.log[i].Closed?
    ensures Unique(r)
  {
    forall c | c in r.log && !c.Closed?
      ensures c in f.log
    {
      var i :| 0 <= i < |r.log| && r.log[i] == c;
    }
  }

  lemma CloseKeepsGood(f: FactoryState)
    requires Good(f)
    ensures Good(Close(f))
  {
  }

  /** In a good state the only connection and the only browser left open are the ones in
      the slots: there is never a second connection or a second browser process. */
  lemma AtMostOneOpen(f: FactoryState)
    requires Good(f)
    ensures OpenConnections(f) <= Slot(f.playwright) && OpenBrowsers(f) <= Slot(f.browser)
  {
  }

  /** After `initialize()` from a good state, exactly one connection and exactly one
      browser are open, and they are the ones in the slots. */
  lemma InitializeLeavesOneOpen(f: FactoryState)
    requires Good(f)
    ensures var r := Initialize(f);
      && OpenConnections(r) == {r.playwright.value} && OpenBrowsers(r) == {r.browser.value}
  {
    var r := Initialize(f);
    InitializeKeepsGood(f);
    AtMostOneOpen(r);
    assert CreatePlaywright(r.playwright.value) in r.log;
    assert LaunchBrowser(r.browser.value, r.playwright.value, true) in r.log;
  }

  /** A second `initialize()` changes nothing and allocates nothing. */
  lemma InitializeIdempotent(f: FactoryState)
    ensures Initialize(Initialize(f)) == Initialize(f)
  {
  }

  /** With the connection present and only the browser missing, `initialize()` keeps the
      connection and launches exactly one browser from it. */
  lemma InitializeCreatesOnlyMissing(f: FactoryState)
    requires f.playwright.Some? && f.browser.None?
    ensures var r := Initialize(f);
      && r.playwright == f.playwright && r.next == f.next + 1
      && r.log == f.log + [LaunchBrowser(f.next, f.playwright.value, true)]
  {
  }

  /** The page `createPage()` returns is what `getPage()` and `getBrowserContext()` on the
      same thread then see, and neither is any handle that existed before. */
  lemma CreatePageBindsFresh(f: FactoryState, t: ThreadId)
    requires Good(f)
    ensures var r := CreatePage(f, t);
      && GetPage(r, t) == Some(r.pages[t]) && GetBrowserContext(r, t) == Some(r.contexts[t])
      && r.pages[t] !in f.pages.Values && r.contexts[t] !in f.contexts.Values
      && Some(r.pages[t]) != f.browser && Some(r.contexts[t]) != f.browser
      && r.pages[t] >= f.next && r.contexts[t] >= f.next
  {
  }

  /** A second `createPage()` on a thread without `closeContext()` in between drops the
      first context without closing it: it is left open and bound to no thread. */
  lemma CreatePageTwiceLeaksContext(f: FactoryState, t: ThreadId)
    requires Good(f) && t in f.contexts
    ensures var r := CreatePage(f, t);
      && f.contexts[t] !in r.contexts.Values
      && !WasClosed(r, f.contexts[t])
      && Good(r)
  {
    var r := CreatePage(f, t);
    var leaked := f.contexts[t];
    CreatePageKeepsGood(f, t);
    FreshAllocationsKeep(f, r);
    forall u | u in r.contexts ensures r.contexts[u] != leaked {
      if u != t {
        assert u in r.contexts - {t};
        assert r.contexts[u] == f.contexts[u];
      }
    }
  }

  /** Two threads that each call `createPage()` get distinct contexts and distinct pages. */
  lemma DistinctThreadsDistinctSessions(f: FactoryState, a: ThreadId, b: ThreadId)
    requires Good(f) && a != b
    ensures var r := CreatePage(CreatePage(f, a), b);
      && GetBrowserContext(r, a) != GetBrowserContext(r, b)
      && GetPage(r, a) != GetPage(r, b)
      && GetBrowserContext(r, a).Some? && GetPage(r, a).Some?
  {
  }

  /** `closeContext()` on one thread leaves every other thread's context and page alone. */
  lemma CloseContextIsolated(f: FactoryState, t: ThreadId, u: ThreadId)
    requires t != u
    ensures GetBrowserContext(CloseContext(f, t), u) == GetBrowserContext(f, u)
    ensures GetPage(CloseContext(f, t), u) == GetPage(f, u)
  {
  }

  /** A second `closeContext()` on the same thread is a no-op. */
  lemma CloseContextIdempotent(f: FactoryState, t: ThreadId)
    ensures CloseContext(CloseContext(f, t), t) == CloseContext(f, t)
  {
  }

  /** A bound context is closed exactly once by `closeContext()`; with nothing bound the
      call leaves the closed handles as they were. */
  lemma CloseContextClosesOnlyBound(f: FactoryState, t: ThreadId, h: Handle)
    ensures WasClosed(CloseContext(f, t), h) <==>
              WasClosed(f, h) || (t in f.contexts && h == f.contexts[t])
  {
  }

  /** A second `close()` is a no-op. */
  lemma CloseIdempotent(f: FactoryState)
    ensures Close(Close(f)) == Close(f)
  {
  }

  /** After `close()`, `getBrowser()` and `createPage()` repopulate both slots with a
      fresh connection and a fresh browser, neither of them a handle closed before. */
  lemma ReinitializeAfterClose(f: FactoryState, t: ThreadId)
    requires Good(f)
    ensures var r := GetBrowser(Close(f));
      && r.playwright.Some? && r.browser.Some?
      && r.playwright.value >= f.next && r.browser.value >= f.next
      && r.playwright != r.browser
      && !WasClosed(r, r.browser.value) && !WasClosed(r, r.playwright.value)
    ensures var r := CreatePage(Close(f), t);
      && r.playwright.Some? && r.browser.Some?
      && r.playwright.value >= f.next && r.browser.value >= f.next
  {
  }
}
