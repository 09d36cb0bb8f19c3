# Browser-session lifecycle manager

This project models `BrowserFactory` from an end-to-end test suite built on Playwright. `BrowserFactory` owns:

- one process-wide Playwright connection and one headless browser, each created lazily and torn down by `close()`;
- for each test thread, one browser context and one page, created by `createPage()` and torn down by `closeContext()`.

The model has five modules:

- `Automation` (engine.dfy) models the Playwright engine as opaque steps. `Engine` hands out fresh handles (`Playwright.create`, `launch`, `newContext`, `newPage`) and records each call, including `close()`, in a call log. The log is how the model states the order of engine calls, which handles were closed, and the headless flag used at launch.
- `Sessions` (sessions.dfy) holds the manager's whole state as a value, `FactoryState`. Each operation is a pure transition on that value. `Good` is the invariant of every reachable state. The lemmas state what the operations promise: idempotence, lazy initialization, clearing on teardown, per-thread isolation and the context leak on a repeated `createPage()`.
- `Factory` (browser_factory.dfy) is the manager itself, the class `BrowserFactory`. Its fields are the two global slots and the two per-thread slots. Its methods update those fields in place, and each is proved to follow its `Sessions` transition and to keep `Good`.
- `Traces` (traces.dfy) covers arbitrary sequences of calls. The invariant holds along every sequence. Calls that never act on a thread leave that thread's slots alone. Calling `initialize()` n times is the same as calling it once.
- `Lifecycle` (lifecycle.dfy) drives the JUnit lifecycle of `BaseTest` against the class. It has two tests one after the other, and two tests that overlap on distinct threads.

Apart from what "## Left out" lists, the model differs from the Java source in three ways:

- The static fields become the fields of a single object.
- Each `ThreadLocal` becomes a map keyed by an explicit thread id, which every per-thread method takes as a parameter.
- Java `null` becomes `Option.None`.

The model follows the code as written, including two behaviours a reader might not expect:

- `closeContext()` closes only the context. It drops the page binding without a separate close call (src/test/java/io/github/densudas/BrowserFactory.java:85-91).
- A second `createPage()` on the same thread silently replaces the binding. It neither closes the old context first nor fails.

## Model

| member | source | states |
|---|---|---|
| `Automation.Engine.Create` | src/test/java/io/github/densudas/BrowserFactory.java:27 | `Playwright.create()` hands out a fresh handle and logs the creation |
| `Automation.Engine.Launch` | src/test/java/io/github/densudas/BrowserFactory.java:30-32 | launching hands out a fresh browser handle and logs the connection it came from and the headless flag |
| `Automation.Engine.OpenContext` | src/test/java/io/github/densudas/BrowserFactory.java:45 | `browser.newContext()` hands out a fresh handle and logs the browser it was opened on |
| `Automation.Engine.OpenPage` | src/test/java/io/github/densudas/BrowserFactory.java:48 | `context.newPage()` hands out a fresh handle and logs the context it was opened in |
| `Automation.Engine.Close` | src/test/java/io/github/densudas/BrowserFactory.java:97-106 | `close()` allocates nothing and appends exactly one close of the given handle to the log |
| `Sessions.Initialize` | src/test/java/io/github/densudas/BrowserFactory.java:25-34 | afterwards both slots are non-null; an existing connection or browser is kept; with both present nothing changes; a missing slot gets a handle never handed out before; a newly launched browser comes from the connection in the slot with headless = true; per-thread slots are untouched; the log only gains allocations |
| `Sessions.CreatePage` | src/test/java/io/github/densudas/BrowserFactory.java:40-52 | afterwards both global slots are non-null, and an existing connection and an existing browser are each kept; `t` is bound to a fresh context opened on the browser and a fresh, distinct page opened in that context; every other thread's bindings are unchanged; nothing is closed |
| `Sessions.GetBrowser` | src/test/java/io/github/densudas/BrowserFactory.java:74-79 | afterwards the browser is non-null; the state changes if and only if the browser was null, and then the new browser is fresh and logged as a headless launch from the connection in the slot; an existing connection is kept; per-thread slots untouched; nothing is closed |
| `Sessions.CloseContext` | src/test/java/io/github/densudas/BrowserFactory.java:84-92 | afterwards `t` has neither context nor page; other threads and the global slots are unchanged; the context is closed exactly when one was bound; with nothing bound the state is unchanged |
| `Sessions.Close` | src/test/java/io/github/densudas/BrowserFactory.java:97-106 | afterwards both global slots are null; per-thread bindings survive; the browser is closed before the connection; with both slots null nothing changes |
| `Sessions.StartIsGood` | src/test/java/io/github/densudas/BrowserFactory.java:13-16 | the all-null initial state satisfies the invariant, and every thread there sees no context and no page |
| `Sessions.FreshAllocationsKeep` | src/test/java/io/github/densudas/BrowserFactory.java:25-52 | appending only fresh allocations keeps every logged handle allocated, keeps earlier calls and closes nothing |
| `Sessions.InitializeKeepsGood` | src/test/java/io/github/densudas/BrowserFactory.java:25-34 | `initialize()` preserves the invariant |
| `Sessions.InitializeKeepsUnique` | src/test/java/io/github/densudas/BrowserFactory.java:25-34 | `initialize()` keeps at most one open connection and one open browser, because it creates each only when its slot is null |
| `Sessions.AtMostOneOpen` | src/test/java/io/github/densudas/BrowserFactory.java:13-14 | in every good state the only open connection and the only open browser are the ones in the two slots |
| `Sessions.InitializeLeavesOneOpen` | src/test/java/io/github/densudas/BrowserFactory.java:25-34 | after `initialize()` from a good state, exactly one connection and exactly one browser are open, the ones in the slots |
| `Sessions.GetBrowserKeepsGood` | src/test/java/io/github/densudas/BrowserFactory.java:74-79 | `getBrowser()` preserves the invariant |
| `Sessions.CreatePageKeepsGood` | src/test/java/io/github/densudas/BrowserFactory.java:40-52 | `createPage()` preserves the invariant |
| `Sessions.OpenSessionKeepsGood` | src/test/java/io/github/densudas/BrowserFactory.java:45-49 | opening and binding a context and page preserves the invariant |
| `Sessions.OpenSessionIsolated` | src/test/java/io/github/densudas/BrowserFactory.java:45-49 | after binding, contexts and pages stay bound together, each page belongs to its thread's context, and no two threads share either |
| `Sessions.OpenSessionLive` | src/test/java/io/github/densudas/BrowserFactory.java:45-49 | after binding, no slot holds a closed handle and no context equals a global handle |
| `Sessions.CloseContextKeepsGood` | src/test/java/io/github/densudas/BrowserFactory.java:84-92 | `closeContext()` preserves the invariant |
| `Sessions.OnlyClosesKeepUnique` | src/test/java/io/github/densudas/BrowserFactory.java:84-92 | a step that only appends closes and leaves both process-wide slots alone, as `closeContext()` does, keeps at most one open connection and one open browser |
| `Sessions.CloseKeepsGood` | src/test/java/io/github/densudas/BrowserFactory.java:97-106 | `close()` preserves the invariant; the manager never calls `close()` on a context still bound to a thread |
| `Sessions.InitializeIdempotent` | src/test/java/io/github/densudas/BrowserFactory.java:25-34 | a second `initialize()` changes nothing |
| `Sessions.InitializeCreatesOnlyMissing` | src/test/java/io/github/densudas/BrowserFactory.java:26-33 | with the connection present and the browser missing, the connection is kept and exactly one headless browser is launched from it |
| `Sessions.CreatePageBindsFresh` | src/test/java/io/github/densudas/BrowserFactory.java:45-68 | the page `createPage()` returns is what `getPage()` then returns, the context is what `getBrowserContext()` returns, and neither is an earlier binding, the browser, or any handle the engine handed out before (the connection included) |
| `Sessions.CreatePageTwiceLeaksContext` | src/test/java/io/github/densudas/BrowserFactory.java:45-49 | a second `createPage()` on a bound thread leaves the old context unclosed and bound to no thread |
| `Sessions.DistinctThreadsDistinctSessions` | src/test/java/io/github/densudas/BrowserFactory.java:45-49 | two distinct threads that call `createPage()` get distinct contexts and distinct pages |
| `Sessions.CloseContextIsolated` | src/test/java/io/github/densudas/BrowserFactory.java:84-92 | `closeContext()` on one thread leaves every other thread's context and page unchanged |
| `Sessions.CloseContextIdempotent` | src/test/java/io/github/densudas/BrowserFactory.java:84-92 | a second `closeContext()` on the same thread is a no-op |
| `Sessions.CloseContextClosesOnlyBound` | src/test/java/io/github/densudas/BrowserFactory.java:85-88 | a handle is closed after `closeContext(t)` if and only if it was closed before or is `t`'s bound context |
| `Sessions.CloseIdempotent` | src/test/java/io/github/densudas/BrowserFactory.java:97-106 | a second `close()` is a no-op |
| `Sessions.ReinitializeAfterClose` | src/test/java/io/github/densudas/BrowserFactory.java:40-79 | after `close()`, both `getBrowser()` and `createPage()` repopulate both slots with fresh handles, and `getBrowser()` hands back two distinct, unclosed handles |
| `Traces.StepKeepsGood` | src/test/java/io/github/densudas/BrowserFactory.java:25-106 | every operation preserves the invariant |
| `Traces.RunKeepsGood` | src/test/java/io/github/densudas/BrowserFactory.java:12-107 | every state reachable by any sequence of calls satisfies the invariant: no shared contexts or pages across threads, the manager never calls `close()` on a handle still held in a slot, the browser launched headless, and every connection and browser other than the ones in the slots closed |
| `Traces.StepIsolated` | src/test/java/io/github/densudas/BrowserFactory.java:15-16 | a call that does not act on thread `t` leaves `t`'s context and page unchanged |
| `Traces.RunIsolated` | src/test/java/io/github/densudas/BrowserFactory.java:15-16 | any sequence of calls none of which acts on thread `t` leaves `t`'s context and page unchanged |
| `Traces.RepeatedInitialize` | src/test/java/io/github/densudas/BrowserFactory.java:25-34 | calling `initialize()` n >= 1 times is the same as calling it once |
| `Traces.InitializeAfterAnyCalls` | src/test/java/io/github/densudas/BrowserFactory.java:25-34 | after any sequence of calls from a good state, n >= 1 calls of `initialize()` leave both slots non-null and exactly one open connection and one open browser, the ones in the slots |
| `Traces.InitializeOnceFromStart` | src/test/java/io/github/densudas/BrowserFactory.java:25-34 | from the initial state, n >= 1 calls of `initialize()` make exactly one connection and one headless browser |
| `Traces.StepKeepsClosed` | src/test/java/io/github/densudas/BrowserFactory.java:25-106 | no operation takes back a close: a handle closed before any call is closed after it |
| `Traces.ClosedStaysClosed` | src/test/java/io/github/densudas/BrowserFactory.java:97-106 | along any sequence of calls, a handle the manager closed stays closed and never again sits in the connection slot, the browser slot or a thread's context slot: after `close()` the lazy re-initialization always creates fresh handles |
| `Factory.BrowserFactory.constructor` | src/test/java/io/github/densudas/BrowserFactory.java:13-16 | all slots start null, no engine call has been made, and the invariant holds |
| `Factory.BrowserFactory.Initialize` | src/test/java/io/github/densudas/BrowserFactory.java:25-34 | the new state is `Sessions.Initialize` of the old one, and the invariant is kept |
| `Factory.BrowserFactory.CreatePage` | src/test/java/io/github/densudas/BrowserFactory.java:40-52 | the new state is `Sessions.CreatePage` of the old one; the page returned is the one `getPage()` then returns; the invariant is kept |
| `Factory.BrowserFactory.GetBrowserContext` | src/test/java/io/github/densudas/BrowserFactory.java:58-60 | returns the context bound to the thread, or null, and changes nothing |
| `Factory.BrowserFactory.GetPage` | src/test/java/io/github/densudas/BrowserFactory.java:66-68 | returns the page bound to the thread, or null, and changes nothing |
| `Factory.BrowserFactory.GetBrowser` | src/test/java/io/github/densudas/BrowserFactory.java:74-79 | always returns the non-null browser in the slot; changes nothing when one exists; otherwise initializes; under the invariant the browser returned is not closed |
| `Factory.BrowserFactory.CloseContext` | src/test/java/io/github/densudas/BrowserFactory.java:84-92 | the new state is `Sessions.CloseContext` of the old one, and the invariant is kept |
| `Factory.BrowserFactory.Close` | src/test/java/io/github/densudas/BrowserFactory.java:97-106 | the new state is `Sessions.Close` of the old one, and the invariant is kept |
| `Lifecycle.OneTest` | src/test/java/io/github/densudas/BaseTest.java:28-37 | one test between `setUp` and `tearDown` opens a fresh context and page, sees both, closes the context, and leaves the bindings as they were |
| `Lifecycle.SequentialTests` | src/test/java/io/github/densudas/BaseTest.java:18-37 | a run of two tests gets two distinct contexts and pages. The exact engine calls are one connection, one headless browser, then for each test a context, a page and a context close, then a browser close and a connection close |
| `Lifecycle.OverlappingTests` | src/test/java/io/github/densudas/BaseTest.java:28-37 | when tests overlap on two threads, tearing down one leaves the other thread's page in place |

## Left out

- Failures of engine calls: `Playwright.create()` and `launch()` (src/test/java/io/github/densudas/BrowserFactory.java:27-32), `newContext()` (:45), `newPage()` (:48) and the three `close()` calls (:86, :99, :103). The exceptions they throw come from the engine, so every engine step here succeeds. In the source, a `newPage()` that throws leaves the new context of :45-46 bound to the thread, together with whatever page was bound before (none, or the page of an earlier `createPage()`). The invariant `Isolated` rules out both states, because it requires each thread's page to have been opened in that thread's context, so the model does not reach them.
- The browser type: `initialize()` always launches Chromium (src/test/java/io/github/densudas/BrowserFactory.java:30). The manager uses no other browser type, so `Automation.Engine.Launch` and the `LaunchBrowser` call record only the connection and the headless flag.
- Real concurrency: the unsynchronized check-then-create in `initialize()`, `createPage()` and `getBrowser()` can race between threads. The model is sequential and so has no such race.
- What the engine does on its own: closing a context also closes its pages, and closing the browser closes its contexts. The log records only the calls the manager makes, so "closed" means "`close()` was called on that handle".
- `Sessions.GetBrowserContext` and `Sessions.GetPage` are plain accessors with no contract of their own. What they promise is stated by the class methods of the same names and by the lemmas that use them.
- The private constructor that prevents instantiation (src/test/java/io/github/densudas/BrowserFactory.java:18-20). The model uses one object in place of static state, and a fresh object stands for a fresh process.
- The test bodies in PlaywrightFeaturesTest.java and SauceDemoTest.java (navigation, locators, routes, tracing, downloads, dialogs, assertions against live sites). They are scripted interaction with the engine, not part of this component.
