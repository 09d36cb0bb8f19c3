/** Sequences of calls into the session manager, and what holds along any of them:
    the invariant, per-thread isolation, and that repeated initialization connects once. */
module Traces {
  import opened Automation
  import opened Sessions

  /** One call a test thread or the test runner makes. */
  datatype Op =
    | InitializeOp
    | CreatePageOp(t: ThreadId)
    | GetBrowserOp
    | CloseContextOp(t: ThreadId)
    | CloseOp

  /** The call acts on the per-thread slots of thread `t`. */
  predicate Touches(op: Op, t: ThreadId) {
    (op.CreatePageOp? || op.CloseContextOp?) && op.t == t
  }

  function Step(f: FactoryState, op: Op): FactoryState {
    match op
    case InitializeOp => Initialize(f)
    case CreatePageOp(t) => CreatePage(f, t)
    case GetBrowserOp => GetBrowser(f)
    case CloseContextOp(t) => CloseContext(f, t)
    case CloseOp => Close(f)
  }

  /** The state after making the calls `ops`, first to last, from `f`. */
  function Run(f: FactoryState, ops: seq<Op>): FactoryState
    decreases |ops|
  {
    if ops == [] then f else Run(Step(f, ops[0]), ops[1..])
  }

  lemma StepKeepsGood(f: FactoryState, op: Op)
    requires Good(f)
    ensures Good(Step(f, op))
  {
    match op
    case InitializeOp => InitializeKeepsGood(f);
    case CreatePageOp(t) => CreatePageKeepsGood(f, t);
    case GetBrowserOp => GetBrowserKeepsGood(f);
    case CloseContextOp(t) => CloseContextKeepsGood(f, t);
    case CloseOp => CloseKeepsGood(f);
  }

  /** Every state reachable by calls from a good state is good: in particular no two
      threads ever share a context or a page, the manager never calls close() on a
      handle still held in a slot, and every connection and browser not in its slot has
      been closed. */
  lemma {:induction false} RunKeepsGood(f: FactoryState, ops: seq<Op>)
    requires Good(f)
    ensures Good(Run(f, ops))
    decreases |ops|
  {
    if ops != [] {
      StepKeepsGood(f, ops[0]);
      RunKeepsGood(Step(f, ops[0]), ops[1..]);
    }
  }

  lemma StepIsolated(f: FactoryState, op: Op, t: ThreadId)
    requires !Touches(op, t)
    ensures GetBrowserContext(Step(f, op), t) == GetBrowserContext(f, t)
    ensures GetPage(Step(f, op), t) == GetPage(f, t)
  {
  }

  /** Calls that never act on thread `t` leave `t`'s context and page as they were. */
  lemma {:induction false} RunIsolated(f: FactoryState, ops: seq<Op>, t: ThreadId)
    requires forall i :: 0 <= i < |ops| ==> !Touches(ops[i], t)
    ensures GetBrowserContext(Run(f, ops), t) == GetBrowserContext(f, t)
    ensures GetPage(Run(f, ops), t) == GetPage(f, t)
    decreases |ops|
  {
    if ops != [] {
      StepIsolated(f, ops[0], t);
      RunIsolated(Step(f, ops[0]), ops[1..], t);
    }
  }

  /** `n` calls of `initialize()`. */
  function Initializations(n: nat): (ops: seq<Op>)
    ensures |ops| == n && forall i :: 0 <= i < n ==> ops[i] == InitializeOp
  {
    seq(n, _ => InitializeOp)
  }

  /** Calling `initialize()` n >= 1 times is calling it once. */
  lemma {:induction false} RepeatedInitialize(f: FactoryState, n: nat)
    requires n >= 1
    ensures Run(f, Initializations(n)) == Initialize(f)
    decreases n
  {
    var ops := Initializations(n);
    if n == 1 {
      assert ops[1..] == [];
    } else {
      assert ops[1..] == Initializations(n - 1);
      RepeatedInitialize(Initialize(f), n - 1);
      InitializeIdempotent(f);
    }
  }

  /** Making the calls `xs` and then the calls `ys` is making the calls `xs + ys`. */
  lemma {:induction false} RunAppend(f: FactoryState, xs: seq<Op>, ys: seq<Op>)
    ensures Run(f, xs + ys) == Run(Run(f, xs), ys)
    decreases |xs|
  {
    if xs == [] {
      assert xs + ys == ys;
    } else {
      assert (xs + ys)[1..] == xs[1..] + ys;
      RunAppend(Step(f, xs[0]), xs[1..], ys);
    }
  }

  /** After any sequence of calls from a good state, n >= 1 calls of `initialize()` leave
      exactly one open connection and exactly one open browser, the ones in the slots. */
  lemma InitializeAfterAnyCalls(f: FactoryState, ops: seq<Op>, n: nat)
    requires Good(f) && n >= 1
    ensures var r := Run(f, ops + Initializations(n));
      && r.playwright.Some? && r.browser.Some?
      && OpenConnections(r) == {r.playwright.value} && OpenBrowsers(r) == {r.browser.value}
  {
    var g := Run(f, ops);
    RunAppend(f, ops, Initializations(n));
    RunKeepsGood(f, ops);
    RepeatedInitialize(g, n);
    InitializeLeavesOneOpen(g);
  }

  /** From the start, n >= 1 calls of `initialize()` make exactly one connection and one
      headless browser launched from it, and nothing else. */
  lemma InitializeOnceFromStart(n: nat)
    requires n >= 1
    ensures var r := Run(Start(), Initializations(n));
      && r.log == [CreatePlaywright(0), LaunchBrowser(1, 0, true)]
      && r.playwright == Some(0) && r.browser == Some(1)
  {
    RepeatedInitialize(Start(), n);
  }

  /** One call never takes back a close: every handle closed before is closed after. */
  lemma StepKeepsClosed(f: FactoryState, op: Op, h: Handle)
    requires WasClosed(f, h)
    ensures WasClosed(Step(f, op), h)
  {
  }

  /** Along any sequence of calls from a good state, a handle the manager closed stays
      closed and is never again the connection, the browser or a thread's context: after
      `close()`, lazy re-initialization always hands out fresh handles. */
  lemma {:induction false} ClosedStaysClosed(f: FactoryState, ops: seq<Op>, h: Handle)
    requires Good(f) && WasClosed(f, h)
    ensures var r := Run(f, ops);
      && WasClosed(r, h)
      && r.playwright != Some(h) && r.browser != Some(h) && h !in r.contexts.Values
    decreases |ops|
  {
    if ops != [] {
      StepKeepsGood(f, ops[0]);
      StepKeepsClosed(f, ops[0], h);
      ClosedStaysClosed(Step(f, ops[0]), ops[1..], h);
    }
  }
}
