/**
 The acknowledgement protocol of the in-memory event bus, as interleavings of its
 goroutines, and the subscriber table it publishes to.

 Per handler there is an inner goroutine that runs it, sends an error if it panics and then
 closes `done`, and an outer one that waits for `done` or the deadline, sends an error on
 the deadline and then calls wg.Done. A collector waits for the group, closes the error
 channel, drains it and calls the callback. The channel holds as many errors as handlers.
 */
module EventBus {
  import opened Prelude

  datatype Inner = Running | Panicking | DoneClosed
  datatype Outer = Selecting | Expired | GroupDone

  /** panicked and timedOut remember what has happened to the handler. */
  datatype Handler = Handler(inner: Inner, outer: Outer, panicked: bool, timedOut: bool)

  /** callbacks lists the error counts passed to the callback; 0 stands for nil. */
  datatype State = State(
    handlers: seq<Handler>,
    buffered: nat,
    closed: bool,
    collected: nat,
    callbacks: seq<nat>,
    crashed: bool)

  datatype Action =
    | Return(i: nat)
    | Panic(i: nat)
    | SendPanic(i: nat)
    | SeeDone(i: nat)
    | Expire(i: nat)
    | SendTimeout(i: nat)
    | Close
    | Receive
    | Call

  /** PublishWithAck with a callback: without handlers it acknowledges at once. */
  function Publish(handlers: nat): State {
    if handlers == 0 then State([], 0, true, 0, [0], false)
    else State(seq(handlers, _ => Handler(Running, Selecting, false, false)), 0, false, 0, [], false)
  }

  predicate AllDone(s: State) {
    forall i :: 0 <= i < |s.handlers| ==> s.handlers[i].outer == GroupDone
  }

  /** A send proceeds, by delivering or by crashing on a closed channel, unless the buffer is full. */
  predicate MaySend(s: State) {
    s.closed || s.buffered < |s.handlers|
  }

  predicate Enabled(s: State, a: Action) {
    && !s.crashed
    && match a
       case Return(i) => i < |s.handlers| && s.handlers[i].inner == Running
       case Panic(i) => i < |s.handlers| && s.handlers[i].inner == Running
       case SendPanic(i) => i < |s.handlers| && s.handlers[i].inner == Panicking && MaySend(s)
       case SeeDone(i) => i < |s.handlers| && s.handlers[i].outer == Selecting && s.handlers[i].inner == DoneClosed
       case Expire(i) => i < |s.handlers| && s.handlers[i].outer == Selecting
       case SendTimeout(i) => i < |s.handlers| && s.handlers[i].outer == Expired && MaySend(s)
       case Close => !s.closed && AllDone(s)
       case Receive => s.closed && s.buffered > 0
       case Call => s.closed && s.buffered == 0 && s.callbacks == []
  }

  function With(s: State, i: nat, h: Handler): State
    requires i < |s.handlers|
  {
    s.(handlers := s.handlers[i := h])
  }

  function Do(s: State, a: Action): State
    requires Enabled(s, a)
  {
    match a
    case Return(i) => With(s, i, s.handlers[i].(inner := DoneClosed))
    case Panic(i) => With(s, i, s.handlers[i].(inner := Panicking, panicked := true))
    case SendPanic(i) =>
      if s.closed then s.(crashed := true)
      else With(s, i, s.handlers[i].(inner := DoneClosed)).(buffered := s.buffered + 1)
    case SeeDone(i) => With(s, i, s.handlers[i].(outer := GroupDone))
    case Expire(i) => With(s, i, s.handlers[i].(outer := Expired, timedOut := true))
    case SendTimeout(i) =>
      if s.closed then s.(crashed := true)
      else With(s, i, s.handlers[i].(outer := GroupDone)).(buffered := s.buffered + 1)
    case Close => s.(closed := true)
    case Receive => s.(buffered := s.buffered - 1, collected := s.collected + 1)
    case Call => s.(callbacks := [s.collected])
  }

  /**
   Nothing is left to do but what the handlers themselves do, which they may never do: a
   handler that hangs neither returns nor panics.
   */
  ghost predicate Settled(s: State) {
    forall a: Action :: !a.Return? && !a.Panic? ==> !Enabled(s, a)
  }

  predicate Legal(s: State, run: seq<Action>)
    decreases |run|
  {
    run == [] || (Enabled(s, run[0]) && Legal(Do(s, run[0]), run[1..]))
  }

  function Play(s: State, run: seq<Action>): State
    requires Legal(s, run)
    decreases |run|
  {
    if run == [] then s else Play(Do(s, run[0]), run[1..])
  }

  // ---------- what every interleaving keeps ----------

  function Sends(h: Handler): nat {
    (if h.panicked && h.inner == DoneClosed then 1 else 0) + (if h.timedOut && h.outer == GroupDone then 1 else 0)
  }

  function TotalSends(hs: seq<Handler>): nat {
    if hs == [] then 0 else Sends(hs[0]) + TotalSends(hs[1..])
  }

  predicate Failed(h: Handler) {
    h.panicked || h.timedOut
  }

  /** The handlers that panicked or timed out. */
  function Failures(hs: seq<Handler>): nat {
    if hs == [] then 0 else (if Failed(hs[0]) then 1 else 0) + Failures(hs[1..])
  }

  ghost predicate GoodHandler(h: Handler) {
    && (h.inner == Panicking ==> h.panicked)
    && (h.inner == Running ==> !h.panicked)
    && (h.outer == Expired ==> h.timedOut)
    && (h.outer == Selecting ==> !h.timedOut)
    && (h.outer == GroupDone ==> h.timedOut || h.inner == DoneClosed)
  }

  ghost predicate Inv(s: State) {
    && (forall i :: 0 <= i < |s.handlers| ==> GoodHandler(s.handlers[i]))
    && (s.closed ==> AllDone(s))
    && |s.callbacks| <= 1
    && (s.callbacks != [] ==> s.closed && s.buffered == 0 && s.callbacks == [s.collected])
    && s.buffered + s.collected == TotalSends(s.handlers)
    && (!s.closed ==> s.collected == 0)
  }

  lemma {:induction false} TotalsAfter(hs: seq<Handler>, i: nat, h: Handler)
    requires i < |hs|
    ensures TotalSends(hs[i := h]) == TotalSends(hs) - Sends(hs[i]) + Sends(h)
    ensures Sends(hs[i]) <= TotalSends(hs)
  {
    if i == 0 {
      assert hs[0 := h][1..] == hs[1..];
    } else {
      assert hs[i := h][1..] == hs[1..][i - 1 := h];
      TotalsAfter(hs[1..], i - 1, h);
    }
  }

  lemma StepKeepsInv(s: State, a: Action)
    requires Inv(s) && Enabled(s, a)
    ensures Inv(Do(s, a))
  {
    match a
    case Return(i) => TotalsAfter(s.handlers, i, s.handlers[i].(inner := DoneClosed));
    case Panic(i) => TotalsAfter(s.handlers, i, s.handlers[i].(inner := Panicking, panicked := true));
    case SendPanic(i) => TotalsAfter(s.handlers, i, s.handlers[i].(inner := DoneClosed));
    case SeeDone(i) => TotalsAfter(s.handlers, i, s.handlers[i].(outer := GroupDone));
    case Expire(i) => TotalsAfter(s.handlers, i, s.handlers[i].(outer := Expired, timedOut := true));
    case SendTimeout(i) => TotalsAfter(s.handlers, i, s.handlers[i].(outer := GroupDone));
    case Close =>
    case Receive =>
    case Call =>
  }

  lemma {:induction false} NoSendsAtStart(n: nat)
    ensures TotalSends(seq(n, _ => Handler(Running, Selecting, false, false))) == 0
  {
    if n > 0 {
      var h := Handler(Running, Selecting, false, false);
      assert seq(n, _ => h)[1..] == seq(n - 1, _ => h);
      NoSendsAtStart(n - 1);
    }
  }

  lemma {:induction false} RunKeepsInv(s: State, run: seq<Action>)
    requires Inv(s) && Legal(s, run)
    ensures Inv(Play(s, run)) && |Play(s, run).handlers| == |s.handlers|
    decreases |run|
  {
    if run != [] {
      StepKeepsInv(s, run[0]);
      RunKeepsInv(Do(s, run[0]), run[1..]);
    }
  }

  lemma StartIsGood(n: nat)
    ensures Inv(Publish(n))
  {
    NoSendsAtStart(n);
  }

  /** In every interleaving: at most one call, and none before every handler's group slot is done. */
  lemma CallbackAtMostOnceAfterAll(n: nat, run: seq<Action>)
    requires Legal(Publish(n), run)
    ensures var s := Play(Publish(n), run);
            |s.callbacks| <= 1 && (s.callbacks != [] ==> AllDone(s))
  {
    StartIsGood(n);
    RunKeepsInv(Publish(n), run);
  }

  // ---------- every run ends ----------

  function Weight(h: Handler): nat {
    (match h.inner case Running => 3 case Panicking => 2 case DoneClosed => 0)
    + (match h.outer case Selecting => 3 case Expired => 2 case GroupDone => 0)
  }

  function TotalWeight(hs: seq<Handler>): nat {
    if hs == [] then 0 else Weight(hs[0]) + TotalWeight(hs[1..])
  }

  /** An upper bound on the steps still possible. */
  function Remaining(s: State): nat {
    TotalWeight(s.handlers) + s.buffered + (if s.closed then 0 else 1) + (if s.callbacks == [] then 1 else 0)
    + (if s.crashed then 0 else 1)
  }

  lemma {:induction false} WeightAfter(hs: seq<Handler>, i: nat, h: Handler)
    requires i < |hs|
    ensures TotalWeight(hs[i := h]) == TotalWeight(hs) - Weight(hs[i]) + Weight(h)
    ensures Weight(hs[i]) <= TotalWeight(hs)
  {
    if i == 0 {
      assert hs[0 := h][1..] == hs[1..];
    } else {
      assert hs[i := h][1..] == hs[1..][i - 1 := h];
      WeightAfter(hs[1..], i - 1, h);
    }
  }

  lemma StepsRunOut(s: State, a: Action)
    requires Enabled(s, a)
    ensures Remaining(Do(s, a)) < Remaining(s)
  {
    match a
    case Return(i) => WeightAfter(s.handlers, i, s.handlers[i].(inner := DoneClosed));
    case Panic(i) => WeightAfter(s.handlers, i, s.handlers[i].(inner := Panicking, panicked := true));
    case SendPanic(i) => WeightAfter(s.handlers, i, s.handlers[i].(inner := DoneClosed));
    case SeeDone(i) => WeightAfter(s.handlers, i, s.handlers[i].(outer := GroupDone));
    case Expire(i) => WeightAfter(s.handlers, i, s.handlers[i].(outer := Expired, timedOut := true));
    case SendTimeout(i) => WeightAfter(s.handlers, i, s.handlers[i].(outer := GroupDone));
    case Close =>
    case Receive =>
    case Call =>
  }

  lemma {:induction false} WeightAtStart(n: nat)
    ensures TotalWeight(seq(n, _ => Handler(Running, Selecting, false, false))) == 6 * n
  {
    if n > 0 {
      var h := Handler(Running, Selecting, false, false);
      assert seq(n, _ => h)[1..] == seq(n - 1, _ => h);
      WeightAtStart(n - 1);
    }
  }

  lemma {:induction false} RunsAreShort(s: State, run: seq<Action>)
    requires Legal(s, run)
    ensures |run| + Remaining(Play(s, run)) <= Remaining(s)
    decreases |run|
  {
    if run != [] {
      StepsRunOut(s, run[0]);
      RunsAreShort(Do(s, run[0]), run[1..]);
    }
  }

  /** No interleaving is longer than six steps a handler and three more. */
  lemma EveryRunEnds(n: nat, run: seq<Action>)
    requires Legal(Publish(n), run)
    ensures |run| <= 6 * n + 3
  {
    RunsAreShort(Publish(n), run);
    WeightAtStart(n);
  }

  // ---------- runs in which no handler both panics and times out ----------

  ghost predicate Clean(s: State) {
    forall i :: 0 <= i < |s.handlers| ==> !(s.handlers[i].panicked && s.handlers[i].timedOut)
  }

  lemma {:induction false} SendsBound(hs: seq<Handler>)
    requires forall i :: 0 <= i < |hs| ==> GoodHandler(hs[i]) && !(hs[i].panicked && hs[i].timedOut)
    ensures TotalSends(hs) <= Failures(hs) <= |hs|
    ensures forall i :: 0 <= i < |hs| && Failed(hs[i]) && Sends(hs[i]) == 0 ==> TotalSends(hs) < Failures(hs)
  {
    if hs != [] {
      assert forall i :: 0 <= i < |hs[1..]| ==> hs[1..][i] == hs[i + 1];
      SendsBound(hs[1..]);
      forall i | 0 <= i < |hs| && Failed(hs[i]) && Sends(hs[i]) == 0 ensures TotalSends(hs) < Failures(hs) {
        if i > 0 {
          assert hs[1..][i - 1] == hs[i];
        }
      }
    }
  }

  lemma {:induction false} AllSent(hs: seq<Handler>)
    requires forall i :: 0 <= i < |hs| ==> GoodHandler(hs[i]) && !(hs[i].panicked && hs[i].timedOut)
    requires forall i :: 0 <= i < |hs| ==> hs[i].outer == GroupDone
    ensures TotalSends(hs) == Failures(hs)
  {
    if hs != [] {
      assert forall i :: 0 <= i < |hs[1..]| ==> hs[1..][i] == hs[i + 1];
      AllSent(hs[1..]);
    }
  }

  /** In a clean state no pending send blocks and none meets a closed channel. */
  lemma CleanSendsSucceed(s: State, i: nat)
    requires Inv(s) && Clean(s) && i < |s.handlers|
    requires s.handlers[i].inner == Panicking || s.handlers[i].outer == Expired
    ensures !s.closed && s.buffered < |s.handlers|
  {
    SendsBound(s.handlers);
    assert Failed(s.handlers[i]) && Sends(s.handlers[i]) == 0;
  }

  /** A settled state in which no handler failed twice has called back, hung handlers or not. */
  lemma StuckMeansCalled(s: State)
    requires Inv(s) && Clean(s) && !s.crashed && Settled(s)
    ensures |s.callbacks| == 1
  {
    forall i | 0 <= i < |s.handlers| ensures s.handlers[i].outer == GroupDone {
      assert !Enabled(s, Expire(i)) && !Enabled(s, SendTimeout(i));
      if s.handlers[i].outer == Expired {
        CleanSendsSucceed(s, i);
      }
    }
    assert !Enabled(s, Close) && !Enabled(s, Receive) && !Enabled(s, Call);
  }

  lemma StepBackwardsClean(s: State, a: Action)
    requires Enabled(s, a) && Clean(Do(s, a))
    ensures Clean(s)
  {
    var r := Do(s, a);
    forall i | 0 <= i < |s.handlers| ensures !(s.handlers[i].panicked && s.handlers[i].timedOut) {
      assert !(r.handlers[i].panicked && r.handlers[i].timedOut);
    }
  }

  lemma CleanStepDoesNotCrash(s: State, a: Action)
    requires Inv(s) && Clean(s) && Enabled(s, a)
    ensures !Do(s, a).crashed
  {
  }

  lemma {:induction false} CleanRunDoesNotCrash(s: State, run: seq<Action>)
    requires Inv(s) && !s.crashed && Legal(s, run) && Clean(Play(s, run))
    ensures Clean(s) && !Play(s, run).crashed
    decreases |run|
  {
    if run != [] {
      StepKeepsInv(s, run[0]);
      if Do(s, run[0]).crashed {
        assert run[1..] == [] && Play(Do(s, run[0]), []) == Do(s, run[0]);
        StepBackwardsClean(s, run[0]);
        CleanStepDoesNotCrash(s, run[0]);
      } else {
        CleanRunDoesNotCrash(Do(s, run[0]), run[1..]);
        StepBackwardsClean(s, run[0]);
      }
    }
  }

  /**
   Every run that has settled, and in which no handler both panicked and timed out, has called
   the callback exactly once, with nil if and only if no handler failed, and otherwise with
   an error that counts exactly the handlers that panicked or timed out. Handlers may hang.
   */
  lemma CleanRunsAcknowledge(n: nat, run: seq<Action>)
    requires Legal(Publish(n), run)
    requires Clean(Play(Publish(n), run)) && Settled(Play(Publish(n), run))
    ensures var s := Play(Publish(n), run);
            && !s.crashed
            && s.callbacks == [Failures(s.handlers)]
            && (s.callbacks[0] == 0 <==> forall i :: 0 <= i < |s.handlers| ==> !Failed(s.handlers[i]))
  {
    hide Legal, Play, TotalSends, Failures, Sends, GoodHandler;
    StartIsGood(n);
    RunKeepsInv(Publish(n), run);
    CleanRunDoesNotCrash(Publish(n), run);
    var s := Play(Publish(n), run);
    StuckMeansCalled(s);
    AllSent(s.handlers);
    NoFailures(s.handlers);
  }

  lemma {:induction false} NoFailures(hs: seq<Handler>)
    ensures Failures(hs) == 0 <==> forall i :: 0 <= i < |hs| ==> !Failed(hs[i])
  {
    if hs != [] {
      NoFailures(hs[1..]);
      assert forall i :: 0 <= i < |hs[1..]| ==> hs[1..][i] == hs[i + 1];
      if Failures(hs) == 0 {
        forall i | 0 <= i < |hs| ensures !Failed(hs[i]) {
          if i > 0 {
            assert hs[1..][i - 1] == hs[i];
          }
        }
      }
    }
  }

  // ---------- a handler that does both ----------

  /** It panics, and its deadline wins the select: the second send blocks and nobody is ever told. */
  lemma BothCanBlockForever()
    ensures var run := [Panic(0), SendPanic(0), Expire(0)];
            && Legal(Publish(1), run)
            && (forall a :: !Enabled(Play(Publish(1), run), a))
            && Play(Publish(1), run).callbacks == []
  {
    var run := [Panic(0), SendPanic(0), Expire(0)];
    var s1 := Do(Publish(1), run[0]);
    var s2 := Do(s1, run[1]);
    var s3 := Do(s2, run[2]);
    assert run[1..][1..][1..] == [] && Legal(s3, []) && Play(s3, []) == s3;
    assert run[1..][1..] == [Expire(0)] && Legal(s2, [Expire(0)]) && Play(s2, [Expire(0)]) == s3;
    assert run[1..] == [SendPanic(0), Expire(0)] && Legal(s1, run[1..]) && Play(s1, run[1..]) == s3;
    assert s3.handlers == [Handler(DoneClosed, Expired, true, true)];
    forall a ensures !Enabled(s3, a) {
      match a
      case Return(i) =>
      case Panic(i) =>
      case SendPanic(i) =>
      case SeeDone(i) =>
      case Expire(i) =>
      case SendTimeout(i) =>
      case Close => assert s3.handlers[0].outer == Expired;
      case Receive =>
      case Call =>
    }
  }

  /** It times out, everyone finishes, and it panics afterwards: a send on the closed channel. */
  lemma BothCanCrash()
    ensures var run := [Expire(0), SendTimeout(0), Close, Panic(0), SendPanic(0)];
            Legal(Publish(1), run) && Play(Publish(1), run).crashed
  {
  }

  /** Whenever a run crashes, or ends without an acknowledgement, some handler did both. */
  lemma OnlyBothCanFail(n: nat, run: seq<Action>)
    requires Legal(Publish(n), run)
    requires var s := Play(Publish(n), run); s.crashed || (s.callbacks == [] && Settled(s))
    ensures var s := Play(Publish(n), run);
            exists i :: 0 <= i < |s.handlers| && s.handlers[i].panicked && s.handlers[i].timedOut
  {
    StartIsGood(n);
    RunKeepsInv(Publish(n), run);
    var s := Play(Publish(n), run);
    if Clean(s) {
      CleanRunDoesNotCrash(Publish(n), run);
      StuckMeansCalled(s);
    }
  }

  // ---------- exactly when a run acknowledges ----------

  function Events(h: Handler): nat {
    (if h.panicked then 1 else 0) + (if h.timedOut then 1 else 0)
  }

  /** Panics and deadlines together: a handler that does both counts twice. */
  function TotalEvents(hs: seq<Handler>): nat {
    if hs == [] then 0 else Events(hs[0]) + TotalEvents(hs[1..])
  }

  /** What was sent never exceeded the channel's capacity. */
  lemma {:induction false} RunFitsChannel(s: State, run: seq<Action>)
    requires Inv(s) && Legal(s, run) && s.buffered + s.collected <= |s.handlers|
    ensures var r := Play(s, run); r.buffered + r.collected <= |r.handlers|
    decreases |run|
  {
    if run != [] {
      StepKeepsInv(s, run[0]);
      RunFitsChannel(Do(s, run[0]), run[1..]);
    }
  }

  lemma {:induction false} SendsAreEvents(hs: seq<Handler>)
    ensures TotalSends(hs) <= TotalEvents(hs)
    ensures (forall i :: 0 <= i < |hs| ==> Sends(hs[i]) == Events(hs[i])) ==> TotalSends(hs) == TotalEvents(hs)
    ensures (exists i :: 0 <= i < |hs| && Sends(hs[i]) < Events(hs[i])) ==> TotalSends(hs) < TotalEvents(hs)
  {
    if hs != [] {
      assert forall i :: 0 <= i < |hs[1..]| ==> hs[1..][i] == hs[i + 1];
      SendsAreEvents(hs[1..]);
      if i :| 0 < i < |hs| && Sends(hs[i]) < Events(hs[i]) {
        assert hs[1..][i - 1] == hs[i];
      }
    }
  }

  /** In a settled state every event was sent, or one is waiting for room. */
  lemma StuckEvents(s: State)
    requires Inv(s) && !s.crashed && Settled(s)
    ensures s.closed ==> s.callbacks == [s.collected] && s.collected == TotalEvents(s.handlers)
    ensures !s.closed ==> s.buffered >= |s.handlers| && s.buffered < TotalEvents(s.handlers)
  {
    SendsAreEvents(s.handlers);
    assert !Enabled(s, Close) && !Enabled(s, Receive) && !Enabled(s, Call);
    forall i | 0 <= i < |s.handlers| ensures s.handlers[i].outer != Selecting {
      assert !Enabled(s, Expire(i));
    }
    if s.closed {
      forall i | 0 <= i < |s.handlers| ensures Sends(s.handlers[i]) == Events(s.handlers[i]) {
        assert !Enabled(s, SendPanic(i));
      }
    } else {
      var i :| 0 <= i < |s.handlers| && s.handlers[i].outer != GroupDone;
      assert !Enabled(s, SendTimeout(i)) && Sends(s.handlers[i]) < Events(s.handlers[i]);
    }
  }

  /**
   A settled run that has not crashed has acknowledged if and only if panics and deadlines
   together were at most as many as the handlers; the count it reports is that total, so it
   counts a handler twice when it did both.
   */
  lemma AcknowledgesIffEventsFit(n: nat, run: seq<Action>)
    requires Legal(Publish(n), run)
    requires var s := Play(Publish(n), run); !s.crashed && Settled(s)
    ensures var s := Play(Publish(n), run);
            && (s.callbacks != [] <==> TotalEvents(s.handlers) <= n)
            && (s.callbacks != [] ==> s.callbacks == [TotalEvents(s.handlers)])
  {
    StartIsGood(n);
    RunKeepsInv(Publish(n), run);
    RunFitsChannel(Publish(n), run);
    StuckEvents(Play(Publish(n), run));
  }

  predicate SendsPanic(run: seq<Action>) {
    run != [] && (run[0].SendPanic? || SendsPanic(run[1..]))
  }

  predicate PanicsAfterClose(run: seq<Action>) {
    run != [] && if run[0].Close? then SendsPanic(run[1..]) else PanicsAfterClose(run[1..])
  }

  lemma {:induction false} ClosedCrash(s: State, run: seq<Action>)
    requires Inv(s) && s.closed && !s.crashed && Legal(s, run)
    ensures Play(s, run).crashed <==> SendsPanic(run)
    decreases |run|
  {
    if run != [] {
      StepKeepsInv(s, run[0]);
      if run[0].SendPanic? {
        assert run[1..] == [] by { assert Do(s, run[0]).crashed; }
      } else {
        assert !run[0].SendTimeout?;
        ClosedCrash(Do(s, run[0]), run[1..]);
      }
    }
  }

  lemma {:induction false} OpenCrash(s: State, run: seq<Action>)
    requires Inv(s) && !s.closed && !s.crashed && Legal(s, run)
    ensures Play(s, run).crashed <==> PanicsAfterClose(run)
    decreases |run|
  {
    if run != [] {
      StepKeepsInv(s, run[0]);
      if run[0].Close? {
        ClosedCrash(Do(s, run[0]), run[1..]);
      } else {
        OpenCrash(Do(s, run[0]), run[1..]);
      }
    }
  }

  /** A run crashes exactly when some handler's panic is reported after the channel was closed. */
  lemma CrashesIffPanicAfterClose(n: nat, run: seq<Action>)
    requires n > 0 && Legal(Publish(n), run)
    ensures Play(Publish(n), run).crashed <==> PanicsAfterClose(run)
  {
    StartIsGood(n);
    OpenCrash(Publish(n), run);
  }

  /** A handler that has missed its deadline and is about to report a panic to the closed channel. */
  ghost predicate LatePanic(s: State) {
    s.closed && exists i :: 0 <= i < |s.handlers| && s.handlers[i].timedOut && s.handlers[i].inner == Panicking
  }

  lemma {:induction false} LatePanicStays(s: State, run: seq<Action>)
    requires Inv(s) && Legal(s, run) && (s.crashed ==> LatePanic(s))
    ensures Play(s, run).crashed ==> LatePanic(Play(s, run))
    ensures LatePanic(s) ==> LatePanic(Play(s, run))
    decreases |run|
  {
    if run != [] {
      var r := Do(s, run[0]);
      StepKeepsInv(s, run[0]);
      if i :| s.closed && 0 <= i < |s.handlers| && s.handlers[i].timedOut && s.handlers[i].inner == Panicking {
        assert r.handlers[i].timedOut && r.handlers[i].inner == Panicking;
      }
      LatePanicStays(r, run[1..]);
    }
  }

  /**
   A settled run has crashed if and only if some handler both missed its deadline and panicked
   without having reported it when the channel was closed.
   */
  lemma CrashesIffLatePanic(n: nat, run: seq<Action>)
    requires Legal(Publish(n), run) && Settled(Play(Publish(n), run))
    ensures Play(Publish(n), run).crashed <==> LatePanic(Play(Publish(n), run))
  {
    StartIsGood(n);
    LatePanicStays(Publish(n), run);
    var s := Play(Publish(n), run);
    if i :| s.closed && 0 <= i < |s.handlers| && s.handlers[i].inner == Panicking {
      assert !Enabled(s, SendPanic(i));
    }
  }

  /** From then on there is no way out: however the run settles, it has crashed. */
  lemma LatePanicIsFatal(n: nat, run: seq<Action>, more: seq<Action>)
    requires Legal(Publish(n), run) && LatePanic(Play(Publish(n), run))
    requires Legal(Play(Publish(n), run), more) && Settled(Play(Play(Publish(n), run), more))
    ensures Play(Play(Publish(n), run), more).crashed
  {
    StartIsGood(n);
    RunKeepsInv(Publish(n), run);
    var s := Play(Publish(n), run);
    LatePanicStays(s, more);
    var r := Play(s, more);
    var i :| 0 <= i < |r.handlers| && r.handlers[i].timedOut && r.handlers[i].inner == Panicking;
    assert !Enabled(r, SendPanic(i));
  }

  /** From every state the goroutines other than the handlers bring the run to settle by themselves. */
  lemma SettlesWithoutHandlers(s: State) returns (run: seq<Action>)
    ensures Legal(s, run) && Settled(Play(s, run))
    ensures forall a :: a in run ==> !a.Return? && !a.Panic?
    decreases Remaining(s)
  {
    if Settled(s) {
      run := [];
    } else {
      var a: Action :| !a.Return? && !a.Panic? && Enabled(s, a);
      StepsRunOut(s, a);
      var rest := SettlesWithoutHandlers(Do(s, a));
      run := [a] + rest;
      assert run[1..] == rest;
    }
  }

  // ---------- subscribers ----------

  /** A local variable, which has an address. */
  class Local {
    var handler: nat

    constructor (handler: nat)
      ensures this.handler == handler
    {
      this.handler := handler;
    }
  }

  class InMemoryEventBus {
    var subscribers: map<string, seq<nat>>

    constructor ()
      ensures subscribers == map[]
    {
      subscribers := map[];
    }

    method Subscribe(eventType: string, handler: nat)
      modifies this
      ensures subscribers == old(subscribers)[eventType :=
                (if eventType in old(subscribers) then old(subscribers)[eventType] else []) + [handler]]
    {
      if eventType !in subscribers {
        subscribers := subscribers[eventType := []];
      }
      subscribers := subscribers[eventType := subscribers[eventType] + [handler]];
    }

    /** It compares the addresses of the parameter and the loop variable: nothing is ever removed. */
    method Unsubscribe(eventType: string, handler: nat)
      modifies this
      ensures subscribers == old(subscribers)
    {
      if eventType !in subscribers {
        return;
      }
      var handlers := subscribers[eventType];
      var parameter := new Local(handler);
      var i := 0;
      while i < |handlers|
        invariant 0 <= i <= |handlers| && subscribers == old(subscribers)
      {
        var h := new Local(handlers[i]);
        if h == parameter {
          // the removal itself, by overwriting with the last handler, is never reached
          assert false;
        }
        i := i + 1;
      }
    }

    /**
     Publishes to the subscribers there are. Without any, the callback has been called with
     nil on return. With some it has not, and from here on, in every interleaving: it is
     called at most once and only when each has ended or missed its deadline, and once
     nothing but hanging handlers is left it has been called, unless the process crashed,
     exactly if panics and deadlines together do not outnumber them. No run is endless.
     */
    method PublishWithAck(eventType: string) returns (s: State)
      ensures |s.handlers| == if eventType in subscribers then |subscribers[eventType]| else 0
      ensures s.callbacks == if s.handlers == [] then [0] else []
      ensures forall run :: Legal(s, run) ==> Promised(s, Play(s, run), |run|)
    {
      s := State([], 0, false, 0, [], false);
      if eventType !in subscribers || |subscribers[eventType]| == 0 {
        s := s.(closed := true, callbacks := [0]);
      } else {
        var handlers := subscribers[eventType];
        for i := 0 to |handlers|
          invariant s == State(seq(i, _ => Handler(Running, Selecting, false, false)), 0, false, 0, [], false)
        {
          s := s.(handlers := s.handlers + [Handler(Running, Selecting, false, false)]);
        }
      }
      PublishPromises(|s.handlers|);
    }
  }

  /** What publishing promises of any state r reached from s. */
  ghost predicate Promised(s: State, r: State, steps: nat) {
    && |r.callbacks| <= 1 && (r.callbacks != [] ==> AllDone(r))
    && steps <= 6 * |s.handlers| + 3
    && (!r.crashed && Settled(r) ==> (r.callbacks != [] <==> TotalEvents(r.handlers) <= |s.handlers|))
  }

  lemma PublishPromises(n: nat)
    ensures |Publish(n).handlers| == n
    ensures forall run :: Legal(Publish(n), run) ==> Promised(Publish(n), Play(Publish(n), run), |run|)
  {
    forall run | Legal(Publish(n), run) ensures Promised(Publish(n), Play(Publish(n), run), |run|) {
      CallbackAtMostOnceAfterAll(n, run);
      EveryRunEnds(n, run);
      var r := Play(Publish(n), run);
      if !r.crashed && Settled(r) {
        AcknowledgesIffEventsFit(n, run);
      }
    }
  }
}
