/**
 The graceful-shutdown gate: every request checks the shutdown context, then updates an
 atomic counter and a wait group, is served, and takes both updates back. Requests and
 Shutdown interleave one such operation at a time.
 */
module ShutdownGate {

  datatype Phase =
    | Arriving  // before the gate
    | Refused   // 503
    | Passed    // saw no shutdown
    | Counted   // counter incremented, group not yet
    | Serving   // both incremented
    | Leaving   // counter decremented, group not yet
    | Gone

  datatype State = State(phases: seq<Phase>, counter: int, group: int, cancelled: bool, waited: bool)

  datatype Action =
    | Check(i: nat)
    | Increment(i: nat)
    | Join(i: nat)
    | Decrement(i: nat)
    | Leave(i: nat)
    | Cancel
    | WaitReturns

  function Start(requests: nat): State {
    State(seq(requests, _ => Arriving), 0, 0, false, false)
  }

  predicate Enabled(s: State, a: Action) {
    match a
    case Check(i) => i < |s.phases| && s.phases[i] == Arriving
    case Increment(i) => i < |s.phases| && s.phases[i] == Passed
    case Join(i) => i < |s.phases| && s.phases[i] == Counted
    case Decrement(i) => i < |s.phases| && s.phases[i] == Serving
    case Leave(i) => i < |s.phases| && s.phases[i] == Leaving
    case Cancel => !s.cancelled
    case WaitReturns => s.cancelled && !s.waited && s.group == 0
  }

  function Do(s: State, a: Action): State
    requires Enabled(s, a)
  {
    match a
    case Check(i) => s.(phases := s.phases[i := if s.cancelled then Refused else Passed])
    case Increment(i) => s.(phases := s.phases[i := Counted], counter := s.counter + 1)
    case Join(i) => s.(phases := s.phases[i := Serving], group := s.group + 1)
    case Decrement(i) => s.(phases := s.phases[i := Leaving], counter := s.counter - 1)
    case Leave(i) => s.(phases := s.phases[i := Gone], group := s.group - 1)
    case Cancel => s.(cancelled := true)
    case WaitReturns => s.(waited := true)
  }

  predicate Legal(s: State, run: seq<Action>)
    decreases |run|
  {
    run == [] || (Enabled(s, run[0]) && Legal(Do(s, run[0]), run[1..]))
  }

  function Play(s: State, run: seq<Action>): State
    requires Legal(s, run)
    decreases |run|
  {
    if run == [] then s else Play(Do(s, run[0]), run[1..])
  }

  /** The requests that are in one of two phases. */
  function Count(phases: seq<Phase>, p: Phase, q: Phase): nat {
    if phases == [] then 0 else (if phases[0] == p || phases[0] == q then 1 else 0) + Count(phases[1..], p, q)
  }

  lemma {:induction false} CountAfter(phases: seq<Phase>, i: nat, x: Phase, p: Phase, q: Phase)
    requires i < |phases|
    ensures Count(phases[i := x], p, q)
         == Count(phases, p, q) - (if phases[i] == p || phases[i] == q then 1 else 0) + (if x == p || x == q then 1 else 0)
  {
    if i == 0 {
      assert phases[0 := x][1..] == phases[1..];
    } else {
      assert phases[i := x][1..] == phases[1..][i - 1 := x];
      CountAfter(phases[1..], i - 1, x, p, q);
    }
  }

  /** Each count is the number of requests between its own increment and decrement. */
  ghost predicate Inv(s: State) {
    && s.counter == Count(s.phases, Counted, Serving)
    && s.group == Count(s.phases, Serving, Leaving)
  }

  lemma StepKeepsInv(s: State, a: Action)
    requires Inv(s) && Enabled(s, a)
    ensures Inv(Do(s, a))
  {
    if !a.Cancel? && !a.WaitReturns? {
      CountAfter(s.phases, a.i, Do(s, a).phases[a.i], Counted, Serving);
      CountAfter(s.phases, a.i, Do(s, a).phases[a.i], Serving, Leaving);
    }
  }

  lemma {:induction false} RunKeepsInv(s: State, run: seq<Action>)
    requires Inv(s) && Legal(s, run)
    ensures Inv(Play(s, run))
    decreases |run|
  {
    if run != [] {
      StepKeepsInv(s, run[0]);
      RunKeepsInv(Do(s, run[0]), run[1..]);
    }
  }

  lemma {:induction false} NobodyCountedAtStart(n: nat, p: Phase, q: Phase)
    requires p != Arriving && q != Arriving
    ensures Count(seq(n, _ => Arriving), p, q) == 0
  {
    if n > 0 {
      assert seq(n, _ => Arriving)[1..] == seq(n - 1, _ => Arriving);
      NobodyCountedAtStart(n - 1, p, q);
    }
  }

  /** In every interleaving both counts are exact, and so never negative. */
  lemma CountsAreExact(requests: nat, run: seq<Action>)
    requires Legal(Start(requests), run)
    ensures var s := Play(Start(requests), run);
            && s.counter == Count(s.phases, Counted, Serving) >= 0
            && s.group == Count(s.phases, Serving, Leaving) >= 0
  {
    NobodyCountedAtStart(requests, Counted, Serving);
    NobodyCountedAtStart(requests, Serving, Leaving);
    RunKeepsInv(Start(requests), run);
  }

  predicate InFlight(p: Phase) {
    p == Passed || p == Counted || p == Serving || p == Leaving
  }

  /** The requests that have passed the gate and not finished. */
  function Flying(s: State): set<nat> {
    set i: nat | i < |s.phases| && InFlight(s.phases[i])
  }

  /** After shutdownCancel no further request gets in, in any interleaving. */
  lemma {:induction false} NobodyEntersAfterCancel(s: State, run: seq<Action>)
    requires s.cancelled && Legal(s, run)
    ensures Play(s, run).cancelled && Flying(Play(s, run)) <= Flying(s)
    decreases |run|
  {
    if run != [] {
      NobodyEntersAfterCancel(Do(s, run[0]), run[1..]);
    }
  }

  lemma {:induction false} ZeroMeansNone(phases: seq<Phase>, p: Phase, q: Phase)
    ensures Count(phases, p, q) == 0 <==> forall i :: 0 <= i < |phases| ==> phases[i] != p && phases[i] != q
  {
    if phases != [] {
      ZeroMeansNone(phases[1..], p, q);
      assert forall i :: 0 <= i < |phases[1..]| ==> phases[1..][i] == phases[i + 1];
      if Count(phases, p, q) == 0 {
        forall i | 0 <= i < |phases| ensures phases[i] != p && phases[i] != q {
          if i > 0 {
            assert phases[1..][i - 1] == phases[i];
          }
        }
      }
    }
  }

  /**
   When Shutdown's wait on the group can return, the requests still in flight are exactly
   those that have passed the gate and not yet joined the group. So nothing is in flight,
   then or ever after, if and only if no request stands between its check and its Add.
   */
  lemma WaitMissesOnlyUnjoined(requests: nat, run: seq<Action>, more: seq<Action>)
    requires Legal(Start(requests), run) && Enabled(Play(Start(requests), run), WaitReturns)
    requires Legal(Play(Start(requests), run), more)
    ensures var s := Play(Start(requests), run);
            && (forall i: nat :: i in Flying(s) <==> i < |s.phases| && (s.phases[i] == Passed || s.phases[i] == Counted))
            && (Flying(s) == {} <==> forall i :: 0 <= i < |s.phases| ==> s.phases[i] != Passed && s.phases[i] != Counted)
            && (Flying(s) == {} ==> Flying(Play(s, more)) == {})
  {
    var s := Play(Start(requests), run);
    CountsAreExact(requests, run);
    ZeroMeansNone(s.phases, Serving, Leaving);
    NobodyEntersAfterCancel(s, more);
    if Flying(s) == {} {
      forall i | 0 <= i < |s.phases| ensures s.phases[i] != Passed && s.phases[i] != Counted {
        assert i !in Flying(s);
      }
    }
  }

  /** The window is real: a request that has passed the gate can be served after the wait has returned. */
  lemma ServedAfterWait()
    ensures var run := [Check(0), Cancel, WaitReturns, Increment(0), Join(0)];
            && Legal(Start(1), run)
            && Play(Start(1), run).waited && Play(Start(1), run).phases[0] == Serving
  {
  }

  // ---- The shared fields ----

  /** What one request does when nothing else runs in between. */
  function Pass(s: State, i: nat): seq<Action> {
    if s.cancelled then [Check(i)] else [Check(i), Increment(i), Join(i), Decrement(i), Leave(i)]
  }

  lemma PlayStep(s: State, a: Action, rest: seq<Action>)
    requires Enabled(s, a) && Legal(Do(s, a), rest)
    ensures Legal(s, [a] + rest) && Play(s, [a] + rest) == Play(Do(s, a), rest)
  {
    assert ([a] + rest)[1..] == rest;
  }

  lemma PassIsPlayed(s: State, i: nat)
    requires Enabled(s, Check(i))
    ensures Legal(s, Pass(s, i))
    ensures s.cancelled ==> Play(s, Pass(s, i)) == Do(s, Check(i))
    ensures !s.cancelled ==>
      Play(s, Pass(s, i)) == Do(Do(Do(Do(Do(s, Check(i)), Increment(i)), Join(i)), Decrement(i)), Leave(i))
  {
    var s1 := Do(s, Check(i));
    if s.cancelled {
      PlayStep(s, Check(i), []);
    } else {
      var s2 := Do(s1, Increment(i));
      var s3 := Do(s2, Join(i));
      var s4 := Do(s3, Decrement(i));
      PlayStep(s4, Leave(i), []);
      PlayStep(s3, Decrement(i), [Leave(i)]);
      PlayStep(s2, Join(i), [Decrement(i), Leave(i)]);
      PlayStep(s1, Increment(i), [Join(i), Decrement(i), Leave(i)]);
      PlayStep(s, Check(i), [Increment(i), Join(i), Decrement(i), Leave(i)]);
    }
  }

  class App {
    var activeRequests: int
    var requestWg: int
    var shuttingDown: bool

    ghost predicate InStep(s: State)
      reads this
    {
      activeRequests == s.counter && requestWg == s.group && shuttingDown == s.cancelled
    }

    constructor ()
      ensures forall n: nat :: InStep(Start(n))
    {
      activeRequests, requestWg, shuttingDown := 0, 0, false;
    }

    method ShutdownCancel(ghost s: State)
      requires InStep(s) && Enabled(s, Cancel)
      modifies this`shuttingDown
      ensures InStep(Do(s, Cancel))
    {
      shuttingDown := true;
    }

    method IncrementActiveRequests(ghost s: State, ghost i: nat)
      requires InStep(s) && Enabled(s, Increment(i))
      modifies this`activeRequests, this`requestWg
      ensures InStep(Do(Do(s, Increment(i)), Join(i)))
    {
      activeRequests := activeRequests + 1;
      assert InStep(Do(s, Increment(i)));
      requestWg := requestWg + 1;
    }

    method DecrementActiveRequests(ghost s: State, ghost i: nat)
      requires InStep(s) && Enabled(s, Decrement(i))
      modifies this`activeRequests, this`requestWg
      ensures InStep(Do(Do(s, Decrement(i)), Leave(i)))
    {
      activeRequests := activeRequests - 1;
      assert InStep(Do(s, Decrement(i)));
      requestWg := requestWg - 1;
    }

    /** A request served alone: the fields go through the machine's steps and end as they began. */
    method GracefulShutdownMiddleware(ghost s: State, ghost i: nat) returns (served: bool)
      requires InStep(s) && Enabled(s, Check(i))
      modifies this`activeRequests, this`requestWg
      ensures served <==> !shuttingDown
      ensures Legal(s, Pass(s, i)) && InStep(Play(s, Pass(s, i)))
      ensures activeRequests == old(activeRequests) && requestWg == old(requestWg)
    {
      PassIsPlayed(s, i);
      if shuttingDown {
        return false;
      }
      IncrementActiveRequests(Do(s, Check(i)), i);
      DecrementActiveRequests(Do(Do(Do(s, Check(i)), Increment(i)), Join(i)), i);
      served := true;
    }
  }
}
