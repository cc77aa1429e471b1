/** The per-provider sliding-window limiter (ai/rate_limiter.py).  The clock is a parameter. */
module RateLimiter {

  /** `IndexError` is what the wait computation raises on an empty queue. */
  datatype Verdict = Accepted | RateLimited(wait: real) | IndexError

  function Evict(dq: seq<real>, now: real, window: real): seq<real> {
    if dq != [] && now - dq[0] > window then Evict(dq[1..], now, window) else dq
  }

  /** The answer for a call at `now`, given the queue after eviction. */
  function Decide(kept: seq<real>, now: real, maxCalls: int, window: real): Verdict {
    if |kept| < maxCalls then Accepted
    else if kept == [] then IndexError
    else RateLimited(window - (now - kept[0]))
  }

  class AsyncRateLimiter {
    const maxCalls: int
    const window: real
    var calls: map<string, seq<real>>
    ghost var history: map<string, seq<real>>  // call times since the provider's last reset

    ghost predicate Valid()
      reads this
    {
      Agree(calls, history, maxCalls, window)
    }

    constructor (maxCalls: int, window: real)
      ensures Valid() && calls == map[] && this.maxCalls == maxCalls && this.window == window
    {
      this.maxCalls, this.window := maxCalls, window;
      calls, history := map[], map[];
    }

    method Acquire(provider: string, now: real) returns (verdict: Verdict)
      requires Valid()
      modifies this
      ensures Valid()
      ensures history == old(history)[provider := (if provider in old(history) then old(history)[provider] else []) + [now]]
      ensures var kept := Evict(if provider in old(calls) then old(calls)[provider] else [], now, window);
              && verdict == Decide(kept, now, maxCalls, window)
              && calls == old(calls)[provider := if verdict == Accepted then kept + [now] else kept]
    {
      ghost var past := if provider in history then history[provider] else [];
      OneMoreCall(past, now, maxCalls, window);
      QueueOf(calls, history, maxCalls, window, provider);
      hide Run, Evict, Agree;
      var dq := PopExpired(if provider in calls then calls[provider] else [], now);
      if |dq| >= maxCalls {
        if dq == [] {
          verdict := IndexError;
        } else {
          verdict := RateLimited(window - (now - dq[0]));
        }
      } else {
        verdict := Accepted;
        dq := dq + [now];
      }
      AgreeUpdate(calls, history, maxCalls, window, provider, dq, past + [now]);
      calls, history := calls[provider := dq], history[provider := past + [now]];
    }

    /** Drops the calls that have left the window, oldest first. */
    method PopExpired(queue: seq<real>, now: real) returns (dq: seq<real>)
      ensures dq == Evict(queue, now, window)
    {
      dq := queue;
      while dq != [] && now - dq[0] > window
        invariant Evict(queue, now, window) == Evict(dq, now, window)
        decreases |dq|
      {
        dq := dq[1..];
      }
    }

    method Reset(provider: string)
      requires Valid()
      modifies this
      ensures Valid()
      ensures calls == old(calls) - {provider} && history == old(history) - {provider}
    {
      calls := calls - {provider};
      history := history - {provider};
    }

    method ResetAll()
      requires Valid()
      modifies this
      ensures Valid() && calls == map[] && history == map[]
    {
      calls, history := map[], map[];
    }
  }

  /** Each provider's queue is what its calls since the last reset leave behind. */
  ghost predicate Agree(calls: map<string, seq<real>>, history: map<string, seq<real>>, maxCalls: int, window: real) {
    calls.Keys == history.Keys && forall p :: p in calls ==> calls[p] == Run(history[p], maxCalls, window).dq
  }

  lemma QueueOf(calls: map<string, seq<real>>, history: map<string, seq<real>>, maxCalls: int, window: real, p: string)
    requires Agree(calls, history, maxCalls, window)
    ensures (if p in calls then calls[p] else []) == Run(if p in history then history[p] else [], maxCalls, window).dq
  {
  }

  lemma AgreeUpdate(calls: map<string, seq<real>>, history: map<string, seq<real>>, maxCalls: int, window: real,
                    p: string, dq: seq<real>, times: seq<real>)
    requires Agree(calls, history, maxCalls, window) && dq == Run(times, maxCalls, window).dq
    ensures Agree(calls[p := dq], history[p := times], maxCalls, window)
  {
    hide Run;
  }

  // ---------------------------------------------------------------- whole runs

  /** The queue after a run of calls, and the times of all calls accepted in it. */
  datatype State = State(dq: seq<real>, accepted: seq<real>)

  function After(st: State, now: real, maxCalls: int, window: real): State {
    var kept := Evict(st.dq, now, window);
    if Decide(kept, now, maxCalls, window) == Accepted
    then State(kept + [now], st.accepted + [now])
    else State(kept, st.accepted)
  }

  lemma OneMoreCall(past: seq<real>, now: real, maxCalls: int, window: real)
    ensures Run(past + [now], maxCalls, window) == After(Run(past, maxCalls, window), now, maxCalls, window)
    ensures Run([], maxCalls, window).dq == []
  {
    assert (past + [now])[..|past|] == past;
  }

  function Run(times: seq<real>, maxCalls: int, window: real): State {
    if times == [] then State([], [])
    else After(Run(times[..|times| - 1], maxCalls, window), times[|times| - 1], maxCalls, window)
  }

  ghost predicate NonDecreasing(xs: seq<real>) { forall i, j :: 0 <= i <= j < |xs| ==> xs[i] <= xs[j] }

  /** The queue is the tail of the accepted calls, and whatever was evicted has left the window. */
  ghost predicate Tracks(st: State, clock: real, maxCalls: int, window: real) {
    && |st.dq| <= |st.accepted|
    && st.dq == st.accepted[|st.accepted| - |st.dq|..]
    && (forall i :: 0 <= i < |st.accepted| - |st.dq| ==> clock - st.accepted[i] > window)
    && (forall i :: 0 <= i < |st.accepted| ==> st.accepted[i] <= clock)
    && NonDecreasing(st.accepted)
    && (|st.dq| <= maxCalls || st.dq == [])
  }

  /** Eviction keeps a tail; on a sorted queue exactly the calls still inside the window. */
  lemma {:induction false} EvictKeepsWindow(dq: seq<real>, now: real, window: real)
    requires NonDecreasing(dq)
    ensures var kept := Evict(dq, now, window);
            && |kept| <= |dq| && kept == dq[|dq| - |kept|..]
            && (forall i :: 0 <= i < |dq| ==> (now - dq[i] <= window <==> i >= |dq| - |kept|))
  {
    if dq != [] && now - dq[0] > window {
      EvictKeepsWindow(dq[1..], now, window);
      assert forall i :: 1 <= i < |dq| ==> dq[i] == dq[1..][i - 1];
    }
  }

  /** After eviction the queue is the part of all accepted calls inside the window. */
  ghost predicate KeepsWindow(kept: seq<real>, accepted: seq<real>, now: real, window: real) {
    && |kept| <= |accepted| && kept == accepted[|accepted| - |kept|..]
    && forall i :: 0 <= i < |accepted| ==> (now - accepted[i] <= window <==> i >= |accepted| - |kept|)
  }

  lemma EvictTracks(st: State, clock: real, now: real, maxCalls: int, window: real)
    requires Tracks(st, clock, maxCalls, window) && clock <= now
    ensures KeepsWindow(Evict(st.dq, now, window), st.accepted, now, window)
    ensures |Evict(st.dq, now, window)| <= |st.dq|
  {
    hide Evict, KeepsWindow;
    var skip := |st.accepted| - |st.dq|;
    TailSorted(st.accepted, skip);
    EvictKeepsWindow(st.dq, now, window);
    WindowTail(Evict(st.dq, now, window), st.dq, st.accepted, now, window);
  }

  lemma TailSorted(xs: seq<real>, skip: nat)
    requires NonDecreasing(xs) && skip <= |xs|
    ensures NonDecreasing(xs[skip..])
  {
  }

  lemma WindowTail(kept: seq<real>, dq: seq<real>, acc: seq<real>, now: real, window: real)
    requires |kept| <= |dq| <= |acc| && kept == dq[|dq| - |kept|..] && dq == acc[|acc| - |dq|..]
    requires forall i :: 0 <= i < |acc| - |dq| ==> now - acc[i] > window
    requires forall i :: 0 <= i < |dq| ==> (now - dq[i] <= window <==> i >= |dq| - |kept|)
    ensures KeepsWindow(kept, acc, now, window)
  {
    var skip := |acc| - |dq|;
    forall i | 0 <= i < |acc| ensures now - acc[i] <= window <==> i >= |acc| - |kept| {
      if i >= skip { assert acc[i] == dq[i - skip]; }
    }
    TailOfTail(kept, dq, acc);
  }

  lemma TailOfTail(xs: seq<real>, ys: seq<real>, zs: seq<real>)
    requires |xs| <= |ys| <= |zs| && xs == ys[|ys| - |xs|..] && ys == zs[|zs| - |ys|..]
    ensures xs == zs[|zs| - |xs|..]
  {
  }

  lemma KeptTracks(kept: seq<real>, acc: seq<real>, clock: real, now: real, maxCalls: int, window: real)
    requires KeepsWindow(kept, acc, now, window) && NonDecreasing(acc) && clock <= now
    requires forall i :: 0 <= i < |acc| ==> acc[i] <= clock
    requires |kept| <= maxCalls || kept == []
    ensures Tracks(State(kept, acc), now, maxCalls, window)
  {
  }

  lemma AppendTracks(kept: seq<real>, acc: seq<real>, now: real, maxCalls: int, window: real)
    requires Tracks(State(kept, acc), now, maxCalls, window) && |kept| < maxCalls
    ensures Tracks(State(kept + [now], acc + [now]), now, maxCalls, window)
  {
    assert kept + [now] == (acc + [now])[|acc| - |kept|..];
    assert NonDecreasing(acc + [now]);
  }

  lemma StepTracks(st: State, clock: real, now: real, maxCalls: int, window: real)
    requires Tracks(st, clock, maxCalls, window) && clock <= now
    ensures Tracks(After(st, now, maxCalls, window), now, maxCalls, window)
  {
    EvictTracks(st, clock, now, maxCalls, window);
    var kept := Evict(st.dq, now, window);
    KeptTracks(kept, st.accepted, clock, now, maxCalls, window);
    if |kept| < maxCalls {
      AppendTracks(kept, st.accepted, now, maxCalls, window);
    }
  }

  lemma {:induction false} RunTracks(times: seq<real>, maxCalls: int, window: real)
    requires NonDecreasing(times) && times != []
    ensures Tracks(Run(times, maxCalls, window), times[|times| - 1], maxCalls, window)
  {
    var front, now := times[..|times| - 1], times[|times| - 1];
    if front == [] {
      StepTracks(State([], []), now, now, maxCalls, window);
    } else {
      RunTracks(front, maxCalls, window);
      StepTracks(Run(front, maxCalls, window), front[|front| - 1], now, maxCalls, window);
    }
  }

  /** Over a whole run, any two accepted calls `maxCalls` apart are more than a window apart:
      no window of that length ever holds more than `maxCalls` of them. */
  lemma {:induction false} AcceptedAreSpaced(times: seq<real>, maxCalls: int, window: real)
    requires NonDecreasing(times) && maxCalls >= 0
    ensures var acc := Run(times, maxCalls, window).accepted;
            Spaced(acc, maxCalls, window)
  {
    if times != [] {
      var front, now := times[..|times| - 1], times[|times| - 1];
      AcceptedAreSpaced(front, maxCalls, window);
      if front != [] {
        RunTracks(front, maxCalls, window);
        var st := Run(front, maxCalls, window);
        EvictTracks(st, front[|front| - 1], now, maxCalls, window);
        SpacingStep(Evict(st.dq, now, window), st.accepted, now, maxCalls, window);
        hide Spaced, Evict, Tracks;
      }
    }
  }

  ghost predicate Spaced(acc: seq<real>, maxCalls: nat, window: real) {
    forall i, j :: 0 <= i < j < |acc| && j == i + maxCalls ==> acc[j] - acc[i] > window
  }

  lemma SpacingStep(kept: seq<real>, acc: seq<real>, now: real, maxCalls: nat, window: real)
    requires KeepsWindow(kept, acc, now, window) && Spaced(acc, maxCalls, window)
    ensures |kept| < maxCalls ==> Spaced(acc + [now], maxCalls, window)
  {
    if |kept| < maxCalls {
      var next := acc + [now];
      forall i, j | 0 <= i < j < |next| && j == i + maxCalls ensures next[j] - next[i] > window {
        if j < |acc| {
          assert acc[j] - acc[i] > window;
        } else {
          assert i < |acc| - |kept| && next[i] == acc[i];
        }
      }
    }
  }

  /** How many of the calls lie in the closed window ending at `now`. */
  function Within(xs: seq<real>, now: real, window: real): nat {
    if xs == [] then 0
    else Within(xs[..|xs| - 1], now, window) + if now - xs[|xs| - 1] <= window then 1 else 0
  }

  lemma {:induction false} WithinTail(xs: seq<real>, now: real, window: real, tail: nat)
    requires tail <= |xs|
    requires forall i :: 0 <= i < |xs| ==> (now - xs[i] <= window <==> i >= |xs| - tail)
    ensures Within(xs, now, window) == tail
  {
    if xs != [] {
      WithinTail(xs[..|xs| - 1], now, window, if tail > 0 then tail - 1 else 0);
    }
  }

  /** A call is refused exactly when `maxCalls` accepted calls lie in the closed window ending now;
      there are never more.  A limiter allowing no call at all raises IndexError every time. */
  lemma RefusedIffWindowFull(times: seq<real>, now: real, maxCalls: int, window: real)
    requires NonDecreasing(times + [now])
    ensures var st := Run(times, maxCalls, window);
            var verdict := Decide(Evict(st.dq, now, window), now, maxCalls, window);
            var inWindow := Within(st.accepted, now, window);
            && (maxCalls >= 1 ==> inWindow <= maxCalls)
            && (maxCalls >= 1 ==> (verdict.RateLimited? <==> inWindow == maxCalls))
            && (maxCalls >= 1 ==> (verdict == Accepted <==> inWindow < maxCalls))
            && (maxCalls <= 0 ==> verdict == IndexError)
  {
    var st := Run(times, maxCalls, window);
    if times == [] {
      assert st == State([], []);
    } else {
      assert NonDecreasing(times) && times[|times| - 1] <= now by {
        assert forall i :: 0 <= i < |times| ==> (times + [now])[i] == times[i];
        assert (times + [now])[|times|] == now;
      }
      RunTracks(times, maxCalls, window);
      EvictTracks(st, times[|times| - 1], now, maxCalls, window);
      var kept := Evict(st.dq, now, window);
      WithinTail(st.accepted, now, window, |kept|);
      if maxCalls <= 0 {
        NothingAccepted(times, maxCalls, window);
      }
    }
  }

  /** The very first call through a limiter that allows none raises. */
  lemma ZeroCallsRaise()
    ensures var st := Run([], 0, 60.0); Decide(Evict(st.dq, 0.0, 60.0), 0.0, 0, 60.0) == IndexError
  {
    assert NonDecreasing([] + [0.0]);
    RefusedIffWindowFull([], 0.0, 0, 60.0);
  }

  lemma {:induction false} NothingAccepted(times: seq<real>, maxCalls: int, window: real)
    requires maxCalls <= 0
    ensures Run(times, maxCalls, window) == State([], [])
  {
    if times != [] {
      NothingAccepted(times[..|times| - 1], maxCalls, window);
    }
  }

  /** The wait that a refusal reports is exact: after that long the oldest call is still (just) in
      the window, and at any later instant it has left it. */
  lemma WaitIsExact(dq: seq<real>, now: real, later: real, maxCalls: int, window: real)
    requires Decide(Evict(dq, now, window), now, maxCalls, window).RateLimited? && NonDecreasing(dq)
    ensures var kept := Evict(dq, now, window);
            var wait := Decide(kept, now, maxCalls, window).wait;
            && wait >= 0.0
            && (later >= now ==> (Evict(kept, later, window) == kept <==> later <= now + wait))
  {
    EvictKeepsWindow(dq, now, window);
    var kept := Evict(dq, now, window);
    assert kept[0] == dq[|dq| - |kept|];
    EvictShrinks(kept[1..], later, window);
  }

  lemma {:induction false} EvictShrinks(dq: seq<real>, now: real, window: real)
    ensures |Evict(dq, now, window)| <= |dq|
  {
    if dq != [] {
      EvictShrinks(dq[1..], now, window);
    }
  }
}
