/**
 * `debounce(func, wait)` of main.js. The returned function keeps one timer
 * slot; every call clears it and arms a fresh timer that, `wait` ticks
 * later, calls `func` with that call's arguments. Time is an explicit
 * integer clock; `runs` records the argument lists `func` was called with.
 */
module Debounce {
  import opened Wrappers

  /** An armed timer: when it is due and the arguments it will pass on. */
  datatype Pending<A> = Pending(due: int, args: A)

  datatype DebounceState<A> = DebounceState(now: int, timer: Option<Pending<A>>, runs: seq<A>)

  /** What happens to the debounced function: a call, or time passing. */
  datatype Event<A> = Invoke(args: A) | Wait(ticks: nat)

  /** `executedFunction(...args)`: clear the slot, arm a new timer. */
  function Call<A>(wait: nat, s: DebounceState<A>, args: A): (r: DebounceState<A>)
    ensures r.timer == Some(Pending(s.now + wait, args))
    ensures r.now == s.now && r.runs == s.runs
  {
    s.(timer := Some(Pending(s.now + wait, args)))
  }

  /** `d` ticks pass; an armed timer that falls due meanwhile runs `later`, which calls `func`. */
  function Elapse<A>(s: DebounceState<A>, d: nat): (r: DebounceState<A>)
    ensures r.now == s.now + d
    ensures s.timer.Some? && s.timer.value.due <= s.now + d ==>
              r.timer == None && r.runs == s.runs + [s.timer.value.args]
    ensures !(s.timer.Some? && s.timer.value.due <= s.now + d) ==>
              r.timer == s.timer && r.runs == s.runs
  {
    var t := s.now + d;
    match s.timer
    case Some(p) =>
      if p.due <= t then DebounceState(t, None, s.runs + [p.args]) else s.(now := t)
    case None => s.(now := t)
  }

  function Apply<A>(wait: nat, s: DebounceState<A>, e: Event<A>): DebounceState<A> {
    match e
    case Invoke(args) => Call(wait, s, args)
    case Wait(d) => Elapse(s, d)
  }

  function Replay<A>(wait: nat, s: DebounceState<A>, events: seq<Event<A>>): DebounceState<A>
    decreases |events|
  {
    if events == [] then s else Replay(wait, Apply(wait, s, events[0]), events[1..])
  }

  /** A slot is at most one timer, due no earlier than now and at most `wait` ticks away. */
  predicate Inv<A>(wait: nat, s: DebounceState<A>) {
    s.timer.Some? ==> s.now <= s.timer.value.due <= s.now + wait
  }

  /** Calls with the idle gap that follows each: `[Invoke(a0), Wait(g0), Invoke(a1), Wait(g1), ...]`. */
  function Burst<A>(calls: seq<(A, nat)>): seq<Event<A>>
    decreases |calls|
  {
    if calls == [] then [] else [Invoke(calls[0].0), Wait(calls[0].1)] + Burst(calls[1..])
  }

  function TotalGap<A>(calls: seq<(A, nat)>): int
    decreases |calls|
  {
    if calls == [] then 0 else calls[0].1 + TotalGap(calls[1..])
  }

  /** The closure of `debounce(func, wait)`: its `timeout` slot, the clock and the calls `func` received. */
  class Debouncer<A> {
    const wait: nat
    var now: int
    var timer: Option<Pending<A>>
    var runs: seq<A>

    function State(): DebounceState<A>
      reads this
    {
      DebounceState(now, timer, runs)
    }

    constructor (wait: nat, now: int)
      ensures this.wait == wait
      ensures State() == DebounceState(now, None, [])
    {
      this.wait := wait;
      this.now := now;
      timer := None;
      runs := [];
    }

    /** `executedFunction(...args)`. */
    method ExecutedFunction(args: A)
      modifies this
      ensures State() == Call(wait, old(State()), args)
    {
      timer := None;                            // clearTimeout(timeout)
      timer := Some(Pending(now + wait, args)); // timeout = setTimeout(later, wait)
    }

    /** The clock advances by `d` ticks, running `later` if the armed timer falls due. */
    method Advance(d: nat)
      modifies this
      ensures State() == Elapse(old(State()), d)
    {
      if timer.Some? && timer.value.due <= now + d {
        var args := timer.value.args;
        timer := None;                          // clearTimeout(timeout) inside `later`
        runs := runs + [args];                  // func(...args)
      }
      now := now + d;
    }
  }

  /** Every event keeps the slot within `wait` ticks of the clock. */
  lemma {:induction false} ReplayKeepsInv<A>(wait: nat, s: DebounceState<A>, events: seq<Event<A>>)
    requires Inv(wait, s)
    ensures Inv(wait, Replay(wait, s, events))
    ensures |Replay(wait, s, events).runs| >= |s.runs|
    ensures Replay(wait, s, events).runs[..|s.runs|] == s.runs
    decreases |events|
  {
    if events != [] {
      var s1 := Apply(wait, s, events[0]);
      assert s1.runs[..|s.runs|] == s.runs;
      ReplayKeepsInv(wait, s1, events[1..]);
    }
  }

  lemma {:induction false} ReplayAppend<A>(wait: nat, s: DebounceState<A>, a: seq<Event<A>>, b: seq<Event<A>>)
    ensures Replay(wait, s, a + b) == Replay(wait, Replay(wait, s, a), b)
    decreases |a|
  {
    if a == [] {
      assert a + b == b;
    } else {
      assert (a + b)[1..] == a[1..] + b;
      ReplayAppend(wait, Apply(wait, s, a[0]), a[1..], b);
    }
  }

  /**
   * While no gap between calls reaches `wait`, `func` never runs, and the one
   * armed timer carries the most recent call's arguments, due `wait` ticks
   * after that call.
   */
  lemma {:induction false} BurstDefers<A>(wait: nat, s: DebounceState<A>, calls: seq<(A, nat)>)
    requires |calls| > 0
    requires forall k :: 0 <= k < |calls| ==> calls[k].1 < wait
    ensures Replay(wait, s, Burst(calls)) ==
            DebounceState(s.now + TotalGap(calls),
                          Some(Pending(s.now + TotalGap(calls) - calls[|calls| - 1].1 + wait, calls[|calls| - 1].0)),
                          s.runs)
    decreases |calls|
  {
    var a, g := calls[0].0, calls[0].1;
    var rest := calls[1..];
    var s2 := DebounceState(s.now + g, Some(Pending(s.now + wait, a)), s.runs);
    assert Burst(calls) == [Invoke(a), Wait(g)] + Burst(rest);
    ReplayAppend(wait, s, [Invoke(a), Wait(g)], Burst(rest));
    assert Replay(wait, s, [Invoke(a), Wait(g)]) == s2 by {
      var e: seq<Event<A>> := [Invoke(a), Wait(g)];
      var w: seq<Event<A>> := [Wait(g)];
      assert e[1..] == w && w[1..] == [];
      assert g < wait by { assert calls[0].1 < wait; }
      assert Elapse(Call(wait, s, a), g) == s2;
      assert Replay(wait, s, e) == Replay(wait, Call(wait, s, a), w);
      assert Replay(wait, Call(wait, s, a), w) == Replay(wait, s2, w[1..]);
    }
    if rest != [] {
      BurstDefers(wait, s2, rest);
    }
  }

  /**
   * A burst of calls followed by quiet long enough that `wait` ticks pass
   * after the last call runs `func` exactly once, with the last call's
   * arguments, and leaves nothing armed.
   */
  lemma RunsOnceWithLastArgs<A>(wait: nat, s: DebounceState<A>, calls: seq<(A, nat)>, quiet: nat)
    requires |calls| > 0
    requires forall k :: 0 <= k < |calls| ==> calls[k].1 < wait
    requires calls[|calls| - 1].1 + quiet >= wait
    ensures Replay(wait, s, Burst(calls) + [Wait(quiet)]).runs == s.runs + [calls[|calls| - 1].0]
    ensures Replay(wait, s, Burst(calls) + [Wait(quiet)]).timer == None
  {
    BurstDefers(wait, s, calls);
    ReplayAppend(wait, s, Burst(calls), [Wait(quiet)]);
  }

  /** A call cancels whatever was armed: two calls with no time between them act as the second alone. */
  lemma CallSupersedes<A>(wait: nat, s: DebounceState<A>, x: A, y: A)
    ensures Call(wait, Call(wait, s, x), y) == Call(wait, s, y)
  {
  }
}
