/**
 * The hero headline's typing effect of main.js (`initializeTypingEffect`).
 * The closure state is the cursor `i` and the `isErasing` flag over the
 * fixed original text; every run of `typeWriter` takes one of four branches
 * and schedules the next run with `setTimeout`. Timers are modelled with an
 * explicit clock in milliseconds: the state holds the one pending callback
 * and the time it is due.
 */
module Typing {
  import opened Wrappers

  const TypingSpeed: nat := 100
  const ErasingSpeed: nat := 50
  const DelayBetween: nat := 2000
  const StartDelay: nat := 1000

  datatype Phase = Phase(i: int, isErasing: bool)

  /** The four branches of `typeWriter`, in source order. */
  datatype Branch = TypeChar | EraseChar | Pause | Restart

  /** What a scheduled timer runs: the start-up closure, `typeWriter` itself, or the closure that switches to erasing first. */
  datatype Callback = Begin | TypeStep | ResumeErasing

  /** A `setTimeout(callback, delay)` request. */
  datatype Timer = Timer(delay: nat, callback: Callback)

  /** The closure state after a run, and the timer it requested, if any. */
  datatype Outcome = Outcome(phase: Phase, timer: Option<Timer>)

  /** A pending callback and the clock time it is due. */
  datatype Pending = Pending(due: int, callback: Callback)

  /** The whole animation: closure state and the pending timer. */
  datatype Machine = Machine(phase: Phase, pending: Option<Pending>)

  /** The guard of each branch, for a text of length `n`. */
  predicate Applies(b: Branch, n: int, p: Phase) {
    match b
    case TypeChar => !p.isErasing && p.i < n
    case EraseChar => p.isErasing && p.i > 0
    case Pause => !p.isErasing && p.i == n
    case Restart => p.isErasing && p.i == 0
  }

  /** The `if / else if` chain: the first branch whose guard holds, if any. */
  function Select(n: int, p: Phase): Option<Branch> {
    if Applies(TypeChar, n, p) then Some(TypeChar)
    else if Applies(EraseChar, n, p) then Some(EraseChar)
    else if Applies(Pause, n, p) then Some(Pause)
    else if Applies(Restart, n, p) then Some(Restart)
    else None
  }

  /** One run of `typeWriter`; when no guard holds it does nothing and schedules nothing. */
  function Step(n: int, p: Phase): Outcome {
    match Select(n, p)
    case Some(TypeChar) => Outcome(p.(i := p.i + 1), Some(Timer(TypingSpeed, TypeStep)))
    case Some(EraseChar) => Outcome(p.(i := p.i - 1), Some(Timer(ErasingSpeed, TypeStep)))
    case Some(Pause) => Outcome(p, Some(Timer(DelayBetween, ResumeErasing)))
    case Some(Restart) => Outcome(p.(isErasing := false), Some(Timer(TypingSpeed, TypeStep)))
    case None => Outcome(p, None)
  }

  /** Running a callback: the start-up closure and `typeWriter` leave the cursor alone before the run; the pause closure sets `isErasing` first. */
  function Run(n: int, p: Phase, cb: Callback): Outcome {
    match cb
    case Begin => Step(n, p)
    case TypeStep => Step(n, p)
    case ResumeErasing => Step(n, p.(isErasing := true))
  }

  /** The pending entry for a timer requested at time `now`. */
  function Schedule(now: int, t: Option<Timer>): Option<Pending> {
    match t
    case None => None
    case Some(tm) => Some(Pending(now + tm.delay, tm.callback))
  }

  /** The clock reaches the pending timer's due time and its callback runs. */
  function Fire(n: int, m: Machine): Machine {
    match m.pending
    case None => m
    case Some(pd) =>
      var o := Run(n, m.phase, pd.callback);
      Machine(o.phase, Schedule(pd.due, o.timer))
  }

  /** `k` successive timer firings. */
  function Steps(n: int, m: Machine, k: nat): Machine
    decreases k
  {
    if k == 0 then m else Steps(n, Fire(n, m), k - 1)
  }

  /** The state `initializeTypingEffect` leaves when called at time `t0`. */
  function Start(t0: int): Machine {
    Machine(Phase(0, false), Some(Pending(t0 + StartDelay, Begin)))
  }

  predicate InRange(n: int, p: Phase) {
    0 <= p.i <= n
  }

  /** The heading's text node and the closure state of `initializeTypingEffect`. */
  class Typewriter {
    const originalText: string
    var text: string
    var i: int
    var isErasing: bool
    var now: int
    var pending: Option<Pending>

    /** Before the start-up timer fires the heading shows its full text; afterwards it shows the first `i` characters. */
    ghost predicate Valid()
      reads this
    {
      && 0 <= i <= |originalText|
      && pending.Some? && now <= pending.value.due
      && (pending.value.callback == Begin ==> i == 0 && !isErasing && text == originalText)
      && (pending.value.callback != Begin ==> text == originalText[..i])
    }

    function Snapshot(): Machine
      reads this
    {
      Machine(Phase(i, isErasing), pending)
    }

    /** `initializeTypingEffect` on a heading whose text is `heroText`, at time `now`. */
    constructor (heroText: string, now: int)
      ensures Valid()
      ensures originalText == heroText && text == heroText && this.now == now
      ensures Snapshot() == Start(now)
    {
      originalText := heroText;
      text := heroText;
      i := 0;
      isErasing := false;
      this.now := now;
      pending := Some(Pending(now + StartDelay, Begin));
    }

    /** `typeWriter`. */
    method TypeWriter()
      requires 0 <= i <= |originalText| && text == originalText[..i]
      modifies this
      ensures 0 <= i <= |originalText| && text == originalText[..i]
      ensures now == old(now)
      ensures var o := Step(|originalText|, old(Snapshot().phase));
              Snapshot().phase == o.phase && pending == Schedule(now, o.timer)
      ensures pending.Some? && pending.value.callback != Begin
    {
      if !isErasing && i < |originalText| {
        text := originalText[..i + 1];
        i := i + 1;
        pending := Some(Pending(now + TypingSpeed, TypeStep));
      } else if isErasing && i > 0 {
        text := originalText[..i - 1];
        i := i - 1;
        pending := Some(Pending(now + ErasingSpeed, TypeStep));
      } else if !isErasing && i == |originalText| {
        pending := Some(Pending(now + DelayBetween, ResumeErasing));
      } else {
        // the fourth guard, `isErasing && i == 0`, is all that is left
        assert isErasing && i == 0;
        isErasing := false;
        pending := Some(Pending(now + TypingSpeed, TypeStep));
      }
    }

    /** The clock advances to the pending timer and its callback runs. */
    method Elapse()
      requires Valid()
      modifies this
      ensures Valid()
      ensures now == old(pending.value.due)
      ensures Snapshot() == Fire(|originalText|, old(Snapshot()))
    {
      var pd := pending.value;
      now := pd.due;
      match pd.callback
      case Begin =>
        text := "";
        TypeWriter();
      case TypeStep =>
        TypeWriter();
      case ResumeErasing =>
        isErasing := true;
        TypeWriter();
    }
  }

  /** Whenever `0 <= i <= n`, exactly one guard holds, the text empty or not. */
  lemma ExactlyOneBranch(n: int, p: Phase)
    requires InRange(n, p)
    ensures Select(n, p).Some?
    ensures forall b :: Applies(b, n, p) <==> b == Select(n, p).value
  {
  }

  /** What each branch does to the cursor and which delay it asks for. */
  lemma BranchEffects(n: int, p: Phase)
    requires InRange(n, p)
    ensures Applies(TypeChar, n, p) ==> Step(n, p) == Outcome(Phase(p.i + 1, false), Some(Timer(100, TypeStep)))
    ensures Applies(EraseChar, n, p) ==> Step(n, p) == Outcome(Phase(p.i - 1, true), Some(Timer(50, TypeStep)))
    ensures Applies(Pause, n, p) ==> Step(n, p) == Outcome(Phase(n, false), Some(Timer(2000, ResumeErasing)))
    ensures Applies(Restart, n, p) ==> Step(n, p) == Outcome(Phase(0, false), Some(Timer(100, TypeStep)))
  {
  }

  /** A firing keeps the cursor within the text and always leaves exactly one timer pending, later than the one that fired. */
  lemma FireKeepsRunning(n: int, m: Machine)
    requires InRange(n, m.phase) && m.pending.Some?
    ensures InRange(n, Fire(n, m).phase)
    ensures Fire(n, m).pending.Some? && Fire(n, m).pending.value.due > m.pending.value.due
  {
  }

  /** The animation never stops: the invariant holds after any number of firings. */
  lemma {:induction false} StepsKeepRunning(n: int, m: Machine, k: nat)
    requires InRange(n, m.phase) && m.pending.Some?
    ensures InRange(n, Steps(n, m, k).phase) && Steps(n, m, k).pending.Some?
    decreases k
  {
    if k > 0 {
      FireKeepsRunning(n, m);
      StepsKeepRunning(n, Fire(n, m), k - 1);
    }
  }

  lemma {:induction false} StepsAppend(n: int, m: Machine, a: nat, b: nat)
    ensures Steps(n, m, a + b) == Steps(n, Steps(n, m, a), b)
    decreases a
  {
    if a > 0 {
      StepsAppend(n, Fire(n, m), a - 1, b);
    }
  }

  /** While typing, each firing adds one character, 100 ms apart. */
  lemma {:induction false} TypingRun(n: int, j: int, t: int, k: nat)
    requires 0 <= j && j + k <= n
    ensures Steps(n, Machine(Phase(j, false), Some(Pending(t, TypeStep))), k)
         == Machine(Phase(j + k, false), Some(Pending(t + TypingSpeed * k, TypeStep)))
    decreases k
  {
    if k > 0 {
      TypingRun(n, j + 1, t + TypingSpeed, k - 1);
    }
  }

  /** While erasing, each firing removes one character, 50 ms apart. */
  lemma {:induction false} ErasingRun(n: int, j: int, t: int, k: nat)
    requires k <= j <= n
    ensures Steps(n, Machine(Phase(j, true), Some(Pending(t, TypeStep))), k)
         == Machine(Phase(j - k, true), Some(Pending(t + ErasingSpeed * k, TypeStep)))
    decreases k
  {
    if k > 0 {
      ErasingRun(n, j - 1, t + ErasingSpeed, k - 1);
    }
  }

  /**
   * One full cycle, from an empty heading about to type: `n` typing steps,
   * the pause, `n` erasing steps and the restart, `2n + 2` firings in all,
   * bring the animation back to where it was, 150n + 2100 ms later.
   */
  lemma Cycle(n: nat, t: int)
    ensures Steps(n, Machine(Phase(0, false), Some(Pending(t, TypeStep))), 2 * n + 2)
         == Machine(Phase(0, false), Some(Pending(t + 150 * n + 2100, TypeStep)))
  {
    var m0 := Machine(Phase(0, false), Some(Pending(t, TypeStep)));
    TypingRun(n, 0, t, n);
    var typed := Machine(Phase(n, false), Some(Pending(t + 100 * n, TypeStep)));
    var paused := Machine(Phase(n, false), Some(Pending(t + 100 * n + 2000, ResumeErasing)));
    assert Fire(n, typed) == paused;
    if n == 0 {
      assert Steps(n, m0, 2) == Steps(n, paused, 1);
    } else {
      var erasing := Machine(Phase(n - 1, true), Some(Pending(t + 100 * n + 2050, TypeStep)));
      assert Fire(n, paused) == erasing;
      ErasingRun(n, n - 1, t + 100 * n + 2050, n - 1);
      var erased := Machine(Phase(0, true), Some(Pending(t + 150 * n + 2000, TypeStep)));
      StepsAppend(n, m0, n, n + 2);
      StepsAppend(n, typed, 2, n);
      assert Steps(n, typed, 2) == erasing;
      StepsAppend(n, erasing, n - 1, 1);
      assert Steps(n, erasing, n - 1) == erased;
    }
  }

  /** The start-up closure only clears the heading, so its firing is that of an ordinary typing step. */
  lemma BeginIsTypingStep(n: int, t0: int)
    ensures Fire(n, Start(t0)) == Fire(n, Machine(Phase(0, false), Some(Pending(t0 + StartDelay, TypeStep))))
  {
  }
}
