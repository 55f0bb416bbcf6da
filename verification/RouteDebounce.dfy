/** The debouncer of audio route hints (app/src-tauri/src/lib.rs): each hint starts a timer, and only
    the timer of the newest hint refreshes the outputs. */
module RouteDebounce {

  /** One more than the largest value of an `AtomicU64`. */
  const WRAP := 0x1_0000_0000_0000_0000

  /** The counter after `hints` hints. */
  function Counter(hints: nat): nat { hints % WRAP }

  class RouteDebouncer {
    var counter: nat
    ghost var hints: nat

    ghost predicate Valid()
      reads this
    {
      counter == Counter(hints)
    }

    constructor ()
      ensures Valid() && hints == 0
    {
      counter, hints := 0, 0;
    }

    /** `fetch_add` and the generation the hint's timer keeps. */
    method Hint() returns (generation: nat)
      requires Valid()
      modifies this
      ensures Valid() && hints == old(hints) + 1 && generation == Counter(hints)
    {
      generation := (counter + 1) % WRAP;
      counter := (counter + 1) % WRAP;
      Increment(hints);
      hints := hints + 1;
    }

    /** The timer's check 650 ms later: whether it refreshes. `hint` is the number of its hint. */
    method TimerFires(generation: nat, ghost hint: nat) returns (refresh: bool)
      requires Valid() && hint <= hints && generation == Counter(hint)
      ensures refresh <==> (hints - hint) % WRAP == 0
    {
      refresh := generation == counter;
      SameCounter(hint, hints);
    }
  }

  lemma Increment(hints: nat)
    ensures (Counter(hints) + 1) % WRAP == Counter(hints + 1)
  {
  }

  lemma SameCounter(hint: nat, hints: nat)
    requires hint <= hints
    ensures Counter(hint) == Counter(hints) <==> (hints - hint) % WRAP == 0
  {
  }

  /** The refresh of the timer of hint `h` when it fires after `hints` hints in all. */
  predicate Refreshes(h: nat, hints: nat)
    requires h <= hints
  {
    Counter(h) == Counter(hints)
  }

  /** The newest hint's timer always refreshes; one that fewer than 2^64 later hints have overtaken
      never does. */
  lemma OnlyTheNewestRefreshes(h: nat, hints: nat)
    requires h <= hints
    ensures h == hints ==> Refreshes(h, hints)
    ensures 0 < hints - h < WRAP ==> !Refreshes(h, hints)
  {
    SameCounter(h, hints);
  }

  /** A timer refreshes exactly if the hints since its own are none, or a multiple of two to the 64. */
  lemma RefreshesExactly(h: nat, hints: nat)
    requires h <= hints
    ensures Refreshes(h, hints) <==> (hints - h) % 18446744073709551616 == 0
  {
    SameCounter(h, hints);
  }

  /** A run of the debouncer: hints, and timers of earlier hints firing in any order. */
  datatype Step = NewHint | Fire(hint: nat)

  function HintsOf(steps: seq<Step>): nat {
    if steps == [] then 0
    else HintsOf(steps[..|steps| - 1]) + if steps[|steps| - 1].NewHint? then 1 else 0
  }

  /** Only the timers of hints given before fire. */
  ghost predicate Run(steps: seq<Step>) {
    forall i | 0 <= i < |steps| && steps[i].Fire? :: 1 <= steps[i].hint <= HintsOf(steps[..i])
  }

  /** The hints whose timers refreshed. */
  function Refreshed(steps: seq<Step>): (hints: seq<nat>)
    requires Run(steps)
  {
    if steps == [] then []
    else
      var front, last := steps[..|steps| - 1], steps[|steps| - 1];
      FrontRuns(steps);
      if last.Fire? && Refreshes(last.hint, HintsOf(front)) then Refreshed(front) + [last.hint] else Refreshed(front)
  }

  lemma FrontRuns(steps: seq<Step>)
    requires Run(steps) && steps != []
    ensures Run(steps[..|steps| - 1])
    ensures steps[|steps| - 1].Fire? ==> 1 <= steps[|steps| - 1].hint <= HintsOf(steps[..|steps| - 1])
  {
    var front := steps[..|steps| - 1];
    forall i | 0 <= i < |front| && front[i].Fire? ensures 1 <= front[i].hint <= HintsOf(front[..i]) {
      assert front[i] == steps[i] && front[..i] == steps[..i];
    }
  }

  /** A timer fires once. */
  ghost predicate FiresOnce(steps: seq<Step>) {
    forall i, j | 0 <= i < j < |steps| && steps[i].Fire? && steps[j].Fire? :: steps[i].hint != steps[j].hint
  }

  /** A list of hints in ascending order, each of whose timers has fired. */
  ghost predicate FiredAscending(r: seq<nat>, steps: seq<Step>) {
    && (forall i | 0 <= i < |r| :: r[i] <= HintsOf(steps) && Fire(r[i]) in steps)
    && (forall i, j | 0 <= i < j < |r| :: r[i] < r[j])
  }

  lemma NotFiredBefore(steps: seq<Step>)
    requires FiresOnce(steps) && steps != [] && steps[|steps| - 1].Fire?
    ensures steps[|steps| - 1] !in steps[..|steps| - 1]
  {
    var front, last := steps[..|steps| - 1], steps[|steps| - 1];
    forall i | 0 <= i < |front| ensures front[i] != last {
      assert front[i] == steps[i];
    }
  }

  lemma {:induction false} OneMoreAscends(r: seq<nat>, front: seq<Step>, last: Step)
    requires FiredAscending(r, front)
    requires last.Fire? ==> last.hint == HintsOf(front) && last !in front
    ensures last.Fire? ==> FiredAscending(r + [last.hint], front + [last])
    ensures FiredAscending(r, front + [last])
  {
    var steps := front + [last];
    assert steps[..|steps| - 1] == front;
    assert HintsOf(steps) == HintsOf(front) + if last.NewHint? then 1 else 0;
    if last.Fire? {
      forall i | 0 <= i < |r| ensures r[i] < last.hint {
        assert Fire(r[i]) in front;
      }
    }
  }

  /** While fewer than 2^64 hints are given, the timers that refresh do so in the order of their
      hints, each at most once. */
  lemma {:induction false} RefreshesAscend(steps: seq<Step>)
    requires Run(steps) && FiresOnce(steps) && HintsOf(steps) < WRAP
    ensures FiredAscending(Refreshed(steps), steps)
  {
    if steps == [] {
    } else {
      var front, last := steps[..|steps| - 1], steps[|steps| - 1];
      FrontRuns(steps);
      RefreshesAscend(front);
      assert steps == front + [last];
      if last.Fire? {
        OnlyTheNewestRefreshes(last.hint, HintsOf(front));
        NotFiredBefore(steps);
        if last.hint == HintsOf(front) {
          OneMoreAscends(Refreshed(front), front, last);
        } else {
          assert HintsOf(steps) == HintsOf(front);
        }
      } else {
        OneMoreAscends(Refreshed(front), front, last);
      }
    }
  }

  lemma {:induction false} LateFire(n: nat, front: seq<Step>, last: Step)
    requires 0 < n < WRAP && Run(front + [last]) && Run(front) && HintsOf(front) == n
    requires last.Fire? && last !in front
    requires Refreshed(front) == if Fire(n) in front then [n] else []
    ensures HintsOf(front + [last]) == n
    ensures Refreshed(front + [last]) == if Fire(n) in front + [last] then [n] else []
  {
    var steps := front + [last];
    assert steps[..|steps| - 1] == front;
    FrontRuns(steps);
    OnlyTheNewestRefreshes(last.hint, n);
  }

  lemma {:induction false} OnlyHints(n: nat, steps: seq<Step>)
    requires n == |steps| && Run(steps) && forall i | 0 <= i < n :: steps[i].NewHint?
    ensures HintsOf(steps) == n && Refreshed(steps) == []
  {
    if n == 0 {
    } else {
      FrontRuns(steps);
      OnlyHints(n - 1, steps[..n - 1]);
    }
  }

  /** `n` hints, and after them nothing but timers, each once. */
  ghost predicate Burst(n: nat, steps: seq<Step>) {
    && 0 < n < WRAP && n <= |steps| && Run(steps) && FiresOnce(steps)
    && (forall i | 0 <= i < n :: steps[i].NewHint?)
    && (forall i | n <= i < |steps| :: steps[i].Fire?)
  }

  lemma BurstFront(n: nat, steps: seq<Step>)
    requires Burst(n, steps) && n < |steps|
    ensures Burst(n, steps[..|steps| - 1])
  {
    FrontRuns(steps);
  }

  lemma {:induction false} BurstStep(n: nat, steps: seq<Step>)
    requires Burst(n, steps) && n < |steps| && Run(steps[..|steps| - 1])
    requires var front := steps[..|steps| - 1];
             HintsOf(front) == n && Refreshed(front) == if Fire(n) in front then [n] else []
    ensures HintsOf(steps) == n && Refreshed(steps) == if Fire(n) in steps then [n] else []
  {
    var front, last := steps[..|steps| - 1], steps[|steps| - 1];
    NotFiredBefore(steps);
    assert steps == front + [last];
    LateFire(n, front, last);
  }

  /** After a burst of `n` hints whose timers fire in any order once the burst is over, the outputs
      are refreshed exactly once, by the last hint's timer. */
  lemma {:induction false} BurstRefreshesOnce(n: nat, steps: seq<Step>)
    requires Burst(n, steps)
    ensures HintsOf(steps) == n && Refreshed(steps) == if Fire(n) in steps then [n] else []
    decreases |steps|
  {
    if |steps| == n {
      OnlyHints(n, steps);
    } else {
      BurstFront(n, steps);
      BurstRefreshesOnce(n, steps[..|steps| - 1]);
      BurstStep(n, steps);
    }
  }
}
