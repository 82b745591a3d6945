/**
 * A single time-boxed easing of deal difficulty. Applying one replaces any
 * current one; each tick counts it down and clears it at the end. The
 * tick is exported; no turn of this model runs it.
 */
module DifficultyModifierStore {
  import opened GameTypes

  function ApplyTemporaryDifficultyModifier(s: GameState, duration: int, modifier: real): (r: GameState)
    ensures r.difficultyModifier == Some(DifficultyModifier(duration, modifier))
    ensures r == s.(difficultyModifier := r.difficultyModifier)
  {
    s.(difficultyModifier := Some(DifficultyModifier(duration, modifier)))
  }

  function TickDifficultyModifier(s: GameState): (r: GameState)
    ensures r == s.(difficultyModifier := r.difficultyModifier)
    ensures s.difficultyModifier.None? ==> r == s
    ensures s.difficultyModifier.Some? && s.difficultyModifier.value.remainingWeeks <= 1 ==>
      r.difficultyModifier.None?
    ensures s.difficultyModifier.Some? && s.difficultyModifier.value.remainingWeeks > 1 ==>
      r.difficultyModifier == Some(s.difficultyModifier.value.(remainingWeeks := s.difficultyModifier.value.remainingWeeks - 1))
  {
    match s.difficultyModifier
    case None => s
    case Some(m) =>
      var remaining := m.remainingWeeks - 1;
      if remaining <= 0 then s.(difficultyModifier := None)
      else s.(difficultyModifier := Some(m.(remainingWeeks := remaining)))
  }

  /** `n` successive ticks. */
  function TickTimes(s: GameState, n: nat): GameState
    decreases n
  {
    if n == 0 then s else TickTimes(TickDifficultyModifier(s), n - 1)
  }

  /** Ticking touches nothing but the modifier, however often it runs. */
  lemma {:induction false} TickTimesOnlyModifier(s: GameState, n: nat)
    ensures TickTimes(s, n) == s.(difficultyModifier := TickTimes(s, n).difficultyModifier)
    decreases n
  {
    if n > 0 {
      TickTimesOnlyModifier(TickDifficultyModifier(s), n - 1);
    }
  }

  /** While more than `k` weeks remain, `k` ticks subtract exactly `k` and keep the value. */
  lemma {:induction false} TickTimesCountsDown(s: GameState, k: nat)
    requires s.difficultyModifier.Some? && s.difficultyModifier.value.remainingWeeks > k
    ensures TickTimes(s, k).difficultyModifier ==
      Some(DifficultyModifier(s.difficultyModifier.value.remainingWeeks - k, s.difficultyModifier.value.modifier))
    decreases k
  {
    if k > 0 {
      var t := TickDifficultyModifier(s);
      TickTimesCountsDown(t, k - 1);
    }
  }

  /**
   * A modifier applied for `d` weeks lasts exactly `d` ticks: after `d - 1`
   * ticks one week remains, and the `d`-th tick clears it.
   */
  lemma BuffLastsDuration(s: GameState, d: int, modifier: real)
    requires d >= 1
    ensures TickTimes(ApplyTemporaryDifficultyModifier(s, d, modifier), d - 1).difficultyModifier
      == Some(DifficultyModifier(1, modifier))
    ensures TickTimes(ApplyTemporaryDifficultyModifier(s, d, modifier), d).difficultyModifier.None?
  {
    var a := ApplyTemporaryDifficultyModifier(s, d, modifier);
    TickTimesCountsDown(a, d - 1);
    TickTimesLast(a, d - 1);
  }

  /** Ticking `k + 1` times is ticking `k` times and then once more. */
  lemma {:induction false} TickTimesLast(s: GameState, k: nat)
    ensures TickTimes(s, k + 1) == TickDifficultyModifier(TickTimes(s, k))
    decreases k
  {
    if k > 0 {
      TickTimesLast(TickDifficultyModifier(s), k - 1);
    }
  }
}
