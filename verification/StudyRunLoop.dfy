// Loops over abstract steps. The generic run and the fused scalar run are both
// instances, so what holds of every loop is proved here once.
module StudyRunLoop {
  import opened Outcomes
  import opened RunHistory
  import opened StudyRun

  /** How the loop ends, if `fuel` steps suffice, and its variables there. */
  function LoopFrom(goes: Loop -> bool, step: Loop -> Advance, close: Loop -> Ending, loop: Loop, fuel: nat)
    : (r: (Option<Ending>, Loop))
    decreases fuel
  {
    if !goes(loop) then (Some(close(loop)), loop)
    else if fuel == 0 then (None, loop)
    else match step(loop)
      case End(ending) => (Some(ending), loop)
      case Break(last) => (Some(close(last)), last)
      case Continue(next) => LoopFrom(goes, step, close, next, fuel - 1)
  }

  // ----- the generic run -----

  function GoesOf(m: RunMethod): (r: Loop -> bool) {
    (l: Loop) => GoesOn(m, l)
  }

  function StepOf(m: RunMethod, ev: Evaluation, cfg: Settings): (r: Loop -> Advance) {
    (l: Loop) => if l.remaining <= cfg.maxEvaluations then Iterate(m, ev, cfg, l) else Break(l)
  }

  function CloseOf(m: RunMethod, cfg: Settings): (r: Loop -> Ending) {
    (l: Loop) => Close(m, cfg, l)
  }

  lemma {:induction false} RunIsLoop(m: RunMethod, ev: Evaluation, cfg: Settings, loop: Loop, fuel: nat)
    requires loop.remaining <= cfg.maxEvaluations
    ensures RunFrom(m, ev, cfg, loop, fuel) == LoopFrom(GoesOf(m), StepOf(m, ev, cfg), CloseOf(m, cfg), loop, fuel)
    decreases fuel
  {
    if GoesOn(m, loop) && fuel > 0 {
      var advance := Iterate(m, ev, cfg, loop);
      if advance.Continue? {
        RunIsLoop(m, ev, cfg, advance.next, fuel - 1);
      }
    }
  }

  // ----- invariants -----

  ghost predicate Keeps(inv: Loop -> bool, advance: Advance) {
    match advance
    case Continue(next) => inv(next)
    case Break(last) => inv(last)
    case End(_) => true
  }

  /** What every step keeps holds where the loop is left, and its ending is decided
      there. */
  lemma {:induction false} LoopKeeps(goes: Loop -> bool, step: Loop -> Advance, close: Loop -> Ending, inv: Loop -> bool,
                                     loop: Loop, fuel: nat)
    requires inv(loop)
    requires forall l: Loop :: inv(l) && goes(l) ==> Keeps(inv, step(l))
    ensures var (ending, last) := LoopFrom(goes, step, close, loop, fuel);
      && inv(last)
      && (ending.Some? ==> ending.value == close(last) || step(last) == End(ending.value))
    decreases fuel
  {
    if goes(loop) && fuel > 0 && step(loop).Continue? {
      LoopKeeps(goes, step, close, inv, step(loop).next, fuel - 1);
    }
  }

  /** How a loop ends: where it does not go on, where a step has stopped it, or in a
      step. */
  lemma {:induction false} LoopEnds(goes: Loop -> bool, step: Loop -> Advance, close: Loop -> Ending, inv: Loop -> bool,
                                    stopped: Loop -> bool, loop: Loop, fuel: nat)
    requires inv(loop)
    requires forall l: Loop :: inv(l) && goes(l) ==>
      match step(l) case Continue(next) => inv(next) case Break(last) => stopped(last) case End(_) => true
    ensures var (ending, last) := LoopFrom(goes, step, close, loop, fuel);
      ending.Some? ==>
        || (ending.value == close(last) && ((inv(last) && !goes(last)) || stopped(last)))
        || (inv(last) && goes(last) && step(last) == End(ending.value))
    decreases fuel
  {
    if goes(loop) && fuel > 0 && step(loop).Continue? {
      LoopEnds(goes, step, close, inv, stopped, step(loop).next, fuel - 1);
    }
  }

  /** Every head that the loop passes in `fuel` steps meets a condition. */
  predicate Along(goes: Loop -> bool, step: Loop -> Advance, ok: Loop -> bool, loop: Loop, fuel: nat)
    decreases fuel
  {
    goes(loop) && fuel > 0 ==>
      ok(loop) && (step(loop).Continue? ==> Along(goes, step, ok, step(loop).next, fuel - 1))
  }

  // ----- termination -----

  /** The completed steps among the first `fuel` that leave the budget as it is. */
  function FreeFrom(goes: Loop -> bool, step: Loop -> Advance, loop: Loop, fuel: nat): (r: nat)
    decreases fuel
  {
    if fuel == 0 || !goes(loop) || !step(loop).Continue? then 0
    else
      var next := step(loop).next;
      (if next.remaining == loop.remaining then 1 else 0) + FreeFrom(goes, step, next, fuel - 1)
  }

  /** Steps are made only with some budget, and never give any back. */
  ghost predicate Spends(goes: Loop -> bool, step: Loop -> Advance) {
    forall l: Loop :: goes(l) ==>
      l.remaining > 0 && (step(l).Continue? ==> step(l).next.remaining <= l.remaining)
  }

  /** As long as a loop goes on, each step is free or takes from the budget, of which
      something is left. */
  lemma {:induction false} UnendedIsFree(goes: Loop -> bool, step: Loop -> Advance, close: Loop -> Ending, loop: Loop,
                                         fuel: nat)
    requires Spends(goes, step) && LoopFrom(goes, step, close, loop, fuel).0.None?
    ensures FreeFrom(goes, step, loop, fuel) > fuel - loop.remaining
    decreases fuel
  {
    if fuel > 0 {
      UnendedIsFree(goes, step, close, step(loop).next, fuel - 1);
    }
  }

  /** A loop that has ended makes no further step. */
  lemma {:induction false} EndedIsCounted(goes: Loop -> bool, step: Loop -> Advance, close: Loop -> Ending, loop: Loop,
                                          fuel: nat, more: nat)
    requires LoopFrom(goes, step, close, loop, fuel).0.Some? && fuel <= more
    ensures FreeFrom(goes, step, loop, more) <= fuel
    decreases fuel
  {
    if fuel > 0 && goes(loop) && step(loop).Continue? {
      EndedIsCounted(goes, step, close, step(loop).next, fuel - 1, more - 1);
    }
  }

  lemma {:induction false} PaidIsNotFree(goes: Loop -> bool, step: Loop -> Advance, loop: Loop, fuel: nat)
    requires forall l: Loop :: goes(l) && step(l).Continue? ==> step(l).next.remaining < l.remaining
    ensures FreeFrom(goes, step, loop, fuel) == 0
    decreases fuel
  {
    if fuel > 0 && goes(loop) && step(loop).Continue? {
      PaidIsNotFree(goes, step, step(loop).next, fuel - 1);
    }
  }

  /** Every step from one of these places is free and leads to another. */
  ghost predicate StaysFree(goes: Loop -> bool, step: Loop -> Advance, stays: Loop -> bool) {
    forall l: Loop :: stays(l) ==>
      && goes(l) && step(l).Continue?
      && step(l).next.remaining == l.remaining && stays(step(l).next)
  }

  lemma {:induction false} FreeNeverEnds(goes: Loop -> bool, step: Loop -> Advance, close: Loop -> Ending,
                                         stays: Loop -> bool, loop: Loop, fuel: nat)
    requires StaysFree(goes, step, stays) && stays(loop)
    ensures LoopFrom(goes, step, close, loop, fuel).0.None? && FreeFrom(goes, step, loop, fuel) == fuel
    decreases fuel
  {
    if fuel > 0 {
      FreeNeverEnds(goes, step, close, stays, step(loop).next, fuel - 1);
    }
  }
}
