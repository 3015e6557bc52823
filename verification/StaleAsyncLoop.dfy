// Runs of an abstract machine of actions, of which the stale-asynchronous run is
// one: what every such run keeps is proved here once.
module StaleAsyncLoop {
  import opened Outcomes
  import opened StudyRun
  import opened StaleAsync

  ghost predicate KeptBy(good: Stale -> bool, ended: (Ending, Stale) -> bool, t: Transition) {
    match t
    case Go(next) => good(next)
    case Halt(ending, last) => ended(ending, last)
  }

  /** What every action keeps holds after any number of them, and what every halt
      establishes holds at the end. */
  lemma {:induction false} StepsKeep(takes: Stale -> bool, step: Stale -> Transition, good: Stale -> bool,
                                     ended: (Ending, Stale) -> bool, s: Stale, fuel: nat)
    requires good(s)
    requires forall x: Stale :: good(x) && takes(x) ==> KeptBy(good, ended, step(x))
    ensures var (ending, last) := StepsFrom(takes, step, s, fuel);
      if ending.None? then good(last) else ended(ending.value, last)
    decreases fuel
  {
    if fuel > 0 && takes(s) && step(s).Go? {
      StepsKeep(takes, step, good, ended, step(s).next, fuel - 1);
    }
  }

  /** One more action than `used`. */
  lemma {:induction false} StepsMore(takes: Stale -> bool, step: Stale -> Transition, first: Stale, used: nat, s: Stale)
    requires StepsFrom(takes, step, first, used) == (None, s) && takes(s)
    ensures StepsFrom(takes, step, first, used + 1) == match step(s)
      case Go(next) => (None, next)
      case Halt(ending, last) => (Some(ending), last)
    decreases used
  {
    if used > 0 && takes(first) {
      StepsMore(takes, step, step(first).next, used - 1, s);
    }
  }

  lemma {:induction false} EndedStays(takes: Stale -> bool, step: Stale -> Transition, first: Stale, used: nat, fuel: nat,
                                      ending: Ending)
    requires StepsFrom(takes, step, first, used).0 == Some(ending) && used <= fuel
    ensures StepsFrom(takes, step, first, fuel).0 == Some(ending)
    decreases fuel
  {
    if used > 0 && step(first).Go? {
      EndedStays(takes, step, step(first).next, used - 1, fuel - 1, ending);
    }
  }

  // ----- termination -----

  ghost predicate Before(a: (nat, nat, nat), b: (nat, nat, nat)) {
    a.0 < b.0 || (a.0 == b.0 && (a.1 < b.1 || (a.1 == b.1 && a.2 < b.2)))
  }

  /** Every good place that is no exit leads to a good one of smaller measure. */
  ghost predicate Descends(takes: Stale -> bool, step: Stale -> Transition, good: Stale -> bool, exit: Stale -> bool,
                           measure: Stale -> (nat, nat, nat)) {
    forall x: Stale :: good(x) && !exit(x) ==>
      takes(x) && step(x).Go? && good(step(x).next) && Before(measure(step(x).next), measure(x))
  }

  /** Then the machine gets to an exit. */
  lemma {:induction false} StepsFinish(takes: Stale -> bool, step: Stale -> Transition, good: Stale -> bool,
                                       exit: Stale -> bool, measure: Stale -> (nat, nat, nat), s: Stale)
    returns (fuel: nat)
    requires Descends(takes, step, good, exit, measure) && good(s)
    ensures var (ending, last) := StepsFrom(takes, step, s, fuel); ending.None? && good(last) && exit(last)
    decreases measure(s).0, measure(s).1, measure(s).2
  {
    if exit(s) {
      fuel := 0;
    } else {
      var rest := StepsFinish(takes, step, good, exit, measure, step(s).next);
      fuel := rest + 1;
    }
  }
}
