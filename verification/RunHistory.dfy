// Attempts, the append-only history of a study run, checkpoint cuts into it, and
// the reports built from it (src/variopt/study/assimilation.py,
// src/variopt/study/common.py, src/variopt/artifacts/terminal.py).
module RunHistory {
  import opened Outcomes

  /** Stands for any state of a run method. */
  type State = nat

  /** Stands for any proposal, with the candidate it proposes. */
  type Proposal = nat

  datatype Request = Request(proposal: Proposal, spec: Option<nat>)

  /** Why a step did not complete. `Raised` is any exception of foreign code. */
  datatype Cause =
    | Raised(code: nat)
    | BudgetExhausted
    | NoProposals
    | TooManyProposals
    | MisalignedSpecs
    | MisalignedHints
    | MisalignedAttempts
    | InvalidPreference
    | InvalidCandidate
    | RejectedCosts

  /** One request slot, with the evaluations it reports to have cost. */
  datatype Attempt =
    | Success(request: Request, value: real, score: real, cost: nat)
    | Failure(request: Request, cause: Cause, cost: nat)

  function Cost(attempts: seq<Attempt>): (r: nat) {
    if attempts == [] then 0 else attempts[0].cost + Cost(attempts[1..])
  }

  function Costs(attempts: seq<Attempt>): (r: seq<int>)
    ensures |r| == |attempts| && forall i :: 0 <= i < |r| ==> r[i] == attempts[i].cost
  {
    seq(|attempts|, i requires 0 <= i < |attempts| => attempts[i].cost)
  }

  function Successes(attempts: seq<Attempt>): (r: seq<Attempt>)
    ensures forall i :: 0 <= i < |r| ==> r[i].Success?
  {
    if attempts == [] then []
    else (if attempts[0].Success? then [attempts[0]] else []) + Successes(attempts[1..])
  }

  function Failures(attempts: seq<Attempt>): (r: seq<Attempt>)
    ensures forall i :: 0 <= i < |r| ==> r[i].Failure?
  {
    if attempts == [] then []
    else (if attempts[0].Failure? then [attempts[0]] else []) + Failures(attempts[1..])
  }

  lemma {:induction false} CostAppend(a: seq<Attempt>, b: seq<Attempt>)
    ensures Cost(a + b) == Cost(a) + Cost(b)
  {
    if a == [] {
      assert a + b == b;
    } else {
      assert (a + b)[1..] == a[1..] + b;
      CostAppend(a[1..], b);
    }
  }

  lemma {:induction false} CostSplits(attempts: seq<Attempt>)
    ensures Cost(Successes(attempts)) + Cost(Failures(attempts)) == Cost(attempts)
    ensures |Successes(attempts)| + |Failures(attempts)| == |attempts|
  {
    if attempts != [] {
      CostSplits(attempts[1..]);
      CostAppend(if attempts[0].Success? then [attempts[0]] else [], Successes(attempts[1..]));
      CostAppend(if attempts[0].Failure? then [attempts[0]] else [], Failures(attempts[1..]));
      assert Cost([attempts[0]]) == attempts[0].cost + Cost([]);
    }
  }

  lemma {:induction false} CostIsSum(attempts: seq<Attempt>)
    ensures Cost(attempts) == Sum(Costs(attempts))
  {
    if attempts != [] {
      CostIsSum(attempts[1..]);
      assert Costs(attempts)[1..] == Costs(attempts[1..]);
    }
  }

  // ----- the best success -----

  /** Index of the first success with the least score. */
  function BestIndex(successes: seq<Attempt>): (r: nat)
    requires successes != [] && forall i :: 0 <= i < |successes| ==> successes[i].Success?
    ensures r < |successes|
    ensures forall i :: 0 <= i < |successes| ==> successes[r].score <= successes[i].score
    ensures forall i :: 0 <= i < r ==> successes[r].score < successes[i].score
  {
    if |successes| == 1 then 0
    else
      var best := BestIndex(successes[..|successes| - 1]);
      if successes[|successes| - 1].score < successes[best].score then |successes| - 1 else best
  }

  function TraceValue(successes: seq<Attempt>): (r: Option<real>)
    requires forall i :: 0 <= i < |successes| ==> successes[i].Success?
  {
    if successes == [] then None else Some(successes[BestIndex(successes)].value)
  }

  /** The scalar observations that all records are. */
  function Observed(records: seq<Option<Attempt>>): (r: seq<Attempt>)
    requires None !in records
    ensures |r| == |records| && forall i :: 0 <= i < |r| ==> records[i] == Some(r[i])
  {
    if records == [] then [] else
      assert records[0] in records;
      [records[0].value] + Observed(records[1..])
  }

  /** One pass over the records of a batch, keeping the best value so far. A record
      that is no scalar observation, `None`, leaves the batch without a value. */
  method TraceValueForRecords(records: seq<Option<Attempt>>) returns (r: Option<real>)
    requires forall i :: 0 <= i < |records| && records[i].Some? ==> records[i].value.Success?
    ensures r == if None in records then None else TraceValue(Observed(records))
  {
    if |records| == 0 {
      return None;
    }
    var bestValue, bestScore: Option<real> := None, None;
    ghost var observed: seq<Attempt> := [];
    for i := 0 to |records|
      invariant |observed| == i && forall k :: 0 <= k < i ==> records[k] == Some(observed[k])
      invariant Succeeded(observed)
      invariant i == 0 ==> bestValue.None? && bestScore.None?
      invariant i > 0 ==>
        var best := observed[BestIndex(observed)];
        bestValue == Some(best.value) && bestScore == Some(best.score)
    {
      if records[i].None? {
        assert records[i] in records;
        return None;
      }
      var record := records[i].value;
      BestSnoc(observed, record);
      observed := observed + [record];
      if bestScore.None? || record.score < bestScore.value {
        bestScore, bestValue := Some(record.score), Some(record.value);
      }
    }
    assert Observed(records) == observed;
    return bestValue;
  }

  ghost predicate Succeeded(attempts: seq<Attempt>) {
    forall i :: 0 <= i < |attempts| ==> attempts[i].Success?
  }

  /** One more success is the best when it is better than the best so far. */
  lemma BestSnoc(observed: seq<Attempt>, x: Attempt)
    requires Succeeded(observed) && x.Success?
    ensures Succeeded(observed + [x])
    ensures (observed + [x])[BestIndex(observed + [x])] ==
      if observed == [] || x.score < observed[BestIndex(observed)].score then x else observed[BestIndex(observed)]
  {
    assert (observed + [x])[..|observed|] == observed;
  }

  function AsRecords(observed: seq<Attempt>): (r: seq<Option<Attempt>>)
    ensures None !in r && Observed(r) == observed
  {
    var r := seq(|observed|, i requires 0 <= i < |observed| => Some(observed[i]));
    assert Observed(r) == observed;
    r
  }

  // ----- history -----

  datatype TraceEvent = TraceEvent(attemptCount: nat, successCount: nat, failureCount: nat, value: Option<real>)

  datatype History = History(
    successes: seq<Attempt>, failures: seq<Attempt>, trace: seq<TraceEvent>, evaluationCount: nat)

  const EMPTY_HISTORY := History([], [], [], 0)

  function StepEvent(attempts: seq<Attempt>): (r: TraceEvent) {
    TraceEvent(|attempts|, |Successes(attempts)|, |Failures(attempts)|, TraceValue(Successes(attempts)))
  }

  function Append(h: History, attempts: seq<Attempt>, count: nat): (r: History) {
    History(h.successes + Successes(attempts), h.failures + Failures(attempts),
            h.trace + [StepEvent(attempts)], h.evaluationCount + count)
  }

  /** The history has grown since `old`, and only grown. */
  predicate Extends(now: History, past: History) {
    && past.successes <= now.successes && past.failures <= now.failures && past.trace <= now.trace
    && past.evaluationCount <= now.evaluationCount
  }

  lemma {:induction false} PartsAppend(a: seq<Attempt>, b: seq<Attempt>)
    ensures Successes(a + b) == Successes(a) + Successes(b)
    ensures Failures(a + b) == Failures(a) + Failures(b)
  {
    if a == [] {
      assert a + b == b;
    } else {
      assert (a + b)[1..] == a[1..] + b && (a + b)[0] == a[0];
      PartsAppend(a[1..], b);
    }
  }

  /** The records of a step are in the order of its attempts: the attempt at `i` is
      found behind all earlier ones of its kind. */
  lemma RecordsInOrder(attempts: seq<Attempt>, i: nat)
    requires i < |attempts|
    ensures var front := attempts[..i];
      if attempts[i].Success? then |Successes(front)| < |Successes(attempts)|
        && Successes(attempts)[|Successes(front)|] == attempts[i]
      else |Failures(front)| < |Failures(attempts)| && Failures(attempts)[|Failures(front)|] == attempts[i]
  {
    var front, rest := attempts[..i], attempts[i..];
    PartsAppend(front, rest);
    assert attempts == front + rest && rest[0] == attempts[i];
  }

  /** What a step adds to a history: its records, its count, and one trace event with
      the numbers of attempts, successes and failures and the value of the first success
      with the least score. */
  lemma AppendTells(h: History, attempts: seq<Attempt>, count: nat)
    ensures var next := Append(h, attempts, count);
      && next.evaluationCount == h.evaluationCount + count
      && h.successes <= next.successes && h.failures <= next.failures
      && |next.trace| == |h.trace| + 1 && h.trace <= next.trace
      && var event, found := next.trace[|h.trace|], next.successes[|h.successes|..];
         && event.attemptCount == |attempts| == event.successCount + event.failureCount
         && event.successCount == |found| && event.failureCount == |next.failures| - |h.failures|
         && (event.value.None? <==> found == [])
         && (event.value.Some? ==> exists k: nat :: IsBest(found, k) && event.value == Some(found[k].value))
  {
    CostSplits(attempts);
    var found := Successes(attempts);
    assert Append(h, attempts, count).successes[|h.successes|..] == found;
    if found != [] {
      assert IsBest(found, BestIndex(found));
    }
  }

  /** The first success with the least score. */
  ghost predicate IsBest(successes: seq<Attempt>, k: nat) {
    && k < |successes| && (forall i :: 0 <= i < |successes| ==> successes[i].Success?)
    && (forall i :: 0 <= i < |successes| ==> successes[k].score <= successes[i].score)
    && (forall i :: 0 <= i < k ==> successes[k].score < successes[i].score)
  }

  // ----- checkpoint cuts and reports -----

  datatype Snapshot = Snapshot(
    successCount: nat, failureCount: nat, traceEventCount: nat, evaluationCount: nat, state: State)

  datatype Report = Report(
    successes: seq<Attempt>, failures: seq<Attempt>, trace: seq<TraceEvent>, evaluationCount: nat)

  function TakeSnapshot(h: History, state: State): (r: Snapshot) {
    Snapshot(|h.successes|, |h.failures|, |h.trace|, h.evaluationCount, state)
  }

  /** A report is refused when it counts less than its attempts have cost. */
  function MakeReport(h: History, evaluationCount: nat): (r: Option<Report>) {
    if evaluationCount < Cost(h.successes) + Cost(h.failures) then None
    else Some(Report(h.successes, h.failures, h.trace, evaluationCount))
  }

  /** What the cut shows of a history. Python slices stop at the end of a list. */
  function Cut(snapshot: Snapshot, h: History): (r: History) {
    History(h.successes[..Min(snapshot.successCount, |h.successes|)],
            h.failures[..Min(snapshot.failureCount, |h.failures|)],
            h.trace[..Min(snapshot.traceEventCount, |h.trace|)], snapshot.evaluationCount)
  }

  function Project(snapshot: Snapshot, h: History): (r: Option<Report>) {
    MakeReport(Cut(snapshot, h), snapshot.evaluationCount)
  }

  /** Later appends never change what a snapshot projects. */
  lemma SnapshotsAreStable(past: History, state: State, now: History)
    requires Extends(now, past)
    ensures Cut(TakeSnapshot(past, state), now) == past
    ensures Project(TakeSnapshot(past, state), now) == MakeReport(past, past.evaluationCount)
  {
  }

  /** The attempts of a history cost no more than it counts. */
  ghost predicate Covered(h: History) {
    Cost(h.successes) + Cost(h.failures) <= h.evaluationCount
  }

  lemma AppendCovered(h: History, attempts: seq<Attempt>, count: nat)
    requires Covered(h) && count >= Cost(attempts)
    ensures Covered(Append(h, attempts, count)) && Extends(Append(h, attempts, count), h)
    ensures var next := Append(h, attempts, count);
      Cost(next.successes) + Cost(next.failures) == Cost(h.successes) + Cost(h.failures) + Cost(attempts)
  {
    CostSplits(attempts);
    CostAppend(h.successes, Successes(attempts));
    CostAppend(h.failures, Failures(attempts));
  }

  // ----- the history object -----

  class StudyRunHistory {
    var successes: seq<Attempt>
    var failures: seq<Attempt>
    var traceEvents: seq<TraceEvent>
    var evaluationCount: nat

    constructor ()
      ensures Contents() == EMPTY_HISTORY
    {
      successes, failures, traceEvents, evaluationCount := [], [], [], 0;
    }

    function Contents(): History
      reads this
    {
      History(successes, failures, traceEvents, evaluationCount)
    }

    method AppendStep(attempts: seq<Attempt>, count: nat)
      modifies this
      ensures Contents() == Append(old(Contents()), attempts, count)
    {
      var records := Successes(attempts);
      var value := TraceValueForRecords(AsRecords(records));
      successes := successes + records;
      failures := failures + Failures(attempts);
      traceEvents := traceEvents + [TraceEvent(|attempts|, |records|, |Failures(attempts)|, value)];
      evaluationCount := evaluationCount + count;
    }

    method CheckpointSnapshot(state: State) returns (r: Snapshot)
      ensures r == TakeSnapshot(Contents(), state)
    {
      r := Snapshot(|successes|, |failures|, |traceEvents|, evaluationCount, state);
    }

    method ToReport(count: Option<nat>) returns (r: Option<Report>)
      ensures r == MakeReport(Contents(), if count.Some? then count.value else evaluationCount)
    {
      var resolved := if count.None? then evaluationCount else count.value;
      r := MakeReport(Contents(), resolved);
    }

    method CheckpointReport(snapshot: Snapshot) returns (r: Option<Report>)
      ensures r == Project(snapshot, Contents())
    {
      var cut := History(successes[..Min(snapshot.successCount, |successes|)],
                         failures[..Min(snapshot.failureCount, |failures|)],
                         traceEvents[..Min(snapshot.traceEventCount, |traceEvents|)], snapshot.evaluationCount);
      r := MakeReport(cut, snapshot.evaluationCount);
    }
  }
}
