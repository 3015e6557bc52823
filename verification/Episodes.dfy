// Request-local episodes: a worker's bounded objective runner, the check of what
// an episode returns, and the ordering of indexed worker results
// (src/variopt/evaluators/episodes.py).
module Episodes {
  import opened Outcomes
  import opened EvaluationLedger

  // ----- the bounded runner -----

  datatype RunnerError = LimitExhausted | PipelineViolation

  class BoundedRequestLocalEvaluationRunner {
    const evaluationLimit: nat
    var consumedEvaluations: nat

    constructor (evaluationLimit: nat)
      ensures this.evaluationLimit == evaluationLimit && consumedEvaluations == 0
    {
      this.evaluationLimit, consumedEvaluations := evaluationLimit, 0;
    }

    function Remaining(): int
      reads this
    {
      evaluationLimit - consumedEvaluations
    }

    /** One objective call; `reports` says whether the pipeline reported one attempt
        of cost one. A call that violates this has been consumed all the same. */
    method Evaluate(reports: bool) returns (r: Result<(), RunnerError>)
      requires consumedEvaluations <= evaluationLimit
      modifies this`consumedEvaluations
      ensures consumedEvaluations <= evaluationLimit
      ensures r == Err(LimitExhausted) <==> old(consumedEvaluations) == evaluationLimit
      ensures r.Ok? <==> old(consumedEvaluations) < evaluationLimit && reports
      ensures consumedEvaluations ==
        if old(consumedEvaluations) == evaluationLimit then evaluationLimit else old(consumedEvaluations) + 1
    {
      if Remaining() == 0 {
        return Err(LimitExhausted);
      }
      consumedEvaluations := consumedEvaluations + 1;
      if !reports {
        return Err(PipelineViolation);
      }
      return Ok(());
    }
  }

  // ----- one episode -----

  /** One objective call of an episode kernel: whether the pipeline reports it
      properly, and whether the kernel goes on when it is refused. */
  datatype ObjectiveCall = ObjectiveCall(reports: bool, caught: bool)

  /** What an episode kernel does: its objective calls, and what it reports at the end. */
  datatype Kernel = Kernel(calls: seq<ObjectiveCall>, attemptCount: nat, cost: int, aligned: bool)

  datatype EpisodeError = KernelRaised | NotOneAttempt | NoCost | OverLimit | CostDisagrees | NotAligned

  /** Calls that the runner consumes, and whether the kernel survives them. */
  function Calls(calls: seq<ObjectiveCall>, consumed: nat, limit: nat): (r: (nat, bool))
    requires consumed <= limit
    ensures consumed <= r.0 <= limit
    decreases calls
  {
    if calls == [] then (consumed, true)
    else
      var next := if consumed == limit then consumed else consumed + 1;
      if (consumed == limit || !calls[0].reports) && !calls[0].caught then (next, false)
      else Calls(calls[1..], next, limit)
  }

  /** The call at `i` is refused: the limit has been used up before, or the pipeline
      does not report properly. */
  predicate Refused(calls: seq<ObjectiveCall>, i: nat, consumed: nat, limit: nat)
    requires i < |calls|
  {
    consumed + i >= limit || !calls[i].reports
  }

  /** An episode goes on until the first refusal that its kernel does not catch, and
      consumes one evaluation for every call made within the limit, reported or not. */
  lemma {:induction false} CallsExactly(calls: seq<ObjectiveCall>, consumed: nat, limit: nat) returns (k: nat)
    requires consumed <= limit
    ensures k <= |calls| && forall i :: 0 <= i < k && Refused(calls, i, consumed, limit) ==> calls[i].caught
    ensures k < |calls| ==> Refused(calls, k, consumed, limit) && !calls[k].caught
    ensures Calls(calls, consumed, limit) ==
      (Min(limit, consumed + if k < |calls| then k + 1 else k), k == |calls|)
    decreases calls
  {
    if calls == [] || (Refused(calls, 0, consumed, limit) && !calls[0].caught) {
      k := 0;
    } else {
      var next := if consumed == limit then consumed else consumed + 1;
      var rest := CallsExactly(calls[1..], next, limit);
      k := rest + 1;
      forall i | 0 <= i < k && Refused(calls, i, consumed, limit) ensures calls[i].caught {
        if i > 0 {
          assert Refused(calls[1..], i - 1, next, limit) && calls[1..][i - 1] == calls[i];
        }
      }
      if k < |calls| {
        assert Refused(calls[1..], rest, next, limit) && calls[1..][rest] == calls[k];
      }
    }
  }

  /** Runs one episode; a cost is accepted only when it is what was consumed. */
  method ExecuteEpisode(kernel: Kernel, evaluationLimit: nat) returns (r: Result<nat, EpisodeError>)
    requires evaluationLimit > 0
    ensures r.Ok? <==>
      var (consumed, survives) := Calls(kernel.calls, 0, evaluationLimit);
      survives && kernel.attemptCount == 1 && 0 < kernel.cost == consumed && kernel.aligned
    ensures r.Ok? ==> 1 <= r.value <= evaluationLimit && r.value == kernel.cost
  {
    var runner := new BoundedRequestLocalEvaluationRunner(evaluationLimit);
    for k := 0 to |kernel.calls|
      invariant runner.evaluationLimit == evaluationLimit && runner.consumedEvaluations <= evaluationLimit
      invariant fresh(runner)
      invariant Calls(kernel.calls, 0, evaluationLimit)
             == Calls(kernel.calls[k..], runner.consumedEvaluations, evaluationLimit)
    {
      assert kernel.calls[k..][1..] == kernel.calls[k + 1..];
      var evaluated := runner.Evaluate(kernel.calls[k].reports);
      if evaluated.Err? && !kernel.calls[k].caught {
        return Err(KernelRaised);
      }
    }
    if kernel.attemptCount != 1 {
      return Err(NotOneAttempt);
    }
    if kernel.cost <= 0 {
      return Err(NoCost);
    }
    if kernel.cost > evaluationLimit {
      return Err(OverLimit);
    }
    if kernel.cost != runner.consumedEvaluations {
      return Err(CostDisagrees);
    }
    if !kernel.aligned {
      return Err(NotAligned);
    }
    return Ok(kernel.cost);
  }

  /** Accepted episodes settle: when every request of a reservation was run within
      its own limit, the reported costs are trusted and the rest is refunded. */
  lemma AcceptedEpisodesSettle(limits: seq<int>, costs: seq<int>)
    requires |costs| == |limits| && forall i :: 0 <= i < |limits| ==> 1 <= costs[i] <= limits[i]
    ensures var counts := seq(|costs|, i requires 0 <= i < |costs| => Exact(costs[i]));
      SettledCost(limits, counts) == Ok(Sum(costs)) && |costs| <= Sum(costs) <= Sum(limits)
  {
    var counts := seq(|costs|, i requires 0 <= i < |costs| => Exact(costs[i]));
    assert Values(counts) == costs;
    SumMonotone(costs, limits);
    AtLeastOneEach(costs);
  }

  lemma {:induction false} AtLeastOneEach(costs: seq<int>)
    requires forall i :: 0 <= i < |costs| ==> costs[i] >= 1
    ensures Sum(costs) >= |costs|
  {
    if costs != [] {
      AtLeastOneEach(costs[1..]);
    }
  }

  // ----- indexed results, in any transport order -----

  /** An indexed worker result; the attempt is any value. */
  type Indexed = (int, nat)

  /** Every index below `n`, once. */
  predicate IndicesPermute(results: seq<Indexed>, n: nat) {
    && |results| == n
    && (forall k :: 0 <= k < n ==> 0 <= results[k].0 < n)
    && (forall j, k :: 0 <= j < k < n ==> results[j].0 != results[k].0)
  }

  predicate Ascending(results: seq<Indexed>) {
    forall j, k :: 0 <= j < k < |results| ==> results[j].0 <= results[k].0
  }

  function Inserted(x: Indexed, sorted: seq<Indexed>): (r: seq<Indexed>)
    ensures multiset(r) == multiset{x} + multiset(sorted) && |r| == |sorted| + 1
  {
    if sorted == [] then [x]
    else if x.0 < sorted[0].0 then
      [x] + sorted
    else
      assert sorted == [sorted[0]] + sorted[1..];
      [sorted[0]] + Inserted(x, sorted[1..])
  }

  /** A stable sort by index. */
  function SortedByIndex(results: seq<Indexed>): (r: seq<Indexed>)
    ensures multiset(r) == multiset(results) && |r| == |results|
  {
    if results == [] then []
    else
      var last := results[|results| - 1];
      assert results == results[..|results| - 1] + [last];
      Inserted(last, SortedByIndex(results[..|results| - 1]))
  }

  lemma {:induction false} InsertedAscending(x: Indexed, sorted: seq<Indexed>)
    requires Ascending(sorted)
    ensures Ascending(Inserted(x, sorted))
  {
    if sorted != [] && x.0 >= sorted[0].0 {
      InsertedAscending(x, sorted[1..]);
      var rest := Inserted(x, sorted[1..]);
      forall k | 0 <= k < |rest| ensures sorted[0].0 <= rest[k].0 {
        assert rest[k] in multiset(rest);
        assert rest[k] == x || rest[k] in sorted[1..];
      }
    }
  }

  lemma {:induction false} SortedAscending(results: seq<Indexed>)
    ensures Ascending(SortedByIndex(results))
  {
    if results != [] {
      SortedAscending(results[..|results| - 1]);
      InsertedAscending(results[|results| - 1], SortedByIndex(results[..|results| - 1]));
    }
  }

  predicate InPlace(sorted: seq<Indexed>) {
    forall k :: 0 <= k < |sorted| ==> sorted[k].0 == k
  }

  /** Distinct indices stay distinct when sorted. */
  lemma DistinctSurvives(results: seq<Indexed>, other: seq<Indexed>)
    requires multiset(results) == multiset(other)
    requires forall j, k :: 0 <= j < k < |results| ==> results[j].0 != results[k].0
    ensures forall j, k :: 0 <= j < k < |other| ==> other[j].0 != other[k].0
  {
    forall j, k | 0 <= j < k < |other| ensures other[j].0 != other[k].0 {
      if other[j].0 == other[k].0 {
        var a := PositionOf(results, other[j]);
        var b := PositionOf(results, other[k]);
        assert a == b && other[j] == other[k];
        TwiceCounts(other, j, k);
        OnceCounts(results, a);
        assert false;
      }
    }
  }

  lemma PositionOf(results: seq<Indexed>, x: Indexed) returns (k: nat)
    requires x in multiset(results)
    ensures k < |results| && results[k] == x
  {
    assert x in results;
    k :| 0 <= k < |results| && results[k] == x;
  }

  lemma TwiceCounts(s: seq<Indexed>, j: nat, k: nat)
    requires j < k < |s| && s[j] == s[k]
    ensures multiset(s)[s[j]] >= 2
  {
    assert s == s[..k] + [s[k]] + s[k + 1..];
    assert s[j] in s[..k];
    assert multiset(s) == multiset(s[..k]) + multiset{s[k]} + multiset(s[k + 1..]);
  }

  lemma OnceCounts(s: seq<Indexed>, k: nat)
    requires k < |s| && forall j, i :: 0 <= j < i < |s| ==> s[j].0 != s[i].0
    ensures multiset(s)[s[k]] == 1
  {
    assert s == s[..k] + [s[k]] + s[k + 1..];
    assert s[k] !in s[..k] && s[k] !in s[k + 1..];
    assert multiset(s) == multiset(s[..k]) + multiset{s[k]} + multiset(s[k + 1..]);
  }

  /** Ascending distinct numbers below their count are the positions themselves. */
  lemma {:induction false} AscendingFills(sorted: seq<Indexed>, low: int)
    requires forall j, k :: 0 <= j < k < |sorted| ==> sorted[j].0 < sorted[k].0
    requires forall k :: 0 <= k < |sorted| ==> low <= sorted[k].0 < low + |sorted|
    ensures forall k :: 0 <= k < |sorted| ==> sorted[k].0 == low + k
  {
    if |sorted| > 1 {
      assert sorted[0].0 < sorted[1].0;
      AscendingFills(sorted[1..], low + 1);
      forall k | 1 <= k < |sorted| ensures sorted[k].0 == low + k {
        assert sorted[k] == sorted[1..][k - 1];
      }
      assert sorted[0].0 < low + 1;
    }
  }

  lemma InPlaceMeansPermuted(results: seq<Indexed>, sorted: seq<Indexed>)
    requires multiset(sorted) == multiset(results) && |sorted| == |results| && InPlace(sorted)
    ensures IndicesPermute(results, |results|)
  {
    DistinctSurvives(sorted, results);
    forall k | 0 <= k < |results| ensures 0 <= results[k].0 < |results| {
      var j := PositionOf(sorted, results[k]);
    }
  }

  lemma PermutedMeansInPlace(results: seq<Indexed>, sorted: seq<Indexed>)
    requires multiset(sorted) == multiset(results) && |sorted| == |results| && Ascending(sorted)
    requires IndicesPermute(results, |results|)
    ensures InPlace(sorted)
  {
    DistinctSurvives(results, sorted);
    forall k | 0 <= k < |sorted| ensures 0 <= sorted[k].0 < |sorted| {
      var j := PositionOf(results, sorted[k]);
    }
    AscendingFills(sorted, 0);
  }

  /** Sorting puts every result in its place exactly when the indices permute. */
  lemma InPlaceExactly(results: seq<Indexed>)
    ensures InPlace(SortedByIndex(results)) <==> IndicesPermute(results, |results|)
  {
    var sorted := SortedByIndex(results);
    SortedAscending(results);
    if InPlace(sorted) {
      InPlaceMeansPermuted(results, sorted);
    } else if IndicesPermute(results, |results|) {
      PermutedMeansInPlace(results, sorted);
    }
  }

  lemma FoundInPlace(results: seq<Indexed>, sorted: seq<Indexed>, k: nat)
    requires multiset(sorted) == multiset(results) && InPlace(sorted) && k < |results|
    ensures 0 <= results[k].0 < |sorted| && sorted[results[k].0] == results[k]
  {
    var j := PositionOf(sorted, results[k]);
  }

  /** Accepted exactly when there is one result for every request; each result then
      stands at its own index, whatever order the workers answered in. */
  method OrderedEpisodeAttempts(results: seq<Indexed>, requestCount: nat) returns (r: Option<seq<nat>>)
    ensures r.Some? <==> IndicesPermute(results, requestCount)
    ensures r.Some? ==> |r.value| == requestCount
    ensures r.Some? ==> forall k :: 0 <= k < requestCount ==>
      0 <= results[k].0 < requestCount && r.value[results[k].0] == results[k].1
  {
    if |results| != requestCount {
      return None;
    }
    var sorted := SortedByIndex(results);
    InPlaceExactly(results);
    for expected := 0 to |sorted|
      invariant forall k :: 0 <= k < expected ==> sorted[k].0 == k
    {
      if sorted[expected].0 != expected {
        return None;
      }
    }
    EachInPlace(results, sorted);
    return Some(Attempts(sorted));
  }

  function Attempts(results: seq<Indexed>): (r: seq<nat>)
    ensures |r| == |results| && forall k :: 0 <= k < |r| ==> r[k] == results[k].1
  {
    seq(|results|, k requires 0 <= k < |results| => results[k].1)
  }

  lemma EachInPlace(results: seq<Indexed>, sorted: seq<Indexed>)
    requires multiset(sorted) == multiset(results) && |sorted| == |results| && InPlace(sorted)
    ensures forall k :: 0 <= k < |results| ==>
      0 <= results[k].0 < |sorted| && Attempts(sorted)[results[k].0] == results[k].1
  {
    forall k | 0 <= k < |results|
      ensures 0 <= results[k].0 < |sorted| && Attempts(sorted)[results[k].0] == results[k].1
    {
      FoundInPlace(results, sorted, k);
    }
  }
}
