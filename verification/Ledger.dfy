// The hard evaluation budget and the reservations taken from it
// (src/variopt/execution.py), and the conservation law of the two together.
module EvaluationLedger {
  import opened Outcomes

  /** A count handed in by a caller: the source insists on exact integers. */
  datatype Count = Exact(value: int) | NotExact

  datatype LedgerError =
    | NegativeCount
    | BudgetExhausted
    | EmptyLimits
    | NotExactInteger
    | NonPositiveLimit
    | Misaligned
    | ExceedsLimit
    | AlreadyFinalized

  // ----- what each operation decides, on values -----

  function Consumed(remaining: int, count: int): (r: Result<int, LedgerError>) {
    if count < 0 then Err(NegativeCount)
    else if count > remaining then Err(BudgetExhausted)
    else Ok(remaining - count)
  }

  function Values(counts: seq<Count>): (r: seq<int>)
    requires forall i :: 0 <= i < |counts| ==> counts[i].Exact?
    ensures |r| == |counts| && forall i :: 0 <= i < |r| ==> counts[i] == Exact(r[i])
  {
    if counts == [] then [] else [counts[0].value] + Values(counts[1..])
  }

  /** The first offending limit, in order, decides the error. */
  function LimitError(limits: seq<Count>): (r: Option<LedgerError>)
    ensures r.None? <==> forall i :: 0 <= i < |limits| ==> limits[i].Exact? && limits[i].value > 0
  {
    if limits == [] then None
    else if limits[0].NotExact? then Some(NotExactInteger)
    else if limits[0].value <= 0 then Some(NonPositiveLimit)
    else LimitError(limits[1..])
  }

  function Reserved(remaining: int, limits: seq<Count>): (r: Result<seq<int>, LedgerError>) {
    if limits == [] then Err(EmptyLimits)
    else match LimitError(limits)
      case Some(e) => Err(e)
      case None =>
        if Sum(Values(limits)) > remaining then Err(BudgetExhausted) else Ok(Values(limits))
  }

  function CountError(counts: seq<Count>, limits: seq<int>): (r: Option<LedgerError>)
    requires |counts| == |limits|
    ensures r.None? <==> forall i :: 0 <= i < |counts| ==>
      counts[i].Exact? && 0 <= counts[i].value <= limits[i]
  {
    if counts == [] then None
    else if counts[0].NotExact? then Some(NotExactInteger)
    else if counts[0].value < 0 then Some(NegativeCount)
    else if counts[0].value > limits[0] then Some(ExceedsLimit)
    else CountError(counts[1..], limits[1..])
  }

  /** The cost a settlement retains, or why its counts are not trusted. */
  function SettledCost(limits: seq<int>, counts: seq<Count>): (r: Result<int, LedgerError>)
    ensures r.Ok? <==> |counts| == |limits| && forall i :: 0 <= i < |counts| ==>
      counts[i].Exact? && 0 <= counts[i].value <= limits[i]
  {
    if |counts| != |limits| then Err(Misaligned)
    else match CountError(counts, limits)
      case Some(e) => Err(e)
      case None => Ok(Sum(Values(counts)))
  }

  // ----- the objects -----

  class EvaluationBudget {
    var remaining: int

    constructor (initial: nat)
      ensures remaining == initial
    {
      remaining := initial;
    }

    /** Rejects a negative initial budget. */
    static method Create(initial: int) returns (r: Result<EvaluationBudget, LedgerError>)
      ensures r == Err(NegativeCount) <==> initial < 0
      ensures r.Ok? <==> initial >= 0
      ensures r.Ok? ==> fresh(r.value) && r.value.remaining == initial
    {
      if initial < 0 {
        return Err(NegativeCount);
      }
      var budget := new EvaluationBudget(initial);
      return Ok(budget);
    }

    method Consume(count: int) returns (r: Result<(), LedgerError>)
      modifies this
      ensures match Consumed(old(remaining), count)
        case Ok(left) => r == Ok(()) && remaining == left
        case Err(e) => r == Err(e) && remaining == old(remaining)
    {
      if count < 0 {
        return Err(NegativeCount);
      }
      if count > remaining {
        return Err(BudgetExhausted);
      }
      remaining := remaining - count;
      return Ok(());
    }
  }

  class EvaluationReservationBatch {
    const budget: EvaluationBudget
    const limits: seq<int>
    var isFinalized: bool

    constructor (budget: EvaluationBudget, limits: seq<int>)
      ensures this.budget == budget && this.limits == limits && !isFinalized
    {
      this.budget, this.limits, isFinalized := budget, limits, false;
    }

    /** Reserves all limits at once; a rejected construction consumes nothing. */
    static method Reserve(budget: EvaluationBudget, limits: seq<Count>)
      returns (r: Result<EvaluationReservationBatch, LedgerError>)
      modifies budget
      ensures match Reserved(old(budget.remaining), limits)
        case Err(e) => r == Err(e) && budget.remaining == old(budget.remaining)
        case Ok(values) =>
          && r.Ok? && fresh(r.value)
          && r.value.budget == budget && r.value.limits == values && !r.value.isFinalized
          && budget.remaining == old(budget.remaining) - Sum(values)
    {
      if |limits| == 0 {
        return Err(EmptyLimits);
      }
      for i := 0 to |limits|
        invariant LimitError(limits) == LimitError(limits[i..])
        invariant budget.remaining == old(budget.remaining)
      {
        assert limits[i..][1..] == limits[i + 1..];
        if limits[i].NotExact? {
          return Err(NotExactInteger);
        }
        if limits[i].value <= 0 {
          return Err(NonPositiveLimit);
        }
      }
      var values := Values(limits);
      SumNonNegative(values);
      var consumed := budget.Consume(Sum(values));
      if consumed.Err? {
        return Err(consumed.error);
      }
      var batch := new EvaluationReservationBatch(budget, values);
      return Ok(batch);
    }

    /** Retains the trusted cost and refunds the rest; malformed counts finalize
        the reservation without any refund. */
    method Settle(counts: seq<Count>) returns (r: Result<int, LedgerError>)
      modifies this, budget
      ensures isFinalized
      ensures if old(isFinalized) then
          r == Err(AlreadyFinalized) && budget.remaining == old(budget.remaining)
        else
          && r == SettledCost(limits, counts)
          && budget.remaining == old(budget.remaining) + if r.Ok? then Sum(limits) - r.value else 0
    {
      if isFinalized {
        return Err(AlreadyFinalized);
      }
      isFinalized := true;
      if |counts| != |limits| {
        return Err(Misaligned);
      }
      for i := 0 to |counts|
        invariant CountError(counts, limits) == CountError(counts[i..], limits[i..])
        invariant isFinalized && budget.remaining == old(budget.remaining)
      {
        assert counts[i..][1..] == counts[i + 1..] && limits[i..][1..] == limits[i + 1..];
        if counts[i].NotExact? {
          return Err(NotExactInteger);
        }
        if counts[i].value < 0 {
          return Err(NegativeCount);
        }
        if counts[i].value > limits[i] {
          return Err(ExceedsLimit);
        }
      }
      var total := Sum(Values(counts));
      budget.remaining := budget.remaining + (Sum(limits) - total);
      return Ok(total);
    }

    method Forfeit() returns (r: Result<(), LedgerError>)
      modifies this
      ensures isFinalized
      ensures r == if old(isFinalized) then Err(AlreadyFinalized) else Ok(())
    {
      if isFinalized {
        return Err(AlreadyFinalized);
      }
      isFinalized := true;
      return Ok(());
    }
  }

  // ----- any interleaving of the operations on one budget -----

  datatype Reservation =
    | Open(limits: seq<int>)
    | Settled(limits: seq<int>, cost: int)
    | Forfeited(limits: seq<int>)

  /** One budget with everything ever taken from it; `direct` was consumed
      without a reservation. */
  datatype Ledger = Ledger(initial: nat, remaining: int, direct: int, reservations: seq<Reservation>)

  datatype Operation =
    | ConsumeDirectly(count: int)
    | Reserve(requested: seq<Count>)
    | Settle(id: nat, counts: seq<Count>)
    | Forfeit(finalizedId: nat)

  function Fresh(initial: nat): Ledger {
    Ledger(initial, initial, 0, [])
  }

  function Apply(l: Ledger, op: Operation): (r: Ledger) {
    match op
    case ConsumeDirectly(count) =>
      (match Consumed(l.remaining, count)
       case Ok(left) => l.(remaining := left, direct := l.direct + count)
       case Err(_) => l)
    case Reserve(requested) =>
      (match Reserved(l.remaining, requested)
       case Ok(limits) =>
         l.(remaining := l.remaining - Sum(limits), reservations := l.reservations + [Open(limits)])
       case Err(_) => l)
    case Settle(id, counts) =>
      if id < |l.reservations| && l.reservations[id].Open? then
        var limits := l.reservations[id].limits;
        match SettledCost(limits, counts)
        case Ok(cost) =>
          l.(remaining := l.remaining + (Sum(limits) - cost),
             reservations := l.reservations[id := Settled(limits, cost)])
        case Err(_) => l.(reservations := l.reservations[id := Forfeited(limits)])
      else l
    case Forfeit(id) =>
      if id < |l.reservations| && l.reservations[id].Open? then
        l.(reservations := l.reservations[id := Forfeited(l.reservations[id].limits)])
      else l
  }

  function Run(l: Ledger, ops: seq<Operation>): (r: Ledger)
    decreases ops
  {
    if ops == [] then l else Run(Apply(l, ops[0]), ops[1..])
  }

  function OpenCapacity(rs: seq<Reservation>): int {
    if rs == [] then 0 else (if rs[0].Open? then Sum(rs[0].limits) else 0) + OpenCapacity(rs[1..])
  }

  function RetainedCost(rs: seq<Reservation>): int {
    if rs == [] then 0 else (if rs[0].Settled? then rs[0].cost else 0) + RetainedCost(rs[1..])
  }

  function ForfeitedCapacity(rs: seq<Reservation>): int {
    if rs == [] then 0
    else (if rs[0].Forfeited? then Sum(rs[0].limits) else 0) + ForfeitedCapacity(rs[1..])
  }

  ghost predicate WellFormed(rs: seq<Reservation>) {
    forall k :: 0 <= k < |rs| ==>
      && (forall i :: 0 <= i < |rs[k].limits| ==> rs[k].limits[i] > 0)
      && (rs[k].Settled? ==> 0 <= rs[k].cost <= Sum(rs[k].limits))
  }

  /** Every unit of the initial budget is available, reserved, retained or
      forfeited, and never more than once. */
  ghost predicate Conserved(l: Ledger) {
    && WellFormed(l.reservations)
    && l.direct >= 0
    && 0 <= l.remaining <= l.initial
    && l.remaining + OpenCapacity(l.reservations) + (l.direct + RetainedCost(l.reservations))
       + ForfeitedCapacity(l.reservations) == l.initial
  }

  lemma {:induction false} TotalsReplace(rs: seq<Reservation>, id: nat, r: Reservation)
    requires id < |rs| && rs[id].Open? && r.limits == rs[id].limits && !r.Open?
    ensures var next := rs[id := r];
      && OpenCapacity(next) == OpenCapacity(rs) - Sum(r.limits)
      && RetainedCost(next) == RetainedCost(rs) + (if r.Settled? then r.cost else 0)
      && ForfeitedCapacity(next) == ForfeitedCapacity(rs) + (if r.Forfeited? then Sum(r.limits) else 0)
  {
    if id == 0 {
      assert rs[0 := r][1..] == rs[1..];
    } else {
      assert rs[id := r][1..] == rs[1..][id - 1 := r];
      TotalsReplace(rs[1..], id - 1, r);
    }
  }

  lemma {:induction false} TotalsAppend(rs: seq<Reservation>, limits: seq<int>)
    ensures var next := rs + [Open(limits)];
      && OpenCapacity(next) == OpenCapacity(rs) + Sum(limits)
      && RetainedCost(next) == RetainedCost(rs)
      && ForfeitedCapacity(next) == ForfeitedCapacity(rs)
  {
    if rs == [] {
      assert [Open(limits)][1..] == [];
    } else {
      assert (rs + [Open(limits)])[1..] == rs[1..] + [Open(limits)];
      TotalsAppend(rs[1..], limits);
    }
  }

  lemma {:induction false} TotalsNonNegative(rs: seq<Reservation>)
    requires WellFormed(rs)
    ensures OpenCapacity(rs) >= 0 && RetainedCost(rs) >= 0 && ForfeitedCapacity(rs) >= 0
  {
    if rs != [] {
      SumNonNegative(rs[0].limits);
      TotalsNonNegative(rs[1..]);
    }
  }

  lemma SettledCostBounds(limits: seq<int>, counts: seq<Count>)
    requires SettledCost(limits, counts).Ok?
    ensures 0 <= SettledCost(limits, counts).value <= Sum(limits)
  {
    var values := Values(counts);
    SumMonotone(values, limits);
    SumNonNegative(values);
  }

  lemma FinalizingConserves(l: Ledger, id: nat, r: Reservation)
    requires Conserved(l) && id < |l.reservations| && l.reservations[id].Open?
    requires r.limits == l.reservations[id].limits && !r.Open?
    requires r.Settled? ==> 0 <= r.cost <= Sum(r.limits)
    ensures var refund := if r.Settled? then Sum(r.limits) - r.cost else 0;
      Conserved(l.(remaining := l.remaining + refund, reservations := l.reservations[id := r]))
  {
    TotalsReplace(l.reservations, id, r);
    TotalsNonNegative(l.reservations[id := r]);
  }

  /** No operation creates or loses a unit. */
  lemma ApplyConserves(l: Ledger, op: Operation)
    requires Conserved(l)
    ensures Conserved(Apply(l, op)) && Apply(l, op).initial == l.initial
  {
    var next := Apply(l, op);
    match op
    case ConsumeDirectly(count) =>
      TotalsNonNegative(l.reservations);
    case Reserve(requested) =>
      if Reserved(l.remaining, requested).Ok? {
        var limits := Reserved(l.remaining, requested).value;
        TotalsAppend(l.reservations, limits);
        SumNonNegative(limits);
      }
    case Settle(id, counts) =>
      if id < |l.reservations| && l.reservations[id].Open? {
        if SettledCost(l.reservations[id].limits, counts).Ok? {
          SettledCostBounds(l.reservations[id].limits, counts);
        }
        FinalizingConserves(l, id, next.reservations[id]);
      }
    case Forfeit(id) =>
      if id < |l.reservations| && l.reservations[id].Open? {
        FinalizingConserves(l, id, next.reservations[id]);
      }
  }

  /** Over any interleaving of reservations, direct consumption, settlements,
      well-formed or not, and forfeits, the initial budget is conserved. */
  lemma {:induction false} RunConserves(l: Ledger, ops: seq<Operation>)
    requires Conserved(l)
    ensures Conserved(Run(l, ops)) && Run(l, ops).initial == l.initial
    decreases ops
  {
    if ops != [] {
      ApplyConserves(l, ops[0]);
      RunConserves(Apply(l, ops[0]), ops[1..]);
    }
  }

  lemma FreshRunConserves(initial: nat, ops: seq<Operation>)
    ensures Conserved(Run(Fresh(initial), ops)) && Run(Fresh(initial), ops).initial == initial
  {
    RunConserves(Fresh(initial), ops);
  }

  /** A reservation is finalized once: what it became never changes again,
      whatever happens to the budget afterwards. */
  lemma {:induction false} FinalizedStaysFinal(l: Ledger, ops: seq<Operation>, id: nat)
    requires id < |l.reservations| && !l.reservations[id].Open?
    ensures id < |Run(l, ops).reservations|
    ensures Run(l, ops).reservations[id] == l.reservations[id]
    decreases ops
  {
    if ops != [] {
      var next := Apply(l, ops[0]);
      assert id < |next.reservations| && next.reservations[id] == l.reservations[id];
      FinalizedStaysFinal(next, ops[1..], id);
    }
  }

  predicate ProperLimit(limit: Count) {
    limit.Exact? && limit.value > 0
  }

  predicate ProperCount(count: Count, limit: int) {
    count.Exact? && 0 <= count.value <= limit
  }

  /** A reservation is taken exactly when there are limits, all of them positive, and
      they fit together; otherwise nothing changes. The first thing wrong is reported. */
  lemma {:induction false} ReservesExactly(l: Ledger, requested: seq<Count>) returns (k: nat)
    ensures k <= |requested| && (forall i :: 0 <= i < k ==> requested[i].Exact? && requested[i].value > 0)
    ensures k < |requested| ==> !ProperLimit(requested[k])
    ensures var next, r := Apply(l, Reserve(requested)), Reserved(l.remaining, requested);
      if requested != [] && k == |requested| && Sum(Values(requested)) <= l.remaining then
        && r == Ok(Values(requested))
        && next == l.(remaining := l.remaining - Sum(Values(requested)),
                      reservations := l.reservations + [Open(Values(requested))])
      else
        && next == l
        && r == Err(if requested == [] then EmptyLimits
                    else if k == |requested| then BudgetExhausted
                    else if requested[k].NotExact? then NotExactInteger else NonPositiveLimit)
  {
    k := FirstBadLimit(requested);
  }

  lemma {:induction false} FirstBadLimit(limits: seq<Count>) returns (k: nat)
    ensures k <= |limits| && (forall i :: 0 <= i < k ==> limits[i].Exact? && limits[i].value > 0)
    ensures k < |limits| ==> !ProperLimit(limits[k])
    ensures LimitError(limits) ==
      if k == |limits| then None else Some(if limits[k].NotExact? then NotExactInteger else NonPositiveLimit)
  {
    if limits == [] || !ProperLimit(limits[0]) {
      k := 0;
    } else {
      var rest := FirstBadLimit(limits[1..]);
      k := rest + 1;
      forall i | 0 <= i < k ensures limits[i].Exact? && limits[i].value > 0 {
        assert i > 0 ==> limits[i] == limits[1..][i - 1];
      }
    }
  }

  /** Direct consumption takes the count from the budget exactly when it is one and the
      budget has it. */
  lemma ConsumesExactly(l: Ledger, count: int)
    ensures var next, r := Apply(l, ConsumeDirectly(count)), Consumed(l.remaining, count);
      if 0 <= count <= l.remaining then
        r.Ok? && next.remaining + count == l.remaining && next.direct - count == l.direct
        && next.reservations == l.reservations && next.initial == l.initial
      else next == l && r == Err(if count < 0 then NegativeCount else BudgetExhausted)
  {
  }

  /** Forfeiting finalizes an open reservation and leaves the budget and all others
      alone; one that is final, or unknown, is refused. */
  lemma ForfeitsExactly(l: Ledger, id: nat)
    ensures var next := Apply(l, Forfeit(id));
      && next.remaining == l.remaining && next.direct == l.direct && |next.reservations| == |l.reservations|
      && (forall k :: 0 <= k < |l.reservations| && k != id ==> next.reservations[k] == l.reservations[k])
      && (id < |l.reservations| ==>
            next.reservations[id] == if l.reservations[id].Open? then Forfeited(l.reservations[id].limits)
                                     else l.reservations[id])
  {
  }

  /** Why a settlement is not trusted: the counts do not align, or the first bad one. */
  lemma {:induction false} FirstBadCount(counts: seq<Count>, limits: seq<int>) returns (k: nat)
    requires |counts| == |limits|
    ensures k <= |counts|
    ensures forall i :: 0 <= i < k ==> counts[i].Exact? && 0 <= counts[i].value <= limits[i]
    ensures k < |counts| ==> !ProperCount(counts[k], limits[k])
    ensures SettledCost(limits, counts) ==
      if k == |counts| then Ok(Sum(Values(counts)))
      else Err(if counts[k].NotExact? then NotExactInteger
               else if counts[k].value < 0 then NegativeCount else ExceedsLimit)
  {
    if counts == [] || !ProperCount(counts[0], limits[0]) {
      k := 0;
    } else {
      var rest := FirstBadCount(counts[1..], limits[1..]);
      k := rest + 1;
      forall i | 0 <= i < k ensures counts[i].Exact? && 0 <= counts[i].value <= limits[i] {
        assert i > 0 ==> counts[i] == counts[1..][i - 1] && limits[i] == limits[1..][i - 1];
      }
    }
  }

  /** Exactly the well-formed settlements of an open reservation refund anything:
      a malformed one forfeits the whole capacity. */
  lemma SettleRefundsExactly(l: Ledger, id: nat, counts: seq<Count>)
    requires Conserved(l) && id < |l.reservations| && l.reservations[id].Open?
    ensures var limits, next := l.reservations[id].limits, Apply(l, Settle(id, counts));
      if |counts| == |limits| && forall i :: 0 <= i < |counts| ==>
           counts[i].Exact? && 0 <= counts[i].value <= limits[i]
      then next.remaining - l.remaining == Sum(limits) - Sum(Values(counts)) >= 0
        && next.reservations[id] == Settled(limits, Sum(Values(counts)))
      else next.remaining == l.remaining && next.reservations[id] == Forfeited(limits)
  {
    if SettledCost(l.reservations[id].limits, counts).Ok? {
      SettledCostBounds(l.reservations[id].limits, counts);
    }
  }
}
