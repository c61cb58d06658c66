/** The shipping-quote evaluator: two strict limit checks, in order, and a
    price formula for packages that pass both. */
module ShippingQuoteMediator {
  import opened ShippingQuoteRequests

  /** The largest accepted weight (a heavier package is rejected). */
  const MaxWeight: real := 50.0
  /** The largest accepted sum of width, height and length. */
  const MaxDimensions: real := 50.0
  /** The price is the product of the four measurements divided by this. */
  const QuoteDivisor: real := 100.0

  /** What the evaluator reports; NoOutput is a request that passed both checks
      but had already been marked invalid, for which nothing is printed. */
  datatype Outcome = TooHeavy | TooBig | Quoted(amount: real) | NoOutput

  /** The outcome together with the request's isValid flag afterwards. */
  datatype Evaluation = Evaluation(outcome: Outcome, isValid: bool)

  function TotalDimensions(p: Package): real
  {
    p.width + p.height + p.length
  }

  /** Both limit checks pass; each check is strict, so a value equal to its
      limit passes. */
  predicate WithinLimits(p: Package)
  {
    p.weight <= MaxWeight && TotalDimensions(p) <= MaxDimensions
  }

  predicate Positive(p: Package)
  {
    p.weight > 0.0 && p.width > 0.0 && p.height > 0.0 && p.length > 0.0
  }

  /** The price of a package. */
  function CalculateQuote(p: Package): (quote: real)
    ensures Positive(p) ==> quote > 0.0
    ensures p.weight == 0.0 || p.width == 0.0 || p.height == 0.0 || p.length == 0.0 ==> quote == 0.0
  {
    p.width * p.height * p.length * p.weight / QuoteDivisor
  }

  /** The evaluator on values: the outcome and the new isValid flag of a
      request holding p whose flag was isValid on entry. */
  function Evaluate(p: Package, isValid: bool): (e: Evaluation)
    ensures e.outcome == TooHeavy <==> p.weight > MaxWeight
    ensures e.outcome == TooBig <==> p.weight <= MaxWeight && TotalDimensions(p) > MaxDimensions
    ensures e.outcome.Quoted? <==> WithinLimits(p) && isValid
    ensures e.outcome.Quoted? ==> e.outcome.amount == CalculateQuote(p)
    ensures e.isValid <==> WithinLimits(p) && isValid
  {
    if p.weight > MaxWeight then
      Evaluation(TooHeavy, false)
    else if TotalDimensions(p) > MaxDimensions then
      Evaluation(TooBig, false)
    else if isValid then
      Evaluation(Quoted(CalculateQuote(p)), isValid)
    else
      Evaluation(NoOutput, isValid)
  }

  /** Evaluates the request in place: a rejection clears its isValid flag,
      and its measurements are never changed. */
  method ProcessRequest(request: ShippingQuoteRequest) returns (outcome: Outcome)
    modifies request
    ensures request.Measurements() == old(request.Measurements())
    ensures Evaluation(outcome, request.isValid) == Evaluate(old(request.Measurements()), old(request.isValid))
  {
    if request.weight > MaxWeight {
      request.isValid := false;
      return TooHeavy;
    }

    var totalDimensions := request.width + request.height + request.length;
    if totalDimensions > MaxDimensions {
      request.isValid := false;
      return TooBig;
    }

    if request.isValid {
      var quote := CalculateQuote(request.Measurements());
      return Quoted(quote);
    }
    return NoOutput;
  }

  // ---------------------------------------------------------------------
  // The evaluator's rules, one lemma each.

  /** An overweight package is rejected as too heavy whatever its size and
      whatever its flag, and is marked invalid. */
  lemma TooHeavyRule(p: Package, isValid: bool)
    requires p.weight > MaxWeight
    ensures Evaluate(p, isValid) == Evaluation(TooHeavy, false)
  {
  }

  /** A package of acceptable weight whose dimensions add up to more than the
      limit is rejected as too big and marked invalid. */
  lemma TooBigRule(p: Package, isValid: bool)
    requires p.weight <= MaxWeight && TotalDimensions(p) > MaxDimensions
    ensures Evaluate(p, isValid) == Evaluation(TooBig, false)
  {
  }

  /** The weight is checked first: a package over both limits is reported
      only as too heavy. */
  lemma WeightCheckedFirst(p: Package, isValid: bool)
    requires p.weight > MaxWeight && TotalDimensions(p) > MaxDimensions
    ensures Evaluate(p, isValid).outcome == TooHeavy
    ensures Evaluate(p, isValid).outcome != TooBig
  {
  }

  /** A valid request within both limits gets the formula's price and stays valid. */
  lemma QuoteRule(p: Package)
    requires WithinLimits(p)
    ensures Evaluate(p, true) == Evaluation(Quoted(p.width * p.height * p.length * p.weight / 100.0), true)
  {
  }

  /** A request within both limits that was already invalid produces nothing
      and keeps its flag. */
  lemma AlreadyInvalidRule(p: Package)
    requires WithinLimits(p)
    ensures Evaluate(p, false) == Evaluation(NoOutput, false)
  {
  }

  /** Both checks are strict: weight exactly at its limit is not rejected for
      weight, and dimensions summing exactly to their limit are not rejected
      for size. */
  lemma LimitsAreStrict(p: Package, isValid: bool)
    ensures p.weight == MaxWeight ==> Evaluate(p, isValid).outcome != TooHeavy
    ensures p.weight <= MaxWeight && TotalDimensions(p) == MaxDimensions ==>
      Evaluate(p, isValid).outcome != TooBig
    ensures p.weight == 50.0 && TotalDimensions(p) == 50.0 ==>
      Evaluate(p, true) == Evaluation(Quoted(p.width * p.height * p.length * 50.0 / 100.0), true)
  {
  }

  // ---------------------------------------------------------------------
  // The price formula grows with each factor.

  lemma QuoteMonotoneInWeight(p: Package, weight: real)
    requires p.width >= 0.0 && p.height >= 0.0 && p.length >= 0.0
    requires p.weight <= weight
    ensures CalculateQuote(p) <= CalculateQuote(p.(weight := weight))
  {
  }

  lemma QuoteMonotoneInWidth(p: Package, width: real)
    requires p.weight >= 0.0 && p.height >= 0.0 && p.length >= 0.0
    requires p.width <= width
    ensures CalculateQuote(p) <= CalculateQuote(p.(width := width))
  {
  }

  lemma QuoteMonotoneInHeight(p: Package, height: real)
    requires p.weight >= 0.0 && p.width >= 0.0 && p.length >= 0.0
    requires p.height <= height
    ensures CalculateQuote(p) <= CalculateQuote(p.(height := height))
  {
  }

  lemma QuoteMonotoneInLength(p: Package, length: real)
    requires p.weight >= 0.0 && p.width >= 0.0 && p.height >= 0.0
    requires p.length <= length
    ensures CalculateQuote(p) <= CalculateQuote(p.(length := length))
  {
  }

  /** A package that is at least as large in every factor costs at least as
      much. */
  lemma QuoteMonotone(p: Package, q: Package)
    requires Positive(p)
    requires p.weight <= q.weight && p.width <= q.width && p.height <= q.height && p.length <= q.length
    ensures CalculateQuote(p) <= CalculateQuote(q)
  {
    var p1 := p.(weight := q.weight);
    var p2 := p1.(width := q.width);
    var p3 := p2.(height := q.height);
    QuoteMonotoneInWeight(p, q.weight);
    QuoteMonotoneInWidth(p1, q.width);
    QuoteMonotoneInHeight(p2, q.height);
    QuoteMonotoneInLength(p3, q.length);
    assert p3.(length := q.length) == q;
  }

  // ---------------------------------------------------------------------
  // Worked examples.

  lemma SmallPackageExample()
    ensures Evaluate(Package(10.0, 2.0, 2.0, 2.0), true) == Evaluation(Quoted(0.8), true)
  {
  }

  lemma HeavyPackageExample()
    ensures Evaluate(Package(60.0, 1.0, 1.0, 1.0), true) == Evaluation(TooHeavy, false)
  {
  }

  lemma BigPackageExample()
    ensures Evaluate(Package(1.0, 20.0, 20.0, 20.0), true) == Evaluation(TooBig, false)
  {
  }
}
