/** The program's wiring: a request is built through the fluent setters from
    the four collected numbers and handed to the evaluator once. */
module PackageExpress {
  import opened ShippingQuoteRequests
  import opened ShippingQuoteMediator

  method QuotePackage(weight: real, width: real, height: real, length: real) returns (outcome: Outcome)
    ensures outcome == Evaluate(Package(weight, width, height, length), true).outcome
  {
    var request := new ShippingQuoteRequest();
    var r1 := request.WithWeight(weight);
    var r2 := r1.WithWidth(width);
    var r3 := r2.WithHeight(height);
    var r4 := r3.WithLength(length);
    outcome := ProcessRequest(r4);
  }
}
