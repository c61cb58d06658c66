/** The package record that the user fills in and the evaluator inspects.
    Its measurements are C# doubles in the source; here they are reals. */
module ShippingQuoteRequests {

  /** The four measurements of a package, as a value. */
  datatype Package = Package(weight: real, width: real, height: real, length: real)

  /** The mutable request record. Its four measurements are set through the
      fluent With* setters; isValid starts out true and is the one field the
      evaluator writes. */
  class ShippingQuoteRequest {
    var weight: real
    var width: real
    var height: real
    var length: real
    var isValid: bool

    /** The measurements currently held by the request. */
    function Measurements(): Package
      reads this
    {
      Package(weight, width, height, length)
    }

    /** A fresh request: every measurement has the default value 0 of a
        double, and the request is valid. */
    constructor ()
      ensures Measurements() == Package(0.0, 0.0, 0.0, 0.0)
      ensures isValid
    {
      weight, width, height, length := 0.0, 0.0, 0.0, 0.0;
      isValid := true;
    }

    method WithWeight(weight: real) returns (self: ShippingQuoteRequest)
      modifies this
      ensures self == this
      ensures Measurements() == old(Measurements()).(weight := weight)
      ensures isValid == old(isValid)
    {
      this.weight := weight;
      self := this;
    }

    method WithWidth(width: real) returns (self: ShippingQuoteRequest)
      modifies this
      ensures self == this
      ensures Measurements() == old(Measurements()).(width := width)
      ensures isValid == old(isValid)
    {
      this.width := width;
      self := this;
    }

    method WithHeight(height: real) returns (self: ShippingQuoteRequest)
      modifies this
      ensures self == this
      ensures Measurements() == old(Measurements()).(height := height)
      ensures isValid == old(isValid)
    {
      this.height := height;
      self := this;
    }

    method WithLength(length: real) returns (self: ShippingQuoteRequest)
      modifies this
      ensures self == this
      ensures Measurements() == old(Measurements()).(length := length)
      ensures isValid == old(isValid)
    {
      this.length := length;
      self := this;
    }
  }
}
