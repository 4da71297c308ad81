/**
 * The price estimate: the trained regression model applied to the one
 * encoded row. The model is an externally trained artifact, so it enters as
 * a parameter: any function from rows to prices.
 */
module Pricing {
  import opened Form
  import opened Features

  /** The estimate shown for a request, given the loaded model's predict function. */
  function Price(predict: Row -> real, r: Request): real {
    predict(Encode(r))
  }

  /**
   * Whatever the model, the estimate depends on the request only through
   * its encoding: requests that agree up to "Front" versus "Other" drive get
   * the same price.
   */
  lemma PriceIgnoresFrontOther(predict: Row -> real, a: Request, b: Request)
    requires SameUpToDrive(a, b)
    ensures Price(predict, a) == Price(predict, b)
  {
  }

  /**
   * Conversely, two requests that differ in anything but "Front" versus
   * "Other" drive reach the model as different rows, so some model prices
   * them differently; in particular a request's transmission always reaches
   * the model.
   */
  lemma {:induction false} PriceCanSeparate(a: Request, b: Request)
    requires !SameUpToDrive(a, b)
    ensures exists predict: Row -> real :: Price(predict, a) != Price(predict, b)
  {
    EncodeEqualIff(a, b);
    var row := Encode(a);
    var predict: Row -> real := x => if x == row then 1.0 else 0.0;
    assert Price(predict, a) == 1.0;
    assert Price(predict, b) == 0.0;
  }
}
