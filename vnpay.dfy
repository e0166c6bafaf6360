/**
 * What the marketplace sees of the VNPAY gateway: the mutable parameter
 * collection a payment URL is built from, the verified response of a
 * callback, and the conversion of a decimal amount to the gateway's
 * minor units.
 */
module VnPay {
  import opened Wrappers

  /**
   * The outcome of `PaymentExecute` on a callback query: whether the
   * signature checked out, the gateway's response code and the order
   * information sent with the payment request. The check itself is an input.
   */
  datatype PaymentResponse = PaymentResponse(success: bool, vnPayResponseCode: string, orderDescription: string)

  /** Code the gateway returns for a completed payment. */
  const SuccessCode: string := "00"

  /** The gateway reports a successful, completed payment. */
  predicate Paid(r: PaymentResponse) {
    r.success && r.vnPayResponseCode == SuccessCode
  }

  /** The request parameters of one payment URL, added one by one. */
  class VnPayLibrary {
    var requestData: map<string, string>

    constructor()
      ensures requestData == map[]
    {
      requestData := map[];
    }

    method AddRequestData(key: string, value: string)
      modifies this
      ensures requestData == old(requestData)[key := value]
    {
      requestData := requestData[key := value];
    }
  }

  const LongMin: int := -0x8000_0000_0000_0000
  const LongMax: int := 0x7FFF_FFFF_FFFF_FFFF

  /** The C# explicit conversion from decimal to an integer type: drop the fraction. */
  function TruncateTowardZero(x: real): (t: int)
    ensures 0.0 <= x ==> 0 <= t && t as real <= x < t as real + 1.0
    ensures x < 0.0 ==> t <= 0 && t as real - 1.0 < x <= t as real
  {
    if x >= 0.0 then x.Floor else -((-x).Floor)
  }

  /**
   * `(long)(amount * 100)`: the amount in hundredths, truncated; `None`
   * stands for the `OverflowException` thrown outside the range of `long`.
   */
  function ToMinorUnits(amount: real): (r: Option<int>)
    ensures r.Some? <==> LongMin <= TruncateTowardZero(amount * 100.0) <= LongMax
    ensures r.Some? ==> r.value == TruncateTowardZero(amount * 100.0)
  {
    var t := TruncateTowardZero(amount * 100.0);
    if LongMin <= t <= LongMax then Some(t) else None
  }

  /** A whole amount of dong is sent exactly, as one hundred units per dong. */
  lemma WholeAmountExact(k: int)
    requires LongMin <= 100 * k <= LongMax
    ensures ToMinorUnits(k as real) == Some(100 * k)
  {
    assert k as real * 100.0 == (100 * k) as real;
  }
}
