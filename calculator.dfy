/**
 * The `Calculator` class of a two-currency exchange calculator: it holds one
 * exchange rate (unset until it is first assigned), converts amounts in both
 * directions with it, and replaces it either from a fetched quote or by a
 * direct assignment.
 *
 * Numbers are mathematical reals, not IEEE doubles. An exception thrown by the
 * original is an `Error` value returned in a `Result` or an `Outcome`.
 */
module CurrencyCalculator {
  import opened Wrappers

  /** The message thrown for a negative amount by either conversion. */
  const NegativeAmountMessage := "You cannot calculate exchange values for negative numbers!"

  /** The message thrown when a rate assignment is given something that is not a number. */
  const NotANumberRateMessage := "Invalid exchange rate expression (NaN)!"

  /** The exceptions the calculator raises. */
  datatype Error =
    | NegativeAmount          // a conversion was asked for a negative amount
    | NotANumberRate          // a rate assignment was given something that is not a number
    | FetchFailed(cause: string)  // fetching the quote failed; the cause is passed on as is
  {
    /**
     * The message of the thrown `Error` object: a fetch failure passes its
     * cause on unchanged, and the two argument errors are told apart by their
     * texts.
     */
    function Message(): (m: string)
      ensures FetchFailed? ==> m == cause
      ensures !FetchFailed? ==> (m == NegativeAmountMessage <==> NegativeAmount?)
      ensures !FetchFailed? ==> (m == NotANumberRateMessage <==> NotANumberRate?)
    {
      match this
      case NegativeAmount => NegativeAmountMessage
      case NotANumberRate => NotANumberRateMessage
      case FetchFailed(cause) => cause
    }
  }

  /**
   * The argument of `setExchangeRate` as `isNaN` sees it: either a number or
   * something whose numeric coercion is NaN (such as the string "abc").
   */
  datatype RateArgument = Numeric(value: real) | NotANumber

  /** `calculateFrom`: the amount in the target currency for `amount` in the source currency. */
  function ConvertFrom(amount: real, rate: real): (r: Result<real, Error>)
    ensures r.Failure? <==> amount < 0.0
    ensures r.Failure? ==> r.error == NegativeAmount
    ensures r.Success? && rate > 0.0 ==> r.value >= 0.0 && (amount > 0.0 ==> r.value > 0.0)
  {
    if amount < 0.0 then Failure(NegativeAmount) else Success(amount * rate)
  }

  /** `calculateTo`: the amount in the source currency for `amount` in the target currency. */
  function ConvertTo(amount: real, rate: real): (r: Result<real, Error>)
    requires rate != 0.0
    ensures r.Failure? <==> amount < 0.0
    ensures r.Failure? ==> r.error == NegativeAmount
    ensures r.Success? ==> r.value * rate == amount
  {
    if amount < 0.0 then Failure(NegativeAmount) else Success(amount * (1.0 / rate))
  }

  /** Converting there and back returns the original amount when the rate is positive. */
  lemma RoundTrip(amount: real, rate: real)
    requires amount >= 0.0 && rate > 0.0
    ensures ConvertFrom(amount, rate).Success?
    ensures ConvertTo(ConvertFrom(amount, rate).value, rate) == Success(amount)
  {
    var there := amount * rate;
    assert there >= 0.0;
    assert rate * (1.0 / rate) == 1.0;
    assert there * (1.0 / rate) == amount * (rate * (1.0 / rate));
    assert there * (1.0 / rate) == amount;
    assert ConvertFrom(amount, rate) == Success(there);
    assert ConvertTo(there, rate) == Success(there * (1.0 / rate));
  }

  /** Converting back and then forth also returns the original amount. */
  lemma ReverseRoundTrip(amount: real, rate: real)
    requires amount >= 0.0 && rate > 0.0
    ensures ConvertTo(amount, rate).Success?
    ensures ConvertFrom(ConvertTo(amount, rate).value, rate) == Success(amount)
  {
  }

  /**
   * For a non-negative amount and a non-zero rate, the round trip gives the
   * amount back exactly when the amount is zero or the rate is positive. A
   * negative rate, which `setExchangeRate` accepts, turns a positive amount
   * negative, and `calculateTo` then rejects it.
   */
  lemma RoundTripExactly(amount: real, rate: real)
    requires amount >= 0.0 && rate != 0.0
    ensures ConvertFrom(amount, rate).Success?
    ensures ConvertTo(ConvertFrom(amount, rate).value, rate) == Success(amount)
            <==> amount == 0.0 || rate > 0.0
  {
    if rate > 0.0 {
      RoundTrip(amount, rate);
    } else if amount > 0.0 {
      assert amount * rate < 0.0;
    }
  }

  /** The calculator object; its one field is `null` until a rate is assigned. */
  class Calculator {
    var exchangeRate: Option<real>

    /** A new calculator has no exchange rate. */
    constructor ()
      ensures exchangeRate == None
    {
      exchangeRate := None;
    }

    /**
     * `init`: assigns the rate delivered by the fetch, or rethrows the fetch
     * error and leaves the rate as it was. `fetched` stands for the settled
     * promise of `fetchExchangeRate`.
     */
    method Init(fetched: Result<real, string>) returns (outcome: Outcome<Error>)
      modifies this
      ensures fetched.Success? ==> outcome == Pass && exchangeRate == Some(fetched.value)
      ensures fetched.Failure? ==> outcome == Fail(FetchFailed(fetched.error))
                                   && exchangeRate == old(exchangeRate)
    {
      match fetched
      case Success(rate) =>
        exchangeRate := Some(rate);
        outcome := Pass;
      case Failure(cause) =>
        outcome := Fail(FetchFailed(cause));
    }

    /** `calculateFrom`, on the current rate. */
    method CalculateFrom(amount: real) returns (r: Result<real, Error>)
      requires exchangeRate.Some?
      ensures r == ConvertFrom(amount, exchangeRate.value)
      ensures r.Failure? <==> amount < 0.0
      ensures r.Success? ==> r.value == amount * exchangeRate.value
    {
      if amount < 0.0 {
        return Failure(NegativeAmount);
      }
      return Success(amount * exchangeRate.value);
    }

    /** `calculateTo`, on the current rate. */
    method CalculateTo(amount: real) returns (r: Result<real, Error>)
      requires exchangeRate.Some? && exchangeRate.value != 0.0
      ensures r == ConvertTo(amount, exchangeRate.value)
      ensures r.Failure? <==> amount < 0.0
      ensures r.Success? ==> r.value * exchangeRate.value == amount
    {
      if amount < 0.0 {
        return Failure(NegativeAmount);
      }
      return Success(amount * (1.0 / exchangeRate.value));
    }

    /**
     * `setExchangeRate`: rejects a NaN argument and keeps the old rate;
     * assigns any number, zero and negative ones included.
     */
    method SetExchangeRate(arg: RateArgument) returns (outcome: Outcome<Error>)
      modifies this
      ensures arg.Numeric? ==> outcome == Pass && exchangeRate == Some(arg.value)
      ensures arg.NotANumber? ==> outcome == Fail(NotANumberRate)
                                  && exchangeRate == old(exchangeRate)
    {
      if arg.NotANumber? {
        return Fail(NotANumberRate);
      }
      exchangeRate := Some(arg.value);
      outcome := Pass;
    }

    /** `getExchangeRate`. */
    method GetExchangeRate() returns (rate: Option<real>)
      ensures rate == exchangeRate
    {
      rate := exchangeRate;
    }
  }
}
