/**
 * The calculator's lifecycle as a state machine over its one field: a
 * sequence of public calls, replayed from a starting rate, and what the rate
 * is after them.
 */
module CalculatorSession {
  import opened Wrappers
  import opened CurrencyCalculator

  /** One call of the calculator's public interface, with what it was given. */
  datatype Call =
    | Init(fetched: Result<real, string>)
    | SetExchangeRate(arg: RateArgument)
    | CalculateFrom(amount: real)
    | CalculateTo(amount: real)
    | GetExchangeRate

  /** The rate a call writes into the field, if it writes one. */
  function Written(c: Call): Option<real> {
    match c
    case Init(Success(rate)) => Some(rate)
    case SetExchangeRate(Numeric(rate)) => Some(rate)
    case _ => None
  }

  /**
   * The field after one call. Its ensures only restate `Step` through
   * `Written`; that it is how the class's methods change the field is proved
   * by `Perform`.
   */
  function Step(rate: Option<real>, c: Call): (next: Option<real>)
    ensures Written(c).Some? ==> next == Written(c)
    ensures Written(c).None? ==> next == rate
  {
    match c
    case Init(fetched) => if fetched.Success? then Some(fetched.value) else rate
    case SetExchangeRate(arg) => if arg.Numeric? then Some(arg.value) else rate
    case CalculateFrom(_) => rate
    case CalculateTo(_) => rate
    case GetExchangeRate => rate
  }

  /** The field after the calls, replayed in order from `rate`. */
  function Run(rate: Option<real>, calls: seq<Call>): Option<real>
    decreases |calls|
  {
    if calls == [] then rate else Run(Step(rate, calls[0]), calls[1..])
  }

  /** The rate written by the last call that writes one, searched from the end. */
  function LastWritten(calls: seq<Call>): Option<real>
    decreases |calls|
  {
    if calls == [] then None
    else if Written(calls[|calls| - 1]).Some? then Written(calls[|calls| - 1])
    else LastWritten(calls[..|calls| - 1])
  }

  /** Replaying one more call is one more step. */
  lemma {:induction false} RunAppend(rate: Option<real>, calls: seq<Call>, c: Call)
    ensures Run(rate, calls + [c]) == Step(Run(rate, calls), c)
    decreases |calls|
  {
    if calls == [] {
      assert [c][1..] == [];
    } else {
      assert (calls + [c])[1..] == calls[1..] + [c];
      RunAppend(Step(rate, calls[0]), calls[1..], c);
    }
  }

  /**
   * Last write wins: after any calls, the rate is the one written last, or the
   * starting rate when no call wrote one (failed fetches, NaN assignments and
   * conversions write nothing).
   */
  lemma {:induction false} RunIsLastWritten(rate: Option<real>, calls: seq<Call>)
    ensures Run(rate, calls) == if LastWritten(calls).Some? then LastWritten(calls) else rate
    decreases |calls|
  {
    if calls != [] {
      var init, last := calls[..|calls| - 1], calls[|calls| - 1];
      assert calls == init + [last];
      RunAppend(rate, init, last);
      RunIsLastWritten(rate, init);
    }
  }

  /** Once a rate is set, no sequence of calls makes it unset again. */
  lemma {:induction false} RateStaysSet(rate: Option<real>, calls: seq<Call>)
    requires rate.Some?
    ensures Run(rate, calls).Some?
    decreases |calls|
  {
    if calls != [] {
      RateStaysSet(Step(rate, calls[0]), calls[1..]);
    }
  }

  /** A fresh calculator has a rate after some calls exactly when one of them wrote it. */
  lemma {:induction false} FreshRateSetIffWritten(calls: seq<Call>)
    ensures Run(None, calls).Some? <==> exists i :: 0 <= i < |calls| && Written(calls[i]).Some?
    decreases |calls|
  {
    RunIsLastWritten(None, calls);
    LastWrittenIsSomeWrite(calls);
  }

  /** `LastWritten` finds a write exactly when the calls contain one. */
  lemma {:induction false} LastWrittenIsSomeWrite(calls: seq<Call>)
    ensures LastWritten(calls).Some? <==> exists i :: 0 <= i < |calls| && Written(calls[i]).Some?
    decreases |calls|
  {
    if calls != [] {
      var init := calls[..|calls| - 1];
      LastWrittenIsSomeWrite(init);
      if exists i :: 0 <= i < |calls| && Written(calls[i]).Some? {
        var i :| 0 <= i < |calls| && Written(calls[i]).Some?;
        if i < |calls| - 1 {
          assert init[i] == calls[i];
        }
      }
      if exists i :: 0 <= i < |init| && Written(init[i]).Some? {
        var i :| 0 <= i < |init| && Written(init[i]).Some?;
        assert calls[i] == init[i];
      }
    }
  }

  /** The calls the class's methods make replay exactly as `Step` says. */
  method Perform(calculator: Calculator, c: Call) returns (outcome: Outcome<Error>)
    requires c.CalculateFrom? ==> calculator.exchangeRate.Some?
    requires c.CalculateTo? ==> calculator.exchangeRate.Some? && calculator.exchangeRate.value != 0.0
    modifies calculator
    ensures calculator.exchangeRate == Step(old(calculator.exchangeRate), c)
  {
    match c
    case Init(fetched) =>
      outcome := calculator.Init(fetched);
    case SetExchangeRate(arg) =>
      outcome := calculator.SetExchangeRate(arg);
    case CalculateFrom(amount) =>
      var r := calculator.CalculateFrom(amount);
      outcome := if r.Failure? then Fail(r.error) else Pass;
    case CalculateTo(amount) =>
      var r := calculator.CalculateTo(amount);
      outcome := if r.Failure? then Fail(r.error) else Pass;
    case GetExchangeRate =>
      var _ := calculator.GetExchangeRate();
      outcome := Pass;
  }

  /** The unit tests' scenarios, each on a fresh calculator, proved from the contracts alone. */
  method TestScenarios()
  {
    var calculator := new Calculator();
    var initialized := calculator.Init(Success(4.5));
    var rate := calculator.GetExchangeRate();
    assert initialized == Pass && rate == Some(4.5);

    calculator := new Calculator();
    initialized := calculator.Init(Failure("Failed to fetch exchange rate"));
    rate := calculator.GetExchangeRate();
    assert initialized.Fail? && initialized.error.Message() == "Failed to fetch exchange rate";
    assert rate == None;

    calculator := new Calculator();
    var setOutcome := calculator.SetExchangeRate(Numeric(4.5));
    var r := calculator.CalculateFrom(10.0);
    assert r == Success(45.0);
    r := calculator.CalculateFrom(0.0);
    assert r == Success(0.0);
    r := calculator.CalculateFrom(-10.0);
    assert r.Failure? && r.error.Message() == "You cannot calculate exchange values for negative numbers!";

    r := calculator.CalculateTo(45.0);
    assert r == Success(10.0);
    r := calculator.CalculateTo(0.0);
    assert r == Success(0.0);
    r := calculator.CalculateTo(-45.0);
    assert r.Failure? && r.error == NegativeAmount;

    rate := calculator.GetExchangeRate();
    assert rate == Some(4.5);

    calculator := new Calculator();
    setOutcome := calculator.SetExchangeRate(NotANumber);
    assert setOutcome.Fail? && setOutcome.error.Message() == "Invalid exchange rate expression (NaN)!";
  }
}
