# Currency calculator: the `Calculator` class

This project models the conversion engine of a small browser currency
calculator. A `Calculator` object holds one exchange rate, which is `null`
until it is first assigned. The object converts an amount from the source
currency to the target currency (`calculateFrom`, amount × rate) and back
(`calculateTo`, amount × 1/rate). Both conversions reject negative amounts.
The rate is assigned either by `init`, from a quote fetched from the National
Bank of Poland's rate service, or directly by `setExchangeRate`, which rejects
only non-numbers. `getExchangeRate` reads it.

Files:

- `wrappers.dfy`: module `Wrappers`. It holds `Option` (the nullable field), `Result` (a value or a thrown error) and `Outcome` (nothing or a thrown error).
- `calculator.dfy`: module `CurrencyCalculator`. It holds the error kinds and their messages, and the pure conversion functions `ConvertFrom` and `ConvertTo` with their round-trip lemmas. It also holds the class `Calculator`, whose field `exchangeRate` is an `Option<real>` and whose methods are the five public operations.
- `session.dfy`: module `CalculatorSession`. It models the object's lifecycle as a state machine. It replays any sequence of calls from a starting rate and proves what the rate is afterwards: the last value written, and never unset again once set. It also restates the unit tests' scenarios as a client of the class's contracts.

Modelling choices:

- Amounts and rates are mathematical reals, not IEEE doubles.
- A thrown `Error` is a returned `Error` value. `Error.Message()` gives the exact message text.
- The fetch inside `init` is a parameter: the settled result, `Success(rate)` or `Failure(cause)`.
- The argument of `setExchangeRate` is a `RateArgument`: a number, or `NotANumber` for anything that `isNaN` coerces to NaN, such as the string `"abc"`.
- Both conversions require a rate to be set. `CalculateTo` also requires it to be non-zero. The set-rate precondition excludes the call on a `null` rate, where JavaScript turns `null` into 0. The non-zero precondition excludes the Infinity and NaN results of dividing by zero (see "Left out").

## Model

| member | source | states |
|---|---|---|
| `CurrencyCalculator.Calculator.constructor` | public/javascripts/Calculator.js:8-10 | a new calculator has no exchange rate |
| `CurrencyCalculator.Calculator.Init` | public/javascripts/Calculator.js:18-20 | a successful fetch assigns the fetched rate and returns normally; a failed fetch rethrows the fetch's own error and leaves the previous rate in place |
| `CurrencyCalculator.ConvertFrom` | public/javascripts/Calculator.js:29-34 | the forward conversion fails exactly when the amount is negative, and then with the negative-amount error; with a positive rate the result is non-negative, and positive for a positive amount |
| `CurrencyCalculator.Calculator.CalculateFrom` | public/javascripts/Calculator.js:29-34 | on the current rate, rejects exactly the negative amounts, and otherwise returns amount × rate; the rate is not changed |
| `CurrencyCalculator.ConvertTo` | public/javascripts/Calculator.js:43-48 | for a non-zero rate, the inverse conversion fails exactly when the amount is negative, with the negative-amount error; otherwise its result times the rate is the amount |
| `CurrencyCalculator.Calculator.CalculateTo` | public/javascripts/Calculator.js:43-48 | on the current non-zero rate, rejects exactly the negative amounts, and otherwise returns the amount that the rate maps back onto the input; the rate is not changed |
| `CurrencyCalculator.RoundTrip` | public/javascripts/Calculator.js:29-48 | for a positive rate and a non-negative amount, converting forward and then back returns exactly the amount |
| `CurrencyCalculator.ReverseRoundTrip` | public/javascripts/Calculator.js:29-48 | for a positive rate and a non-negative amount, converting back and then forward returns exactly the amount |
| `CurrencyCalculator.RoundTripExactly` | public/javascripts/Calculator.js:29-48 | for a non-zero rate and a non-negative amount, the forward-then-back round trip returns the amount if and only if the amount is zero or the rate is positive; so for a positive amount a negative rate makes the round trip fail (the forward result is negative, which the inverse rejects) |
| `CurrencyCalculator.Calculator.SetExchangeRate` | public/javascripts/Calculator.js:81-87 | a NaN argument throws the NaN error and keeps the previous rate; any number, zero and negative included, becomes the rate |
| `CurrencyCalculator.Error.Message` | public/javascripts/Calculator.js:19-83 | a failed fetch is rethrown with its own message unchanged; the negative-amount message and the NaN-rate message are distinct texts |
| `CurrencyCalculator.Calculator.GetExchangeRate` | public/javascripts/Calculator.js:93-95 | returns the current rate, `None` when unset, and changes nothing |
| `CalculatorSession.Step` | public/javascripts/Calculator.js:18-87 | a call that writes a rate (successful fetch, numeric assignment) replaces the rate with it; every other call leaves the rate as it was |
| `CalculatorSession.Perform` | public/javascripts/Calculator.js:18-95 | each public method of the class changes the rate exactly as `Step` says |
| `CalculatorSession.RunIsLastWritten` | public/javascripts/Calculator.js:18-87 | after any sequence of calls, the rate is the one written by the last call that writes one, or the starting rate if none does |
| `CalculatorSession.RateStaysSet` | public/javascripts/Calculator.js:18-87 | once a rate is set, no sequence of modelled calls makes it unset again (rate arguments are numbers or NaN; a `null` argument is not modelled) |
| `CalculatorSession.FreshRateSetIffWritten` | public/javascripts/Calculator.js:8-87 | a fresh calculator has a rate after a sequence of calls if and only if one of the calls wrote a rate (for number or NaN rate arguments only) |

## Left out

- `fetchExchangeRate` (public/javascripts/Calculator.js:57-73) is not modelled. It is an HTTP request to the rate service plus JSON access to `rates[0].mid`. `Init` receives its settled result as a parameter instead.
- The promise and `async` machinery of `init` is not modelled. `Init` is a sequential method. The last-write-wins race between two overlapping `init` calls is therefore not represented, beyond `RunIsLastWritten` for calls in a fixed order.
- `CurrencyCalculator.Calculator.CalculateFrom` requires a rate to be set. With a `null` rate the original computes `amount * null`, and JavaScript coerces `null` to 0, so the result is 0 (not NaN). The model does not cover that call.
- `CurrencyCalculator.Calculator.CalculateTo` requires a set, non-zero rate. With a zero or `null` rate the original divides by zero and returns `Infinity`, or NaN for a zero amount. IEEE infinities and NaN are not modelled.
- `CurrencyCalculator.Calculator.SetExchangeRate` covers only numbers and non-numbers. The original's `isNaN` coerces its argument, so `null`, `""` or a numeric string such as `"4.5"` pass the check and are stored as given. Those stored values are not modelled. A stored `null` unsets the rate again, so `CalculatorSession.RateStaysSet` and `CalculatorSession.FreshRateSetIffWritten` hold only for the documented `number` argument.
- A NaN amount passed to a conversion is not modelled. `NaN < 0` is false, so the original would return NaN.
- Floating-point rounding is not modelled. The round trips are exact on reals; on doubles they hold up to rounding.
- The page glue (public/javascripts/Connector.js) is not part of this model: DOM lookups, event listeners, console logging, two-decimal display rounding and the currency-to-flag map. So is the static file server (index.js).
