# Package Express shipping quote — Dafny model

This project models the shipping-quote evaluator of a small command-line
program for the "Package Express" service. A request record holds a
package's weight, width, height and length, plus an `IsValid` flag that
starts out true. The fluent `With*` setters fill in the record. The mediator
then runs two strict checks in order: weight above 50 means "too heavy", and
width + height + length above 50 means "too big". Either rejection clears
`IsValid`. A package that passes both checks, on a request that is still
valid, is priced at `width * height * length * weight / 100`.

Layout:

- `request.dfy`, module `ShippingQuoteRequests`: the `Package` value (the four
  measurements) and the class `ShippingQuoteRequest`, whose fields the setters
  and the evaluator update in place.
- `mediator.dfy`, module `ShippingQuoteMediator`: the constants `MaxWeight`,
  `MaxDimensions` and `QuoteDivisor`; the `Outcome` of an evaluation
  (`TooHeavy | TooBig | Quoted(amount) | NoOutput`), which stands for what the
  program prints; the pure price function `CalculateQuote`; the value-level
  specification `Evaluate`; the in-place `ProcessRequest`; and lemmas for
  each rule.
- `input_handler.dfy`, module `InputHandler`: the input collector's selection
  rule ("the first parsed value above zero"), over a finite sequence of parse
  results.
- `package_express.dfy`, module `PackageExpress`: the program's wiring. It
  builds a request through the setters and evaluates it once.

Doubles are modelled as Dafny `real`. Console output is replaced by the
returned `Outcome`. Console input is replaced by a parameter: a sequence of
parse results, one per line typed.

Two details of the evaluator:

- The evaluator checks `IsValid` before pricing. A request that passes both
  checks but was already marked invalid prints nothing; this is `NoOutput`.
  The program never reaches this case, because it evaluates one fresh, valid
  request once (`PackageExpress.QuotePackage`).
- The code does not require positive measurements. The evaluator therefore
  has no precondition, and positivity is a hypothesis only of the lemmas
  about the price.

## Model

| member | source | states |
|---|---|---|
| `ShippingQuoteRequests.ShippingQuoteRequest.constructor` | Program.cs:12-16 | a fresh request has all four measurements at the double default 0 and `IsValid` true |
| `ShippingQuoteRequests.ShippingQuoteRequest.WithWeight` | Program.cs:19-23 | sets the weight only; the other measurements and `IsValid` are unchanged; returns the same object |
| `ShippingQuoteRequests.ShippingQuoteRequest.WithWidth` | Program.cs:25-29 | sets the width only; everything else is unchanged; returns the same object |
| `ShippingQuoteRequests.ShippingQuoteRequest.WithHeight` | Program.cs:31-35 | sets the height only; everything else is unchanged; returns the same object |
| `ShippingQuoteRequests.ShippingQuoteRequest.WithLength` | Program.cs:37-41 | sets the length only; everything else is unchanged; returns the same object |
| `ShippingQuoteMediator.CalculateQuote` | Program.cs:77-80 | the price is positive when all four measurements are positive, and zero when any of them is zero |
| `ShippingQuoteMediator.Evaluate` | Program.cs:50-75 | the outcome is "too heavy" exactly when weight > 50; "too big" exactly when weight <= 50 and the dimension sum > 50; a quote exactly when both checks pass and the request was valid, with the amount given by `CalculateQuote`; the flag afterwards is true exactly when both checks pass and it was true before |
| `ShippingQuoteMediator.ProcessRequest` | Program.cs:50-75 | the outcome and the new `IsValid` are those of `Evaluate` on the measurements and flag on entry; the measurements are never changed |
| `ShippingQuoteMediator.TooHeavyRule` | Program.cs:53-58 | weight > 50 gives "too heavy" and a cleared flag, whatever the dimensions and the flag on entry |
| `ShippingQuoteMediator.TooBigRule` | Program.cs:61-66 | weight <= 50 and width + height + length > 50 gives "too big" and a cleared flag |
| `ShippingQuoteMediator.WeightCheckedFirst` | Program.cs:53-67 | a package over both limits is reported as too heavy and not as too big |
| `ShippingQuoteMediator.QuoteRule` | Program.cs:70-79 | a valid request within both limits is quoted `width * height * length * weight / 100` and stays valid |
| `ShippingQuoteMediator.AlreadyInvalidRule` | Program.cs:70-74 | a request within both limits whose flag was already false produces no output and its flag stays false |
| `ShippingQuoteMediator.LimitsAreStrict` | Program.cs:47-62 | weight exactly 50 is not rejected for weight; a dimension sum of exactly 50 is not rejected for size; a valid package at both limits is quoted |
| `ShippingQuoteMediator.QuoteMonotoneInWeight` | Program.cs:79 | with the other three factors non-negative, a larger weight never lowers the price |
| `ShippingQuoteMediator.QuoteMonotoneInWidth` | Program.cs:79 | with the other three factors non-negative, a larger width never lowers the price |
| `ShippingQuoteMediator.QuoteMonotoneInHeight` | Program.cs:79 | with the other three factors non-negative, a larger height never lowers the price |
| `ShippingQuoteMediator.QuoteMonotoneInLength` | Program.cs:79 | with the other three factors non-negative, a larger length never lowers the price |
| `ShippingQuoteMediator.QuoteMonotone` | Program.cs:79 | for a positive package, a package at least as large in every factor costs at least as much |
| `ShippingQuoteMediator.SmallPackageExample` | Program.cs:50-79 | weight 10 with dimensions 2 x 2 x 2 is quoted 0.80 |
| `ShippingQuoteMediator.HeavyPackageExample` | Program.cs:53-58 | weight 60 with dimensions 1 x 1 x 1 is too heavy |
| `ShippingQuoteMediator.BigPackageExample` | Program.cs:61-66 | weight 1 with dimensions 20 x 20 x 20 is too big |
| `InputHandler.FirstPositive` | Program.cs:94-102 | the position found holds a parsed value above zero and every earlier attempt failed to parse or was not above zero; no position is found only when no attempt qualifies |
| `InputHandler.GetValidInput` | Program.cs:92-103 | returns the first attempt that parsed to a value above zero, after one re-prompt per earlier attempt; when the attempts run out, returns nothing after one re-prompt per attempt |
| `InputHandler.RepromptExample` | Program.cs:94-102 | for the lines "-5", an unparsable line and "3", the first accepted attempt is at position 2 and holds 3, so the collector returns 3 after two re-prompts |
| `PackageExpress.QuotePackage` | Program.cs:117-125 | a request built by the four setters from the collected numbers and evaluated once gets the outcome `Evaluate` gives for those numbers on a valid request |

## Left out

- Console output (Program.cs:55, 64, 84-85, 96, 101, 114, 129): replaced by the returned `Outcome` and by the re-prompt count. The message texts are not modelled.
- The two-decimal formatting of the quote (Program.cs:84), because the model has no string formatting of reals.
- IEEE-754 double behaviour (rounding of the product, overflow to infinity, NaN), because measurements are modelled as exact reals.
- `double.TryParse` and `Console.ReadLine` (Program.cs:97), because both are library code. Each line is given to the model already parsed, as an optional real.
- InputHandler.GetValidInput: the source loops forever until a qualifying line arrives. The model reads a finite sequence of attempts and returns nothing when they run out. The termination of the console loop is not modelled.
- The interface `IShippingQuoteMediator` and the mediator object (Program.cs:4-7, 45), because they add no behaviour. `ProcessRequest` is a module-level method, and the constants are module constants.
- `Main`'s top-level exception handler and its prompts (Program.cs:109-131), because they are I/O plumbing. Only the wiring is modelled, in `PackageExpress.QuotePackage`.
