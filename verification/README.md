# cotizador3d pricing core, in Dafny

A model of the quote calculator for 3D-printed parts. `calculate` reads the
form, defaults each value that is missing or zero, and turns the values into a
cost breakdown. It works out the part weight (a user weight or volume × density,
plus a waste allowance), the material cost from a price per kilogram, the
machine cost, finishing, a subtotal, tax and margin on that subtotal, the unit
price and the total for the quantity. The reported weight is rounded to one
decimal. The export button names the downloaded file after the part, with each
whitespace run turned into `_` and `_cotizacion.txt` appended.

Modules:

- `Wrappers` (`wrappers.dfy`): `Option`. `None` stands for the NaN that
  `Number()` yields on text that does not parse.
- `Pricing` (`pricing.dfy`): the raw form values `RawInputs`, the defaulted
  `Params`, the returned record `Breakdown`, the defaulting step `Resolve`, the
  formula body `Compute`, their composition `Calculate`, and the lemmas about them.
- `ExportName` (`export_name.dfy`): JavaScript's `\s` class as `IsWs`, the
  rewrite `Sanitize` (`replace(/\s+/g, '_')`), the download name `FileName`, and
  the lemmas that characterise the rewrite. `Sanitize` works one character at a
  time: a whitespace character followed by more whitespace is dropped, and the
  last one of each run becomes `_`. `RunBecomesOneUnderscore` and
  `SanitizeKeepsCleanText` show that this is the run-by-run replacement.

Arithmetic is over `real` and exact. `Math.round(x)` is modelled as
`floor(x + 0.5)`, which rounds halves toward +∞ as JavaScript does.

Where the intended design and the code differ, the model follows the code.
A quantity of 0 or NaN becomes 1. A negative or fractional quantity is kept as
it is, and so is every other negative value (`NegativeQuantityIsKept`).
When no parsed input is negative, no
field of the quote is negative (`NonNegativeInputsGiveNonNegativeQuote`);
negative inputs are not clamped and can make any field negative.

## Model

| member | source | states |
|---|---|---|
| `Pricing.OrDefault` | script.js:23-34 | the fallback `Number(x) or default`: NaN and 0 give the default, any other value (negative included) is kept; the result is 0 only when the default is 0 |
| `Pricing.NameOrDefault` | script.js:22 | only the empty part name becomes "Pieza"; any other name is kept; the result is never empty |
| `Pricing.Resolve` | script.js:21-34 | each field follows the fallback rule with its own default: 1 for quantity and density, 0 for the other nine numbers, "Pieza" for the name; quantity and density are never 0; the currency passes through |
| `Pricing.BaseWeight` | script.js:37 | a positive weight override is the weight used (and it is positive); a zero or negative override leaves the weight at volume × density |
| `Pricing.AdjustedWeight` | script.js:39 | with no waste the weight is the base weight; a non-negative waste percentage never lowers a non-negative base weight, and a non-positive one never raises it |
| `Pricing.RoundToTenth` | script.js:74 | `Math.round(w*10)/10` lies in (w − 0.05, w + 0.05], is a whole number of tenths, and is non-negative for non-negative w |
| `Pricing.RoundToTenthExact` | script.js:74 | a weight already on the one-decimal grid is reported unchanged |
| `Pricing.RoundToTenthHalfUp` | script.js:74 | a weight exactly half-way between two tenths is reported as the upper one, also for negative values |
| `Pricing.RoundToTenthIdempotent` | script.js:74 | rounding a rounded weight changes nothing |
| `Pricing.Compute` | script.js:37-56 | the reported weight is within 0.05 of the waste-adjusted weight; material cost is weight in grams / 1000 × price per kg; machine cost is hours × rate; subtotal = material + machine + finishing; tax and margin are their percentages of the subtotal; unit price = subtotal × (1 + tax/100 + margin/100); total = unit price × quantity; monetary fields are not rounded |
| `Pricing.Calculate` | script.js:20-83 | whatever the form holds, the quote has a non-empty part name, a non-zero quantity, the form's currency, and a total that is the unit price times that quantity |
| `Pricing.AllFalsyInputsGiveZeroQuote` | script.js:23-56 | with every number missing or zero, quantity is 1, the weight is 0 and every monetary field is 0 |
| `Pricing.WeightOverrideTakesPrecedence` | script.js:36-37 | with a positive weight override, the base weight is the override, the reported weight is the override with waste added and rounded to a tenth, and changing volume or density does not change any field of the quote |
| `Pricing.NonPositiveOverrideUsesVolume` | script.js:37 | a zero or negative override is ignored: the base weight is volume × density, whatever non-positive override is given |
| `Pricing.WasteScalesWeight` | script.js:39 | the adjusted weight is the weight without waste times (1 + waste/100); with waste 0 it is the base weight |
| `Pricing.TaxAndMarginNotCompounded` | script.js:50-55 | exchanging the tax and margin percentages leaves unit and total price unchanged; with a nonzero subtotal and both percentages nonzero, the unit price differs from the compounded subtotal × (1 + tax/100) × (1 + margin/100) |
| `Pricing.NonNegativeParamsGiveNonNegativeQuote` | script.js:37-56 | non-negative parameters with a positive quantity give a weight and monetary fields that are all non-negative, with unit price at least the subtotal |
| `Pricing.NonNegativeInputsGiveNonNegativeQuote` | script.js:22-56 | when no parsed form value is negative, the defaulted parameters are non-negative with a positive quantity, and no field of the quote is negative |
| `Pricing.NegativeQuantityIsKept` | script.js:23 | a negative quantity is not replaced by 1: it is reported as given and multiplies the unit price into the total |
| `Pricing.WorkedQuote` | script.js:20-83 | 100 cm³ at 1.25 g/cm³, 10% waste, 80000/kg, 3 h at 5000/h, finishing 10000, margin 30%, tax 19%, 2 units give 137.5 g, 11000, 15000, subtotal 36000, tax 6840, margin 10800, unit 53640, total 107280 |
| `ExportName.IsWsMatchesListedCodePoints` | script.js:111 | the `\s` class is exactly the 25 ECMAScript WhiteSpace and LineTerminator code points (U+0009–U+000D, U+0020, U+00A0, U+1680, U+2000–U+200A, U+2028, U+2029, U+202F, U+205F, U+3000, U+FEFF); '_' is not one of them |
| `ExportName.Sanitize` | script.js:111 | the rewritten name is never longer than the part name |
| `ExportName.SanitizeRemovesWs` | script.js:111 | the rewritten name contains no whitespace |
| `ExportName.FileName` | script.js:111 | the download name ends with "_cotizacion.txt" and contains no whitespace |
| `ExportName.FileNameOfCleanPart` | script.js:111 | a part name without whitespace is used unchanged before the suffix; the default part name gives "Pieza_cotizacion.txt" |
| `ExportName.SanitizeKeepsCleanText` | script.js:111 | text without whitespace is left unchanged |
| `ExportName.SanitizeIdempotent` | script.js:111 | rewriting an already rewritten name changes nothing |
| `ExportName.SanitizeSplitsAfterText` | script.js:111 | text ending in a non-whitespace character is rewritten independently of what follows it |
| `ExportName.RunBecomesOneUnderscore` | script.js:111 | a maximal whitespace run of any length, at the start, middle or end, becomes exactly one '_' and the text on each side is rewritten on its own |
| `ExportName.SanitizeKeepsOtherCharacters` | script.js:111 | every character other than whitespace and '_' is kept, in the original order |
| `ExportName.SanitizeAddsOneUnderscorePerRun` | script.js:111 | the number of '_' in the result is the number in the original plus the number of maximal whitespace runs |

## Left out

- Reading the form (`$`, `querySelector`, `selectedOptions`, `dataset`): the model starts from the parsed values in `RawInputs`.
- `Number()` string parsing: a field is given as `Some(value)` or `None` (NaN); how text maps to a number is not modelled.
- IEEE-754 double arithmetic: the model computes over exact reals and claims nothing about floating-point rounding error.
- Writing the results into the page (script.js:59-68), the event listeners, `syncMaterialPrice` and the reset handler: page plumbing with no decision logic.
- The `fmt` helper and every `Intl.NumberFormat` call, with their `toFixed(2)` fallback: locale-dependent currency formatting done by the browser.
- The multi-line summary text, the clipboard write, the `alert`, and the Blob download: browser I/O. Only the download's file name is modelled.
