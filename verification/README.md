# RustWasmUI — a verified model of the form's logic

The component `RustPythonUI` in `src/components/ui/RustWasmUI.tsx` is a small
React form. It has a number field and a comma-separated list field. A button
calls two functions of a WebAssembly module, here a mock module:
`factorial` and `sum_list`. The form shows both results or one error. This
project models the logic behind the form in Dafny:

- `errors.dfy` (module `Errors`): `Option`, `Result`, and an `Error` enum with
  one constructor per message the component raises. `InvalidValue` carries
  the trimmed list segment that failed to parse.
- `numeric_engine.dfy` (module `NumericEngine`): the mock module's
  `factorial` is a method with the source's guards and multiplying loop,
  proved against the mathematical factorial. `sum_list` is a left fold over
  JavaScript numbers (`NaN` or a value), proved against a left-to-right sum.
- `validator.dfy` (module `Validator`): JavaScript's `trim` and
  `split(",")`, the per-segment parse that stops at the first failure, and
  the whole validation of the list field.
- `component.dfy` (module `Component`): `Compute` is the outcome of one press
  of the button, checked in the source's order. The class `RustWasmUI` holds
  the component's state fields (`number`, `list`, `factorialResult`,
  `sumResult`, `wasm`, `error`, `loading`). Its methods are the trigger, the
  two input handlers and the outcome of the module load.

`parseInt` and `parseFloat` are JavaScript built-ins. The model takes them as
parameters of type `string -> Option<…>`, where `None` stands for the `NaN`
they return on text they cannot read. Number values are mathematical reals.

The only module error the component raises is the load failure (line 52),
modelled as `ModuleLoadFailed`. Pressing the button without a module raises
no error: the trigger returns and changes nothing (line 59). The check that
the parsed list holds a value (lines 86-88) can never fire, because splitting
a non-empty text always gives at least one segment; the model keeps the check
and `Validator.ValidateListSpec` proves that it never fires.

## Model

| member | source | states |
|---|---|---|
| `NumericEngine.Factorial` | src/components/ui/RustWasmUI.tsx:17-25 | NegativeInput for every n < 0 (checked first), InputTooLarge for every n > 20, otherwise exactly n!; so no input fails both checks, and every result lies in 1..20! |
| `NumericEngine.ProductIsFact` | src/components/ui/RustWasmUI.tsx:20-24 | multiplying 1 by 2, 3, ..., n (the loop's work) gives n! for every n >= 0, and 1 for n in {0, 1} |
| `NumericEngine.FactBounds` | src/components/ui/RustWasmUI.tsx:19-24 | every factorial the guards let through is between 1 and 20! = 2432902008176640000 |
| `NumericEngine.Numbers` | src/components/ui/RustWasmUI.tsx:92 | the array handed to `sum_list` has one numeric element per parsed value, in order, and no NaN |
| `NumericEngine.ReduceNumbers` | src/components/ui/RustWasmUI.tsx:28-31 | the `reduce` over numeric elements starting from an accumulator returns the accumulator plus their left-to-right sum |
| `NumericEngine.ReduceFailsOnNaN` | src/components/ui/RustWasmUI.tsx:28-30 | the `reduce` fails exactly when some element is NaN, and then with the non-numeric error |
| `NumericEngine.SumListSpec` | src/components/ui/RustWasmUI.tsx:26-32 | `sum_list` gives EmptyArray on an empty array, NonNumericValue on a non-empty array holding NaN, and a sum otherwise |
| `NumericEngine.SumListOfNumbers` | src/components/ui/RustWasmUI.tsx:27-31 | on the numbers of a non-empty list, `sum_list` returns the left-to-right sum starting from 0 |
| `NumericEngine.SampleSum` | src/components/ui/RustWasmUI.tsx:26-32 | `sum_list` on the numbers 1.0, 2.0, 3.0 returns 6.0 |
| `Validator.LeadingSpace` | src/components/ui/RustWasmUI.tsx:73 | the number of white-space characters before the first other character (all of them when there is none) |
| `Validator.TrailingSpace` | src/components/ui/RustWasmUI.tsx:73 | the number of white-space characters after the last other character |
| `Validator.TrimSpec` | src/components/ui/RustWasmUI.tsx:73 | `trim` keeps a contiguous part of the text; everything it drops is white space, and what it keeps neither starts nor ends with white space |
| `Validator.TrimEmpty` | src/components/ui/RustWasmUI.tsx:73-76 | the trimmed list is empty exactly when the text is all white space |
| `Validator.TrimIdempotent` | src/components/ui/RustWasmUI.tsx:73-79 | trimming an already trimmed text changes nothing |
| `Validator.TrimUntouched` | src/components/ui/RustWasmUI.tsx:79 | a segment with no white space at either end is its own trim |
| `Validator.TrimLeading` | src/components/ui/RustWasmUI.tsx:79 | a leading white-space character does not change the trimmed text |
| `Validator.Split` | src/components/ui/RustWasmUI.tsx:78 | `split(",")` always yields at least one piece |
| `Validator.SplitJoin` | src/components/ui/RustWasmUI.tsx:78 | splitting on ',' yields number-of-commas + 1 pieces, none holding a comma, and joining them with ',' gives back the text |
| `Validator.SplitPiece` | src/components/ui/RustWasmUI.tsx:78 | a text without a comma splits into itself alone |
| `Validator.SplitAfterPiece` | src/components/ui/RustWasmUI.tsx:78 | a comma-free piece followed by a comma splits off as the first segment |
| `Validator.JoinSplit` | src/components/ui/RustWasmUI.tsx:78 | joining comma-free pieces with ',' and splitting again gives back the same pieces |
| `Validator.FirstUnparsable` | src/components/ui/RustWasmUI.tsx:78-84 | the index of the leftmost segment whose trimmed text does not parse: every segment before it parses, and it does not |
| `Validator.ParseSegmentsSpec` | src/components/ui/RustWasmUI.tsx:78-84 | fails exactly when some segment does not parse, with an error naming the leftmost such segment trimmed; otherwise one value per segment, in order, each the parse of that trimmed segment |
| `Validator.FailsAt` | src/components/ui/RustWasmUI.tsx:78-84 | after segments that all parse, a segment that does not parse aborts with the error naming it, whatever follows |
| `Validator.FailureIgnoresRest` | src/components/ui/RustWasmUI.tsx:78-84 | when some segment does not parse, the error names the leftmost such segment, and replacing everything to its right changes nothing |
| `Validator.ValidateListSpec` | src/components/ui/RustWasmUI.tsx:73-88 | EmptyList exactly for all-white-space text, before any splitting; otherwise the leftmost bad segment's error, or commas + 1 values; no other error, so the "no values" check never fires |
| `Validator.InvalidSegmentExample` | src/components/ui/RustWasmUI.tsx:78-82 | with "1" parsable and "a" not, the list "1,a,3" fails with the error naming "a", whatever "3" parses to |
| `Validator.ParseSegmentsCons` | src/components/ui/RustWasmUI.tsx:78-84 | a segment that parses, put in front of segments that all parse, puts its value in front of theirs |
| `Validator.ParseThree` | src/components/ui/RustWasmUI.tsx:78-84 | three segments whose trimmed texts parse give their three values, in order |
| `Validator.SampleSplit` | src/components/ui/RustWasmUI.tsx:8 | the starting list "1.0, 2.0, 3.0" is its own trim and splits into "1.0", " 2.0" and " 3.0" |
| `Validator.SampleTrim` | src/components/ui/RustWasmUI.tsx:79 | trimming the segments " 2.0" and " 3.0" gives "2.0" and "3.0" |
| `Validator.SampleListExample` | src/components/ui/RustWasmUI.tsx:8 | when `parseFloat` reads "1.0", "2.0" and "3.0" as 1.0, 2.0 and 3.0, the starting list validates to [1.0, 2.0, 3.0] |
| `Component.ComputePrecedence` | src/components/ui/RustWasmUI.tsx:65-99 | errors come in the source's order: integer parse, empty list, leftmost bad segment, negative number, number above 20; with none of them, both results are computed, n! and the sum of the values |
| `Component.ComputeUnreachableErrors` | src/components/ui/RustWasmUI.tsx:86-92 | the trigger never reports "no values", an empty array or a non-numeric value, and its factorial lies in 1..20! |
| `Component.ComputeOk` | src/components/ui/RustWasmUI.tsx:66-95 | a number n in 0..20 and a list that validates to non-empty values give n! and the left-to-right sum of the values |
| `Component.SampleTriggerExample` | src/components/ui/RustWasmUI.tsx:7-8 | from the starting inputs "5" and "1.0, 2.0, 3.0", when the parsers read them as written, the trigger gives 120 and 6.0 |
| `Component.RustWasmUI.constructor` | src/components/ui/RustWasmUI.tsx:7-13 | initial state: number 5, list "1.0, 2.0, 3.0", no results, no error, no module, loading |
| `Component.RustWasmUI.LoadModule` | src/components/ui/RustWasmUI.tsx:35-56 | after the load, loading is false; on success the module is present and no error is shown, on failure the load error is shown; inputs and results are unchanged |
| `Component.RustWasmUI.ClearResults` | src/components/ui/RustWasmUI.tsx:61-63 | clears the error and both results and leaves the inputs, the module and the loading flag alone |
| `Component.RustWasmUI.CallRustFunctions` | src/components/ui/RustWasmUI.tsx:58-101 | without a module nothing changes; otherwise the final state is either both results with no error, or the first error with both results cleared, as `Compute` decides from the inputs alone; inputs are untouched; the invariant (no error beside a result, results only with a module, factorial in 1..20!) is kept |
| `Component.RustWasmUI.HandleNumberChange` | src/components/ui/RustWasmUI.tsx:103-108 | sets the number and clears the factorial result and the error; the list and the sum result are unchanged |
| `Component.RustWasmUI.HandleListChange` | src/components/ui/RustWasmUI.tsx:110-115 | sets the list and clears the sum result and the error; the number and the factorial result are unchanged |

## Left out

- Rendering (lines 117-211): JSX, styling, labels, status text and the button's `disabled` flag are presentation only.
- The module load (lines 35-56): the one-second timer, the `async` wrapper and the dynamic import are not modelled. `Component.RustWasmUI.LoadModule` models only the outcome, with success or failure as a parameter. The failure branch cannot happen with the mock module.
- `parseInt` and `parseFloat` (lines 67, 79) are parameters, not definitions. The model does not capture how they read decimal text.
- `NumericEngine.SumListOfNumbers`: the sum is exact over mathematical reals. IEEE-754 rounding, infinities and `-0` are not modelled.
- `NumericEngine.Factorial`: results are mathematical integers. This is exact for JavaScript numbers, because every k! with k <= 20 has an odd part below 2^53.
- The `!array` guard of `sum_list` (line 27): the argument is always an array here. Only the length check is modelled.
- The `Float64Array` conversion (line 92) is modelled as the identity on numbers (`NumericEngine.Numbers`).
- `toLocaleString` (line 186) and `console.error` (lines 51, 98) are output only and are not modelled.
- Error messages are the `Error` enum, not the Italian strings.
- React batches state updates. Each setter in the model takes effect at once. The state at the end of a handler is the same either way.
- The initial `number` is the JavaScript number 5. It is modelled as the text "5", which `parseInt` reads the same way.
