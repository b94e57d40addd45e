# Discrete probability calculator — a Dafny model

The application is a small web calculator for four discrete distributions:
binomial, negative binomial (total trials up to the r-th success), geometric
(trials up to the first success) and Poisson. A browser page draws a parameter
form for the selected distribution. On submit it posts a JSON query
`{distribution, comparator, target, …parameters}` to `POST /api/compute/`.
The server tabulates the distribution's support and masses and returns the
mean, the variance, and the probability of `X = target`, `X <= target` or
`X >= target`. The page shows the numbers and draws a bar chart in which
exactly the bars that satisfy the same comparator are highlighted.

The model has five modules:

- `PyValues` (`py_values.dfy`): the Python values a parsed JSON body can hold, the exceptions the
  server raises or catches, and `int(...)` / `float(...)` on those values.
- `ProbFuncs` (`prob_funcs.dfy`): `nCr`, the four mass functions with their
  support guards, `support_and_pmf`, `stats_for` and
  `compute_probability_given_condition`. The last one is a method whose
  two summation loops are proved against a recursive specification.
- `Views` (`views.dfy`): the `api_compute` handler, as an early-return
  method. Its contract gives the response for every path through the code.
- `Cookies` (`cookies.dfy`): `getCookie`. `String.prototype.split(';')`,
  `trim()` and the prefix test are written out. The lookup loop is proved
  equal to a first-match function.
- `Client` (`client.dfy`): the rest of `main.js`:
  - `renderParams`;
  - the payload assembly;
  - the JSON trip to the server and back;
  - the comparator symbols and the result label;
  - `updateChart`'s labels and colours;
  - a `Page` class holding the state the submit handler changes: the chart
    instance (with a log of created and destroyed charts), the button, the
    two result panes and what they show.

`Wrappers` (`wrappers.dfy`) holds `Option` and `Result`.

The central property is that the chart and the number agree. For every
successful computation, the masses of the bars the client highlights add up
to exactly the probability the server reports. The proof goes through the
server's loop (`SumAtMost`/`SumAtLeast` equal `SumWhere`) and the
`exact` case (`IndexOf` in a support of distinct values). It then goes
through the colour arrays (`HighlightedMassIsSelectedMass`), the JSON
response (`DecodeSuccessResponse`) and the whole submit handler
(`Client.Page.Submit` ensures `ChartShowsProbability()`).

## Model

| member | source | states |
|---|---|---|
| ProbFuncs.CombFactorials | statsapp/prob_funcs.py:4-7 | Pascal's rule gives a positive coefficient with `C(n,k)·k!·(n-k)! = n!`, the value of `math.comb` |
| ProbFuncs.NCr | statsapp/prob_funcs.py:4-7 | `nCr(n, r)` is positive exactly when `0 <= r <= n` (zero otherwise), and then equals `n!/(r!(n-r)!)` |
| ProbFuncs.PowPositive | statsapp/prob_funcs.py:13 | a power of a positive base is positive |
| ProbFuncs.PowNonzero | statsapp/prob_funcs.py:21 | a power of a non-zero base is non-zero, so `p ** r` with negative `r` is defined for `p != 0` |
| ProbFuncs.BinomialPmf | statsapp/prob_funcs.py:10-13 | the binomial mass is 0 for `k < 0` and `k > n` |
| ProbFuncs.NegBinPmf | statsapp/prob_funcs.py:17-21 | the negative binomial mass is 0 for `k < r` |
| ProbFuncs.GeometricPmf | statsapp/prob_funcs.py:25-28 | the geometric mass is 0 for `k < 1` |
| ProbFuncs.PoissonPmf | statsapp/prob_funcs.py:31-34 | the Poisson mass is 0 for `k < 0` |
| ProbFuncs.BinomialPmfPositive | statsapp/prob_funcs.py:10-13 | for `0 < p < 1` the binomial mass is positive exactly on `0..n` |
| ProbFuncs.NegBinPmfPositive | statsapp/prob_funcs.py:17-21 | for `r >= 1` and `0 < p < 1` the negative binomial mass is positive exactly for `k >= r` |
| ProbFuncs.GeometricPmfPositive | statsapp/prob_funcs.py:25-28 | for `0 < p < 1` the geometric mass is positive exactly for `k >= 1` |
| ProbFuncs.PoissonPmfPositive | statsapp/prob_funcs.py:31-34 | for `lam > 0` (and a positive `exp`) the Poisson mass is positive exactly for `k >= 0` |
| ProbFuncs.Range | statsapp/prob_funcs.py:40 | `list(range(lo, hi))` has `max(0, hi-lo)` elements and element `i` is `lo + i` |
| ProbFuncs.Ceil | statsapp/prob_funcs.py:49 | `math.ceil(x)` is the least integer `>= x` |
| ProbFuncs.NegBinCap | statsapp/prob_funcs.py:46-49 | the cap exists exactly when `p != 0` and the variance is non-negative (ZeroDivisionError / math domain error otherwise), and it is at least `r + 10` |
| ProbFuncs.GeometricCap | statsapp/prob_funcs.py:55-58 | the cap exists exactly when `p != 0` and the variance is non-negative, and it is at least 10 |
| ProbFuncs.PoissonCap | statsapp/prob_funcs.py:64-67 | when it exists the Poisson cap is at least 10 |
| ProbFuncs.SupportAndPmf | statsapp/prob_funcs.py:36-71 | an unknown distribution raises `ValueError('Unknown distribution')`; on success `xs` and `ps` are parallel and `xs` is a run of consecutive integers |
| ProbFuncs.BinomialSupport | statsapp/prob_funcs.py:37-42 | the binomial support is exactly `0..n` in order, `ps[i]` is the mass at `xs[i]`, and no value outside it has mass |
| ProbFuncs.NegBinSupport | statsapp/prob_funcs.py:43-52 | the negative binomial support starts at `r` and runs consecutively to at least `r + 10`, `ps[i]` is the mass at `xs[i]`, and values below `r` are absent and massless |
| ProbFuncs.NegBinSupportErrors | statsapp/prob_funcs.py:46-48 | `p == 0` raises ZeroDivisionError, a negative variance raises the math domain error of `sqrt` |
| ProbFuncs.GeometricSupport | statsapp/prob_funcs.py:53-61 | the geometric support is `1, 2, …` to at least 10, `ps[i]` is the mass at `xs[i]`, and values below 1 are absent and massless |
| ProbFuncs.GeometricSupportErrors | statsapp/prob_funcs.py:55-57 | `p == 0` raises ZeroDivisionError, a negative variance the math domain error |
| ProbFuncs.PoissonSupport | statsapp/prob_funcs.py:62-70 | a negative rate raises the math domain error; otherwise the support is `0, 1, …` to at least 10 with `ps[i]` the mass at `xs[i]` |
| ProbFuncs.StatsFor | statsapp/prob_funcs.py:73-96 | an unknown distribution raises `ValueError('Unknown distribution')` |
| ProbFuncs.BinomialMoments | statsapp/prob_funcs.py:74-79 | mean `n·p` and variance `mean·(1-p)`; for `n >= 0` and `p` in [0,1] the variance lies between 0 and the mean |
| ProbFuncs.NegBinMoments | statsapp/prob_funcs.py:80-85 | `p == 0` raises ZeroDivisionError; otherwise the mean and variance are `r` times the geometric ones |
| ProbFuncs.GeometricMoments | statsapp/prob_funcs.py:86-90 | `p == 0` raises ZeroDivisionError; otherwise the mean is `1/p` and the variance is `mean·(mean-1)` |
| ProbFuncs.GeometricVarianceFromMean | statsapp/prob_funcs.py:88-89 | `(1-p)/p² = (1/p)·(1/p - 1)` |
| ProbFuncs.PoissonMoments | statsapp/prob_funcs.py:91-95 | the Poisson mean and variance both equal the rate |
| ProbFuncs.IndexOf | statsapp/prob_funcs.py:101 | `xs.index(t)` is the first position holding `t` |
| ProbFuncs.ComputeProbability | statsapp/prob_funcs.py:98-114 | the running totals compute `Probability`: the mass at `target` for `exact`, the left-to-right sums for `<=` and `>=`, `ValueError('Unknown comparator')` otherwise, and the support's own exception first |
| ProbFuncs.SumAtMost | statsapp/prob_funcs.py:102-107 | the `<=` loop's total is the sum of the masses whose `x <= target` |
| ProbFuncs.SumAtLeast | statsapp/prob_funcs.py:108-113 | the `>=` loop's total is the sum of the masses whose `x >= target` |
| ProbFuncs.ExactSumIsPointMass | statsapp/prob_funcs.py:100-101 | over distinct values, summing the masses where `x == t` gives the mass at `xs.index(t)`, or 0 when `t` is absent |
| ProbFuncs.ProbabilityIsSelectedMass | statsapp/prob_funcs.py:98-113 | for each of the three comparators the reported probability is the total mass of the support points that satisfy it |
| ProbFuncs.UnknownComparator | statsapp/prob_funcs.py:114 | with a valid support any other comparator raises ValueError |
| PyValues.Get | statsapp/views.py:18-19 | `body.get(key)` is the entry, or None when the key is absent |
| PyValues.Trunc | statsapp/views.py:21 | `int()` of a float rounds toward zero |
| PyValues.ToInt | statsapp/views.py:21 | `int()` returns an int unchanged and raises TypeError on None, lists and dicts |
| PyValues.ToFloat | statsapp/views.py:29 | `float()` returns a float unchanged, widens an int, and raises TypeError on None, lists and dicts |
| Views.IntList | statsapp/views.py:49-53 | the response's `x` list holds the support values in order |
| Views.FloatList | statsapp/views.py:50-54 | the response's `p` list holds the masses as floats in order |
| Views.ApiCompute | statsapp/views.py:9-58 | the handler's early returns give `Answer(request)`, the response on each path, first failing check wins: 405 for a non-POST, 400 "Invalid JSON", an unhandled exception for a non-object body, 400 "target must be integer", 400 "Unknown distribution", 400 "Invalid parameters: " + the error, 500 "Computation error: " + the error, and otherwise the success response of the computation |
| Views.ParamsSchema | statsapp/views.py:25-36 | the params dict has exactly the distribution's keys, and the probability functions read back the converted values |
| Views.AnswerStatus | statsapp/views.py:9-58 | the answer is 200 exactly when the request is a POST of a JSON object with an integer target, a known distribution, convertible parameters and a computation that does not raise, and it is then the success response of that computation; every other answer has status 400, 405 or 500 and an object body with a string `error` (or is the unhandled exception of a non-object body) |
| Views.SuccessfulComputation | statsapp/views.py:42-57 | on success the comparator is one of the three, `x` and `p` are the tabulated support, and `probability` is the mass of the points that satisfy the comparator |
| Cookies.Split | static/js/main.js:198 | `split(';')` always yields at least one piece |
| Cookies.SplitJoin | static/js/main.js:198 | joining the pieces with `;` gives back the cookie string |
| Cookies.SplitCons | static/js/main.js:198 | one step of `split(';')`: a `;` starts a new piece, any other character extends the first |
| Cookies.SplitAppend | static/js/main.js:198 | `split` of `a;b` is the pieces of `a` followed by the pieces of `b` |
| Cookies.SplitAppendAtSemicolon | static/js/main.js:198 | the step of `SplitAppend` when `a` starts with `;` |
| Cookies.SplitAppendAtOther | static/js/main.js:198 | the step of `SplitAppend` when `a` starts with another character |
| Cookies.TrimStartCutsSpaces | static/js/main.js:200 | trimming the start drops a prefix of white space and leaves a string that does not start with white space |
| Cookies.TrimEndCutsSpaces | static/js/main.js:200 | trimming the end drops a suffix of white space and leaves a string that does not end with white space |
| Cookies.TrimIsMiddle | static/js/main.js:200 | `trim()` is a contiguous slice of the input, with only white space cut on either side and none left at either end |
| Cookies.GetCookie | static/js/main.js:195-208 | the loop returns the decoded value of the first trimmed entry that starts with `name=`, null when none does or the cookie string is empty, and the decoder's error when decoding throws |
| Cookies.FirstMatchAt | static/js/main.js:199-204 | if entry `j` is the first that matches, the lookup yields entry `j`'s decoded value |
| Cookies.NoMatchIsNull | static/js/main.js:196-207 | if no entry matches, the lookup yields null |
| Cookies.EarlierEntryWins | static/js/main.js:199-204 | in `a;b` a match in `a` shadows any match in `b` |
| Cookies.FirstMatchAppend | static/js/main.js:199-204 | the first match in `e1 + e2` is the first in `e1`, or else the first in `e2` |
| Cookies.LongerNameDoesNotMatch | static/js/main.js:201 | `name=` is tested as a whole prefix, so an entry for a longer name that starts with `name` does not match |
| Cookies.EmptyGuardIsRedundant | static/js/main.js:197 | the empty-cookie guard does not change the result: the scan over the single empty entry also yields null |
| Client.Digits | static/js/main.js:131 | the decimal digits of a natural number are non-empty and start with a digit |
| Client.DigitsRoundTrip | static/js/main.js:131 | reading back the digits of `n` gives `n` |
| Client.DecimalRoundTrip | static/js/main.js:131 | `x.toString()` of an integer reads back to the same integer, so it is injective |
| Client.NegativeRoundTrip | static/js/main.js:131 | the negative case of `DecimalRoundTrip` |
| Client.NaturalRoundTrip | static/js/main.js:131 | the non-negative case of `DecimalRoundTrip` |
| Client.RenderParamsAsWritten | static/js/main.js:16-51 | the form as written: parameter inputs exactly for the four distributions, a note exactly for the negative binomial and the geometric, distinct input ids, every input bounded below by 0 or more, and a step exactly on the non-count inputs |
| Client.RenderParams | static/js/main.js:16-51 | the corrected form has the same inputs (ids, labels, bounds, steps, defaults) as the form as written, and differs only in the negative binomial note |
| Client.NegBinHintMisreadsSupport | static/js/main.js:37 | as written the negative binomial note announces `k = 0, 1, …`, but the server's support starts at `r > 0`, `k = 0` has mass 0 and `k = r` has positive mass |
| Client.HintMatchesSupport | static/js/main.js:37-43 | in the corrected form every note announces the first point of the support the server tabulates (`r` for the negative binomial, 1 for the geometric) |
| Client.OrZero | static/js/main.js:68 | `value \|\| '0'` is never empty and keeps a non-empty value |
| Client.RenderedInputs | static/js/main.js:16-51 | when the page holds the inputs `renderParams` drew, it holds each input the payload reads for that distribution |
| Client.PayloadContents | static/js/main.js:66-81 | the payload has exactly the keys `distribution`, `comparator`, `target` and the distribution's parameters; the target is `parseInt(value \|\| '0')`, and each parameter is read from its own input with `parseInt` for `n`/`r` and `parseFloat` for `p`/`lam` |
| Client.BuildPayload | static/js/main.js:66-81 | the assignments build the payload whose contents `PayloadContents` states |
| Client.PayloadReadsRenderedFields | static/js/main.js:16-51 | the inputs the payload reads are exactly the inputs `renderParams` drew for the same distribution |
| Client.EmptyTargetIsZero | static/js/main.js:68 | an empty target box sends 0, which the server reads as 0 |
| Client.TargetArrivesAsParsed | static/js/main.js:68 | the server accepts the target exactly when `parseInt` produced a number, and then sees that number |
| Client.NumberArrives | static/js/main.js:90 | a number survives `JSON.stringify` and `json.loads`: whole with `int()` when integral, exactly with `float()` |
| Client.IntInputIsWhole | static/js/main.js:72 | a number produced by `parseInt` is integral |
| Client.PayloadParamsArrive | static/js/main.js:70-90 | for a known distribution whose inputs all parse, the server's params dict for the sent payload has exactly the payload's parameter keys, holding the `parseInt` results as ints and the `parseFloat` results as floats |
| Client.ParsedParamValues | static/js/main.js:71-80 | each parsed parameter is a number in the payload, whole when read with `parseInt`, and its server-side reading is the parsed value |
| Client.ServerSeesPayloadParams | static/js/main.js:70-90 | when every parameter input parsed, the server's params dict has the same keys and the same numbers as the payload |
| Client.TwoParamsArrive | static/js/main.js:71-76 | the binomial and negative binomial cases of `ServerSeesPayloadParams` |
| Client.OneParamArrives | static/js/main.js:77-80 | the geometric and Poisson cases of `ServerSeesPayloadParams` |
| Client.SymbolsMatchServerComparators | static/js/main.js:105-106 | a symbol (`=`, `≤`, `≥`) is shown exactly for the three comparators the server computes with |
| Client.ProbabilityLabel | static/js/main.js:105-106 | the label reads `P(X `, the comparator's symbol, a space, the target's text and `)`; with a known comparator it is exactly that long and its fifth character is the symbol |
| Client.LabelIdentifiesQuery | static/js/main.js:105-106 | for known comparators two labels are equal exactly when their comparators and targets are |
| Client.ColorsFollowPredicate | static/js/main.js:139-151 | one colour pair per bar; bar `i` gets the highlight fill and border exactly when the comparator holds of `x[i]`, and the default pair otherwise |
| Client.LabelsFollowSupport | static/js/main.js:131 | one label per bar, in order, and two labels are equal exactly when their x values are |
| Client.HighlightIsServerSelection | static/js/main.js:139-143 | with a numeric target the client's per-bar predicate is the server's selection rule |
| Client.HighlightedMassIsSelectedMass | static/js/main.js:139-144 | the total height of the highlighted bars equals the server's selected mass |
| Client.ChartAgreesWithProbability | static/js/main.js:112 | for every successful computation the highlighted bars carry exactly the reported probability |
| Client.DecodeSuccessResponse | static/js/main.js:93-98 | the success response is `ok` and `resp.json()` gives back the support, masses, mean, variance and probability unchanged |
| Client.Page.constructor | static/js/main.js:1-56 | the page after load: the initial form, no chart, the placeholder showing |
| Client.Page.Select | static/js/main.js:53 | a change of distribution redraws the parameter area for it |
| Client.Page.Release | static/js/main.js:118-121 | `chart.destroy(); chart = null`: the live chart is destroyed and logged, and no chart is live |
| Client.Page.UpdateChart | static/js/main.js:129-193 | the previous chart, if any, is destroyed and logged before a new chart with the data's labels, values and colours is created under a fresh handle, so at most one chart is ever live |
| Client.Page.ShowResults | static/js/main.js:100-112 | the placeholder is hidden and the display shown with the mean, variance, label and probability; the chart is replaced as in `UpdateChart`, and its highlighted bars add up to the displayed probability |
| Client.Page.ShowError | static/js/main.js:114-121 | the display is hidden, the placeholder shows the error, any chart is destroyed and logged, and none is created |
| Client.Page.Present | static/js/main.js:100-121 | exactly one pane shows, the display exactly on success; on success the decoded numbers and a new chart whose highlighted bars add up to the shown probability; otherwise the error, the chart released and no chart created |
| Client.Exchange | static/js/main.js:83-98 | a request is answered exactly when the network delivers and the cookie decodes, and then the answer is the endpoint's `Answer` to the JSON of the form's payload; the outcome is a success exactly on a 2xx answer and is then the decoded answer, whose highlighted bars add up to its probability; a non-2xx answer becomes the error, and an unanswered request the cookie's URIError or the network's message |
| Client.Page.Query | static/js/main.js:62-121 | it requires the button disabled with the busy label (the state Submit sets before the request) and leaves the button alone; the request of `Exchange`, then what `Present` states about the panes and the chart for its outcome |
| Client.Page.Submit | static/js/main.js:58-127 | the request and display of `Query`, which it can call only because it first disables the button and sets the busy label (`Query` requires both), and the button restored whatever happened; at most one chart is live throughout |

## Left out

- Floating point: every `float` is an exact real. Rounding, underflow to 0, and `NaN` produced by arithmetic are not modelled. A user-entered `NaN` or non-numeric input is modelled: it becomes JSON `null`.
- ProbFuncs.BinomialPmf, ProbFuncs.NegBinPmf, ProbFuncs.PoissonPmf, PyValues.ToFloat: Python raises OverflowError where a value exceeds the largest float. In the mass functions the handler then answers 500 "Computation error: …"; the model computes the exact real and answers 200. This happens in `nCr(n, k) * (p**k)` (statsapp/prob_funcs.py:13) once the integer coefficient no longer converts to a float, from about `n = 1030` (binomial `n = 1100`, say). It happens likewise in `nCr(k - 1, r - 1) * (p**r)` (statsapp/prob_funcs.py:21): for negbin with `r = 500`, `p = 0.5` the support runs to 1190 and `C(k - 1, 499)` leaves the float range from about `k = 1032`. It also happens in `lamb**k` and in the division by `math.factorial(k)` (statsapp/prob_funcs.py:34), for large powers or for `k >= 171` (Poisson `lam = 100`, whose support runs to 160, say). `Views.ApiCompute` therefore answers these requests with 200 where the server answers 500. Finally, `float()` of a JSON integer beyond the float range (statsapp/views.py:29-36, a `p` or `lam` of `10**400`, say) raises OverflowError and the server answers 400 "Invalid parameters: int too large to convert to float", while `PyValues.ToFloat` widens every int.
- `math.sqrt` and `math.exp`, and the string parsers behind Python's `int(s)`/`float(s)` and JavaScript's `parseInt`/`parseFloat`/`decodeURIComponent`, are parameters of the model (`PyValues.Builtins`, `Client.JsBuiltins`). The model does not fix their results.
- PyValues.ToInt, PyValues.ToFloat: the ValueError texts for an unparsable string stop before the `: '<text>'` suffix Python appends with the offending string, so a 400 "Invalid parameters: …" or a 500 "Computation error: …" text differs from the server's there. The TypeError texts, `Unknown distribution`, `Unknown comparator`, `float division by zero` and `math domain error` are Python's own. Other texts are not modelled.
- `Client.JsBuiltins.uriErrorMessage` holds the message of the URIError `decodeURIComponent` throws; the model does not fix its text.
- `toFixed(4)`/`toFixed(6)` formatting of the mean, variance and probability: `Shown` holds the numbers themselves.
- Chart.js options (animation, tooltips, axes) and the DOM markup of the form: only the chart's labels, values and colours are modelled, and the form's inputs are modelled as `Field` values.
- The CSRF header and Django's CSRF middleware. The cookie lookup is modelled, but the header value is not sent anywhere: `Network.Delivers` stands for a request the server accepts. A missing cookie makes `getCookie` return null, which `fetch` would send as the header text "null" rather than omitting the header.
- `resp.text()` of an error response: `Problem.ServerError` holds the whole response rather than its text.
- `Client.Decode` accepts only the shapes the server sends. When a field has another shape the script would throw later while formatting; this is modelled as `None` and not further.
- `x_min`/`x_max` of `support_and_pmf` are unused by the code and left out.
- The `index` view, which only renders the template, is not part of this model.
- Asynchrony: `await` points are modelled as one sequential run of the submit handler, with no interleaving of two submissions.
- `ProbFuncs.NegBinPmf` requires `r >= 0 || p != 0`, the condition under which Python's `p ** r` does not raise. `support_and_pmf` raises ZeroDivisionError for `p == 0` before it evaluates the mass function, so no call made through `SupportAndPmf` is excluded.
- Client.Page.constructor, Client.Page.Select, Client.Page.Valid: the parameter area is drawn with the corrected `RenderParams` of the Findings row, not with `RenderParamsAsWritten`. The two forms have the same inputs, with the same ids, labels, bounds, steps and defaults (`Client.RenderParams` states this), so everything the payload reads is as written. Only the negative binomial note differs: the page models the note announcing `k = r, r+1, …` instead of the note at static/js/main.js:37 about failures counted from `k = 0`.
- Apart from that note, where the code and the prose description of the application differ, the model follows the code. If the target box hands the script non-numeric text (a text input; its markup is not part of this model, and a `type="number"` box would hand over '' instead, which reads as 0), that text is not read as 0: `parseInt` gives NaN, which reaches the server as `null`, and the server answers 400 "target must be integer" (`Client.TargetArrivesAsParsed`). Only an empty box is read as 0 (`Client.EmptyTargetIsZero`). The negative binomial note is covered under Findings.

## Findings

| source | as written | input that shows it | evidently intended | confidence | as-written member | corrected member |
|---|---|---|---|---|---|---|
| static/js/main.js:37 | the negative binomial note says k counts failures before the r-th success, starting at k = 0; the server (statsapp/prob_funcs.py:43-51) tabulates total trials, starting at k = r, and gives k = 0 no mass | the form's defaults r = 3, p = 0.5 (or any r >= 1, 0 < p < 1): the chart's first bar is k = 3, and k = 0 has mass 0 | the note announces total trials starting at k = r, matching the tabulated support | not executed | Client.NegBinHintMisreadsSupport | Client.HintMatchesSupport |
