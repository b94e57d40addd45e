/** The browser-side controller: the parameter form, the request payload, the
    anti-forgery cookie lookup, the result pane, and the bar chart whose
    highlighted bars are the ones the reported probability adds up. */
module Client {
  import opened Wrappers
  import opened PyValues
  import ProbFuncs
  import Views
  import Cookies

  /** Browser functions the model takes as given: `parseInt` and `parseFloat`
      (None for NaN), `decodeURIComponent` (None when it throws URIError) and
      the message of that URIError, which differs between engines. */
  datatype JsBuiltins = JsBuiltins(
    parseInt: string -> Option<int>,
    parseFloat: string -> Option<real>,
    decodeURIComponent: string -> Option<string>,
    uriErrorMessage: string)

  // ---------------------------------------------------------------------------
  // Decimal strings (`Number.prototype.toString` on integers)

  function DigitChar(d: nat): char
    requires d < 10
  {
    "0123456789"[d]
  }

  function Digits(n: nat): (s: string)
    ensures |s| > 0 && '0' <= s[0] <= '9'
    decreases n
  {
    if n < 10 then [DigitChar(n)] else Digits(n / 10) + [DigitChar(n % 10)]
  }

  /** The decimal form of an integer, with a leading `-` when negative. */
  function Decimal(i: int): string
  {
    if i < 0 then "-" + Digits(-i) else Digits(i)
  }

  /** Reads back a string of decimal digits. */
  function DigitsValue(s: string): int
    decreases |s|
  {
    if |s| == 0 then 0 else 10 * DigitsValue(s[..|s| - 1]) + (s[|s| - 1] as int - '0' as int)
  }

  /** Reads back an optionally negative decimal string. */
  function DecimalValue(s: string): int
  {
    if |s| > 0 && s[0] == '-' then -DigitsValue(s[1..]) else DigitsValue(s)
  }

  lemma {:induction false} DigitsRoundTrip(n: nat)
    ensures DigitsValue(Digits(n)) == n
    decreases n
  {
    var s := Digits(n);
    if n < 10 {
      assert s[..|s| - 1] == [];
    } else {
      DigitsRoundTrip(n / 10);
      assert s[..|s| - 1] == Digits(n / 10);
    }
  }

  /** `Decimal` is undone by `DecimalValue`, so distinct integers get distinct labels. */
  lemma DecimalRoundTrip(i: int)
    ensures DecimalValue(Decimal(i)) == i
  {
    if i < 0 {
      NegativeRoundTrip(-i);
      assert Decimal(i) == "-" + Digits(-i);
    } else {
      NaturalRoundTrip(i);
      assert Decimal(i) == Digits(i);
    }
  }

  lemma NegativeRoundTrip(n: nat)
    ensures DecimalValue("-" + Digits(n)) == -(n as int)
  {
    var d := Digits(n);
    assert ("-" + d)[0] == '-';
    assert ("-" + d)[1..] == d;
    DigitsRoundTrip(n);
  }

  lemma NaturalRoundTrip(n: nat)
    ensures DecimalValue(Digits(n)) == n
  {
    var d := Digits(n);
    assert d[0] != '-';
    DigitsRoundTrip(n);
  }

  // ---------------------------------------------------------------------------
  // The parameter form (`renderParams`)

  /** One numeric input: its element id, label text, `min`, `max`, `step` (absent
      means the browser's default step of 1, an integer field) and initial value. */
  datatype Field = Field(id: string, caption: string, min: Option<real>, max: Option<real>, step: Option<real>, initial: string)

  /** The explanatory note under the inputs, by the support it announces. */
  datatype Hint =
    | FailuresFromZero   // k counts failures before the r-th success: k = 0, 1, ...
    | TrialsFromR        // k counts trials up to the r-th success: k = r, r + 1, ...
    | TrialsFromOne      // k counts trials up to the first success: k = 1, 2, ...

  /** The first value of k the hint announces, for `r` required successes. */
  function HintStart(h: Hint, r: int): int
  {
    match h
    case FailuresFromZero => 0
    case TrialsFromR => r
    case TrialsFromOne => 1
  }

  datatype Form = Form(fields: seq<Field>, hint: Option<Hint>)

  const ProbabilityField := Field("param-p", "Probability p (0-1)", Some(0.0), Some(1.0), Some(0.01), "0.5")

  /** `renderParams()` as written: the inputs for the selected distribution,
      replacing whatever was there, and nothing for an unknown distribution.
      Its negative binomial note announces failures counted from 0. */
  function RenderParamsAsWritten(dist: string): (form: Form)
    ensures |form.fields| > 0 <==> dist in {"binomial", "negbin", "geometric", "poisson"}
    ensures form.hint.Some? <==> dist == "negbin" || dist == "geometric"
    ensures forall i, j :: 0 <= i < j < |form.fields| ==> form.fields[i].id != form.fields[j].id
    // Every input has a lower bound of 0 or more, and the ones without a step
    // (integer spinners) are exactly the counts `n` and `r`.
    ensures forall f :: f in form.fields ==> f.min.Some? && f.min.value >= 0.0
    ensures forall f :: f in form.fields ==> (f.step.None? <==> f.id == "param-n" || f.id == "param-r")
  {
    if dist == "binomial" then
      Form([Field("param-n", "Number of trials (n)", Some(0.0), None, None, "10"), ProbabilityField], None)
    else if dist == "negbin" then
      Form([Field("param-r", "Number of successes (r)", Some(1.0), None, None, "3"), ProbabilityField],
           Some(FailuresFromZero))
    else if dist == "geometric" then
      Form([ProbabilityField.(initial := "0.3")], Some(TrialsFromOne))
    else if dist == "poisson" then
      Form([Field("param-lam", "Lambda (λ)", Some(0.0), None, Some(0.1), "4")], None)
    else
      Form([], None)
  }

  /** `renderParams()` with the negative binomial note announcing what the
      server tabulates: total trials, from r. The inputs are unchanged. */
  function RenderParams(dist: string): (form: Form)
    ensures form.fields == RenderParamsAsWritten(dist).fields
    ensures dist != "negbin" ==> form == RenderParamsAsWritten(dist)
  {
    var written := RenderParamsAsWritten(dist);
    if dist == "negbin" then written.(hint := Some(TrialsFromR)) else written
  }

  /** As written, the negative binomial note contradicts the server: for the
      form's own defaults (r = 3, p = 0.5) and any other valid r and p, the
      note says k = 0 means no failures, but the server's support starts at
      k = r, it gives k = 0 no mass, and the mass of "no failures" (p^r)
      sits at k = r. */
  lemma NegBinHintMisreadsSupport(params: map<string, Value>, b: Builtins, r: int, p: real)
    requires ProbFuncs.IntParam(params, "r", b) == Success(r) && ProbFuncs.FloatParam(params, "p", b) == Success(p)
    requires r >= 1 && 0.0 < p < 1.0 && ProbFuncs.NegBinVariance(r, p) >= 0.0
    ensures RenderParamsAsWritten("negbin").hint == Some(FailuresFromZero)
    ensures var s := ProbFuncs.SupportAndPmf(Str("negbin"), params, b).value;
      && |s.xs| > 0
      && s.xs[0] == r != HintStart(FailuresFromZero, r)
      && ProbFuncs.NegBinPmf(r, p, HintStart(FailuresFromZero, r)) == 0.0
      && ProbFuncs.NegBinPmf(r, p, r) > 0.0
  {
    ProbFuncs.NegBinSupport(params, b, r, p);
    ProbFuncs.NegBinPmfPositive(r, p, 0);
    ProbFuncs.NegBinPmfPositive(r, p, r);
  }

  /** Corrected, every note announces the first point of the support the
      server tabulates for the same distribution. */
  lemma HintMatchesSupport(dist: string, params: map<string, Value>, b: Builtins)
    requires RenderParams(dist).hint.Some?
    requires ProbFuncs.SupportAndPmf(Str(dist), params, b).Success?
    ensures dist == "negbin" ==> ProbFuncs.IntParam(params, "r", b).Success?
    ensures var s := ProbFuncs.SupportAndPmf(Str(dist), params, b).value;
      var r := if dist == "negbin" then ProbFuncs.IntParam(params, "r", b).value else 0;
      |s.xs| > 0 && s.xs[0] == HintStart(RenderParams(dist).hint.value, r)
  {
    var s := ProbFuncs.SupportAndPmf(Str(dist), params, b).value;
    if dist == "negbin" {
      var r := ProbFuncs.IntParam(params, "r", b).value;
      var cap := ProbFuncs.NegBinCap(r, ProbFuncs.FloatParam(params, "p", b).value, b).value;
      assert s.xs == ProbFuncs.Range(r, cap + 1);
    } else {
      var cap := ProbFuncs.GeometricCap(ProbFuncs.FloatParam(params, "p", b).value, b).value;
      assert s.xs == ProbFuncs.Range(1, cap + 1);
    }
  }

  function FieldIds(form: Form): set<string>
  {
    set f | f in form.fields :: f.id
  }

  // ---------------------------------------------------------------------------
  // The request payload

  /** A JavaScript value placed in the payload. */
  datatype JsValue = JsString(s: string) | JsNumber(v: real) | JsNaN

  /** `value || '0'`: an empty input counts as "0". */
  function OrZero(raw: string): (s: string)
    ensures s != ""
    ensures raw != "" ==> s == raw
  {
    if raw == "" then "0" else raw
  }

  /** `parseInt(raw)`. */
  function IntInput(raw: string, js: JsBuiltins): JsValue
  {
    match js.parseInt(raw)
    case Some(i) => JsNumber(i as real)
    case None => JsNaN
  }

  /** `parseFloat(raw)`. */
  function FloatInput(raw: string, js: JsBuiltins): JsValue
  {
    match js.parseFloat(raw)
    case Some(x) => JsNumber(x)
    case None => JsNaN
  }

  /** The distribution-specific payload keys. */
  function PayloadParamKeys(dist: string): set<string>
  {
    if dist == "binomial" then {"n", "p"}
    else if dist == "negbin" then {"r", "p"}
    else if dist == "geometric" then {"p"}
    else if dist == "poisson" then {"lam"}
    else {}
  }

  /** The element each payload parameter is read from and how it is parsed. */
  function ParamSource(key: string): (string, bool)  // (element id, parsed as integer)
  {
    if key == "n" then ("param-n", true)
    else if key == "r" then ("param-r", true)
    else if key == "p" then ("param-p", false)
    else ("param-lam", false)
  }

  function ParamValue(key: string, inputs: map<string, string>, js: JsBuiltins): JsValue
    requires ParamSource(key).0 in inputs
  {
    var (id, isInt) := ParamSource(key);
    if isInt then IntInput(inputs[id], js) else FloatInput(inputs[id], js)
  }

  /** The parameter inputs `renderParams` drew for a distribution are on the page. */
  lemma RenderedInputs(dist: string, inputs: map<string, string>)
    requires FieldIds(RenderParams(dist)) <= inputs.Keys
    ensures dist == "binomial" ==> "param-n" in inputs && "param-p" in inputs
    ensures dist == "negbin" ==> "param-r" in inputs && "param-p" in inputs
    ensures dist == "geometric" ==> "param-p" in inputs
    ensures dist == "poisson" ==> "param-lam" in inputs
  {
    var form := RenderParams(dist);
    if |form.fields| > 0 {
      assert form.fields[0] in form.fields;
    }
    if |form.fields| > 1 {
      assert form.fields[1] in form.fields;
    }
  }

  /** The payload object the submit handler sends: `distribution`,
      `comparator` and `target`, then the distribution's parameters. */
  function PayloadOf(dist: string, comparator: string, targetInput: string, inputs: map<string, string>, js: JsBuiltins)
    : map<string, JsValue>
    requires FieldIds(RenderParams(dist)) <= inputs.Keys
  {
    RenderedInputs(dist, inputs);
    var common := map["distribution" := JsString(dist), "comparator" := JsString(comparator),
                      "target" := IntInput(OrZero(targetInput), js)];
    if dist == "binomial" then
      common["n" := IntInput(inputs["param-n"], js)]["p" := FloatInput(inputs["param-p"], js)]
    else if dist == "negbin" then
      common["r" := IntInput(inputs["param-r"], js)]["p" := FloatInput(inputs["param-p"], js)]
    else if dist == "geometric" then
      common["p" := FloatInput(inputs["param-p"], js)]
    else if dist == "poisson" then
      common["lam" := FloatInput(inputs["param-lam"], js)]
    else
      common
  }

  /** The payload holds `distribution`, `comparator`, the target read with
      `parseInt(value || '0')`, and one entry per parameter of the distribution,
      read from its input with `parseInt` for the counts `n`, `r` and with
      `parseFloat` for `p`, `lam`; nothing else. */
  lemma PayloadContents(dist: string, comparator: string, targetInput: string, inputs: map<string, string>, js: JsBuiltins)
    requires FieldIds(RenderParams(dist)) <= inputs.Keys
    ensures var payload := PayloadOf(dist, comparator, targetInput, inputs, js);
      && payload.Keys == {"distribution", "comparator", "target"} + PayloadParamKeys(dist)
      && payload["distribution"] == JsString(dist)
      && payload["comparator"] == JsString(comparator)
      && payload["target"] == IntInput(OrZero(targetInput), js)
      && forall k :: k in PayloadParamKeys(dist) ==>
           ParamSource(k).0 in inputs && payload[k] == ParamValue(k, inputs, js)
  {
    RenderedInputs(dist, inputs);
  }

  /** The payload assembly of the submit handler: the three common keys, then
      one key per rendered parameter input. `inputs` holds the current values
      of the elements on the page, which include the ones `renderParams` drew. */
  method BuildPayload(dist: string, comparator: string, targetInput: string, inputs: map<string, string>, js: JsBuiltins)
    returns (payload: map<string, JsValue>)
    requires FieldIds(RenderParams(dist)) <= inputs.Keys
    ensures payload == PayloadOf(dist, comparator, targetInput, inputs, js)
  {
    RenderedInputs(dist, inputs);
    var target := IntInput(OrZero(targetInput), js);
    payload := map["distribution" := JsString(dist), "comparator" := JsString(comparator), "target" := target];
    if dist == "binomial" {
      payload := payload["n" := IntInput(inputs["param-n"], js)];
      payload := payload["p" := FloatInput(inputs["param-p"], js)];
    } else if dist == "negbin" {
      payload := payload["r" := IntInput(inputs["param-r"], js)];
      payload := payload["p" := FloatInput(inputs["param-p"], js)];
    } else if dist == "geometric" {
      payload := payload["p" := FloatInput(inputs["param-p"], js)];
    } else if dist == "poisson" {
      payload := payload["lam" := FloatInput(inputs["param-lam"], js)];
    }
  }

  /** The payload reads exactly the inputs `renderParams` drew for the same
      distribution: none is missing and none is stale. */
  lemma PayloadReadsRenderedFields(dist: string)
    ensures (set k | k in PayloadParamKeys(dist) :: ParamSource(k).0) == FieldIds(RenderParams(dist))
  {
    var form := RenderParams(dist);
    var read := set k | k in PayloadParamKeys(dist) :: ParamSource(k).0;
    if dist == "binomial" {
      assert ParamSource("n").0 in read && ParamSource("p").0 in read;
      assert form.fields[0] in form.fields && form.fields[1] in form.fields;
    } else if dist == "negbin" {
      assert ParamSource("r").0 in read && ParamSource("p").0 in read;
      assert form.fields[0] in form.fields && form.fields[1] in form.fields;
    } else if dist == "geometric" {
      assert ParamSource("p").0 in read;
      assert form.fields[0] in form.fields;
    } else if dist == "poisson" {
      assert ParamSource("lam").0 in read;
      assert form.fields[0] in form.fields;
    }
  }

  /** `JSON.stringify` on the client followed by `json.loads` on the server:
      integral numbers arrive as ints, others as floats, NaN as None. */
  function ToPython(v: JsValue): Value
  {
    match v
    case JsString(s) => Str(s)
    case JsNumber(x) => if x == x.Floor as real then Int(x.Floor) else Float(x)
    case JsNaN => PyNone
  }

  function Transmit(payload: map<string, JsValue>): Value
  {
    Dict(map k | k in payload :: ToPython(payload[k]))
  }

  /** An empty target box sends target 0. */
  lemma EmptyTargetIsZero(js: JsBuiltins, b: Builtins)
    requires js.parseInt("0") == Some(0)
    ensures IntInput(OrZero(""), js) == JsNumber(0.0)
    ensures ToInt(ToPython(IntInput(OrZero(""), js)), b) == Success(0)
  {
  }

  /** The server accepts the target exactly when `parseInt` produced a number,
      and then sees that number: a non-numeric target box is rejected with
      "target must be integer", it is not read as 0. */
  lemma TargetArrivesAsParsed(raw: string, js: JsBuiltins, b: Builtins)
    ensures ToInt(ToPython(IntInput(OrZero(raw), js)), b).Success? <==> js.parseInt(OrZero(raw)).Some?
    ensures js.parseInt(OrZero(raw)).Some? ==>
      ToInt(ToPython(IntInput(OrZero(raw), js)), b) == Success(js.parseInt(OrZero(raw)).value)
  {
    match js.parseInt(OrZero(raw))
    case Some(i) =>
      assert (i as real).Floor == i;
    case None =>
  }

  /** A number survives the trip to the server: read with `int()` an
      integral number comes back whole, read with `float()` any number does. */
  lemma NumberArrives(x: real, b: Builtins)
    ensures x == x.Floor as real ==> ToInt(ToPython(JsNumber(x)), b) == Success(x.Floor)
    ensures ToFloat(ToPython(JsNumber(x)), b) == Success(x)
  {
  }

  /** `parseInt` yields whole numbers. */
  lemma IntInputIsWhole(raw: string, js: JsBuiltins)
    ensures IntInput(raw, js).JsNumber? ==> IntInput(raw, js).v == IntInput(raw, js).v.Floor as real
  {
    if js.parseInt(raw).Some? {
      assert (js.parseInt(raw).value as real).Floor == js.parseInt(raw).value;
    }
  }

  /** For a known distribution whose parameter inputs all parsed to numbers
      (whole numbers where `parseInt` was used), the server builds a params
      dict with the same key set and the same numbers. */
  lemma ServerSeesPayloadParams(dist: string, payload: map<string, JsValue>, b: Builtins)
    requires ProbFuncs.KnownDistribution(Str(dist))
    requires forall k :: k in PayloadParamKeys(dist) ==>
      k in payload && payload[k].JsNumber? && (ParamSource(k).1 ==> payload[k].v == payload[k].v.Floor as real)
    ensures Views.ParamsFromBody(Str(dist), Transmit(payload).entries, b).Success?
    ensures Views.ParamsFromBody(Str(dist), Transmit(payload).entries, b).value.Keys == PayloadParamKeys(dist)
    ensures forall k :: k in PayloadParamKeys(dist) ==>
      Views.ParamsFromBody(Str(dist), Transmit(payload).entries, b).value[k]
      == (if ParamSource(k).1 then Int(payload[k].v.Floor) else Float(payload[k].v))
  {
    if dist == "binomial" {
      TwoParamsArrive(Str(dist), "n", payload, b);
    } else if dist == "negbin" {
      TwoParamsArrive(Str(dist), "r", payload, b);
    } else if dist == "geometric" {
      OneParamArrives(Str(dist), "p", payload, b);
    } else {
      OneParamArrives(Str(dist), "lam", payload, b);
    }
  }

  /** The parameter `key`'s input parses: with `parseInt` for a count, with `parseFloat` otherwise. */
  predicate Parses(key: string, inputs: map<string, string>, js: JsBuiltins)
  {
    var (id, isInt) := ParamSource(key);
    id in inputs && (if isInt then js.parseInt(inputs[id]).Some? else js.parseFloat(inputs[id]).Some?)
  }

  /** The value the server should see for a parsed parameter input: an int for a count, a float otherwise. */
  function Parsed(key: string, inputs: map<string, string>, js: JsBuiltins): Value
    requires Parses(key, inputs, js)
  {
    var (id, isInt) := ParamSource(key);
    if isInt then Int(js.parseInt(inputs[id]).value) else Float(js.parseFloat(inputs[id]).value)
  }

  /** From the page to the server: when every parameter input of a known
      distribution parses, the server's params dict has the payload's keys,
      with the `parseInt` results as ints and the `parseFloat` results as floats. */
  lemma PayloadParamsArrive(dist: string, comparator: string, targetInput: string, inputs: map<string, string>,
                            js: JsBuiltins, b: Builtins)
    requires ProbFuncs.KnownDistribution(Str(dist)) && FieldIds(RenderParams(dist)) <= inputs.Keys
    requires forall k :: k in PayloadParamKeys(dist) ==> Parses(k, inputs, js)
    ensures var params := Views.ParamsFromBody(Str(dist), Transmit(PayloadOf(dist, comparator, targetInput, inputs, js)).entries, b);
      && params.Success? && params.value.Keys == PayloadParamKeys(dist)
      && forall k :: k in PayloadParamKeys(dist) ==> params.value[k] == Parsed(k, inputs, js)
  {
    var payload := PayloadOf(dist, comparator, targetInput, inputs, js);
    PayloadContents(dist, comparator, targetInput, inputs, js);
    ParsedParamValues(dist, payload, inputs, js);
    ServerSeesPayloadParams(dist, payload, b);
  }

  /** Each parsed parameter input is a number in the payload, whole when read
      with `parseInt`, and the server's reading of it is the parsed value. */
  lemma ParsedParamValues(dist: string, payload: map<string, JsValue>, inputs: map<string, string>, js: JsBuiltins)
    requires forall k :: k in PayloadParamKeys(dist) ==> Parses(k, inputs, js)
    requires forall k :: k in PayloadParamKeys(dist) ==>
      ParamSource(k).0 in inputs && k in payload && payload[k] == ParamValue(k, inputs, js)
    ensures forall k :: k in PayloadParamKeys(dist) ==>
      && payload[k].JsNumber? && (ParamSource(k).1 ==> payload[k].v == payload[k].v.Floor as real)
      && (if ParamSource(k).1 then Int(payload[k].v.Floor) else Float(payload[k].v)) == Parsed(k, inputs, js)
  {
    forall k | k in PayloadParamKeys(dist)
      ensures && payload[k].JsNumber? && (ParamSource(k).1 ==> payload[k].v == payload[k].v.Floor as real)
        && (if ParamSource(k).1 then Int(payload[k].v.Floor) else Float(payload[k].v)) == Parsed(k, inputs, js)
    {
      var id := ParamSource(k).0;
      IntInputIsWhole(inputs[id], js);
      if ParamSource(k).1 {
        assert (js.parseInt(inputs[id]).value as real).Floor == js.parseInt(inputs[id]).value;
      }
    }
  }

  /** The binomial and negative binomial cases: a whole-number count key and `p`. */
  lemma TwoParamsArrive(dist: Value, count: string, payload: map<string, JsValue>, b: Builtins)
    requires (dist == Str("binomial") && count == "n") || (dist == Str("negbin") && count == "r")
    requires count in payload && payload[count].JsNumber? && payload[count].v == payload[count].v.Floor as real
    requires "p" in payload && payload["p"].JsNumber?
    ensures Views.ParamsFromBody(dist, Transmit(payload).entries, b)
      == Success(map[count := Int(payload[count].v.Floor), "p" := Float(payload["p"].v)])
  {
    var body := Transmit(payload).entries;
    assert Get(body, count) == ToPython(payload[count]);
    assert Get(body, "p") == ToPython(payload["p"]);
    NumberArrives(payload[count].v, b);
    NumberArrives(payload["p"].v, b);
  }

  /** The geometric and Poisson cases: a single real parameter. */
  lemma OneParamArrives(dist: Value, key: string, payload: map<string, JsValue>, b: Builtins)
    requires (dist == Str("geometric") && key == "p") || (dist == Str("poisson") && key == "lam")
    requires key in payload && payload[key].JsNumber?
    ensures Views.ParamsFromBody(dist, Transmit(payload).entries, b) == Success(map[key := Float(payload[key].v)])
  {
    var body := Transmit(payload).entries;
    assert Get(body, key) == ToPython(payload[key]);
    NumberArrives(payload[key].v, b);
  }

  // ---------------------------------------------------------------------------
  // The result pane

  /** `comparatorSymbols[comparator]`. */
  function ComparatorSymbol(comparator: string): Option<string>
  {
    var symbols := map["exact" := "=", "<=" := "≤", ">=" := "≥"];
    if comparator in symbols then Some(symbols[comparator]) else None
  }

  /** A symbol is shown exactly for the comparators the server computes with. */
  lemma SymbolsMatchServerComparators(comparator: string)
    ensures ComparatorSymbol(comparator).Some? <==> ProbFuncs.KnownComparator(Str(comparator))
    ensures ComparatorSymbol("exact") == Some("=")
    ensures ComparatorSymbol("<=") == Some("≤")
    ensures ComparatorSymbol(">=") == Some("≥")
  {
  }

  /** `${x}` for a number that is an integer or NaN. */
  function NumberText(x: Option<int>): string
  {
    match x
    case Some(i) => Decimal(i)
    case None => "NaN"
  }

  /** `P(X ${comparatorSymbols[comparator]} ${target})`; an unknown
      comparator's symbol prints as "undefined". */
  function ProbabilityLabel(comparator: string, target: Option<int>): (text: string)
    ensures |text| >= 7 + |NumberText(target)| && text[..4] == "P(X " && text[|text| - 1] == ')'
    ensures ComparatorSymbol(comparator).Some? ==> |text| == 7 + |NumberText(target)| && text[4] == ComparatorSymbol(comparator).value[0]
    ensures text[|text| - 1 - |NumberText(target)|..|text| - 1] == NumberText(target)
  {
    var symbol := match ComparatorSymbol(comparator) case Some(s) => s case None => "undefined";
    var text := "P(X " + symbol + " " + NumberText(target) + ")";
    assert text == "P(X " + (symbol + " " + NumberText(target) + ")");
    assert text == ("P(X " + symbol + " ") + NumberText(target) + ")";
    text
  }

  /** For the three comparators and a numeric target, the label names the
      comparator and the target unambiguously. */
  lemma LabelIdentifiesQuery(c1: string, t1: int, c2: string, t2: int)
    requires ProbFuncs.KnownComparator(Str(c1)) && ProbFuncs.KnownComparator(Str(c2))
    ensures ProbabilityLabel(c1, Some(t1)) == ProbabilityLabel(c2, Some(t2)) <==> c1 == c2 && t1 == t2
  {
    var l1, l2 := ProbabilityLabel(c1, Some(t1)), ProbabilityLabel(c2, Some(t2));
    if l1 == l2 {
      assert ComparatorSymbol(c1).value[0] == ComparatorSymbol(c2).value[0];
      assert Decimal(t1) == NumberText(Some(t1)) == l1[|l1| - 1 - |Decimal(t1)|..|l1| - 1];
      assert Decimal(t2) == NumberText(Some(t2)) == l2[|l2| - 1 - |Decimal(t2)|..|l2| - 1];
      assert |Decimal(t1)| == |Decimal(t2)|;
      DecimalRoundTrip(t1);
      DecimalRoundTrip(t2);
    }
  }

  // ---------------------------------------------------------------------------
  // The chart (`updateChart`)

  const DefaultBarColor := "rgba(79, 70, 229, 0.6)"
  const HighlightBarColor := "rgba(16, 185, 129, 0.7)"
  const DefaultBorderColor := "rgba(79, 70, 229, 1)"
  const HighlightBorderColor := "rgba(16, 185, 129, 1)"

  /** The per-bar predicate: `exact` is `x === target`, `<=` is `x <= target`,
      `>=` is `x >= target`; a NaN target or any other comparator selects nothing. */
  predicate Highlighted(comparator: string, x: int, target: Option<int>)
  {
    target.Some? &&
    ((comparator == "exact" && x == target.value)
     || (comparator == "<=" && x <= target.value)
     || (comparator == ">=" && x >= target.value))
  }

  /** `labels = data.x.map(x => x.toString())`. */
  function Labels(xs: seq<int>): seq<string>
  {
    seq(|xs|, i requires 0 <= i < |xs| => Decimal(xs[i]))
  }

  /** `backgroundColors = data.x.map(...)`. */
  function BackgroundColors(xs: seq<int>, comparator: string, target: Option<int>): seq<string>
  {
    seq(|xs|, i requires 0 <= i < |xs| =>
      if comparator == "exact" && Some(xs[i]) == target then HighlightBarColor
      else if comparator == "<=" && target.Some? && xs[i] <= target.value then HighlightBarColor
      else if comparator == ">=" && target.Some? && xs[i] >= target.value then HighlightBarColor
      else DefaultBarColor)
  }

  /** `borderColors = data.x.map(...)`. */
  function BorderColors(xs: seq<int>, comparator: string, target: Option<int>): seq<string>
  {
    seq(|xs|, i requires 0 <= i < |xs| =>
      if comparator == "exact" && Some(xs[i]) == target then HighlightBorderColor
      else if comparator == "<=" && target.Some? && xs[i] <= target.value then HighlightBorderColor
      else if comparator == ">=" && target.Some? && xs[i] >= target.value then HighlightBorderColor
      else DefaultBorderColor)
  }

  /** Both colour arrays have one entry per x, in order; bar `i` gets the
      highlight fill and the highlight border exactly when the predicate holds
      of `x[i]`, and the default pair otherwise. */
  lemma ColorsFollowPredicate(xs: seq<int>, comparator: string, target: Option<int>)
    ensures |BackgroundColors(xs, comparator, target)| == |BorderColors(xs, comparator, target)| == |xs|
    ensures forall i :: 0 <= i < |xs| ==>
      && (BackgroundColors(xs, comparator, target)[i] == HighlightBarColor <==> Highlighted(comparator, xs[i], target))
      && (BorderColors(xs, comparator, target)[i] == HighlightBorderColor <==> Highlighted(comparator, xs[i], target))
      && (!Highlighted(comparator, xs[i], target) ==>
            BackgroundColors(xs, comparator, target)[i] == DefaultBarColor
            && BorderColors(xs, comparator, target)[i] == DefaultBorderColor)
  {
  }

  /** Labels keep the order of the x values and are distinct exactly when the x values are. */
  lemma LabelsFollowSupport(xs: seq<int>)
    ensures |Labels(xs)| == |xs|
    ensures forall i, j :: 0 <= i < |xs| && 0 <= j < |xs| ==> (Labels(xs)[i] == Labels(xs)[j] <==> xs[i] == xs[j])
  {
    forall i, j | 0 <= i < |xs| && 0 <= j < |xs| && Labels(xs)[i] == Labels(xs)[j]
      ensures xs[i] == xs[j]
    {
      DecimalRoundTrip(xs[i]);
      DecimalRoundTrip(xs[j]);
    }
  }

  /** With a numeric target the client's predicate is the server's selection rule. */
  lemma HighlightIsServerSelection(comparator: string, x: int, target: int)
    ensures Highlighted(comparator, x, Some(target)) <==> ProbFuncs.Satisfies(comparator, x, target)
  {
  }

  /** The total height of the bars whose fill is the highlight colour. */
  function HighlightedMass(values: seq<real>, colors: seq<string>): real
    requires |values| == |colors|
    decreases |values|
  {
    if |values| == 0 then 0.0
    else
      HighlightedMass(values[..|values| - 1], colors[..|colors| - 1])
      + (if colors[|colors| - 1] == HighlightBarColor then values[|values| - 1] else 0.0)
  }

  lemma {:induction false} HighlightedMassIsSelectedMass(xs: seq<int>, ps: seq<real>, comparator: string, target: int)
    requires |xs| == |ps|
    ensures |BackgroundColors(xs, comparator, Some(target))| == |ps|
    ensures HighlightedMass(ps, BackgroundColors(xs, comparator, Some(target)))
            == ProbFuncs.SumWhere(xs, ps, comparator, target)
    decreases |xs|
  {
    var colors := BackgroundColors(xs, comparator, Some(target));
    if |xs| > 0 {
      var m := |xs| - 1;
      HighlightedMassIsSelectedMass(xs[..m], ps[..m], comparator, target);
      assert colors[..m] == BackgroundColors(xs[..m], comparator, Some(target));
      HighlightIsServerSelection(comparator, xs[m], target);
      assert colors[m] == HighlightBarColor <==> ProbFuncs.Satisfies(comparator, xs[m], target);
    }
  }

  /** The agreement between chart and number: for every successful server
      computation, the bars the client highlights carry exactly the
      probability the server reports. */
  lemma ChartAgreesWithProbability(dist: Value, params: map<string, Value>, comparator: string, target: int, b: Builtins)
    requires Views.Computation(dist, params, Str(comparator), target, b).Success?
    ensures var c := Views.Computation(dist, params, Str(comparator), target, b).value;
      && |BackgroundColors(c.support.xs, comparator, Some(target))| == |c.support.ps|
      && HighlightedMass(c.support.ps, BackgroundColors(c.support.xs, comparator, Some(target))) == c.probability
  {
    var c := Views.Computation(dist, params, Str(comparator), target, b).value;
    Views.SuccessfulComputation(dist, params, comparator, target, b);
    HighlightedMassIsSelectedMass(c.support.xs, c.support.ps, comparator, target);
  }

  // ---------------------------------------------------------------------------
  // Reading the response (`resp.ok`, `resp.json()`)

  /** `resp.ok`: a 2xx status. */
  predicate Ok(response: Views.Response)
  {
    response.JsonResponse? && 200 <= response.status <= 299
  }

  /** The success payload as the script uses it (`data`). */
  datatype ResultData = ResultData(x: seq<int>, p: seq<real>, mean: real, variance: real, probability: real)

  /** A JSON number as the script sees it. */
  function NumberOf(v: Value): Option<real>
  {
    match v
    case Int(i) => Some(i as real)
    case Float(f) => Some(f)
    case _ => None
  }

  function IntsOf(vs: seq<Value>): Option<seq<int>>
  {
    if forall i :: 0 <= i < |vs| ==> vs[i].Int? then Some(seq(|vs|, i requires 0 <= i < |vs| => vs[i].i)) else None
  }

  function NumbersOf(vs: seq<Value>): Option<seq<real>>
  {
    if forall i :: 0 <= i < |vs| ==> NumberOf(vs[i]).Some? then
      Some(seq(|vs|, i requires 0 <= i < |vs| => NumberOf(vs[i]).value))
    else None
  }

  /** The fields the script reads from the JSON body, or None when one is
      missing or of the wrong kind (the script would then throw a TypeError). */
  function Decode(content: Value): Option<ResultData>
  {
    if content.Dict? && {"x", "p", "mean", "variance", "probability"} <= content.entries.Keys
       && content.entries["x"].List? && content.entries["p"].List?
    then
      var xs :- IntsOf(content.entries["x"].items);
      var ps :- NumbersOf(content.entries["p"].items);
      var mean :- NumberOf(content.entries["mean"]);
      var variance :- NumberOf(content.entries["variance"]);
      var probability :- NumberOf(content.entries["probability"]);
      Some(ResultData(xs, ps, mean, variance, probability))
    else None
  }

  /** The script reads back exactly what the server's success response carries. */
  lemma DecodeSuccessResponse(c: Views.Computed)
    ensures Ok(Views.SuccessResponse(c))
    ensures Decode(Views.SuccessResponse(c).content)
      == Some(ResultData(c.support.xs, c.support.ps, c.moments.mean, c.moments.variance, c.probability))
  {
    var xs, ps := Views.IntList(c.support.xs).items, Views.FloatList(c.support.ps).items;
    assert IntsOf(xs).value == c.support.xs;
    assert forall i :: 0 <= i < |ps| ==> NumberOf(ps[i]) == Some(c.support.ps[i]);
    assert NumbersOf(ps).value == c.support.ps;
  }

  // ---------------------------------------------------------------------------
  // The page

  /** A Chart.js bar chart as drawn by `updateChart`. */
  datatype BarChart = BarChart(labels: seq<string>, values: seq<real>, backgroundColors: seq<string>, borderColors: seq<string>)

  /** What happened to chart instances, in order. */
  datatype ChartEvent = Created(handle: nat) | Destroyed(handle: nat)

  function ReleaseEvents(chart: Option<nat>): seq<ChartEvent>
  {
    if chart.Some? then [Destroyed(chart.value)] else []
  }

  /** The handles `chart.destroy()` adds to the destroyed ones, if a chart is live. */
  function ReleasedHandles(chart: Option<nat>): set<nat>
  {
    if chart.Some? then {chart.value} else {}
  }

  /** The chart `updateChart(data, comparator, target)` draws. */
  function ChartOf(data: ResultData, comparator: string, target: Option<int>): BarChart
  {
    BarChart(Labels(data.x), data.p, BackgroundColors(data.x, comparator, target), BorderColors(data.x, comparator, target))
  }

  /** The text shown by the result pane. */
  datatype Shown = Shown(mean: real, variance: real, probabilityText: string, probability: real)

  /** The error caught by the submit handler, whose message the placeholder shows. */
  datatype Problem =
    | ServerError(response: Views.Response)   // `!resp.ok`: the body text becomes the message
    | RequestFailed(message: string)          // `fetch` rejected
    | ScriptError(message: string)            // thrown by the script itself

  /** Whether the request reaches the endpoint or `fetch` rejects with a message. */
  datatype Network = Delivers | Fails(message: string)

  const BusyButtonHtml := "Computing..."

  /** The state the script keeps in the document and in its closure. */
  class Page {
    var selected: string                 // the distribution `<select>`'s value
    var paramsArea: Form                 // what `renderParams` put into the parameter area
    var chart: Option<nat>               // `chart`: the handle of the live chart, or null
    var charts: map<nat, BarChart>       // every chart drawn so far, by handle
    var destroyed: set<nat>              // handles whose chart has been destroyed
    var events: seq<ChartEvent>
    var nextHandle: nat
    var buttonDisabled: bool
    var buttonHtml: string
    var placeholderHidden: bool
    var displayHidden: bool
    var problem: Option<Problem>         // what the placeholder reports
    var shown: Option<Shown>             // what the result display reports

    /** The parameter area matches the selected distribution, and at most one
        chart is alive: the one `chart` holds. */
    predicate Valid()
      reads this
    {
      && paramsArea == RenderParams(selected)
      && destroyed <= charts.Keys
      && (forall h :: h in charts ==> h < nextHandle)
      && (chart.Some? ==> chart.value in charts && chart.value !in destroyed)
      && (forall h :: h in charts && h !in destroyed ==> chart == Some(h))
    }

    /** The live chart's highlighted bars add up to the probability on display. */
    predicate ChartShowsProbability()
      reads this
    {
      && chart.Some? && chart.value in charts && shown.Some?
      && var bars := charts[chart.value];
         && |bars.labels| == |bars.values| == |bars.backgroundColors|
         && HighlightedMass(bars.values, bars.backgroundColors) == shown.value.probability
    }

    /** The page after `DOMContentLoaded`: the initial `renderParams()`, no
        chart, the placeholder showing and the result display hidden. */
    constructor (dist: string, html: string)
      ensures Valid()
      ensures selected == dist && paramsArea == RenderParams(dist)
      ensures chart.None? && charts == map[] && events == []
      ensures !buttonDisabled && buttonHtml == html
      ensures !placeholderHidden && displayHidden && problem.None? && shown.None?
    {
      selected := dist;
      paramsArea := RenderParams(dist);
      chart := None;
      charts := map[];
      destroyed := {};
      events := [];
      nextHandle := 0;
      buttonDisabled := false;
      buttonHtml := html;
      placeholderHidden := false;
      displayHidden := true;
      problem := None;
      shown := None;
    }

    /** The `change` listener: a new selection redraws the parameter area. */
    method Select(dist: string)
      requires Valid()
      modifies this`selected, this`paramsArea
      ensures Valid()
      ensures selected == dist && paramsArea == RenderParams(dist)
    {
      selected := dist;
      paramsArea := RenderParams(dist);
    }

    /** `chart.destroy(); chart = null`. */
    method Release()
      requires Valid() && chart.Some?
      modifies this`chart, this`destroyed, this`events
      ensures Valid()
      ensures chart.None? && destroyed == old(destroyed) + {old(chart).value}
      ensures events == old(events) + [Destroyed(old(chart).value)]
    {
      destroyed := destroyed + {chart.value};
      events := events + [Destroyed(chart.value)];
      chart := None;
    }

    /** `updateChart(data, comparator, target)`: destroys the previous chart,
        if any, then draws a new one whose bars are the support points. */
    method UpdateChart(data: ResultData, comparator: string, target: Option<int>)
      requires Valid()
      modifies this`chart, this`charts, this`destroyed, this`events, this`nextHandle
      ensures Valid()
      ensures chart == Some(old(nextHandle)) && nextHandle == old(nextHandle) + 1
      ensures charts == old(charts)[old(nextHandle) := ChartOf(data, comparator, target)]
      ensures destroyed == old(destroyed) + ReleasedHandles(old(chart))
      ensures events == old(events) + ReleaseEvents(old(chart)) + [Created(old(nextHandle))]
    {
      var bars := ChartOf(data, comparator, target);
      if chart.Some? {
        Release();
      }
      charts := charts[nextHandle := bars];
      events := events + [Created(nextHandle)];
      chart := Some(nextHandle);
      nextHandle := nextHandle + 1;
    }

    /** The success half of the `try` block: hide the placeholder, fill in
        the numbers, show the display and redraw the chart. */
    method ShowResults(data: ResultData, comparator: string, target: Option<int>)
      requires Valid()
      requires |data.x| == |data.p|
      requires HighlightedMass(data.p, BackgroundColors(data.x, comparator, target)) == data.probability
      modifies this`placeholderHidden, this`shown, this`displayHidden
      modifies this`chart, this`charts, this`destroyed, this`events, this`nextHandle
      ensures Valid()
      ensures placeholderHidden && !displayHidden
      ensures shown == Some(Shown(data.mean, data.variance, ProbabilityLabel(comparator, target), data.probability))
      ensures chart == Some(old(nextHandle)) && nextHandle == old(nextHandle) + 1
      ensures charts == old(charts)[old(nextHandle) := ChartOf(data, comparator, target)]
      ensures destroyed == old(destroyed) + ReleasedHandles(old(chart))
      ensures events == old(events) + ReleaseEvents(old(chart)) + [Created(old(nextHandle))]
      ensures ChartShowsProbability()
    {
      placeholderHidden := true;
      shown := Some(Shown(data.mean, data.variance, ProbabilityLabel(comparator, target), data.probability));
      displayHidden := false;
      UpdateChart(data, comparator, target);
    }

    /** The `catch` block: hide the display, show the error in the
        placeholder and destroy the chart, if any. */
    method ShowError(failure: Problem)
      requires Valid()
      modifies this`placeholderHidden, this`problem, this`displayHidden
      modifies this`chart, this`destroyed, this`events
      ensures Valid()
      ensures !placeholderHidden && displayHidden && problem == Some(failure)
      ensures chart.None? && destroyed == old(destroyed) + ReleasedHandles(old(chart))
      ensures events == old(events) + ReleaseEvents(old(chart))
    {
      displayHidden := true;
      placeholderHidden := false;
      problem := Some(failure);
      if chart.Some? {
        Release();
      }
    }

    /** The display half of the `try`/`catch` block: `showResults` and a new
        chart on success, the `catch` block's error otherwise. */
    method Present(outcome: Result<ResultData, Problem>, comparator: string, target: Option<int>)
      requires Valid()
      requires outcome.Success? ==>
        |outcome.value.x| == |outcome.value.p|
        && HighlightedMass(outcome.value.p, BackgroundColors(outcome.value.x, comparator, target)) == outcome.value.probability
      modifies this`placeholderHidden, this`shown, this`displayHidden, this`problem
      modifies this`chart, this`charts, this`destroyed, this`events, this`nextHandle
      ensures Valid()
      ensures placeholderHidden != displayHidden
      ensures displayHidden <==> chart.None?
      ensures !displayHidden <==> outcome.Success?
      ensures outcome.Success? ==>
        var data := outcome.value;
        && shown == Some(Shown(data.mean, data.variance, ProbabilityLabel(comparator, target), data.probability))
        && problem == old(problem)
        && chart == Some(old(nextHandle)) && nextHandle == old(nextHandle) + 1
        && charts == old(charts)[old(nextHandle) := ChartOf(data, comparator, target)]
        && destroyed == old(destroyed) + ReleasedHandles(old(chart))
        && events == old(events) + ReleaseEvents(old(chart)) + [Created(old(nextHandle))]
        && ChartShowsProbability()
      ensures outcome.Failure? ==>
        && shown == old(shown) && problem == Some(outcome.error)
        && charts == old(charts) && nextHandle == old(nextHandle)
        && destroyed == old(destroyed) + ReleasedHandles(old(chart))
        && events == old(events) + ReleaseEvents(old(chart))
    {
      match outcome {
        case Success(data) => ShowResults(data, comparator, target);
        case Failure(failure) => ShowError(failure);
      }
    }

    /** The `try`/`catch` block of the `submit` listener: the request, then
        `showResults` or `showError`. It runs while the button is busy and
        leaves the button alone. */
    method Query(comparator: string, targetInput: string, inputs: map<string, string>, cookie: string,
                 network: Network, js: JsBuiltins, b: Builtins)
      returns (response: Option<Views.Response>, outcome: Result<ResultData, Problem>)
      requires Valid()
      // The request runs with the button disabled and showing the busy label.
      requires buttonDisabled && buttonHtml == BusyButtonHtml
      requires FieldIds(paramsArea) <= inputs.Keys
      modifies this`placeholderHidden, this`shown, this`displayHidden, this`problem
      modifies this`chart, this`charts, this`destroyed, this`events, this`nextHandle
      ensures Valid()
      // The endpoint's answer to the form's payload, and what the page makes of it.
      ensures Exchanged(response, outcome, old(selected), comparator, targetInput, inputs, cookie, network, js, b)
      // Exactly one pane shows.
      ensures placeholderHidden != displayHidden
      ensures displayHidden <==> chart.None?
      // On success the decoded numbers and a new chart of the decoded support,
      // whose highlighted bars add up to the shown probability.
      ensures !displayHidden <==> outcome.Success?
      ensures outcome.Success? ==>
        var data := outcome.value;
        var target := js.parseInt(OrZero(targetInput));
        && shown == Some(Shown(data.mean, data.variance, ProbabilityLabel(comparator, target), data.probability))
        && problem == old(problem)
        && chart == Some(old(nextHandle)) && nextHandle == old(nextHandle) + 1
        && charts == old(charts)[old(nextHandle) := ChartOf(data, comparator, target)]
        && destroyed == old(destroyed) + ReleasedHandles(old(chart))
        && events == old(events) + ReleaseEvents(old(chart)) + [Created(old(nextHandle))]
        && ChartShowsProbability()
      // Otherwise the error is shown and the chart, if any, released.
      ensures outcome.Failure? ==>
        && shown == old(shown) && problem == Some(outcome.error)
        && charts == old(charts) && nextHandle == old(nextHandle)
        && destroyed == old(destroyed) + ReleasedHandles(old(chart))
        && events == old(events) + ReleaseEvents(old(chart))
    {
      response, outcome := Exchange(selected, comparator, targetInput, inputs, cookie, network, js, b);
      Present(outcome, comparator, js.parseInt(OrZero(targetInput)));
    }

    /** The `submit` listener. `inputs` holds the values of the form's inputs,
        `cookie` is `document.cookie`. `response` is what the endpoint
        answered, None when the request was never answered, and `outcome` is
        the data the page shows or the error it reports. */
    method Submit(comparator: string, targetInput: string, inputs: map<string, string>, cookie: string,
                  network: Network, js: JsBuiltins, b: Builtins)
      returns (response: Option<Views.Response>, outcome: Result<ResultData, Problem>)
      requires Valid()
      requires FieldIds(paramsArea) <= inputs.Keys
      modifies this`buttonDisabled, this`buttonHtml, this`placeholderHidden, this`shown, this`displayHidden, this`problem
      modifies this`chart, this`charts, this`destroyed, this`events, this`nextHandle
      ensures Valid()
      // The endpoint's answer to the form's payload, and what the page makes of it.
      ensures Exchanged(response, outcome, old(selected), comparator, targetInput, inputs, cookie, network, js, b)
      // The button is restored whatever happened, and exactly one pane shows.
      ensures !buttonDisabled && buttonHtml == old(buttonHtml)
      ensures placeholderHidden != displayHidden
      ensures displayHidden <==> chart.None?
      // On success the decoded numbers and a new chart of the decoded support,
      // whose highlighted bars add up to the shown probability.
      ensures !displayHidden <==> outcome.Success?
      ensures outcome.Success? ==>
        var data := outcome.value;
        var target := js.parseInt(OrZero(targetInput));
        && shown == Some(Shown(data.mean, data.variance, ProbabilityLabel(comparator, target), data.probability))
        && problem == old(problem)
        && chart == Some(old(nextHandle)) && nextHandle == old(nextHandle) + 1
        && charts == old(charts)[old(nextHandle) := ChartOf(data, comparator, target)]
        && destroyed == old(destroyed) + ReleasedHandles(old(chart))
        && events == old(events) + ReleaseEvents(old(chart)) + [Created(old(nextHandle))]
        && ChartShowsProbability()
      // Otherwise the error is shown and the chart, if any, released.
      ensures outcome.Failure? ==>
        && shown == old(shown) && problem == Some(outcome.error)
        && charts == old(charts) && nextHandle == old(nextHandle)
        && destroyed == old(destroyed) + ReleasedHandles(old(chart))
        && events == old(events) + ReleaseEvents(old(chart))
    {
      buttonDisabled := true;
      var originalHtml := buttonHtml;
      buttonHtml := BusyButtonHtml;

      response, outcome := Query(comparator, targetInput, inputs, cookie, network, js, b);

      buttonDisabled := false;
      buttonHtml := originalHtml;
    }
  }

  /** The request `fetch` posts: the JSON of the payload. */
  function RequestOf(dist: string, comparator: string, targetInput: string, inputs: map<string, string>, js: JsBuiltins)
    : Views.Request
    requires FieldIds(RenderParams(dist)) <= inputs.Keys
  {
    Views.Request("POST", Some(Transmit(PayloadOf(dist, comparator, targetInput, inputs, js))))
  }

  /** The error when no answer arrives: `getCookie` throws before `fetch` is
      called, or else `fetch` rejects. */
  function UnansweredProblem(cookie: string, network: Network, js: JsBuiltins): Problem
    requires network.Fails? || Cookies.CookieOf(cookie, "csrftoken", js.decodeURIComponent) == Cookies.DecodeThrows
  {
    if Cookies.CookieOf(cookie, "csrftoken", js.decodeURIComponent) == Cookies.DecodeThrows then ScriptError(js.uriErrorMessage)
    else RequestFailed(network.message)
  }

  /** What the request half of the submit handler does: the request is
      answered exactly when the network delivers and the cookie lookup does
      not throw, and then the answer is the endpoint's answer to the form's
      payload; the outcome is the decoded answer on a 2xx, the answer itself as
      the error otherwise, and the cookie or network error when unanswered. */
  predicate Exchanged(response: Option<Views.Response>, outcome: Result<ResultData, Problem>,
                      dist: string, comparator: string, targetInput: string, inputs: map<string, string>, cookie: string,
                      network: Network, js: JsBuiltins, b: Builtins)
    requires FieldIds(RenderParams(dist)) <= inputs.Keys
  {
    && (response.Some? <==>
          network.Delivers? && Cookies.CookieOf(cookie, "csrftoken", js.decodeURIComponent) != Cookies.DecodeThrows)
    && (response.Some? ==> response.value == Views.Answer(RequestOf(dist, comparator, targetInput, inputs, js), b))
    && (response.None? ==> outcome == Failure(UnansweredProblem(cookie, network, js)))
    && (outcome.Success? <==> response.Some? && Ok(response.value))
    && (response.Some? && !Ok(response.value) ==> outcome == Failure(ServerError(response.value)))
    && (outcome.Success? ==> Decode(response.value.content) == Some(outcome.value))
  }

  /** The request half of the submit handler: the payload, then in the `try`
      block the CSRF header (`getCookie('csrftoken')`), `fetch`, the `resp.ok`
      check and `resp.json()`. The outcome is the data to display or the error
      the `catch` block reports. */
  method Exchange(dist: string, comparator: string, targetInput: string, inputs: map<string, string>, cookie: string,
                  network: Network, js: JsBuiltins, b: Builtins)
    returns (response: Option<Views.Response>, outcome: Result<ResultData, Problem>)
    requires FieldIds(RenderParams(dist)) <= inputs.Keys
    ensures Exchanged(response, outcome, dist, comparator, targetInput, inputs, cookie, network, js, b)
    ensures outcome.Success? ==>
      && js.parseInt(OrZero(targetInput)).Some?
      && |outcome.value.x| == |outcome.value.p|
      && HighlightedMass(outcome.value.p, BackgroundColors(outcome.value.x, comparator, js.parseInt(OrZero(targetInput))))
         == outcome.value.probability
  {
    var payload := BuildPayload(dist, comparator, targetInput, inputs, js);
    response := None;
    var token := Cookies.GetCookie(cookie, "csrftoken", js.decodeURIComponent);
    if token == Cookies.DecodeThrows {
      return response, Failure(ScriptError(js.uriErrorMessage));
    }
    if network.Fails? {
      return response, Failure(RequestFailed(network.message));
    }
    var request := RequestOf(dist, comparator, targetInput, inputs, js);
    var r := Views.ApiCompute(request, b);
    response := Some(r);
    if !Ok(r) {
      return response, Failure(ServerError(r));
    }
    // Every other answer has status 400, 405 or 500, so this is the success
    // response of the computation the payload asked for.
    ghost var body := Transmit(payload).entries;
    PayloadContents(dist, comparator, targetInput, inputs, js);
    assert Get(body, "target") == ToPython(payload["target"]);
    assert Get(body, "comparator") == Str(comparator);
    TargetArrivesAsParsed(targetInput, js, b);
    ghost var t := ToInt(Get(body, "target"), b);
    assert t.Success?;
    ghost var d := Get(body, "distribution");
    assert ProbFuncs.KnownDistribution(d);
    ghost var params := Views.ParamsFromBody(d, body, b);
    assert params.Success?;
    ghost var c := Views.Computation(d, params.value, Str(comparator), t.value, b);
    assert c.Success? && r == Views.SuccessResponse(c.value);
    DecodeSuccessResponse(c.value);
    ChartAgreesWithProbability(d, params.value, comparator, t.value, b);
    outcome := Success(Decode(r.content).value);
  }
}
