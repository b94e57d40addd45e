/** The `api_compute` endpoint: an early-return validator that turns a request
    into an error response or into a query for the probability functions, and
    the query's results into the success response. */
module Views {
  import opened Wrappers
  import opened PyValues
  import opened ProbFuncs

  /** An HTTP request as the handler sees it. `body` is the result of
      `json.loads(request.body.decode('utf-8'))`, or None when decoding or
      parsing raises. */
  datatype Request = Request(httpMethod: string, body: Option<Value>)

  /** A `JsonResponse(content, status=...)`, or the framework's own error page
      when an exception escapes the handler. */
  datatype Response =
    | JsonResponse(status: int, content: Value)
    | UnhandledException

  function ErrorResponse(status: int, message: string): Response
  {
    JsonResponse(status, Dict(map["error" := Str(message)]))
  }

  /** The keys the handler puts into `params` for each distribution. */
  function ParamKeys(dist: Value): set<string>
  {
    if dist == Str("binomial") then {"n", "p"}
    else if dist == Str("negbin") then {"r", "p"}
    else if dist == Str("geometric") then {"p"}
    else if dist == Str("poisson") then {"lam"}
    else {}
  }

  /** The `params` dict the handler builds from the body for a known
      distribution, or the first conversion error, in the order the fields are
      read. */
  function ParamsFromBody(dist: Value, body: map<string, Value>, b: Builtins): Result<map<string, Value>, PyError>
    requires KnownDistribution(dist)
  {
    if dist == Str("binomial") then
      var n :- ToInt(Get(body, "n"), b);
      var p :- ToFloat(Get(body, "p"), b);
      Success(map["n" := Int(n), "p" := Float(p)])
    else if dist == Str("negbin") then
      var r :- ToInt(Get(body, "r"), b);
      var p :- ToFloat(Get(body, "p"), b);
      Success(map["r" := Int(r), "p" := Float(p)])
    else if dist == Str("geometric") then
      var p :- ToFloat(Get(body, "p"), b);
      Success(map["p" := Float(p)])
    else
      var lam :- ToFloat(Get(body, "lam"), b);
      Success(map["lam" := Float(lam)])
  }

  /** The three results the handler computes, in order. */
  datatype Computed = Computed(support: Support, moments: Moments, probability: real)

  /** `support_and_pmf`, `stats_for`, `compute_probability_given_condition`;
      the first exception wins. */
  function Computation(dist: Value, params: map<string, Value>, comparator: Value, target: int, b: Builtins)
    : Result<Computed, PyError>
  {
    var s :- SupportAndPmf(dist, params, b);
    var m :- StatsFor(dist, params, b);
    var prob :- Probability(dist, params, comparator, target, b);
    Success(Computed(s, m, prob))
  }

  /** A list of Python ints. */
  function IntList(xs: seq<int>): (v: Value)
    ensures v.List? && |v.items| == |xs|
    ensures forall i :: 0 <= i < |xs| ==> v.items[i] == Int(xs[i])
  {
    List(seq(|xs|, i requires 0 <= i < |xs| => Int(xs[i])))
  }

  /** `[float(v) for v in ps]`. */
  function FloatList(ps: seq<real>): (v: Value)
    ensures v.List? && |v.items| == |ps|
    ensures forall i :: 0 <= i < |ps| ==> v.items[i] == Float(ps[i])
  {
    List(seq(|ps|, i requires 0 <= i < |ps| => Float(ps[i])))
  }

  /** The success response: `x`, `p` (as floats), `mean`, `variance`, `probability`. */
  function SuccessResponse(c: Computed): Response
  {
    JsonResponse(200, Dict(map[
      "x" := IntList(c.support.xs),
      "p" := FloatList(c.support.ps),
      "mean" := Float(c.moments.mean),
      "variance" := Float(c.moments.variance),
      "probability" := Float(c.probability)]))
  }

  predicate IsPostWithObject(request: Request)
  {
    request.httpMethod == "POST" && request.body.Some? && request.body.value.Dict?
  }

  /** The answer of `api_compute(request)`. The checks run in this order and
      the first that fails decides the response: method (405), JSON body (400),
      a body that is not an object (the `body.get` outside any `try` raises),
      `target` (400), distribution (400), parameter conversion (400, with the
      exception's text) and computation (500, with the exception's text);
      otherwise the success response of the computation. */
  function Answer(request: Request, b: Builtins): Response
  {
    if request.httpMethod != "POST" then ErrorResponse(405, "POST only")
    else if request.body.None? then ErrorResponse(400, "Invalid JSON")
    else if !request.body.value.Dict? then UnhandledException
    else
      var body := request.body.value.entries;
      var target := ToInt(Get(body, "target"), b);
      var dist := Get(body, "distribution");
      if target.Failure? then ErrorResponse(400, "target must be integer")
      else if !KnownDistribution(dist) then ErrorResponse(400, "Unknown distribution")
      else
        match ParamsFromBody(dist, body, b)
        case Failure(e) => ErrorResponse(400, "Invalid parameters: " + Text(e))
        case Success(params) =>
          match Computation(dist, params, Get(body, "comparator"), target.value, b)
          case Failure(e) => ErrorResponse(500, "Computation error: " + Text(e))
          case Success(c) => SuccessResponse(c)
  }

  /** `api_compute(request)`, written with the source's early returns. */
  method ApiCompute(request: Request, b: Builtins) returns (response: Response)
    ensures response == Answer(request, b)
  {
    if request.httpMethod != "POST" {
      return ErrorResponse(405, "POST only");
    }
    if request.body.None? {
      return ErrorResponse(400, "Invalid JSON");
    }
    if !request.body.value.Dict? {
      // `body.get` on a list, number or string raises AttributeError outside any try.
      return UnhandledException;
    }
    var body := request.body.value.entries;

    var dist := Get(body, "distribution");
    var comparator := Get(body, "comparator");
    var targetOrError := ToInt(Get(body, "target"), b);
    if targetOrError.Failure? {
      return ErrorResponse(400, "target must be integer");
    }
    var target := targetOrError.value;

    var params: map<string, Value> := map[];
    if dist == Str("binomial") {
      var n := ToInt(Get(body, "n"), b);
      if n.Failure? {
        return ErrorResponse(400, "Invalid parameters: " + Text(n.error));
      }
      params := params["n" := Int(n.value)];
      var p := ToFloat(Get(body, "p"), b);
      if p.Failure? {
        return ErrorResponse(400, "Invalid parameters: " + Text(p.error));
      }
      params := params["p" := Float(p.value)];
    } else if dist == Str("negbin") {
      var r := ToInt(Get(body, "r"), b);
      if r.Failure? {
        return ErrorResponse(400, "Invalid parameters: " + Text(r.error));
      }
      params := params["r" := Int(r.value)];
      var p := ToFloat(Get(body, "p"), b);
      if p.Failure? {
        return ErrorResponse(400, "Invalid parameters: " + Text(p.error));
      }
      params := params["p" := Float(p.value)];
    } else if dist == Str("geometric") {
      var p := ToFloat(Get(body, "p"), b);
      if p.Failure? {
        return ErrorResponse(400, "Invalid parameters: " + Text(p.error));
      }
      params := params["p" := Float(p.value)];
    } else if dist == Str("poisson") {
      var lam := ToFloat(Get(body, "lam"), b);
      if lam.Failure? {
        return ErrorResponse(400, "Invalid parameters: " + Text(lam.error));
      }
      params := params["lam" := Float(lam.value)];
    } else {
      return ErrorResponse(400, "Unknown distribution");
    }
    assert ParamsFromBody(dist, body, b) == Success(params);

    var support := SupportAndPmf(dist, params, b);
    if support.Failure? {
      return ErrorResponse(500, "Computation error: " + Text(support.error));
    }
    var moments := StatsFor(dist, params, b);
    if moments.Failure? {
      return ErrorResponse(500, "Computation error: " + Text(moments.error));
    }
    var prob := ComputeProbability(dist, params, comparator, target, b);
    if prob.Failure? {
      return ErrorResponse(500, "Computation error: " + Text(prob.error));
    }
    return SuccessResponse(Computed(support.value, moments.value, prob.value));
  }

  /** A params dict built by the handler holds exactly the keys of its
      distribution, and the probability functions read back the converted
      values: `n` and `r` as ints, `p` and `lam` as floats. */
  lemma ParamsSchema(dist: Value, body: map<string, Value>, b: Builtins)
    requires KnownDistribution(dist) && ParamsFromBody(dist, body, b).Success?
    ensures var params := ParamsFromBody(dist, body, b).value;
      && params.Keys == ParamKeys(dist)
      && ("n" in params ==> IntParam(params, "n", b) == ToInt(Get(body, "n"), b))
      && ("r" in params ==> IntParam(params, "r", b) == ToInt(Get(body, "r"), b))
      && ("p" in params ==> FloatParam(params, "p", b) == ToFloat(Get(body, "p"), b))
      && ("lam" in params ==> FloatParam(params, "lam", b) == ToFloat(Get(body, "lam"), b))
  {
    var params := ParamsFromBody(dist, body, b).value;
    if dist == Str("binomial") {
      assert params == map["n" := Int(ToInt(Get(body, "n"), b).value), "p" := Float(ToFloat(Get(body, "p"), b).value)];
    } else if dist == Str("negbin") {
      assert params == map["r" := Int(ToInt(Get(body, "r"), b).value), "p" := Float(ToFloat(Get(body, "p"), b).value)];
    } else if dist == Str("geometric") {
      assert params == map["p" := Float(ToFloat(Get(body, "p"), b).value)];
    } else {
      assert params == map["lam" := Float(ToFloat(Get(body, "lam"), b).value)];
    }
  }

  /** On success the response's `x` and `p` are the tabulated support and its
      masses, index for index, and `probability` is the mass of the support
      points that satisfy the comparator. */
  lemma SuccessfulComputation(dist: Value, params: map<string, Value>, comparator: string, target: int, b: Builtins)
    requires Computation(dist, params, Str(comparator), target, b).Success?
    ensures KnownComparator(Str(comparator))
    ensures var c := Computation(dist, params, Str(comparator), target, b).value;
      && c.support == SupportAndPmf(dist, params, b).value
      && |c.support.xs| == |c.support.ps|
      && c.probability == SumWhere(c.support.xs, c.support.ps, comparator, target)
  {
    ProbabilityIsSelectedMass(dist, params, comparator, target, b);
  }

  /** Status 200 is answered exactly for a POSTed object whose target, distribution,
      parameters and computation all succeed, and then it carries that
      computation; every other JSON answer is an error status with an `error` text. */
  lemma AnswerStatus(request: Request, b: Builtins)
    ensures var response := Answer(request, b);
      var body := if IsPostWithObject(request) then request.body.value.entries else map[];
      var target := ToInt(Get(body, "target"), b);
      var dist := Get(body, "distribution");
      && (response.JsonResponse? && response.status == 200 <==>
            IsPostWithObject(request) && target.Success? && KnownDistribution(dist)
            && ParamsFromBody(dist, body, b).Success?
            && Computation(dist, ParamsFromBody(dist, body, b).value, Get(body, "comparator"), target.value, b).Success?)
      && (response.JsonResponse? && response.status == 200 ==>
            response == SuccessResponse(Computation(dist, ParamsFromBody(dist, body, b).value, Get(body, "comparator"), target.value, b).value))
      && (response.JsonResponse? && response.status != 200 ==>
            response.status in {400, 405, 500} && response.content.Dict? && "error" in response.content.entries
            && response.content.entries["error"].Str?)
  {
  }
}
