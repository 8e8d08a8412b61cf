/** The prediction server of src/serve/app.py: the choice of the model file at
    start-up, the `/predict` handler with its process-wide counters and
    observation lists, and the `/healthz` liveness probe.

    The loaded model and numpy's conversion of the request's features are an
    `Engine` of opaque functions; the request body is what Flask's
    `get_json(force=True)` returns or raises; the elapsed time that the
    handler measures with `time.time()` is a parameter. */
module ServeApp {
  import opened Values

  /** MODEL_PATH's default when the environment does not set it. */
  const DEFAULT_MODEL_PATH := "deployed_model/model.pkl"
  /** The training output, served when the configured model is missing. */
  const FALLBACK := "artifacts/model.pkl"

  /** The model file chosen at module load, from the MODEL_PATH environment
      value and the file system's `os.path.exists`; Raised is the
      FileNotFoundError that stops start-up. */
  function ModelPath(configured: Option<string>, pathExists: string -> bool): (r: Attempt<string>)
    ensures r.Done? ==> pathExists(r.value)
    ensures pathExists(configured.GetOr(DEFAULT_MODEL_PATH)) ==> r == Done(configured.GetOr(DEFAULT_MODEL_PATH))
    ensures !pathExists(configured.GetOr(DEFAULT_MODEL_PATH)) && pathExists(FALLBACK) ==> r == Done(FALLBACK)
    ensures r.Raised? <==> !pathExists(configured.GetOr(DEFAULT_MODEL_PATH)) && !pathExists(FALLBACK)
    ensures r.Raised? ==>
              r.text == "Model not found at " + configured.GetOr(DEFAULT_MODEL_PATH) + " or " + FALLBACK
  {
    var path := configured.GetOr(DEFAULT_MODEL_PATH);
    if !pathExists(path) then
      if pathExists(FALLBACK) then Done(FALLBACK)
      else Raised("Model not found at " + path + " or " + FALLBACK)
    else
      Done(path)
  }

  /** What the handler calls outside itself, once the model is loaded. */
  datatype Engine = Engine(
    // np.array(features, dtype=float).reshape(1, -1): the single row, or the
    // exception numpy raises; no length is imposed
    asVector: Json -> Attempt<seq<real>>,
    // int(model.predict(x)[0])
    predict: seq<real> -> Attempt<int>,
    // model.predict_proba(x)[0], when the model has predict_proba at all
    proba: Option<seq<real> -> Attempt<seq<real>>>)

  /** A response of `/predict`: 200 with the label and confidence, 400 for
      missing features, 500 with the text of any other exception. */
  datatype Response =
    | Ok(prediction: int, confidence: Option<real>)
    | BadRequest(error: string)
    | ServerError(error: string)

  /** The HTTP status of a response. */
  function Status(r: Response): (code: int) {
    match r
    case Ok(_, _) => 200
    case BadRequest(_) => 400
    case ServerError(_) => 500
  }

  const MISSING_FEATURES := "JSON must include 'features' (13-length list)."

  /** `np.max` of a non-empty vector: an element no smaller than any other. */
  function MaxOf(s: seq<real>): (m: real)
    requires |s| > 0
    ensures m in s
    ensures forall i :: 0 <= i < |s| ==> s[i] <= m
  {
    if |s| == 1 then s[0]
    else
      var rest := MaxOf(s[1..]);
      if s[0] >= rest then s[0] else rest
  }

  /** The confidence of a prediction: the largest class probability, and None
      whenever predict_proba is missing or raises, or `np.max` raises on an
      empty row. */
  function Confidence(e: Engine, x: seq<real>): (c: Option<real>)
    ensures c.None? <==>
              e.proba.None? || e.proba.value(x).Raised? || |e.proba.value(x).value| == 0
    ensures c.Some? ==>
              var ps := e.proba.value(x).value;
              c.value in ps && forall i :: 0 <= i < |ps| ==> ps[i] <= c.value
  {
    match e.proba
    case None => None
    case Some(proba) =>
      match proba(x)
      case Raised(_) => None
      case Done(ps) => if |ps| == 0 then None else Some(MaxOf(ps))
  }

  /** The body decodes to a dict whose "features" entry is absent or null. */
  predicate MissingFeatures(body: Attempt<Json>) {
    body.Done? && body.value.JObject? &&
    ("features" !in body.value.fields || body.value.fields["features"] == JNull)
  }

  /** The response of one `/predict` call. Missing features are the only 400;
      any exception on the way (undecodable body, a body that is not a dict,
      features numpy cannot convert, a failing predict) is a 500 carrying its
      text; everything else is a 200 with the predicted label and its
      confidence. */
  function Respond(body: Attempt<Json>, e: Engine): (r: Response)
    ensures body.Raised? ==> r == ServerError(body.text)
    ensures body.Done? && !body.value.JObject? ==>
              r == ServerError("'" + TypeName(body.value) + "' object has no attribute 'get'")
    ensures body.Done? && body.value.JObject? && !MissingFeatures(body) ==>
              var x := e.asVector(body.value.fields["features"]);
              (x.Raised? ==> r == ServerError(x.text)) &&
              (x.Done? && e.predict(x.value).Raised? ==> r == ServerError(e.predict(x.value).text))
    ensures Status(r) == 400 <==> MissingFeatures(body)
    ensures Status(r) == 500 <==> r.ServerError?
    ensures r.BadRequest? <==> MissingFeatures(body)
    ensures r.BadRequest? ==> r.error == MISSING_FEATURES
    ensures r.Ok? <==>
              body.Done? && body.value.JObject? && !MissingFeatures(body) &&
              var x := e.asVector(body.value.fields["features"]);
              x.Done? && e.predict(x.value).Done?
    ensures r.Ok? ==>
              var x := e.asVector(body.value.fields["features"]).value;
              e.predict(x) == Done(r.prediction) && r.confidence == Confidence(e, x)
  {
    match body
    case Raised(text) => ServerError(text)
    case Done(data) =>
      match Get(data, "features", JNull)
      case Raised(text) => ServerError(text)
      case Done(features) =>
        if features == JNull then BadRequest(MISSING_FEATURES)
        else
          match e.asVector(features)
          case Raised(text) => ServerError(text)
          case Done(x) =>
            match e.predict(x)
            case Raised(text) => ServerError(text)
            case Done(cls) => Ok(cls, Confidence(e, x))
  }

  /** The handler does not check the number of features: a row of any length
      other than 13 is never a 400; it is a 500 if the model raises on it and
      a 200 if the model accepts it. */
  lemma LengthIsNotChecked(fields: map<string, Json>, x: seq<real>, e: Engine)
    requires "features" in fields && fields["features"] != JNull
    requires e.asVector(fields["features"]) == Done(x) && |x| != 13
    ensures var r := Respond(Done(JObject(fields)), e);
            !r.BadRequest? &&
            (e.predict(x).Raised? ==> r == ServerError(e.predict(x).text)) &&
            (e.predict(x).Done? ==> r.Ok?)
  {
  }

  /** The counters and histograms the handler updates, histograms kept as the
      sequence of values they observed. */
  datatype Counters = Counters(
    requests: nat,            // REQUESTS
    errors: nat,              // ERRORS
    predictions: nat,         // PREDICTIONS
    confidence: seq<real>,    // CONFIDENCE observations
    latency: seq<real>)       // LATENCY observations

  /** The counters at module load. */
  const Zero := Counters(0, 0, 0, [], [])

  /** Every request ended as an error or as a prediction, and every prediction
      observed one latency and at most one confidence. */
  predicate Balanced(c: Counters) {
    c.requests == c.errors + c.predictions &&
    |c.latency| == c.predictions &&
    |c.confidence| <= c.predictions
  }

  /** The counters after a call that answered `r` in `elapsed` seconds: one
      more request, and exactly one more error or one more prediction. */
  function Tally(c: Counters, r: Response, elapsed: real): (c': Counters)
    ensures c'.requests == c.requests + 1
    ensures c'.errors + c'.predictions == c.errors + c.predictions + 1
    ensures c'.predictions == c.predictions + 1 <==> r.Ok?
    ensures !r.Ok? ==> c'.errors == c.errors + 1 && c'.confidence == c.confidence && c'.latency == c.latency
    ensures r.Ok? ==> c'.errors == c.errors && c'.latency == c.latency + [elapsed]
    ensures r.Ok? && r.confidence.None? ==> c'.confidence == c.confidence
    ensures r.Ok? && r.confidence.Some? ==> c'.confidence == c.confidence + [r.confidence.value]
  {
    match r
    case Ok(_, conf) =>
      c.(requests := c.requests + 1, predictions := c.predictions + 1,
         confidence := if conf.Some? then c.confidence + [conf.value] else c.confidence,
         latency := c.latency + [elapsed])
    case _ =>
      c.(requests := c.requests + 1, errors := c.errors + 1)
  }

  /** A `/predict` call: its body and the time it took. */
  datatype Call = Call(body: Attempt<Json>, elapsed: real)

  /** The counters after a sequence of calls. */
  function Serve(c: Counters, calls: seq<Call>, e: Engine): (c': Counters)
    decreases |calls|
  {
    if calls == [] then c
    else Serve(Tally(c, Respond(calls[0].body, e), calls[0].elapsed), calls[1..], e)
  }

  /** The number of calls answered with 200. */
  function Successes(calls: seq<Call>, e: Engine): (n: nat)
    ensures n <= |calls|
    decreases |calls|
  {
    if calls == [] then 0
    else (if Respond(calls[0].body, e).Ok? then 1 else 0) + Successes(calls[1..], e)
  }

  /** Any run of calls keeps the counters balanced, counts every call as a
      request and counts as predictions exactly the calls answered with 200,
      so at most one prediction per call. */
  lemma {:induction false} ServeBalanced(c: Counters, calls: seq<Call>, e: Engine)
    requires Balanced(c)
    ensures Balanced(Serve(c, calls, e))
    ensures Serve(c, calls, e).requests == c.requests + |calls|
    ensures Serve(c, calls, e).predictions == c.predictions + Successes(calls, e)
    ensures Serve(c, calls, e).predictions <= c.predictions + |calls|
    decreases |calls|
  {
    if calls != [] {
      ServeBalanced(Tally(c, Respond(calls[0].body, e), calls[0].elapsed), calls[1..], e);
    }
  }

  /** From module load, REQUESTS == ERRORS + PREDICTIONS after any calls. */
  lemma RequestsSplit(calls: seq<Call>, e: Engine)
    ensures var c := Serve(Zero, calls, e);
            c.requests == |calls| && c.requests == c.errors + c.predictions
  {
    ServeBalanced(Zero, calls, e);
  }

  /** The process-wide metrics objects of the server. */
  class Telemetry {
    var requests: nat
    var errors: nat
    var predictions: nat
    var confidence: seq<real>
    var latency: seq<real>

    function State(): (c: Counters)
      reads this
    {
      Counters(requests, errors, predictions, confidence, latency)
    }

    ghost predicate Valid()
      reads this
    {
      Balanced(State())
    }

    constructor ()
      ensures Valid() && State() == Zero
    {
      requests, errors, predictions := 0, 0, 0;
      confidence, latency := [], [];
    }

    /** POST /predict, taking `elapsed` seconds. */
    method Predict(body: Attempt<Json>, e: Engine, elapsed: real) returns (resp: Response)
      requires Valid()
      modifies this
      ensures Valid()
      ensures resp == Respond(body, e)
      ensures State() == Tally(old(State()), resp, elapsed)
    {
      requests := requests + 1;
      if body.Raised? {
        errors := errors + 1;
        return ServerError(body.text);
      }
      var features := Get(body.value, "features", JNull);
      if features.Raised? {
        errors := errors + 1;
        return ServerError(features.text);
      }
      if features.value == JNull {
        errors := errors + 1;
        return BadRequest(MISSING_FEATURES);
      }
      var x := e.asVector(features.value);
      if x.Raised? {
        errors := errors + 1;
        return ServerError(x.text);
      }
      var pred := e.predict(x.value);
      if pred.Raised? {
        errors := errors + 1;
        return ServerError(pred.text);
      }
      var conf: Option<real> := None;
      if e.proba.Some? {
        var proba := e.proba.value(x.value);
        if proba.Done? && |proba.value| > 0 {
          conf := Some(MaxOf(proba.value));
          confidence := confidence + [conf.value];
        }
      }
      predictions := predictions + 1;
      latency := latency + [elapsed];
      return Ok(pred.value, conf);
    }

    /** GET /healthz: constant, and touches no counter. */
    method Health() returns (text: string, status: int)
      ensures text == "ok" && status == 200
    {
      return "ok", 200;
    }
  }
}
