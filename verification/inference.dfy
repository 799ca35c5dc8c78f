/**
 * The inference service's request handling: the order of the upload guards, the
 * first-index arg-max over the model's output vector, the label lookup, the
 * confidence threshold that adds the full probability table, and the start-up
 * block whose partial failure leaves the service reporting a loaded model.
 *
 * Image decoding, preprocessing and the interpreter call are opaque: a request's
 * payload is handed to a function `run` that either yields the output vector or
 * raises.
 */
module Inference {
  import opened Wrappers

  /** The class names, in the order of the model's output units. */
  const Labels: seq<string> := ["EWaste", "NonRecyclable", "Organic", "Recyclable", "StoreDropOff"]

  /** The upload size limit, 10 MiB. */
  const MaxUploadBytes: nat := 10 * 1024 * 1024

  /** Below this confidence the response also carries every class's score. */
  const ConfidenceThreshold: real := 0.8

  const NoImageMessage := "No image file provided"
  const NoFileMessage := "No file selected"
  const TooLargeMessage := "File too large (max 10MB)"
  const FailureMessage := "Failed to process image"

  type Byte = bv8

  /** One uploaded file: its client-side name and its bytes. */
  datatype Upload = Upload(filename: string, data: seq<Byte>)

  /** The files of a multipart request, by form-field name. */
  datatype Request = Request(files: map<string, Upload>)

  /** What decoding, preprocessing and running the model yield for one payload. */
  datatype Inference = Output(scores: seq<real>) | Raised

  /**
   * Which module-level names the start-up block managed to bind: `interpreter`
   * itself, and the tensor descriptions read after `allocate_tensors`.
   */
  datatype Startup = Startup(interpreterBound: bool, detailsBound: bool)

  datatype Body =
    | ErrorBody(error: string)
    | PredictionBody(className: string, confidence: real, allProbabilities: Option<map<string, real>>)

  datatype Response = Response(status: nat, body: Body)

  datatype HealthReport = HealthReport(status: string, modelLoaded: bool)

  /**
   * The start-up block: constructing the interpreter binds `interpreter`; a failure
   * of `allocate_tensors` or of reading the tensor descriptions is caught after that
   * binding has happened.
   */
  function LoadModel(constructs: bool, allocates: bool, describes: bool): (s: Startup)
    ensures s.interpreterBound <==> constructs
    ensures s.detailsBound <==> constructs && allocates && describes
  {
    if !constructs then Startup(false, false)
    else if !allocates then Startup(true, false)
    else Startup(true, describes)
  }

  /** `/health`: the model counts as loaded when the name `interpreter` exists. */
  function Health(s: Startup): (r: HealthReport)
    ensures r.status == "healthy"
    ensures r.modelLoaded <==> s.interpreterBound
  {
    HealthReport("healthy", s.interpreterBound)
  }

  /** `np.argmax`: the first index holding the maximum value. */
  function FirstArgMax(v: seq<real>): (k: nat)
    requires |v| > 0
    ensures k < |v|
    ensures forall j :: 0 <= j < |v| ==> v[j] <= v[k]
    ensures forall j :: 0 <= j < k ==> v[j] < v[k]
  {
    if |v| == 1 then 0
    else
      var k := FirstArgMax(v[..|v| - 1]);
      assert forall j :: 0 <= j < |v| - 1 ==> v[..|v| - 1][j] == v[j];
      if v[|v| - 1] > v[k] then |v| - 1 else k
  }

  /** The dictionary comprehension of the low-confidence branch: each label to its score. */
  function AllProbabilities(scores: seq<real>): (m: map<string, real>)
    requires |scores| >= |Labels|
    ensures m.Keys == set l | l in Labels
    ensures forall i :: 0 <= i < |Labels| ==> m[Labels[i]] == scores[i]
  {
    map[Labels[0] := scores[0], Labels[1] := scores[1], Labels[2] := scores[2],
        Labels[3] := scores[3], Labels[4] := scores[4]]
  }

  /**
   * Building the success body from the output vector, or `None` where Python raises:
   * arg-max of an empty vector, an index past the label list, or a low-confidence
   * vector too short for the probability table.
   */
  function ShapeResult(scores: seq<real>): (r: Option<Body>)
    ensures r.Some? ==>
              && |scores| > 0
              && var k := FirstArgMax(scores);
              && k < |Labels|
              && r.value.PredictionBody?
              && r.value.className == Labels[k]
              && r.value.confidence == scores[k]
              && (r.value.allProbabilities.Some? <==> scores[k] < ConfidenceThreshold)
              && (r.value.allProbabilities.Some? ==>
                    |scores| >= |Labels| && r.value.allProbabilities.value == AllProbabilities(scores))
    ensures |scores| == |Labels| ==> r.Some?
    ensures r.None? <==>
              || |scores| == 0
              || FirstArgMax(scores) >= |Labels|
              || (scores[FirstArgMax(scores)] < ConfidenceThreshold && |scores| < |Labels|)
  {
    if |scores| == 0 then None
    else
      var k := FirstArgMax(scores);
      if k >= |Labels| then None
      else
        var confidence := scores[k];
        if confidence < ConfidenceThreshold then
          if |scores| < |Labels| then None
          else Some(PredictionBody(Labels[k], confidence, Some(AllProbabilities(scores))))
        else
          Some(PredictionBody(Labels[k], confidence, None))
  }

  /** `POST /predict`. */
  function Predict(req: Request, s: Startup, run: seq<Byte> -> Inference): (r: Response)
    ensures "image" !in req.files ==> r == Response(400, ErrorBody(NoImageMessage))
    ensures "image" in req.files && req.files["image"].filename == "" ==>
              r == Response(400, ErrorBody(NoFileMessage))
    ensures "image" in req.files && req.files["image"].filename != "" &&
            |req.files["image"].data| > MaxUploadBytes ==>
              r == Response(400, ErrorBody(TooLargeMessage))
    ensures "image" in req.files && req.files["image"].filename != "" &&
            |req.files["image"].data| <= MaxUploadBytes ==>
              r.status != 400
    ensures r.status == 200 || r.status == 400 || r.status == 500
    ensures "image" in req.files && req.files["image"].filename != "" &&
            |req.files["image"].data| <= MaxUploadBytes &&
            s.interpreterBound && s.detailsBound &&
            run(req.files["image"].data).Output? &&
            ShapeResult(run(req.files["image"].data).scores).Some? ==>
              r == Response(200, ShapeResult(run(req.files["image"].data).scores).value)
    ensures r.status == 500 ==> r.body == ErrorBody(FailureMessage)
    ensures r.status == 200 ==> s.interpreterBound && s.detailsBound
    ensures r.status == 200 ==>
              && r.body.PredictionBody?
              && r.body.className in Labels
              && "image" in req.files
              && run(req.files["image"].data).Output?
              && Some(r.body) == ShapeResult(run(req.files["image"].data).scores)
  {
    if "image" !in req.files then Response(400, ErrorBody(NoImageMessage))
    else
      var file := req.files["image"];
      if file.filename == "" then Response(400, ErrorBody(NoFileMessage))
      else if |file.data| > MaxUploadBytes then Response(400, ErrorBody(TooLargeMessage))
      else if !(s.interpreterBound && s.detailsBound) then
        // `prep_image` or the interpreter call names an unbound global: the
        // NameError is caught like any other exception.
        Response(500, ErrorBody(FailureMessage))
      else
        match run(file.data)
        case Raised => Response(500, ErrorBody(FailureMessage))
        case Output(scores) =>
          match ShapeResult(scores)
          case None => Response(500, ErrorBody(FailureMessage))
          case Some(body) => Response(200, body)
  }

  /** A request rejected by one of the three upload guards never reaches decoding or inference. */
  lemma GuardsPrecedeInference(req: Request, s1: Startup, s2: Startup,
                               run1: seq<Byte> -> Inference, run2: seq<Byte> -> Inference)
    requires || "image" !in req.files
             || req.files["image"].filename == ""
             || |req.files["image"].data| > MaxUploadBytes
    ensures Predict(req, s1, run1) == Predict(req, s2, run2)
    ensures Predict(req, s1, run1).status == 400
  {
  }

  /**
   * When `allocate_tensors` fails after the interpreter was constructed, `/health`
   * reports the model as loaded while every request that passes the guards fails.
   */
  lemma AllocationFailureLooksHealthy(describes: bool, req: Request, run: seq<Byte> -> Inference)
    requires "image" in req.files && req.files["image"].filename != ""
    requires |req.files["image"].data| <= MaxUploadBytes
    ensures Health(LoadModel(true, false, describes)).modelLoaded
    ensures Predict(req, LoadModel(true, false, describes), run) ==
              Response(500, ErrorBody(FailureMessage))
  {
  }

  /**
   * When the interpreter constructor itself raised, `/health` reports no model and every
   * upload that passes the guards fails, whatever the interpreter would have returned.
   */
  lemma ConstructionFailureFailsEveryUpload(allocates: bool, describes: bool, req: Request,
                                            run: seq<Byte> -> Inference)
    requires "image" in req.files && req.files["image"].filename != ""
    requires |req.files["image"].data| <= MaxUploadBytes
    ensures !Health(LoadModel(false, allocates, describes)).modelLoaded
    ensures Predict(req, LoadModel(false, allocates, describes), run) ==
              Response(500, ErrorBody(FailureMessage))
  {
  }

  /**
   * With a loaded model and a five-score output, an accepted upload is answered with the
   * label of the first maximal score and that score as the confidence.
   */
  lemma FiveScoresAreAnswered(req: Request, run: seq<Byte> -> Inference)
    requires "image" in req.files && req.files["image"].filename != ""
    requires |req.files["image"].data| <= MaxUploadBytes
    requires run(req.files["image"].data).Output?
    requires |run(req.files["image"].data).scores| == |Labels|
    ensures var scores := run(req.files["image"].data).scores;
            var r := Predict(req, LoadModel(true, true, true), run);
            && r.status == 200
            && r.body.className == Labels[FirstArgMax(scores)]
            && r.body.confidence == scores[FirstArgMax(scores)]
            && (r.body.allProbabilities.Some? <==> r.body.confidence < ConfidenceThreshold)
  {
  }

  /** A low-confidence vector with its maximum at index 2 is answered "Organic" with all five scores. */
  lemma LowConfidenceOrganic()
    ensures var scores := [0.1, 0.2, 0.42, 0.18, 0.1];
            ShapeResult(scores) ==
              Some(PredictionBody("Organic", 0.42, Some(map["EWaste" := 0.1, "NonRecyclable" := 0.2,
                "Organic" := 0.42, "Recyclable" := 0.18, "StoreDropOff" := 0.1])))
  {
    var scores := [0.1, 0.2, 0.42, 0.18, 0.1];
    assert FirstArgMax(scores) == 2;
  }
}
