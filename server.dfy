/**
  The image-analysis server (backend/Node.js): the start-up check of its
  configuration, the single-image and batch endpoints, and the error handler.
  The remote classifier is a function parameter; timestamps are left out.
 */
module Server {
  import opened Wrappers
  import opened Wire

  // ---------------------------------------------------------------- start-up

  type Environment = map<string, string>

  const RequiredEnvVars: seq<string> := ["PREDICTION_KEY", "PREDICTION_ENDPOINT", "PROJECT_ID", "PUBLISHED_NAME"]
  const DefaultPort := "5000"

  /** `process.env[name]` is truthy: present and not the empty string. */
  predicate IsSet(env: Environment, name: string) {
    name in env && env[name] != ""
  }

  /** The names among `names` that are not set, in the order of `names`. */
  function Unset(names: seq<string>, env: Environment): (r: seq<string>)
    ensures |r| <= |names|
    ensures forall v :: v in r <==> v in names && !IsSet(env, v)
    decreases |names|
  {
    if names == [] then []
    else (if IsSet(env, names[0]) then [] else [names[0]]) + Unset(names[1..], env)
  }

  function MissingEnvVars(env: Environment): seq<string> {
    Unset(RequiredEnvVars, env)
  }

  /** What the server reads from its environment once it may start. */
  datatype Config = Config(predictionKey: string, endpoint: string, projectId: string,
                           publishedName: string, port: string)

  datatype Startup = Exited(code: int, missing: seq<string>) | Started(config: Config)

  /** Start-up: exit with status 1, naming the missing variables, or start with the configuration. */
  function Start(env: Environment): (r: Startup)
    ensures r.Exited? <==> exists v | v in RequiredEnvVars :: !IsSet(env, v)
    ensures r.Exited? ==> r.code == 1 && r.missing == MissingEnvVars(env) && r.missing != []
    ensures r.Started? ==> r.config == Config(env["PREDICTION_KEY"], env["PREDICTION_ENDPOINT"],
                                              env["PROJECT_ID"], env["PUBLISHED_NAME"],
                                              if IsSet(env, "PORT") then env["PORT"] else DefaultPort)
  {
    var missing := MissingEnvVars(env);
    if |missing| > 0 then
      assert missing[0] in missing;
      Exited(1, missing)
    else
      assert forall v | v in RequiredEnvVars :: v !in missing;
      Started(Config(env["PREDICTION_KEY"], env["PREDICTION_ENDPOINT"], env["PROJECT_ID"],
                     env["PUBLISHED_NAME"], if IsSet(env, "PORT") then env["PORT"] else DefaultPort))
  }

  /** The missing names are reported in the order in which they are declared. */
  lemma MissingKeepsDeclaredOrder()
    ensures MissingEnvVars(map["PROJECT_ID" := "p", "PREDICTION_ENDPOINT" := ""])
         == ["PREDICTION_KEY", "PREDICTION_ENDPOINT", "PUBLISHED_NAME"]
  {
    var env := map["PROJECT_ID" := "p", "PREDICTION_ENDPOINT" := ""];
    assert RequiredEnvVars[1..][1..][1..][1..] == [];
    assert IsSet(env, "PROJECT_ID") && !IsSet(env, "PREDICTION_KEY");
    assert !IsSet(env, "PREDICTION_ENDPOINT") && !IsSet(env, "PUBLISHED_NAME");
  }

  // ---------------------------------------------------------------- classifier

  /** An error thrown by the classifier client: an optional HTTP status and a message ("" when absent). */
  datatype ClassifierError = ClassifierError(status: Option<int>, message: string)

  datatype Classification = Classified(predictions: seq<Prediction>) | ClassifyFailed(error: ClassifierError)

  /** The remote classifier, applied to an image's bytes. */
  type Classifier = seq<bv8> -> Classification

  // ---------------------------------------------------------------- responses

  datatype FileMetadata = FileMetadata(filename: string, mimetype: string, size: nat)

  /** One entry of a batch answer: the file's predictions, or the classifier's error message. */
  datatype FileResult =
    | Analyzed(filename: string, predictions: seq<Prediction>, mimetype: string, size: nat)
    | Failed(filename: string, error: string)

  datatype BatchMetadata = BatchMetadata(totalFiles: nat, successfulAnalyses: nat, failedAnalyses: nat)

  datatype Body =
    | ErrorBody(error: string)
    | AnalysisBody(predictions: seq<Prediction>, metadata: FileMetadata)
    | BatchBody(results: seq<FileResult>, summary: BatchMetadata)

  datatype Response = Response(status: int, body: Body)

  /** The `error` field a body carries, "" where it has none. */
  function ErrorField(b: Body): string {
    if b.ErrorBody? then b.error else ""
  }

  // ---------------------------------------------------------------- error handler

  const InternalServerError := "Internal server error"

  /** A truthy status: present and not 0. */
  predicate HasStatus(err: ClassifierError) {
    err.status.Some? && err.status.value != 0
  }

  /** `errorHandler`: the error's own status and message, each defaulting when falsy. */
  function ErrorHandler(err: ClassifierError): (r: Response)
    ensures r.body.ErrorBody? && r.body.error != "" && r.status != 0
    ensures r.status == (if HasStatus(err) then err.status.value else 500)
    ensures r.body.error == err.message || (err.message == "" && r.body.error == InternalServerError)
  {
    Response(if HasStatus(err) then err.status.value else 500,
             ErrorBody(if err.message != "" then err.message else InternalServerError))
  }

  // ---------------------------------------------------------------- POST /api/analyze

  const NoImageFile := "No image file provided"

  /** The single-image endpoint; `file` is None when the request carried no `image` field. */
  function AnalyzeImage(file: Option<ImageFile>, classify: Classifier): (r: Response)
    ensures file.None? ==> r == Response(400, ErrorBody(NoImageFile))
    ensures file.Some? && classify(file.value.buffer).Classified? ==>
              r.status == 200 && r.body.AnalysisBody?
              && r.body.predictions == classify(file.value.buffer).predictions
              && r.body.metadata == FileMetadata(file.value.originalname, file.value.mimetype, |file.value.buffer|)
    ensures file.Some? && classify(file.value.buffer).ClassifyFailed? ==>
              r == ErrorHandler(classify(file.value.buffer).error)
    ensures r.body.ErrorBody? <==> file.None? || classify(file.value.buffer).ClassifyFailed?
    ensures r.body.ErrorBody? ==> r.body.error != ""
  {
    match file
    case None => Response(400, ErrorBody(NoImageFile))
    case Some(f) =>
      match classify(f.buffer)
      case Classified(ps) =>
        Response(200, AnalysisBody(ps, FileMetadata(f.originalname, f.mimetype, |f.buffer|)))
      case ClassifyFailed(err) => ErrorHandler(err)
  }

  // ---------------------------------------------------------------- POST /api/analyze-batch

  const NoImageFiles := "No image files provided"

  /** One file of a batch, classified on its own: a failure stays in this file's entry. */
  function ResultFor(file: ImageFile, classify: Classifier): (r: FileResult)
    ensures r.filename == file.originalname
    ensures r.Failed? <==> classify(file.buffer).ClassifyFailed?
    ensures r.Analyzed? ==> && r.predictions == classify(file.buffer).predictions
                            && r.mimetype == file.mimetype && r.size == |file.buffer|
    ensures r.Failed? ==> r.error == classify(file.buffer).error.message
  {
    match classify(file.buffer)
    case Classified(ps) => Analyzed(file.originalname, ps, file.mimetype, |file.buffer|)
    case ClassifyFailed(err) => Failed(file.originalname, err.message)
  }

  /** `r.error` is truthy. */
  predicate HasError(r: FileResult) {
    r.Failed? && r.error != ""
  }

  function CountSuccessful(results: seq<FileResult>): nat
    decreases |results|
  {
    if results == [] then 0 else (if HasError(results[0]) then 0 else 1) + CountSuccessful(results[1..])
  }

  function CountFailed(results: seq<FileResult>): nat
    decreases |results|
  {
    if results == [] then 0 else (if HasError(results[0]) then 1 else 0) + CountFailed(results[1..])
  }

  /** Every result is counted once, as a success or as a failure. */
  lemma {:induction false} CountsPartition(results: seq<FileResult>)
    ensures CountSuccessful(results) + CountFailed(results) == |results|
    decreases |results|
  {
    if results != [] {
      CountsPartition(results[1..]);
    }
  }

  /** The batch endpoint; `files` is None when the request carried no `images` field. */
  function AnalyzeBatch(files: Option<seq<ImageFile>>, classify: Classifier): (r: Response)
    ensures (files.None? || files.value == []) ==> r == Response(400, ErrorBody(NoImageFiles))
    ensures files.Some? && files.value != [] ==>
              && r.status == 200 && r.body.BatchBody?
              && |r.body.results| == |files.value|
              && (forall i | 0 <= i < |files.value| ::
                    r.body.results[i] == ResultFor(files.value[i], classify)
                    && r.body.results[i].filename == files.value[i].originalname)
              && r.body.summary.totalFiles == |files.value|
              && r.body.summary.successfulAnalyses + r.body.summary.failedAnalyses == r.body.summary.totalFiles
  {
    if files.None? || files.value == [] then Response(400, ErrorBody(NoImageFiles))
    else
      var results := seq(|files.value|, i requires 0 <= i < |files.value| => ResultFor(files.value[i], classify));
      CountsPartition(results);
      Response(200, BatchBody(results,
        BatchMetadata(|files.value|, CountSuccessful(results), CountFailed(results))))
  }

  /** How many of `files` the classifier accepts. */
  function CountClassified(files: seq<ImageFile>, classify: Classifier): nat
    decreases |files|
  {
    if files == [] then 0
    else (if classify(files[0].buffer).Classified? then 1 else 0) + CountClassified(files[1..], classify)
  }

  /**
    When every classifier error has a message, `successfulAnalyses` is the
    number of files the classifier accepted and `failedAnalyses` the rest.
   */
  lemma {:induction false} SuccessCountIsClassifiedCount(files: seq<ImageFile>, classify: Classifier)
    requires files != []
    requires forall f | f in files && classify(f.buffer).ClassifyFailed? :: classify(f.buffer).error.message != ""
    ensures AnalyzeBatch(Some(files), classify).body.summary.successfulAnalyses == CountClassified(files, classify)
    ensures AnalyzeBatch(Some(files), classify).body.summary.failedAnalyses == |files| - CountClassified(files, classify)
  {
    var results := AnalyzeBatch(Some(files), classify).body.results;
    CountsPartition(results);
    SuccessCountIsClassifiedCountFrom(files, results, classify);
  }

  lemma {:induction false} SuccessCountIsClassifiedCountFrom(files: seq<ImageFile>, results: seq<FileResult>, classify: Classifier)
    requires |results| == |files|
    requires forall i | 0 <= i < |files| :: results[i] == ResultFor(files[i], classify)
    requires forall f | f in files && classify(f.buffer).ClassifyFailed? :: classify(f.buffer).error.message != ""
    ensures CountSuccessful(results) == CountClassified(files, classify)
    decreases |files|
  {
    if files != [] {
      assert files[0] in files;
      assert forall f | f in files[1..] :: f in files;
      SuccessCountIsClassifiedCountFrom(files[1..], results[1..], classify);
    }
  }

  /** A classifier error without a message leaves `error` falsy, so that file counts as a success. */
  lemma SilentFailureCountsAsSuccess(file: ImageFile, classify: Classifier)
    requires classify(file.buffer) == ClassifyFailed(ClassifierError(None, ""))
    ensures AnalyzeBatch(Some([file]), classify).body.results == [Failed(file.originalname, "")]
    ensures AnalyzeBatch(Some([file]), classify).body.summary == BatchMetadata(1, 1, 0)
  {
    var results := AnalyzeBatch(Some([file]), classify).body.results;
    assert results[1..] == [];
  }

  /** One file's classifier outcome decides its entry, whatever happens to the others. */
  lemma BatchIsolatesFailures(files: seq<ImageFile>, c1: Classifier, c2: Classifier, i: nat)
    requires i < |files| && c1(files[i].buffer) == c2(files[i].buffer)
    ensures AnalyzeBatch(Some(files), c1).body.results[i] == AnalyzeBatch(Some(files), c2).body.results[i]
  {
  }
}
