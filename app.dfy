/**
  The browser page (the `ProductAnalyzer` component): choosing images,
  analysing them in windows of five with one request per image, tallying
  fresh and rotten verdicts, and collecting product records from the form.
  Each request is a function parameter from an image to what the transport
  delivered.
 */
module App {
  import opened Wrappers
  import opened Text
  import opened Wire
  import opened Verdict
  import opened Batching
  import Server

  const BatchSize: nat := 5

  // ---------------------------------------------------------------- one request

  /** What one upload of an image comes back with. */
  datatype Transport =
    | Delivered(response: Server.Response)  // the server answered
    | TimedOut                              // the 30-second client timeout fired
    | ConnectionFailed(code: string)        // no answer at all; the client's error code

  /**
    What the error handler of the analysis reads from a thrown error:
    `error.response?.data?.error` ("" when absent or empty) and `error.code` ("" when absent).
   */
  datatype RequestFailure = RequestFailure(responseError: string, code: string)

  /** A `TypeError` raised in the page itself carries neither a response nor a code. */
  const ThrownTypeError := RequestFailure("", "")

  /** The code the HTTP client gives a rejected status: 4xx and 5xx have one, others none. */
  function StatusErrorCode(status: int): string {
    if 400 <= status < 500 then "ERR_BAD_REQUEST"
    else if 500 <= status < 600 then "ERR_BAD_RESPONSE"
    else ""
  }

  /**
    The `await` of one upload: a 2xx answer yields its `predictions` (an answer
    without them makes `processPredictions` throw a TypeError); any other
    status, a timeout or a lost connection is thrown.
   */
  function Upload(t: Transport): Result<seq<Prediction>, RequestFailure>
  {
    match t
    case Delivered(resp) =>
      if 200 <= resp.status < 300 then
        if resp.body.AnalysisBody? then Ok(resp.body.predictions) else Err(ThrownTypeError)
      else Err(RequestFailure(Server.ErrorField(resp.body), StatusErrorCode(resp.status)))
    case TimedOut => Err(RequestFailure("", "ECONNABORTED"))
    case ConnectionFailed(code) => Err(RequestFailure("", code))
  }

  /** The callback run for one image: its verdict, or what it throws. */
  function FileVerdict(t: Transport): Result<QualityVerdict, RequestFailure>
  {
    match Upload(t)
    case Err(f) => Err(f)
    case Ok(ps) =>
      match ProcessPredictions(ps)
      case Ok(v) => Ok(v)
      case Err(_) => Err(ThrownTypeError)
  }

  /**
    An image yields a verdict exactly when a 2xx answer carries predictions
    of which at least one is fresh or rotten; the verdict is then fresh or rotten.
   */
  lemma FileVerdictIff(t: Transport)
    ensures FileVerdict(t).Ok? <==>
              && t.Delivered? && 200 <= t.response.status < 300 && t.response.body.AnalysisBody?
              && exists p | p in t.response.body.predictions :: IsQualityTag(p.tagName)
    ensures FileVerdict(t).Ok? ==> IsQualityTag(FileVerdict(t).value.tagName)
  {
  }

  // ---------------------------------------------------------------- the whole run, as a fold

  /**
    Applies `step` to each element in order and collects the values; the
    first error stops the collection and is its outcome.
   */
  function Collect<T, V, E>(xs: seq<T>, step: T -> Result<V, E>): Result<seq<V>, E>
    decreases |xs|
  {
    if xs == [] then Ok([])
    else
      match Collect(xs[..|xs| - 1], step)
      case Err(e) => Err(e)
      case Ok(vs) =>
        match step(xs[|xs| - 1])
        case Err(e) => Err(e)
        case Ok(v) => Ok(vs + [v])
  }

  /** What the page makes of one image, given how the server answers it. */
  function VerdictStep(post: ImageFile -> Transport): ImageFile -> Result<QualityVerdict, RequestFailure> {
    (f: ImageFile) => FileVerdict(post(f))
  }

  /** The analysis of `files` in order: every verdict, or the first failure, which aborts the run. */
  function Run(files: seq<ImageFile>, post: ImageFile -> Transport): Result<seq<QualityVerdict>, RequestFailure> {
    Collect(files, VerdictStep(post))
  }

  /** How many verdicts carry `tag` once lower-cased. */
  function CountTag(vs: seq<QualityVerdict>, tag: string): nat
    decreases |vs|
  {
    if vs == [] then 0
    else CountTag(vs[..|vs| - 1], tag) + (if Lower(vs[|vs| - 1].tagName) == tag then 1 else 0)
  }

  /** The count over a concatenation is the sum of the counts. */
  lemma {:induction false} CountTagAppend(us: seq<QualityVerdict>, vs: seq<QualityVerdict>, tag: string)
    ensures CountTag(us + vs, tag) == CountTag(us, tag) + CountTag(vs, tag)
    decreases |vs|
  {
    if vs == [] {
      assert us + vs == us;
    } else {
      var init := vs[..|vs| - 1];
      assert (us + vs)[..|us + vs| - 1] == us + init;
      assert (us + vs)[|us + vs| - 1] == vs[|vs| - 1];
      CountTagAppend(us, init, tag);
    }
  }

  const AnalyzeErrorPrefix := "Error analyzing images. "
  const TimedOutMessage := "Request timed out. Please try again."
  const ConnectionMessage := "Please check your connection and try again."

  /**
    The message shown when the run throws. The test reads as
    `(responseError || code == "ECONNABORTED") ? timed out : connection`,
    so any error text from the server is reported as a timeout.
   */
  function AnalyzeErrorMessage(f: RequestFailure): (m: string)
    ensures m == AnalyzeErrorPrefix + TimedOutMessage <==> f.responseError != "" || f.code == "ECONNABORTED"
    ensures m == AnalyzeErrorPrefix + TimedOutMessage || m == AnalyzeErrorPrefix + ConnectionMessage
  {
    AnalyzeErrorPrefix + (if f.responseError != "" || f.code == "ECONNABORTED" then TimedOutMessage else ConnectionMessage)
  }

  /** Once a prefix fails, the whole collection fails with that error. */
  lemma {:induction false} CollectPrefixFailure<T, V, E>(xs: seq<T>, k: nat, step: T -> Result<V, E>)
    requires k <= |xs| && Collect(xs[..k], step).Err?
    ensures Collect(xs, step) == Collect(xs[..k], step)
    decreases |xs| - k
  {
    if k < |xs| {
      assert xs[..k + 1][..k] == xs[..k];
      CollectPrefixFailure(xs, k + 1, step);
    } else {
      assert xs[..k] == xs;
    }
  }

  /**
    The collection succeeds exactly when every step does; then it holds one
    value per element, in order.
   */
  lemma {:induction false} CollectValues<T, V, E>(xs: seq<T>, step: T -> Result<V, E>)
    ensures Collect(xs, step).Ok? <==> forall i | 0 <= i < |xs| :: step(xs[i]).Ok?
    ensures Collect(xs, step).Ok? ==>
              |Collect(xs, step).value| == |xs|
              && forall i | 0 <= i < |xs| :: step(xs[i]) == Ok(Collect(xs, step).value[i])
    decreases |xs|
  {
    if xs != [] {
      var init := xs[..|xs| - 1];
      var last := xs[|xs| - 1];
      CollectValues(init, step);
      assert forall i | 0 <= i < |init| :: init[i] == xs[i];
      if Collect(init, step).Ok? && step(last).Ok? {
        var vs := Collect(init, step).value;
        var v := step(last).value;
        assert Collect(xs, step) == Ok(vs + [v]);
        forall i | 0 <= i < |xs|
          ensures step(xs[i]) == Ok((vs + [v])[i])
        {
          if i < |init| {
            assert step(init[i]) == Ok(vs[i]);
          }
        }
      }
    }
  }

  /** One more step of the collection: it extends the values, or its error ends the whole collection. */
  lemma CollectStep<T, V, E>(xs: seq<T>, k: nat, step: T -> Result<V, E>)
    requires k < |xs| && Collect(xs[..k], step).Ok?
    ensures step(xs[k]).Ok? ==>
              Collect(xs[..k + 1], step) == Ok(Collect(xs[..k], step).value + [step(xs[k]).value])
    ensures step(xs[k]).Err? ==> Collect(xs, step) == Err(step(xs[k]).error)
  {
    assert xs[..k + 1][..k] == xs[..k];
    assert xs[..k + 1][k] == xs[k];
    if step(xs[k]).Err? {
      CollectPrefixFailure(xs, k + 1, step);
    }
  }

  /** Collecting a concatenation: the first part, then the second, the first error winning. */
  lemma {:induction false} CollectConcat<T, V, E>(a: seq<T>, b: seq<T>, step: T -> Result<V, E>)
    ensures Collect(a + b, step) ==
              match Collect(a, step)
              case Err(e) => Err(e)
              case Ok(vs) =>
                match Collect(b, step)
                case Err(e) => Err(e)
                case Ok(ws) => Ok(vs + ws)
    decreases |b|
  {
    if b == [] {
      assert a + b == a;
      assert Collect(a, step).Ok? ==> Collect(a, step).value + [] == Collect(a, step).value;
    } else {
      var init, last := b[..|b| - 1], b[|b| - 1];
      assert (a + b)[..|a + b| - 1] == a + init;
      assert (a + b)[|a + b| - 1] == last;
      CollectConcat(a, init, step);
      if Collect(a, step).Ok? && Collect(init, step).Ok? && step(last).Ok? {
        var vs, ws, v := Collect(a, step).value, Collect(init, step).value, step(last).value;
        assert vs + ws + [v] == vs + (ws + [v]);
      }
    }
  }

  /** Collecting the slice `xs[i..end]` after the prefix `xs[..i]` extends it, or its error ends the whole collection. */
  lemma CollectSlice<T, V, E>(xs: seq<T>, i: nat, end: nat, step: T -> Result<V, E>)
    requires i <= end <= |xs| && Collect(xs[..i], step).Ok?
    ensures Collect(xs[i..end], step).Ok? ==>
              Collect(xs[..end], step) == Ok(Collect(xs[..i], step).value + Collect(xs[i..end], step).value)
    ensures Collect(xs[i..end], step).Err? ==>
              && Collect(xs[..end], step) == Err(Collect(xs[i..end], step).error)
              && Collect(xs, step) == Err(Collect(xs[i..end], step).error)
  {
    assert xs[..end] == xs[..i] + xs[i..end];
    CollectConcat(xs[..i], xs[i..end], step);
    if Collect(xs[i..end], step).Err? {
      CollectPrefixFailure(xs, end, step);
    }
  }

  /** A failed collection reports the error of the first step that fails. */
  lemma {:induction false} CollectFirstFailure<T, V, E>(xs: seq<T>, step: T -> Result<V, E>) returns (k: nat)
    requires Collect(xs, step).Err?
    ensures k < |xs| && step(xs[k]) == Err(Collect(xs, step).error)
    ensures forall j | 0 <= j < k :: step(xs[j]).Ok?
    decreases |xs|
  {
    var init := xs[..|xs| - 1];
    assert forall i | 0 <= i < |init| :: init[i] == xs[i];
    if Collect(init, step).Err? {
      k := CollectFirstFailure(init, step);
    } else {
      CollectValues(init, step);
      k := |xs| - 1;
    }
  }

  /**
    A run succeeds exactly when every image yields a verdict; it then holds
    one verdict per image, in selection order. A failed run reports the first
    image, in selection order, that failed.
   */
  lemma RunVerdicts(files: seq<ImageFile>, post: ImageFile -> Transport)
    ensures Run(files, post).Ok? <==> forall i | 0 <= i < |files| :: FileVerdict(post(files[i])).Ok?
    ensures Run(files, post).Ok? ==>
              |Run(files, post).value| == |files|
              && forall i | 0 <= i < |files| :: FileVerdict(post(files[i])) == Ok(Run(files, post).value[i])
    ensures Run(files, post).Err? ==>
              exists k | 0 <= k < |files| :: FileVerdict(post(files[k])) == Err(Run(files, post).error)
                                             && forall j | 0 <= j < k :: FileVerdict(post(files[j])).Ok?
  {
    var step := VerdictStep(post);
    CollectValues(files, step);
    if Run(files, post).Err? {
      var k := CollectFirstFailure(files, step);
    }
  }

  /** Verdicts that are all fresh or rotten are counted exactly once each. */
  lemma {:induction false} QualityCountsCoverAll(vs: seq<QualityVerdict>)
    requires forall i | 0 <= i < |vs| :: IsQualityTag(vs[i].tagName)
    ensures CountTag(vs, "fresh") + CountTag(vs, "rotten") == |vs|
    decreases |vs|
  {
    if vs != [] {
      QualityCountsCoverAll(vs[..|vs| - 1]);
    }
  }

  /**
    After a successful run every selected image has been counted as fresh or
    as rotten: no verdict is null, so none is dropped, and
    fresh + rotten == the number of selected images.
   */
  lemma RunCountsEveryFile(files: seq<ImageFile>, post: ImageFile -> Transport)
    requires Run(files, post).Ok?
    ensures CountTag(Run(files, post).value, "fresh") + CountTag(Run(files, post).value, "rotten") == |files|
  {
    var vs := Run(files, post).value;
    CollectValues(files, VerdictStep(post));
    forall i | 0 <= i < |vs| ensures IsQualityTag(vs[i].tagName) {
      FileVerdictIff(post(files[i]));
    }
    QualityCountsCoverAll(vs);
  }

  /**
    Every error the server answers for one image (a missing file, a failed
    classification) is shown as a timeout, unless its status is a 2xx one.
   */
  lemma ServerErrorsReadAsTimeout(file: Option<ImageFile>, classify: Server.Classifier)
    requires var resp := Server.AnalyzeImage(file, classify); resp.body.ErrorBody? && !(200 <= resp.status < 300)
    ensures FileVerdict(Delivered(Server.AnalyzeImage(file, classify))).Err?
    ensures AnalyzeErrorMessage(FileVerdict(Delivered(Server.AnalyzeImage(file, classify))).error)
         == AnalyzeErrorPrefix + TimedOutMessage
  {
  }

  // ---------------------------------------------------------------- the analysis loop

  /**
    The loop stopped because of a failure in the last of the windows `sent`:
    every image of the earlier windows yields a verdict, and some image of
    the last one does not.
   */
  predicate StopsAtWindow(post: ImageFile -> Transport, sent: seq<seq<ImageFile>>) {
    && sent != []
    && Collect(Flatten(sent[..|sent| - 1]), VerdictStep(post)).Ok?
    && Collect(Flatten(sent), VerdictStep(post)).Err?
  }

  /** A failure in the window at `i` stops the loop there. */
  lemma StopsAtNextWindow(files: seq<ImageFile>, post: ImageFile -> Transport, i: nat, sent: seq<seq<ImageFile>>)
    requires i < |files| && Flatten(sent) == files[..i]
    requires Flatten(sent + [files[i..Min(i + BatchSize, |files|)]]) == files[..Min(i + BatchSize, |files|)]
    requires Collect(files[..i], VerdictStep(post)).Ok?
    requires Collect(files[..Min(i + BatchSize, |files|)], VerdictStep(post)).Err?
    ensures StopsAtWindow(post, sent + [files[i..Min(i + BatchSize, |files|)]])
  {
    assert (sent + [files[i..Min(i + BatchSize, |files|)]])[..|sent|] == sent;
  }

  /** A window that fails cannot come before another stopping window. */
  lemma EarlierStopExcludesLater(post: ImageFile -> Transport, early: seq<seq<ImageFile>>, late: seq<seq<ImageFile>>)
    requires early <= late && |early| < |late|
    requires StopsAtWindow(post, early)
    ensures Collect(Flatten(late[..|late| - 1]), VerdictStep(post)).Err?
  {
    var before := late[..|late| - 1];
    assert early <= before;
    FlattenPrefix(early, before);
    var covered := Flatten(before);
    var k := |Flatten(early)|;
    assert covered[..k] == Flatten(early);
    CollectPrefixFailure(covered, k, VerdictStep(post));
  }

  /** Only one prefix of the windows can be the one a failed run stops at, so which windows are sent is determined. */
  lemma StopsAtOneWindow(files: seq<ImageFile>, post: ImageFile -> Transport, sent: seq<seq<ImageFile>>, other: seq<seq<ImageFile>>)
    requires sent <= Windows(files, BatchSize) && other <= Windows(files, BatchSize)
    requires StopsAtWindow(post, sent) && StopsAtWindow(post, other)
    ensures sent == other
  {
    if |sent| < |other| {
      EarlierStopExcludesLater(post, sent, other);
    } else if |other| < |sent| {
      EarlierStopExcludesLater(post, other, sent);
    }
  }

  /** When the first image fails, the run stops after the first window. */
  lemma FirstImageFailureStopsFirstWindow(files: seq<ImageFile>, post: ImageFile -> Transport, sent: seq<seq<ImageFile>>)
    requires files != [] && FileVerdict(post(files[0])).Err?
    requires sent <= Windows(files, BatchSize) && StopsAtWindow(post, sent)
    ensures |sent| == 1
  {
    var first := files[..Min(BatchSize, |files|)];
    assert Windows(files, BatchSize) == [first] + WindowsFrom(files, BatchSize, BatchSize);
    var none: seq<seq<ImageFile>> := [];
    assert [first][..0] == none && Flatten([first]) == first + Flatten(none) == first;
    assert first[..1][..0] == [] && first[..1][0] == files[0];
    CollectPrefixFailure(first, 1, VerdictStep(post));
    assert StopsAtWindow(post, [first]);
    StopsAtOneWindow(files, post, sent, [first]);
  }

  /**
    The body of the analysis: the selection is sent window by window
    (`slice(i, i + BatchSize)`), each image's verdict is counted as it
    arrives, and the window's verdicts are appended in order. The first
    failure stops the run: the window it belongs to has been sent in full and
    no later window is sent. `sentWindows` are the slices sent, in order.
   */
  method AnalyzeSelection(files: seq<ImageFile>, post: ImageFile -> Transport)
    returns (allPredictions: seq<QualityVerdict>, freshImageCount: nat, rottenImageCount: nat,
             failure: Option<RequestFailure>, ghost sentWindows: seq<seq<ImageFile>>)
    ensures failure.None? <==> Run(files, post).Ok?
    ensures failure.None? ==>
              && allPredictions == Run(files, post).value
              && freshImageCount == CountTag(allPredictions, "fresh")
              && rottenImageCount == CountTag(allPredictions, "rotten")
              && sentWindows == Windows(files, BatchSize)
    ensures failure.Some? ==>
              && failure.value == Run(files, post).error
              && sentWindows <= Windows(files, BatchSize)
              && StopsAtWindow(post, sentWindows)
  {
    var n := |files|;
    ghost var step := VerdictStep(post);
    freshImageCount, rottenImageCount := 0, 0;
    allPredictions := [];
    failure := None;
    sentWindows := [];

    var i := 0;
    while i < n
      invariant 0 <= i && Flatten(sentWindows) == files[..Min(i, n)]
      invariant sentWindows + WindowsFrom(files, BatchSize, i) == Windows(files, BatchSize)
      invariant failure.None? && Collect(files[..Min(i, n)], step) == Ok(allPredictions)
      invariant freshImageCount == CountTag(allPredictions, "fresh")
      invariant rottenImageCount == CountTag(allPredictions, "rotten")
      decreases n - i
    {
      assert files[..Min(i, n)] == files[..i];
      allPredictions, freshImageCount, rottenImageCount, failure, sentWindows :=
        SendWindow(files, i, post, allPredictions, freshImageCount, rottenImageCount, sentWindows);
      if failure.Some? {
        // the rejected Promise.all leaves the loop: no later window is sent
        return;
      }
      i := i + BatchSize;
    }
    assert WindowsFrom(files, BatchSize, i) == [];
    assert files[..Min(i, n)] == files;
  }

  /**
    The loop body: send the window `files.slice(i, i + BatchSize)` and add
    its verdicts and counts to those of the images before `i`. The window
    joins the windows sent; when it fails, the run stops at it.
   */
  method SendWindow(files: seq<ImageFile>, i: nat, post: ImageFile -> Transport,
                    verdictsBefore: seq<QualityVerdict>, freshBefore: nat, rottenBefore: nat,
                    ghost sentBefore: seq<seq<ImageFile>>)
    returns (allPredictions: seq<QualityVerdict>, freshImageCount: nat, rottenImageCount: nat,
             failure: Option<RequestFailure>, ghost sent: seq<seq<ImageFile>>)
    requires i < |files| && Collect(files[..i], VerdictStep(post)) == Ok(verdictsBefore)
    requires freshBefore == CountTag(verdictsBefore, "fresh") && rottenBefore == CountTag(verdictsBefore, "rotten")
    requires sentBefore + WindowsFrom(files, BatchSize, i) == Windows(files, BatchSize)
    requires Flatten(sentBefore) == files[..i]
    ensures sent == sentBefore + [files[i..Min(i + BatchSize, |files|)]]
    ensures sent + WindowsFrom(files, BatchSize, i + BatchSize) == Windows(files, BatchSize)
    ensures Flatten(sent) == files[..Min(i + BatchSize, |files|)]
    ensures failure.None? ==> Collect(files[..Min(i + BatchSize, |files|)], VerdictStep(post)) == Ok(allPredictions)
    ensures failure.Some? ==> Collect(files[..Min(i + BatchSize, |files|)], VerdictStep(post)).Err?
    ensures failure.Some? ==> && Collect(files, VerdictStep(post)) == Err(failure.value)
                              && sent <= Windows(files, BatchSize) && StopsAtWindow(post, sent)
    ensures freshImageCount == CountTag(allPredictions, "fresh")
    ensures rottenImageCount == CountTag(allPredictions, "rotten")
  {
    var end := Min(i + BatchSize, |files|);
    var batchVerdicts, freshSeen, rottenSeen;
    batchVerdicts, freshSeen, rottenSeen, failure := AnalyzeWindow(files[i..end], post);
    CollectSlice(files, i, end, VerdictStep(post));
    CountTagAppend(verdictsBefore, batchVerdicts, "fresh");
    CountTagAppend(verdictsBefore, batchVerdicts, "rotten");
    SendsNextWindow(files, BatchSize, i, sentBefore);
    if failure.Some? {
      StopsAtNextWindow(files, post, i, sentBefore);
    }
    allPredictions, freshImageCount, rottenImageCount := verdictsBefore + batchVerdicts, freshBefore + freshSeen, rottenBefore + rottenSeen;
    sent := sentBefore + [files[i..end]];
  }

  /**
    The callback for one image: post it, then reduce the predictions of a
    2xx answer to a verdict. What it throws is the run's failure.
    `FileVerdict` is its specification.
   */
  method AnalyzeOne(file: ImageFile, post: ImageFile -> Transport)
    returns (outcome: Result<QualityVerdict, RequestFailure>)
    ensures outcome == VerdictStep(post)(file)
    ensures outcome.Ok? ==> IsQualityTag(outcome.value.tagName)
  {
    var response := Upload(post(file));
    if response.Err? {
      return Err(response.error);
    }
    var verdict := ProcessPredictions(response.value);
    if verdict.Err? {
      return Err(ThrownTypeError);
    }
    return Ok(verdict.value);
  }

  /**
    One window: `Promise.all` over the per-image callbacks, which keeps the
    images' order; each callback counts its verdict as fresh or rotten. A
    failure is the first one in image order.
   */
  method AnalyzeWindow(batch: seq<ImageFile>, post: ImageFile -> Transport)
    returns (verdicts: seq<QualityVerdict>, freshSeen: nat, rottenSeen: nat, failure: Option<RequestFailure>)
    ensures failure.None? ==> Collect(batch, VerdictStep(post)) == Ok(verdicts)
    ensures failure.Some? ==> Collect(batch, VerdictStep(post)) == Err(failure.value)
    ensures freshSeen == CountTag(verdicts, "fresh")
    ensures rottenSeen == CountTag(verdicts, "rotten")
  {
    ghost var step := VerdictStep(post);
    verdicts, freshSeen, rottenSeen, failure := [], 0, 0, None;
    var j := 0;
    while j < |batch| && failure.None?
      invariant 0 <= j <= |batch|
      invariant failure.None? ==> Collect(batch[..j], step) == Ok(verdicts)
      invariant failure.Some? ==> Collect(batch, step) == Err(failure.value)
      invariant freshSeen == CountTag(verdicts, "fresh")
      invariant rottenSeen == CountTag(verdicts, "rotten")
    {
      CollectStep(batch, j, step);
      var outcome := AnalyzeOne(batch[j], post);
      if outcome.Err? {
        failure := Some(outcome.error);
      } else {
        var v := outcome.value;
        if Lower(v.tagName) == "fresh" {
          freshSeen := freshSeen + 1;
        } else if Lower(v.tagName) == "rotten" {
          rottenSeen := rottenSeen + 1;
        }
        CountTagAppend(verdicts, [v], "fresh");
        CountTagAppend(verdicts, [v], "rotten");
        verdicts := verdicts + [v];
      }
      j := j + 1;
    }
    assert failure.None? ==> batch[..j] == batch;
  }

  // ---------------------------------------------------------------- the form

  const FormFields: seq<string> := ["product_name", "brand", "nutritional_info", "expiration_date", "regulatory_notes"]
  const QualityAnalysisKey := "quality_analysis"
  const NoFilesMessage := "Please select images first"
  const BlankFieldMessage := "Please fill out all fields"

  /** The counts attached to a submitted product. */
  datatype QualityAnalysis = QualityAnalysis(freshCount: nat, rottenCount: nat, totalAnalyzed: nat)

  /** A submitted product: the form's fields and the quality counts. */
  datatype ProductRecord = ProductRecord(fields: map<string, string>, qualityAnalysis: QualityAnalysis)

  function EmptyForm(): (form: map<string, string>)
    ensures forall f :: f in form <==> f in FormFields
    ensures forall f | f in form :: form[f] == ""
  {
    map f | f in FormFields :: ""
  }

  /** Some value of the form trims to "". */
  predicate HasBlankField(info: map<string, string>) {
    exists k | k in info :: Trim(info[k]) == []
  }

  /** The form is rejected exactly when one of its values is white space only. */
  lemma BlankFieldIff(info: map<string, string>)
    ensures HasBlankField(info) <==> exists k | k in info :: AllWhiteSpace(info[k])
  {
    forall k | k in info ensures Trim(info[k]) == [] <==> AllWhiteSpace(info[k]) {
      TrimBlankIff(info[k]);
    }
  }

  /** The form as it is after a reset is rejected: submitting twice in a row adds one record. */
  lemma ResetFormIsRejected()
    ensures HasBlankField(EmptyForm())
  {
    assert "product_name" in EmptyForm();
    assert Trim("") == [];
  }

  /** The form holds an entry for each of the five fields. */
  predicate HasFormFields(info: map<string, string>) {
    forall f | f in FormFields :: f in info
  }

  /** No submitted record counts more fresh and rotten images than it analysed. */
  predicate TalliesWithinTotals(records: seq<ProductRecord>) {
    forall r | r in records :: r.qualityAnalysis.freshCount + r.qualityAnalysis.rottenCount <= r.qualityAnalysis.totalAnalyzed
  }

  /** Everything the page keeps in its state, except the server status. */
  datatype PageState = PageState(
    selectedFiles: seq<ImageFile>, loading: bool, error: Option<string>,
    freshCount: nat, rottenCount: nat, predictions: seq<QualityVerdict>,
    batchInfo: map<string, string>, batchDocuments: seq<ProductRecord>)

  class ProductAnalyzer {
    var selectedFiles: seq<ImageFile>
    var loading: bool
    var error: Option<string>
    var freshCount: nat
    var rottenCount: nat
    var predictions: seq<QualityVerdict>
    var batchInfo: map<string, string>
    var batchDocuments: seq<ProductRecord>
    /** The request windows of the last analysis, in the order they were sent. */
    ghost var requestWindows: seq<seq<ImageFile>>

    /**
      The form always holds the five fields it starts with, and no tally
      counts more images than were analysed: fresh + rotten never exceeds
      the selection, on the page or in any submitted record. This holds in
      the model, where each handler runs to completion before the next one;
      the page itself lets a new selection or a submission happen while an
      analysis waits for the server, and the counts stored when that run ends
      then belong to the old selection.
     */
    ghost predicate Valid()
      reads this
    {
      && HasFormFields(batchInfo)
      && freshCount + rottenCount <= |selectedFiles|
      && TalliesWithinTotals(batchDocuments)
    }

    ghost function State(): PageState
      reads this
    {
      PageState(selectedFiles, loading, error, freshCount, rottenCount, predictions, batchInfo, batchDocuments)
    }

    constructor ()
      ensures Valid()
      ensures State() == PageState([], false, None, 0, 0, [], EmptyForm(), [])
      ensures requestWindows == []
    {
      selectedFiles := [];
      loading := false;
      error := None;
      freshCount, rottenCount := 0, 0;
      predictions := [];
      batchInfo := EmptyForm();
      batchDocuments := [];
      requestWindows := [];
    }

    /** `handleFileSelect`: a non-empty choice replaces the selection and clears the last analysis. */
    method HandleFileSelect(files: Option<seq<ImageFile>>)
      requires Valid()
      modifies this
      ensures Valid()
      ensures var chosen := if files.Some? then files.value else [];
              if chosen != [] then
                State() == old(State()).(selectedFiles := chosen, predictions := [], error := None,
                                         freshCount := 0, rottenCount := 0)
              else State() == old(State())
      ensures requestWindows == old(requestWindows)
    {
      var chosen := if files.Some? then files.value else [];
      if |chosen| > 0 {
        selectedFiles := chosen;
        predictions := [];
        error := None;
        freshCount := 0;
        rottenCount := 0;
      }
    }

    /**
      `handleAnalyze`: with no selection, only the error changes and nothing is
      sent. Otherwise a complete run stores the verdicts and the counts, and a
      failed run leaves them as they were and stores the error message.
     */
    method HandleAnalyze(post: ImageFile -> Transport)
      requires Valid()
      modifies this
      ensures Valid()
      ensures old(selectedFiles) == [] ==>
                State() == old(State()).(error := Some(NoFilesMessage)) && requestWindows == []
      ensures old(selectedFiles) != [] && Run(old(selectedFiles), post).Ok? ==>
                && State() == old(State()).(
                     loading := false, error := None,
                     predictions := Run(old(selectedFiles), post).value,
                     freshCount := CountTag(Run(old(selectedFiles), post).value, "fresh"),
                     rottenCount := CountTag(Run(old(selectedFiles), post).value, "rotten"))
                && requestWindows == Windows(old(selectedFiles), BatchSize)
      ensures old(selectedFiles) != [] && Run(old(selectedFiles), post).Err? ==>
                && State() == old(State()).(
                     loading := false,
                     error := Some(AnalyzeErrorMessage(Run(old(selectedFiles), post).error)))
                && requestWindows <= Windows(old(selectedFiles), BatchSize)
                && StopsAtWindow(post, requestWindows)
    {
      if |selectedFiles| == 0 {
        error := Some(NoFilesMessage);
        requestWindows := [];
        return;
      }
      AnalyzeSelected(post);
    }

    /**
      The `try` block of `handleAnalyze` and what follows it, for a non-empty
      selection: the run's verdicts and counts on success, the error message
      on failure; `loading` ends false either way.
     */
    method AnalyzeSelected(post: ImageFile -> Transport)
      requires Valid() && selectedFiles != []
      modifies this
      ensures Valid()
      ensures Run(old(selectedFiles), post).Ok? ==>
                && State() == old(State()).(
                     loading := false, error := None,
                     predictions := Run(old(selectedFiles), post).value,
                     freshCount := CountTag(Run(old(selectedFiles), post).value, "fresh"),
                     rottenCount := CountTag(Run(old(selectedFiles), post).value, "rotten"))
                && requestWindows == Windows(old(selectedFiles), BatchSize)
      ensures Run(old(selectedFiles), post).Err? ==>
                && State() == old(State()).(
                     loading := false,
                     error := Some(AnalyzeErrorMessage(Run(old(selectedFiles), post).error)))
                && requestWindows <= Windows(old(selectedFiles), BatchSize)
                && StopsAtWindow(post, requestWindows)
    {
      var files := selectedFiles;
      loading, error := true, None;
      var allPredictions, freshImageCount, rottenImageCount, failure, sentWindows := AnalyzeSelection(files, post);
      if failure.None? {
        RunCountsEveryFile(files, post);
        assert freshImageCount + rottenImageCount == |files|;
        predictions, freshCount, rottenCount := allPredictions, freshImageCount, rottenImageCount;
      } else {
        error := Some(AnalyzeErrorMessage(failure.value));
      }
      loading, requestWindows := false, sentWindows;
    }

    /** `handleInputChange`: one entry of the form takes the typed value. */
    method HandleInputChange(name: string, value: string)
      requires Valid()
      modifies this
      ensures Valid()
      ensures State() == old(State()).(batchInfo := old(batchInfo)[name := value])
      ensures requestWindows == old(requestWindows)
    {
      batchInfo := batchInfo[name := value];
    }

    /**
      `handleSubmit`: a form with a blank value is refused with an error;
      otherwise one record is appended (the form's entries and the current
      counts) and the form is reset.
     */
    method HandleSubmit()
      requires Valid()
      modifies this
      ensures Valid()
      ensures HasBlankField(old(batchInfo)) ==> State() == old(State()).(error := Some(BlankFieldMessage))
      ensures !HasBlankField(old(batchInfo)) ==>
                State() == old(State()).(
                  batchDocuments := old(batchDocuments) + [ProductRecord(
                    old(batchInfo) - {QualityAnalysisKey},
                    QualityAnalysis(old(freshCount), old(rottenCount), |old(selectedFiles)|))],
                  batchInfo := EmptyForm(),
                  error := None)
      ensures requestWindows == old(requestWindows)
    {
      if HasBlankField(batchInfo) {
        error := Some(BlankFieldMessage);
        return;
      }
      var record := ProductRecord(batchInfo - {QualityAnalysisKey},
                                  QualityAnalysis(freshCount, rottenCount, |selectedFiles|));
      batchDocuments := batchDocuments + [record];
      var reset := EmptyForm();
      assert forall f | f in FormFields :: f in reset;
      batchInfo := reset;
      error := None;
    }
  }

  /** Any one blank field, `regulatory_notes` included, is enough to refuse the form. */
  lemma BlankFormFieldRefused(info: map<string, string>, f: string)
    requires f in FormFields && f in info && AllWhiteSpace(info[f])
    ensures HasBlankField(info)
  {
    TrimBlankIff(info[f]);
  }
}
