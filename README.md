# Food quality and compliance: a Dafny model

This project models the logic of three programs that together grade food
images and label product records:

- **The browser page** (`food-compliance/src/App.jsx`). The user picks images.
  The page uploads them in windows of five, one request per image, and reduces
  each image's predictions to a single "fresh" or "rotten" verdict. It then
  tallies the verdicts. It also collects product records from a five-field
  form and attaches the current tallies to each record.
- **The image-analysis server** (`backend/Node.js`). At start-up it checks its
  configuration. It has a single-image endpoint, a batch endpoint that isolates
  each file's failure, and an error handler that fills in a default status and
  message.
- **The compliance service** (`NLP/flask_app/app.py`, `predict`). It validates
  the request body and turns every product into one lower-cased text. A model
  gives each text a class index, which is mapped to "compliant" or
  "not compliant".

The remote image classifier, the HTTP transport and the language model are
function parameters. Probabilities are integers counted in hundredths of a
percent, the two-decimal strings the server emits.

Files:

- `wrappers.dfy`: Option and Result.
- `text.dfy`: ASCII lower-casing and JavaScript's `trim`.
- `wire.dfy`: the records exchanged between the page and the server.
- `verdict.dfy`: `processPredictions`.
- `batching.dfy`: the request windows.
- `server.dfy`: the server.
- `app.dfy`: the page. It holds the state class `ProductAnalyzer` and the analysis loop.
- `compliance.dfy`: `predict`.

Three facts about the code shape the model:

- On a tie in probability, `processPredictions` picks the **later** candidate,
  because its comparison is a strict `>`.
- A single failed image aborts the **whole** analysis; no verdict is skipped.
- `reduce` throws when no prediction has a fresh or rotten tag, so the `null`
  branch of `processPredictions` is unreachable and such an image aborts the run.

As a consequence, a completed run counts every selected image as either
fresh or rotten (`App.RunCountsEveryFile`).

## Model

| member | source | states |
|---|---|---|
| Verdict.CandidatesSpec | food-compliance/src/App.jsx:98-102 | the filter keeps exactly the predictions whose lower-cased tag is "fresh" or "rotten" |
| Verdict.StrongestSpec | food-compliance/src/App.jsx:104-108 | the reduce returns one of the candidates, and no candidate is more probable |
| Verdict.ProcessPredictions | food-compliance/src/App.jsx:97-117 | fails (the reduce throws) iff no prediction has a quality tag; otherwise the verdict has category "Quality", a quality tag, and the tag and probability of a quality prediction that no other quality prediction exceeds |
| Verdict.StrongestIsLastMaximum | food-compliance/src/App.jsx:104-108 | the reduce's result is the last quality prediction of maximal probability: every later quality prediction is strictly less probable |
| Verdict.ProcessPredictionsPicksLastMaximum | food-compliance/src/App.jsx:97-117 | whenever a quality prediction exists, the verdict copies tag and probability from the last most probable one |
| Verdict.CandidatesSnoc | food-compliance/src/App.jsx:99-101 | filtering one more prediction appends it exactly when its tag is a quality tag |
| Verdict.ProcessTwoQuality | food-compliance/src/App.jsx:104-116 | of two quality predictions the first wins only when strictly more probable |
| Verdict.TieGoesToLater | food-compliance/src/App.jsx:104-108 | Fresh 50.00 then Rotten 50.00 yields Rotten |
| Verdict.FreshScenario | food-compliance/src/App.jsx:97-117 | Fresh 92.50 and Rotten 5.00 yields Fresh 92.50 |
| Verdict.OtherLabelIgnored | food-compliance/src/App.jsx:99-101 | an "Apple" label at 99.00 loses to Fresh at 10.00 because it is not a quality label |
| Batching.WindowsPartition | food-compliance/src/App.jsx:145-146 | the windows `slice(i, i + size)` concatenate back to the selection, each holds 1..size files, there are ceil(n / size) of them, and the j-th is the slice starting at j * size |
| Batching.SevenInWindowsOfFive | food-compliance/src/App.jsx:32 | seven files are sent as a window of five, then a window of two |
| Server.Start | backend/Node.js:11-56 | the process exits with status 1 iff a required variable is unset or empty, reporting exactly the missing names in declared order; otherwise it starts with those values and the port (default 5000) |
| Server.MissingKeepsDeclaredOrder | backend/Node.js:42-50 | missing names are listed in declaration order, and an empty value counts as missing |
| Server.ErrorHandler | backend/Node.js:86-92 | the status is the error's status if truthy, else 500; the message is the error's message if non-empty, else "Internal server error" |
| Server.AnalyzeImage | backend/Node.js:95-127 | no file gives 400 "No image file provided"; a classification gives 200 with the classifier's predictions unchanged and the file's metadata; a classifier failure goes through the error handler; an error body occurs exactly in those two failure cases |
| Server.ResultFor | backend/Node.js:142-170 | each file's entry carries its own name; a success carries the classifier's predictions unchanged, the mimetype and the size, and a failure carries the classifier's error message; it is a failure exactly when that file's classification failed |
| Server.CountsPartition | backend/Node.js:177-178 | successful plus failed analyses equals the number of results |
| Server.AnalyzeBatch | backend/Node.js:130-186 | missing or empty files give 400 "No image files provided"; otherwise 200 with one result per file in upload order, totalFiles the file count, and successes plus failures equal to totalFiles |
| Server.SuccessCountIsClassifiedCount | backend/Node.js:176-178 | when every classifier error has a message, successfulAnalyses is the number of files classified and failedAnalyses the rest |
| Server.SilentFailureCountsAsSuccess | backend/Node.js:164-168 | a classifier error with an empty message gives a failed entry that is nevertheless counted as a success |
| Server.BatchIsolatesFailures | backend/Node.js:141-171 | a file's entry depends only on its own classification, whatever the classifier does with the other files |
| App.FileVerdictIff | food-compliance/src/App.jsx:147-181 | one image yields a verdict iff a 2xx answer carries predictions with a quality tag; the verdict is then fresh or rotten |
| App.AnalyzeErrorMessage | food-compliance/src/App.jsx:193-197 | the shown message is the timed-out one iff the server sent an error text or the code is ECONNABORTED, and the connection one otherwise |
| App.RunVerdicts | food-compliance/src/App.jsx:145-186 | a run succeeds iff every image yields a verdict, and then holds one verdict per image in selection order; a failed run reports the first failing image's error |
| App.RunCountsEveryFile | food-compliance/src/App.jsx:167-190 | after a successful run, fresh plus rotten equals the number of selected images |
| App.ServerErrorsReadAsTimeout | food-compliance/src/App.jsx:193-196 | every non-2xx error answer of the single-image endpoint is shown as "Request timed out" |
| App.AnalyzeSelection | food-compliance/src/App.jsx:140-186 | the window loop succeeds iff the run does; it then returns the run's verdicts and fresh and rotten counts equal to the verdicts with those tags, and the slices it sends are exactly the windows; on failure it returns the run's first error, and the slices sent are a prefix of the windows that ends with the window holding the first failing image: every image before that window yields a verdict |
| App.StopsAtOneWindow | food-compliance/src/App.jsx:145-147 | only one prefix of the windows can be the one a failed run stops at (earlier windows all yield verdicts, the last one fails), so which windows are sent is determined by the images |
| App.FirstImageFailureStopsFirstWindow | food-compliance/src/App.jsx:145-147 | when the first image fails, exactly one window is sent |
| App.SendWindow | food-compliance/src/App.jsx:146-185 | one window extends the verdicts and counts of the images before it by those of the window and joins the windows sent, which then cover the images up to its end; or it fails, in which case the run stops at this window and the whole run ends with that error |
| App.AnalyzeOne | food-compliance/src/App.jsx:148-182 | the per-image callback returns that image's verdict or failure, and a verdict is fresh or rotten |
| App.AnalyzeWindow | food-compliance/src/App.jsx:147-183 | the window's verdicts are those of its images in order, or its first failure in image order; the counters count the fresh and rotten verdicts |
| App.EmptyForm | food-compliance/src/App.jsx:232-238 | the reset form has exactly the five fields, each "" |
| App.BlankFieldIff | food-compliance/src/App.jsx:213 | the form is refused iff some value is white space only |
| App.ResetFormIsRejected | food-compliance/src/App.jsx:213-238 | the form right after a reset is refused |
| App.BlankFormFieldRefused | food-compliance/src/App.jsx:213-215 | any single blank field, regulatory_notes included, refuses the form |
| App.ProductAnalyzer.constructor | food-compliance/src/App.jsx:66-79 | the page starts with no selection, no verdicts, zero counts, an empty form and no records, and satisfies the page invariant |
| App.ProductAnalyzer.HandleFileSelect | food-compliance/src/App.jsx:119-128 | a non-empty choice replaces the selection and clears verdicts, error and counts; an empty one changes nothing; the model's page invariant (fresh + rotten within the selection, in every record within its total) is kept |
| App.ProductAnalyzer.HandleAnalyze | food-compliance/src/App.jsx:130-201 | no selection sets "Please select images first" and sends nothing; a successful run stores the run's verdicts and tag counts and sends every window; a failed run keeps the old verdicts and counts, stores the error message and sends the windows up to the one holding the first failing image; loading ends false; for a run that no other handler interrupts, fresh + rotten stays within the selection |
| App.ProductAnalyzer.AnalyzeSelected | food-compliance/src/App.jsx:137-200 | for a non-empty selection and a run that no other handler interrupts: the run's verdicts and counts on success (then fresh + rotten equals the size of the selection analysed), the error message and unchanged verdicts and counts on failure, with the windows sent as in `AnalyzeSelection` |
| App.ProductAnalyzer.HandleInputChange | food-compliance/src/App.jsx:203-209 | only the named form entry changes, to the typed value |
| App.ProductAnalyzer.HandleSubmit | food-compliance/src/App.jsx:211-240 | a blank value sets "Please fill out all fields" and changes nothing else; otherwise exactly one record is appended after the earlier ones, carrying the form, the fresh and rotten counts and the selection size, and the form is reset; in the model, where no analysis is in progress at a submission, every record's fresh + rotten stays within its total analysed |
| Compliance.TextInputs | NLP/flask_app/app.py:33-42 | succeeds iff every product is a dict whose five fields are strings (or missing); then there is one text per product, in order, each that product's fields joined by spaces and lower-cased |
| Compliance.ProductTextSplits | NLP/flask_app/app.py:35-42 | splitting a product's text on spaces gives back its five fields lower-cased, in order, missing ones as "", when no field contains a space |
| Compliance.SplitJoin | NLP/flask_app/app.py:35-41 | splitting on spaces undoes joining with spaces, for parts without spaces |
| Compliance.Labels | NLP/flask_app/app.py:57 | one label per class index: "compliant" iff the index is 1, "not compliant" otherwise |
| Compliance.Predict | NLP/flask_app/app.py:19-60 | a body without "products" gives 400 "No products found in the request"; a non-list value gives 400 "Products should be a list"; a body on which `in` or indexing raises, or a malformed product, is an uncaught 500; otherwise 200 with one label per product, "compliant" iff the model's class for that product's text is 1 and "not compliant" iff it is any other class |
| Text.LowerSpec | NLP/flask_app/app.py:42 | lower-casing keeps the length, maps each character on its own and leaves no upper-case letter |
| Text.LowerConcat | NLP/flask_app/app.py:35-42 | lower-casing the joined text lower-cases each part |
| Text.TrimBlankIff | food-compliance/src/App.jsx:213 | a value trims to "" iff it is white space only |

## Left out

- Rendering: the JSX, the styled components, the charts, the `chartData` mapping and `fresh_percentage`. They are UI or floating point, and `fresh_percentage` is NaN when nothing is selected.
- `handleSaveJSON` and `checkServerStatus`: file download and a status request, both I/O.
- The server's `(probability * 100).toFixed(2)` and `boundingBox`. Probabilities enter the model already in hundredths, and bounding boxes are passed through untouched.
- Timestamps in every server answer, and `size` as the buffer length: clocks and multer's bookkeeping.
- Express plumbing: multer's size and count limits, CORS, rate limiting, dotenv, and the SIGTERM and `unhandledRejection` handlers.
- App.ProductAnalyzer.HandleAnalyze: the model runs each handler to completion, so nothing happens while an analysis waits for the server. The page keeps the file input and "Save Product" enabled during a run (food-compliance/src/App.jsx:301-305, 458-463); only the Analyze button is disabled. A new selection made mid-run sets the counts to 0, and then the run's end stores the old selection's verdicts and counts over it. For example, 7 fresh images shown against a selection of 1, and a later record with fresh_count 7 and total_analyzed 1. So `Valid()`'s bounds (fresh + rotten within the selection, and within each record's total) hold only for runs that nothing interrupts.
- App.ProductAnalyzer.AnalyzeSelected: for the same reason, its success clause (fresh + rotten equals the selection size) describes an uninterrupted run. After a mid-run reselection, the stored counts match the selection that was analysed, not the current one. `App.RunCountsEveryFile` states the per-run bound, which holds either way.
- `App.AnalyzeWindow`: `Promise.all` runs a window's requests concurrently and rejects with the first rejection in time. The model takes the first failure in image order and stops there. Counter updates from requests after it are not modelled, because a failed run discards them.
- The axios client itself. Its 30-second timeout is a `TimedOut` transport outcome. Status codes map to error codes as axios does, but only the codes the page reads are modelled.
- The classifier (`Server.Classifier`) and the page's transport are functions of the uploaded file. Two identical files in one request therefore always get the same outcome, so a transient failure of only one of them is not expressed.
- Case mapping covers ASCII letters only. Unicode case folding of `toLowerCase` and `str.lower` is not modelled.
- Compliance.Predict: the tokenizer and DistilBERT are one function from a text to a class index. The model therefore assumes that padding a batch does not change any one text's class.
- Compliance.Predict: an unparsable body, Flask's error page for uncaught exceptions (modelled as a bare 500) and `print(data)` are not modelled. JSON numbers are integers. For an empty product list the model answers 200 with no labels; whether the tokenizer and the model accept an empty batch there is not modelled.
- NLP/model.py, the training script, is not part of this model, and neither is vite.config.js.
