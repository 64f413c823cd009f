# DermAi image-inference pipeline, modelled in Dafny

DermAi classifies photographs of skin lesions into seven classes. A user picks an image on the web
client's home page, which checks the file's type and size. The page posts the image to the backend's
`POST /inference/upload` endpoint and shows either the predicted class, under a Turkish label, or an
error message.

On the backend, an upload middleware does three things:

- It refuses types whose MIME subtype is not one of `jpg`, `jpeg`, `png`, `gif` and `webp`.
- It refuses files over 10 MiB.
- It stores an accepted file in `uploads/` under the name `<Date.now()>-<random><extension>`.

The controller then asks the inference service to run the Python classifier on the stored file. The
service:

- Builds a shell command line.
- Checks the JSON the script prints (a truthy `predicted_class`, a numeric `confidence`).
- Turns every failure into one error.

The controller saves the result on a best-effort basis (the database may be absent). It answers with the
prediction and the file names. When classification fails, it removes the stored file and answers 500.

The project models these four parts:

- `upload_gate.dfy`: the MIME filter, the size limit, and the stored name with its parse back.
- `inference_controller.dfy`: the interceptor and the handler, as a class whose state is the set of
  files in the uploads directory and the console.
- `inference.dfy`: the service. It covers the interpreter and script paths, the command line, the result
  check, and a class whose state is the result store and the log.
- `client_page.dfy`: the page. It covers the selection check, the submit cycle and its error messages,
  reset, labels and the FAQ toggle, as a class holding the page's state variables.

Supporting modules model what these rely on:

- `js_values.dfy`: values returned by JSON.parse, property reads, truthiness, `trim`, `includes` and
  `String()`.
- `node_path.dfy`: Node's POSIX `path.extname` and `path.join`.
- `shell_words.dfy`: how `/bin/sh` splits a command line into words.
- `decimal.dfy`: decimal numerals.
- `wrappers.dfy`: `Option` and `Result`.

Several things outside the model become inputs, so every branch can be reached:

- The clock and the random number.
- The outcome of running the child process.
- `JSON.parse`, passed as a function from text to `Result`.
- The outcome of a database write.
- The outcome of `fetch`.
- The file reader's data URL.

## Model

| member | source | states |
|---|---|---|
| UploadGate.StoredStem | backend/src/inference/controller/inference.controller.ts:32 | the unique suffix `<timestamp>-<random>` is non-empty and holds neither '/' nor '.' |
| UploadGate.StoredFilename | backend/src/inference/controller/inference.controller.ts:31-35 | the stored name never holds '/', so the file stays inside the uploads directory, and it ends with the extension of the client's file name |
| UploadGate.StoredNameOfFileName | backend/src/inference/controller/inference.controller.ts:31-35 | a client name `stem.ext` (no '/', one dot) is stored as `<timestamp>-<random>.ext` |
| UploadGate.StoredFilenameRoundTrip | backend/src/inference/controller/inference.controller.ts:31-35 | reading a stored name back gives exactly the timestamp, the random number and the client's extension |
| UploadGate.StoredFilenameInjective | backend/src/inference/controller/inference.controller.ts:31-35 | two uploads share a stored name only when their timestamps, random numbers and extensions all agree |
| UploadGate.StoredFilenameKeepsExtension | backend/src/inference/controller/inference.controller.ts:33-34 | `extname` of the stored name equals `extname` of the client's name |
| UploadGate.StoredPath | backend/src/inference/controller/inference.controller.ts:30 | the path handed to the handler lies under `uploads/` and ends with the stored name |
| UploadGate.ServerFilterMeaning | backend/src/inference/controller/inference.controller.ts:38 | the regular expression accepts a type exactly when it ends in '/' followed by one listed subtype, both directions |
| UploadGate.FileFilter | backend/src/inference/controller/inference.controller.ts:37-45 | the filter lets a type through exactly when it ends in '/' plus a listed subtype; otherwise it fails with a 400 "Only image files are allowed" |
| UploadGate.ServerFilterIgnoresPrefix | backend/src/inference/controller/inference.controller.ts:38 | `image/png`, `application/png` and `/webp` are all accepted: the part before '/' is never examined |
| UploadGate.ServerFilterRejections | backend/src/inference/controller/inference.controller.ts:38 | `image/PNG`, `image/svg+xml` and `image/png; q=1` are refused: no case folding, and the subtype must end the type |
| Decimal.DecimalString | backend/src/inference/controller/inference.controller.ts:32 | a number is rendered as a non-empty digit string with no leading zero |
| Decimal.DecimalRoundTrip | backend/src/inference/controller/inference.controller.ts:32 | reading a rendered numeral back gives the number |
| NodePath.ExtName | backend/src/inference/controller/inference.controller.ts:33 | `path.extname` is empty or starts with '.', and holds no other '.' |
| NodePath.ExtNameIsTailOfBaseName | backend/src/inference/controller/inference.controller.ts:33 | the extension is a tail of the last path component, so it holds no '/' |
| NodePath.ExtNameNonEmpty | backend/src/inference/controller/inference.controller.ts:33 | the extension is non-empty exactly when the last component has a '.' after its first character and is not `..` |
| NodePath.ExtNameOfFileName | backend/src/inference/controller/inference.controller.ts:33 | the extension of `stem.ext` is `.ext` |
| NodePath.ExtNameWithoutDot | backend/src/inference/controller/inference.controller.ts:33 | a name without '.' has no extension |
| NodePath.ExtNameOfDotFile | backend/src/inference/controller/inference.controller.ts:33 | a dot-file such as `.bashrc` has no extension |
| Controller.Admission | backend/src/inference/controller/inference.controller.ts:37-48 | the middleware admits an upload exactly when the filter accepts its type and its size is at most 10 MiB; the type error comes first, then 413 "File too large" |
| Controller.SizeLimitBoundary | backend/src/inference/controller/inference.controller.ts:46-48 | a file of exactly 10 MiB is admitted; one byte more is refused with 413 |
| Controller.InferenceController.constructor | backend/src/inference/controller/inference.controller.ts:24 | the controller holds the service it is given; the console starts empty |
| Controller.InferenceController.Intercept | backend/src/inference/controller/inference.controller.ts:27-50 | a refused upload leaves the uploads directory unchanged and yields the middleware's error; an admitted one adds exactly its stored path and describes the file under its generated name |
| Controller.InferenceController.UploadFile | backend/src/inference/controller/inference.controller.ts:51-82 | without a file: 400 "No image file provided" and no state changes; with one, the file is processed as `Process` states, and the service log gains the `predict` entries for the file's path, then the save warning when a write failed |
| Controller.InferenceController.Process | backend/src/inference/controller/inference.controller.ts:56-81 | a failed inference answers 500 "Failed to process image: Failed to run inference: <cause>", removes the stored file, leaves the store and console alone; a successful one answers with the prediction and names, keeps the file, saves at most once and warns on the console exactly when nothing was saved; the service log gains the one `predict` call's entries (the double-quoted command line, the stderr warning, the failure), then the save warning only after a success whose write failed |
| Controller.InferenceController.Settle | backend/src/inference/controller/inference.controller.ts:59-81 | given what `predict` produced: a failure removes the stored file and answers 500 with the cause and adds nothing to the service log; a success saves the result, warns on the console when nothing was saved, answers with the prediction and the names, and the service log gains only the save warning of a failed write |
| Controller.InferenceController.Classify | backend/src/inference/controller/inference.controller.ts:57 | the handler receives what `predict` resolves or rejects with, and the service log gains exactly that call's entries for the given path |
| Controller.InferenceController.Discard | backend/src/inference/controller/inference.controller.ts:75-77 | the catch path removes the stored path when it is non-empty and leaves every other file |
| Controller.InferenceController.Complete | backend/src/inference/controller/inference.controller.ts:59-73 | the response carries the prediction and the stored and client names; the store gains the record only when a database is present and the write succeeds; the console warns otherwise; the service log gains the save warning exactly when a present database fails the write |
| Controller.Respond | backend/src/inference/controller/inference.controller.ts:69-73 | the answer holds the prediction's class and confidence unchanged, and the stored and client names from multer's description of the file |
| Controller.InferenceController.HandleUpload | backend/src/inference/controller/inference.controller.ts:26-82 | after any failed request the uploads directory holds no new file; after a success it holds exactly one new file, the response's; a request without a file or with a refused upload changes nothing: uploads, console, service log and store stay as they were; an admitted upload under its generated name is processed as `Process` states (response with the prediction's class and confidence, store, console, cleanup) and the service log gains the `predict` entries for its stored path and any save warning |
| Inference.VenvPath | backend/src/inference/service/inference.service.ts:24-25 | for a root not ending in the separator the interpreter path is exactly `<root><sep>ai<sep>venv<sep><dir><sep><exe>`; for one that does, the same with no separator added after the root |
| Inference.PythonExecutable | backend/src/inference/service/inference.service.ts:24-27 | on win32 the interpreter is exactly `<root>\ai\venv\Scripts\python.exe`, elsewhere exactly `<root>/ai/venv/bin/python`, for a root not ending in the separator; any root is its prefix and the fixed tail its suffix |
| Inference.ScriptPath | backend/src/inference/service/inference.service.ts:23 | for a root not ending in the separator the script path is exactly `<root><sep>ai<sep>run_inference.py`; any root is its prefix |
| NodePath.JoinPath | backend/src/inference/service/inference.service.ts:23-25 | `path.join` of a directory and a name starts with the directory, ends with the name, and adds a separator only when the directory does not end in one |
| NodePath.JoinPathKeepsSuffix | backend/src/inference/service/inference.service.ts:24-25 | joining onto a path that ends in a given suffix keeps that suffix before the separator and the new name |
| Inference.QuotedCommandPlainWords | backend/src/inference/service/inference.service.ts:34 | as written, when none of the paths holds `"`, `$`, a backquote or `\`, the command line stands for exactly the three paths as words |
| Inference.QuotedCommand | backend/src/inference/service/inference.service.ts:34 | the line is the interpreter, the script and the image path, in that order, each verbatim between double quotes, separated by single spaces: no character of any path is escaped |
| Inference.QuotedCommandWithDollar | backend/src/inference/service/inference.service.ts:34 | as written, for an image path holding `$` after plain characters, the splitter reading the line has finished the interpreter and the script as words and stands inside the image path's double quotes at the `$`, where the splitter stops; the line is not a plain word list |
| Inference.QuotedCommandRunsClientText | backend/src/inference/service/inference.service.ts:34 | as written, for a client file named `x.$(…)` the shell reading the command line reaches `$(` inside the image path's double quotes, followed by the client's own text: a command substitution, which the shell runs |
| Inference.DollarExtensionPath | backend/src/inference/controller/inference.controller.ts:31-35 | such a client file is stored at `uploads/<timestamp>-<random>.$…`, so the `$` reaches the command line |
| Inference.SafeCommandWords | backend/src/inference/service/inference.service.ts:34 | the corrected command line always stands for exactly the interpreter, the script and the image path, whatever characters they hold |
| ShellWords.SafeLineRoundTrip | backend/src/inference/service/inference.service.ts:34 | three single-quoted words joined by spaces split back into exactly those words |
| ShellWords.DoubleQuotedLine | backend/src/inference/service/inference.service.ts:34 | three double-quoted words without special characters split back into those words |
| ShellWords.DoubleQuotedLineWithDollar | backend/src/inference/service/inference.service.ts:34 | reading `"a" "b" "p$q"`, the splitter has finished the words a and b and stops inside the third double-quoted word at the `$`, with q's text next; the line is not a plain word list |
| JsValues.Includes | backend/src/inference/service/inference.service.ts:42 | `includes` is true exactly when the text occurs at some position |
| Inference.StderrLogged | backend/src/inference/service/inference.service.ts:42 | stderr is logged exactly when it is non-empty and "Warning" occurs at no position of it |
| Inference.StderrNeverFails | backend/src/inference/service/inference.service.ts:42-44 | what the script writes to stderr never changes the outcome of a prediction |
| JsValues.Trim | backend/src/inference/service/inference.service.ts:47 | `trim` yields the slice of the input between leading and trailing whitespace, and that slice neither starts nor ends with whitespace |
| JsValues.TrimIgnoresTrailingWhitespace | backend/src/inference/service/inference.service.ts:47 | a whitespace character appended to the output does not change its trimmed text |
| Inference.TrailingNewlineIgnored | backend/src/inference/service/inference.service.ts:47 | the newline after the script's JSON line never changes the outcome |
| JsValues.LastMember | backend/src/inference/service/inference.service.ts:50 | the value kept for a key is that of its last member, and none exists exactly when no member has the key |
| JsValues.LastMemberAppend | backend/src/inference/service/inference.service.ts:50 | members appended under other names do not change the value kept for a key |
| JsValues.LastMemberSkip | backend/src/inference/service/inference.service.ts:50 | members inserted anywhere under other names do not change the value kept for a key |
| JsValues.GetProperty | backend/src/inference/service/inference.service.ts:50 | a property read throws exactly on `null`, with the TypeError message; it yields a value exactly when an object has a member of that name |
| JsValues.Truthy | backend/src/inference/service/inference.service.ts:50 | undefined, null, false, 0 and the empty string are falsy; every other value, an empty array or object included, is truthy |
| Inference.CheckPrediction | backend/src/inference/service/inference.service.ts:50-57 | on an object, the check passes exactly when the last `predicted_class` is truthy and the last `confidence` is a number, and the prediction holds those two values; null throws the TypeError; any other value fails with "Invalid prediction result format" |
| Inference.ExtraMembersDropped | backend/src/inference/service/inference.service.ts:54-57 | members other than the two checked ones, inserted anywhere in the object, never change the check or the prediction |
| Inference.ClassifierOutputAccepted | ai/run_inference.py:35-40 | the object the classifier prints, with a non-empty class, is accepted with its class and confidence unchanged |
| Inference.RejectedShapes | backend/src/inference/service/inference.service.ts:50-52 | a missing class, an empty class, a confidence written as a string, and an array are all refused |
| Inference.AcceptedUnchecked | backend/src/inference/service/inference.service.ts:50 | a confidence of -3.5 and a numeric class are accepted: the check bounds neither |
| Inference.RunInference | backend/src/inference/service/inference.service.ts:37-57 | a failed child process fails with its message; a completed one whose trimmed output does not parse fails with the parse error's message; otherwise the result is the check on the parsed value, failures included; success implies the process completed and its output parsed |
| Inference.PredictResult | backend/src/inference/service/inference.service.ts:58-61 | `predict` succeeds exactly when the attempt does, with the same prediction; every failure has the cause's message behind "Failed to run inference: " |
| Inference.InferenceService.constructor | backend/src/inference/service/inference.service.ts:17-28 | the service holds the platform's interpreter path and the script path; the log starts empty |
| Inference.InferenceService.Predict | backend/src/inference/service/inference.service.ts:30-62 | the result is `PredictResult`, and the log gains, in order, "Executing: " with the double-quoted command line, the stderr warning when logged, and the failure when there is one |
| Inference.InferenceService.Attempt | backend/src/inference/service/inference.service.ts:37-57 | the try block yields `RunInference`, and it logs stderr exactly when stderr is non-empty and lacks "Warning" |
| Inference.InferenceService.SaveResult | backend/src/inference/service/inference.service.ts:64-81 | a result is saved exactly when a database is present and the write succeeds, and the stored record is the one returned; the log gains the warning with the write's message exactly when a present database fails the write |
| Inference.StoreOnlyGrows | backend/src/inference/service/inference.service.ts:73-74 | a save keeps every stored record in order and adds at most the one new record, at the end |
| ClientPage.ClientFilterMeaning | frontend/app/page.tsx:43 | the page accepts exactly `image/` followed by one listed subtype |
| ClientPage.ClientTypeAcceptedByServer | frontend/app/page.tsx:43 | every type the page accepts passes the server's filter |
| ClientPage.ServerAcceptsMoreThanClient | frontend/app/page.tsx:43 | the converse fails: `application/png` passes the server and is refused by the page |
| ClientPage.SelectionError | frontend/app/page.tsx:53-65 | a selection is accepted exactly when its type matches and its size is at most 10 MiB; the type message comes first, then the size message |
| ClientPage.AcceptedSelectionIsAdmitted | frontend/app/page.tsx:53-65 | a selection the page accepts is admitted by the server's middleware |
| ClientPage.HomePage.constructor | frontend/app/page.tsx:46-51 | no file, preview, result, error or open FAQ entry; not loading |
| ClientPage.HomePage.HandleFileChange | frontend/app/page.tsx:53-70 | no file changes nothing; a refused file sets only the error; an accepted one becomes the file and clears the error and the result |
| ClientPage.HomePage.OnPreviewLoaded | frontend/app/page.tsx:71-75 | the reader's data URL becomes the preview |
| ClientPage.HomePage.BeginSubmit | frontend/app/page.tsx:79-87 | without a file the request is not sent and the selection message is shown; with one, loading starts and the error is cleared |
| ClientPage.StatusErrorMessage | frontend/app/page.tsx:98-112 | 404 shows the fixed backend-down text; otherwise a truthy `message` in the body is shown as its string form, a non-empty string as itself; a falsy or missing `message`, a body that is not an object, or one that is not JSON gives "Sunucu hatası: <status>" |
| ClientPage.ServerErrorShown | frontend/app/page.tsx:104-106 | for every server error with a non-empty message, the page shows exactly that message |
| ClientPage.SubmitResult | frontend/app/page.tsx:89-123 | the data is shown exactly when the status is 2xx and the body parsed; a 2xx body that does not parse shows the parse error's message; a network error mentioning "fetch" shows the unreachable text, any other network error its own message, and a bad status the status message |
| ClientPage.HomePage.FinishSubmit | frontend/app/page.tsx:89-126 | loading always ends; on success the data becomes the result; on failure the message becomes the error and the result is cleared |
| ClientPage.HomePage.HandleSubmit | frontend/app/page.tsx:79-127 | without a file only the error changes; with one, loading is over at the end, and either the response data becomes the result with the error cleared, or the message becomes the error and the result is cleared |
| ClientPage.HomePage.HandleReset | frontend/app/page.tsx:129-134 | file, preview, result and error are all cleared |
| ClientPage.DisplayLabel | frontend/app/page.tsx:322-323 | a listed code shows its label; any other code shows itself |
| ClientPage.EveryClassHasLabel | frontend/app/page.tsx:14-22 | each of the classifier's seven codes has a label that differs from the code, and only those codes have labels |
| ClientPage.LabelsDistinct | frontend/app/page.tsx:14-22 | no two codes share a label |
| ClientPage.ToggleMeaning | frontend/app/page.tsx:564 | after a click, an entry is open exactly when it was clicked and was closed before |
| ClientPage.ToggleTwice | frontend/app/page.tsx:564 | clicking the same entry twice restores it exactly when it was open before |
| ClientPage.HomePage.ToggleFaq | frontend/app/page.tsx:564 | the open entry becomes `Toggled` of the previous one |

## Left out

- Running the child process is an input (`ExecOutcome`): its environment, the 60 s timeout and the 10 MiB output buffer appear only as the error they produce.
- Python's own argument handling is left out, as is how `cmd.exe` (used on Windows) parses a line. The shell model covers `/bin/sh` only.
- JSON.parse, Mongoose and the disk writes of the upload middleware are not modelled. Their results are inputs.
- The record's `createdAt` is the write time, passed in. Mongoose's cast of a non-string class to a string is left out.
- `path.resolve(__dirname, '../../../..')` is not modelled; the project root is an input. `path.join` is modelled for a non-empty root and plain names; an empty root would give a leading separator where Node gives none. `path.normalize` of `..` segments and win32 drive letters are left out.
- NodePath.ExtName: only the POSIX form of `path.extname` is modelled. On win32 Node also treats `\` as a separator and skips a drive prefix, so a client name such as `a.b\c` has a different extension there.
- The multer part size limit is modelled on the declared size. Streaming, and removing a partial file, are not modelled.
- The error's stack trace is not logged in the model. Logger levels, context names and timestamps are left out.
- JsValues.JsToString: fractional numbers are shown by their integer part only, and integers of 10^21 or more in full digits where `String()` switches to exponent form, because binary floating-point formatting is not modelled.
- ClientPage.DisplayLabel: the lookup covers the label map's own keys only. Keys inherited from `Object.prototype`, such as `constructor`, are left out.
- ClientPage.SubmitResult: a thrown value that is not an `Error` (the "Görsel işlenemedi" branch) cannot arise from the modelled outcomes, so it is left out.
- The result card's `toUpperCase()` and percentage formatting are left out. So are all JSX rendering, layout and navigation.
- `FileReader` is an input: the data URL arrives through `OnPreviewLoaded`.
- Inference.SafeCommand: the corrected, single-quoted command line (see Findings) is proved correct on its own. `InferenceService.Predict` keeps the double-quoted line the code logs, because running the command is an input to the model, so the log text is the only place the line appears.
- The model follows the code on these points:
  - MIME matching is case-sensitive.
  - The confidence's range is not checked.
  - All failures collapse into one error.
  - Stderr never fails a prediction.
  - The class only needs to be truthy, not a string.
  - An oversized file is refused with 413 "File too large" by the middleware, not by the handler.
- Controller.InferenceController.Discard: the `fs.existsSync` check is folded into set removal. Removing an absent path is a no-op.

## Findings

| source | as written | input that shows it | evidently intended | confidence | as-written member | corrected member |
|---|---|---|---|---|---|---|
| backend/src/inference/service/inference.service.ts:34 | the image path is put between double quotes on a `/bin/sh` command line. The stored name keeps the client's extension, whose text the client chooses | an upload named `x.$(reboot)` is stored as `uploads/<t>-<r>.$(reboot)`. Inside double quotes the shell performs command substitution on it | each path reaches the interpreter as one literal argument, whatever it holds, for example by single-quote escaping or by `execFile` with an argument array | not executed | Inference.QuotedCommandRunsClientText | Inference.SafeCommandWords |
