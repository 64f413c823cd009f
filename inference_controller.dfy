/**
 * The upload endpoint: the upload middleware that filters, limits and stores the file in
 * the uploads directory, and the handler that runs the classifier, saves the result on a
 * best-effort basis, and removes the stored file when classification fails.
 */
module Controller {
  import opened Wrappers
  import opened JsValues
  import opened UploadGate
  import opened Inference

  /** The file part of the multipart request, as the client sent it. */
  datatype ClientUpload = ClientUpload(originalname: string, mimetype: string, size: nat)

  /** The description of a stored upload the middleware hands to the handler. */
  datatype MulterFile = MulterFile(filename: string, path: string, originalname: string, mimetype: string)

  /** The handler's answer: the prediction's two fields, the stored name, the client name. */
  datatype UploadResponse = UploadResponse(predictedClass: Json, confidence: real, filename: string, originalname: string)

  const NoFileMessage := "No image file provided"
  const ProcessFailurePrefix := "Failed to process image: "
  const NotSavedMessage := "Result not saved to MongoDB (MongoDB unavailable)"

  /** The response body the handler builds from a prediction and the stored file: the
      prediction's two fields spread unchanged, then the names multer gave the file. */
  function Respond(p: Prediction, file: MulterFile): (r: UploadResponse)
    ensures r.predictedClass == p.predictedClass && r.confidence == p.confidence
    ensures r.filename == file.filename && r.originalname == file.originalname
  {
    UploadResponse(p.predictedClass, p.confidence, file.filename, file.originalname)
  }

  /** What the middleware decides about an upload before anything is written. */
  function Admission(upload: ClientUpload): (r: Option<HttpError>)
    ensures r.None? <==> ServerAcceptsType(upload.mimetype) && WithinSizeLimit(upload.size)
    ensures !ServerAcceptsType(upload.mimetype) ==> r == Some(BadRequest(OnlyImagesMessage))
    ensures ServerAcceptsType(upload.mimetype) && !WithinSizeLimit(upload.size) ==>
              r == Some(PayloadTooLarge(FileTooLargeMessage))
  {
    ServerFilterMeaning(upload.mimetype);
    match FileFilter(upload.mimetype)
    case Some(e) => Some(e)
    case None => if WithinSizeLimit(upload.size) then None else Some(PayloadTooLarge(FileTooLargeMessage))
  }

  /** A file exactly at the limit is admitted; one byte more is refused. */
  lemma SizeLimitBoundary(originalname: string)
    ensures Admission(ClientUpload(originalname, "image/png", 10 * 1024 * 1024)).None?
    ensures Admission(ClientUpload(originalname, "image/png", 10 * 1024 * 1024 + 1))
         == Some(PayloadTooLarge(FileTooLargeMessage))
  {
    assert EndsWith("image/png", "/png") by { assert "image/png"[5..] == "/png"; }
  }

  /** What processing a stored file does, given the classifier's outcome: the response,
      and the uploads directory, console and result store before and after. */
  ghost predicate ProcessedAs(f: MulterFile, inference: Result<Prediction, string>,
                              write: WriteOutcome, now: nat, r: Result<UploadResponse, HttpError>,
                              uploads0: set<string>, console0: seq<string>, store0: Option<seq<ImageRecord>>,
                              uploads1: set<string>, console1: seq<string>, store1: Option<seq<ImageRecord>>)
  {
    match inference
    case Err(cause) =>
      r == Err(InternalServerError(ProcessFailurePrefix + (InferenceFailurePrefix + cause))) &&
      uploads1 == uploads0 - (if f.path != [] then {f.path} else {}) &&
      console1 == console0 && store1 == store0
    case Ok(p) =>
      r == Ok(Respond(p, f)) && uploads1 == uploads0 &&
      store1 == StoreAfterSave(store0, ImageRecord(f.filename, p.predictedClass, p.confidence, now), write) &&
      console1 == console0 + (if store0.Some? && write.Written? then [] else [NotSavedMessage])
  }

  class InferenceController {
    const service: InferenceService
    /** The paths of the files present in the uploads directory. */
    var uploads: set<string>
    /** Lines written with console.warn. */
    var console: seq<string>

    constructor(service: InferenceService, uploads: set<string>)
      ensures this.service == service && this.uploads == uploads && console == []
    {
      this.service := service;
      this.uploads := uploads;
      console := [];
    }

    /** The upload middleware: the type filter runs first, then the file is streamed to
        disk under its generated name; a file over the limit is refused and its partial
        copy removed. The clock reading and the random number are inputs. */
    method Intercept(upload: ClientUpload, timestamp: nat, random: nat) returns (r: Result<MulterFile, HttpError>)
      modifies this`uploads
      ensures Admission(upload).Some? ==> r == Err(Admission(upload).value) && uploads == old(uploads)
      ensures Admission(upload).None? ==>
                var name := StoredFilename(timestamp, random, upload.originalname);
                r == Ok(MulterFile(name, StoredPath(name), upload.originalname, upload.mimetype)) &&
                uploads == old(uploads) + {StoredPath(name)}
    {
      var refusal := Admission(upload);
      if refusal.Some? {
        return Err(refusal.value);
      }
      var name := StoredFilename(timestamp, random, upload.originalname);
      uploads := uploads + {StoredPath(name)};
      r := Ok(MulterFile(name, StoredPath(name), upload.originalname, upload.mimetype));
    }

    /** The handler. Without a file nothing happens but the 400; otherwise the stored
        file is processed. */
    method UploadFile(file: Option<MulterFile>, outcome: ExecOutcome, parse: string -> Result<Json, string>,
                      write: WriteOutcome, now: nat)
      returns (r: Result<UploadResponse, HttpError>)
      modifies this`uploads, this`console, service`log, service`store
      ensures file.None? ==>
                r == Err(BadRequest(NoFileMessage)) && uploads == old(uploads) && console == old(console) &&
                service.log == old(service.log) && service.store == old(service.store)
      ensures file.Some? ==> ProcessedAs(file.value, RunInference(outcome, parse), write, now, r, old(uploads), old(console),
                                         old(service.store), uploads, console, service.store)
      ensures file.Some? ==>
                service.log == old(service.log) + PredictLog(QuotedCommand(service.executable, service.scriptPath, file.value.path), outcome, parse)
                                                + SettleLog(RunInference(outcome, parse), old(service.store), write)
    {
      if file.None? {
        return Err(BadRequest(NoFileMessage));
      }
      r := Process(file.value, outcome, parse, write, now);
    }

    /** The try block and its catch: it predicts; on failure the stored file is removed
        and a 500 carries the cause; on success the result is saved once, a missing save is
        only reported on the console, and the response keeps the stored file. */
    method Process(f: MulterFile, outcome: ExecOutcome, parse: string -> Result<Json, string>,
                   write: WriteOutcome, now: nat)
      returns (r: Result<UploadResponse, HttpError>)
      modifies this`uploads, this`console, service`log, service`store
      ensures ProcessedAs(f, RunInference(outcome, parse), write, now, r, old(uploads), old(console), old(service.store),
                          uploads, console, service.store)
      ensures service.log == old(service.log) + PredictLog(QuotedCommand(service.executable, service.scriptPath, f.path), outcome, parse)
                                              + SettleLog(RunInference(outcome, parse), old(service.store), write)
    {
      ghost var inference := RunInference(outcome, parse);
      var prediction := Classify(f.path, outcome, parse);
      r := Settle(f, prediction, inference, write, now);
    }

    /** What follows the call to `predict`: on failure the stored file is removed and a 500
        carries the cause; on success the result is saved and the response is built. */
    method Settle(f: MulterFile, prediction: Result<Prediction, string>, ghost inference: Result<Prediction, string>,
                  write: WriteOutcome, now: nat)
      returns (r: Result<UploadResponse, HttpError>)
      requires prediction.Ok? <==> inference.Ok?
      requires prediction.Ok? ==> prediction.value == inference.value
      requires prediction.Err? ==> prediction.error == InferenceFailurePrefix + inference.error
      modifies this`uploads, this`console, service`log, service`store
      ensures ProcessedAs(f, inference, write, now, r, old(uploads), old(console), old(service.store),
                          uploads, console, service.store)
      ensures service.log == old(service.log) + SettleLog(inference, old(service.store), write)
    {
      if prediction.Err? {
        Discard(f.path);
        return Err(InternalServerError(ProcessFailurePrefix + prediction.error));
      }
      r := Complete(f, prediction.value, write, now);
    }

    /** The call into the service's `predict`; the service's log is its only effect. */
    method Classify(imagePath: string, outcome: ExecOutcome, parse: string -> Result<Json, string>)
      returns (r: Result<Prediction, string>)
      modifies service`log
      ensures r == PredictResult(outcome, parse)
      ensures service.log == old(service.log) + PredictLog(QuotedCommand(service.executable, service.scriptPath, imagePath), outcome, parse)
    {
      r := service.Predict(imagePath, outcome, parse);
    }

    /** The catch path's cleanup: the stored file is removed when it exists. */
    method Discard(path: string)
      modifies this`uploads
      ensures uploads == old(uploads) - (if path != [] then {path} else {})
    {
      if path != [] && path in uploads {
        uploads := uploads - {path};
      }
    }

    /** The success path: save once, warn on the console when nothing was saved, answer
        with the prediction and the stored file's names. */
    method Complete(f: MulterFile, p: Prediction, write: WriteOutcome, now: nat) returns (r: Result<UploadResponse, HttpError>)
      modifies this`console, service`log, service`store
      ensures r == Ok(Respond(p, f))
      ensures service.store == StoreAfterSave(old(service.store),
                                              ImageRecord(f.filename, p.predictedClass, p.confidence, now), write)
      ensures console == old(console) + (if old(service.store).Some? && write.Written? then [] else [NotSavedMessage])
      ensures service.log == old(service.log) + SaveLog(old(service.store), write)
    {
      var saved := service.SaveResult(f.filename, p.predictedClass, p.confidence, write, now);
      if saved.None? {
        console := console + [NotSavedMessage];
      }
      r := Ok(Respond(p, f));
    }

    /** One request end to end: the middleware, then the handler when the middleware let
        the request through. After a failed request the uploads directory holds nothing
        new; after a successful one it holds exactly one more name, the response's. */
    method HandleUpload(upload: Option<ClientUpload>, timestamp: nat, random: nat, outcome: ExecOutcome,
                        parse: string -> Result<Json, string>, write: WriteOutcome, now: nat)
      returns (r: Result<UploadResponse, HttpError>)
      modifies this`uploads, this`console, service`log, service`store
      ensures r.Err? ==> uploads <= old(uploads)
      ensures r.Ok? ==> uploads == old(uploads) + {StoredPath(r.value.filename)}
      ensures r.Ok? ==> upload.Some? && r.value.originalname == upload.value.originalname &&
                        r.value.filename == StoredFilename(timestamp, random, upload.value.originalname)
      ensures upload.None? ==> r == Err(BadRequest(NoFileMessage))
      ensures upload.None? || Admission(upload.value).Some? ==>
                uploads == old(uploads) && console == old(console) &&
                service.log == old(service.log) && service.store == old(service.store)
      ensures upload.Some? && Admission(upload.value).Some? ==>
                r == Err(Admission(upload.value).value) && service.log == old(service.log) &&
                service.store == old(service.store)
      ensures upload.Some? && Admission(upload.value).None? ==>
                var name := StoredFilename(timestamp, random, upload.value.originalname);
                var f := MulterFile(name, StoredPath(name), upload.value.originalname, upload.value.mimetype);
                ProcessedAs(f, RunInference(outcome, parse), write, now, r, old(uploads) + {StoredPath(name)}, old(console),
                            old(service.store), uploads, console, service.store) &&
                service.log == old(service.log) + PredictLog(QuotedCommand(service.executable, service.scriptPath, StoredPath(name)), outcome, parse)
                                                + SettleLog(RunInference(outcome, parse), old(service.store), write)
    {
      if upload.None? {
        r := UploadFile(None, outcome, parse, write, now);
        return;
      }
      var file := Intercept(upload.value, timestamp, random);
      if file.Err? {
        return Err(file.error);
      }
      r := UploadFile(Some(file.value), outcome, parse, write, now);
    }
  }
}
