/**
 * The home page of the web client: the check on a selected file, the submit cycle with
 * its loading flag and its choice of error message, the reset, the label shown for a
 * predicted class, and the FAQ list where at most one answer is open.
 *
 * The outcome of the network request and of reading the response body are inputs; so is
 * the data URL the file reader produces for the preview.
 */
module ClientPage {
  import opened Wrappers
  import opened JsValues
  import Decimal
  import UploadGate
  import Controller

  /* ---------------------------------------------------------------- file selection */

  /** A file the user picked: its name, the type the browser reports, its size in bytes. */
  datatype SelectedFile = SelectedFile(name: string, mimeType: string, size: nat)

  /** `/^image\/(jpg|jpeg|png|gif|webp)$/.test(type)`: the whole type must match. */
  predicate ClientAcceptsType(mimeType: string) {
    mimeType == "image/jpg" || mimeType == "image/jpeg" || mimeType == "image/png" ||
    mimeType == "image/gif" || mimeType == "image/webp"
  }

  /** The browser accepts exactly `image/` followed by one listed subtype. */
  lemma ClientFilterMeaning(mimeType: string)
    ensures ClientAcceptsType(mimeType) <==>
              exists i :: 0 <= i < |UploadGate.ImageSubtypes| && mimeType == "image/" + UploadGate.ImageSubtypes[i]
  {
    if ClientAcceptsType(mimeType) {
      if mimeType == "image/jpg" { assert mimeType == "image/" + UploadGate.ImageSubtypes[0]; }
      else if mimeType == "image/jpeg" { assert mimeType == "image/" + UploadGate.ImageSubtypes[1]; }
      else if mimeType == "image/png" { assert mimeType == "image/" + UploadGate.ImageSubtypes[2]; }
      else if mimeType == "image/gif" { assert mimeType == "image/" + UploadGate.ImageSubtypes[3]; }
      else { assert mimeType == "image/" + UploadGate.ImageSubtypes[4]; }
    }
  }

  /** Every type the browser accepts passes the server's filter. */
  lemma ClientTypeAcceptedByServer(mimeType: string)
    requires ClientAcceptsType(mimeType)
    ensures UploadGate.ServerAcceptsType(mimeType)
  {
    if mimeType == "image/jpg" { assert mimeType[|mimeType| - 4..] == "/jpg"; }
    else if mimeType == "image/jpeg" { assert mimeType[|mimeType| - 5..] == "/jpeg"; }
    else if mimeType == "image/png" { assert mimeType[|mimeType| - 4..] == "/png"; }
    else if mimeType == "image/gif" { assert mimeType[|mimeType| - 4..] == "/gif"; }
    else { assert mimeType[|mimeType| - 5..] == "/webp"; }
  }

  /** The converse fails: the server lets through a type the browser refuses. */
  lemma ServerAcceptsMoreThanClient()
    ensures UploadGate.ServerAcceptsType("application/png") && !ClientAcceptsType("application/png")
  {
    assert "application/png"[11..] == "/png";
  }

  const InvalidTypeMessage := "Lütfen geçerli bir görsel dosyası seçin (JPG, PNG, GIF, WEBP)"
  const TooLargeMessage := "Dosya boyutu 10MB altında olmalıdır"
  const ClientMaxSize: nat := 10 * 1024 * 1024

  /** The message a selection is refused with, if any: the type is checked first, then
      the size, which may be exactly 10 MiB. */
  function SelectionError(f: SelectedFile): (r: Option<string>)
    ensures r.None? <==> ClientAcceptsType(f.mimeType) && f.size <= 10 * 1024 * 1024
    ensures !ClientAcceptsType(f.mimeType) ==> r == Some(InvalidTypeMessage)
    ensures ClientAcceptsType(f.mimeType) && f.size > 10 * 1024 * 1024 ==> r == Some(TooLargeMessage)
  {
    if !ClientAcceptsType(f.mimeType) then Some(InvalidTypeMessage)
    else if f.size > ClientMaxSize then Some(TooLargeMessage)
    else None
  }

  /** A selection the page accepts is admitted by the server's upload middleware when the
      browser sends it under its reported type. */
  lemma AcceptedSelectionIsAdmitted(f: SelectedFile)
    requires SelectionError(f).None?
    ensures Controller.Admission(Controller.ClientUpload(f.name, f.mimeType, f.size)).None?
  {
    ClientTypeAcceptedByServer(f.mimeType);
  }

  /* ---------------------------------------------------------------- labels */

  /** The Turkish names the page shows for the classifier's codes. */
  const DiseaseLabels: map<string, string> := map[
    "akiec" := "Aktinik Keratoz",
    "bcc" := "Bazal Hücreli Karsinom",
    "bkl" := "Benign Keratoz",
    "df" := "Dermatofibrom",
    "mel" := "Melanom",
    "nv" := "Melanositik Nevus",
    "vasc" := "Vasküler Lezyon"
  ]

  /** The codes the classifier script can print. */
  const ClassifierClasses: seq<string> := ["akiec", "bcc", "bkl", "df", "mel", "nv", "vasc"]

  /** `diseaseLabels[code] || code`: the label, or the code itself when there is no
      (non-empty) label. */
  function DisplayLabel(code: string): (shown: string)
    ensures code in DiseaseLabels ==> shown == DiseaseLabels[code]
    ensures code !in DiseaseLabels ==> shown == code
  {
    if code in DiseaseLabels && DiseaseLabels[code] != "" then DiseaseLabels[code] else code
  }

  /** Every code the classifier prints has a label of its own, different from the code. */
  lemma EveryClassHasLabel()
    ensures forall i :: 0 <= i < |ClassifierClasses| ==>
              ClassifierClasses[i] in DiseaseLabels && DisplayLabel(ClassifierClasses[i]) != ClassifierClasses[i]
    ensures forall c :: c in DiseaseLabels ==> c in ClassifierClasses
  {
  }

  /** No two codes share a label, so the label identifies the class. */
  lemma LabelsDistinct(a: string, b: string)
    requires a in DiseaseLabels && b in DiseaseLabels && a != b
    ensures DisplayLabel(a) != DisplayLabel(b)
  {
  }

  /* ---------------------------------------------------------------- submit outcome */

  /** What the request produced: a network failure with the TypeError's message, or a
      response with its status and the outcome of reading its body as JSON. */
  datatype FetchOutcome =
    | NetworkFailure(message: string)
    | Responded(status: nat, body: Result<Json, string>)

  const NoSelectionMessage := "Lütfen bir görsel seçin"
  const BackendDownMessage := "Backend sunucusu çalışmıyor. Lütfen backend sunucusunu başlatın (port 3000)."
  const UnreachableMessage :=
    "Backend sunucusuna bağlanılamıyor. Lütfen backend sunucusunun çalıştığından emin olun (http://localhost:3000)."

  function DefaultServerMessage(status: nat): string {
    "Sunucu hatası: " + Decimal.DecimalString(status)
  }

  /** `response.ok`. */
  predicate IsOkStatus(status: nat) {
    200 <= status <= 299
  }

  /** The message for a response that is not ok. 404 has a fixed text; otherwise the body's
      `message`, when it is truthy, as `new Error` turns it into a string; otherwise the
      status. A body that is not JSON, or is `null`, counts as no message. */
  function StatusErrorMessage(status: nat, body: Option<Json>): (m: string)
    ensures status == 404 ==> m == BackendDownMessage
    ensures status != 404 && body.Some? && body.value.JObject? &&
            LastMember(body.value.members, "message").Some? &&
            LastMember(body.value.members, "message").value.JString? &&
            LastMember(body.value.members, "message").value.s != [] ==>
              m == LastMember(body.value.members, "message").value.s
    ensures status != 404 && (body.None? || !body.value.JObject? || LastMember(body.value.members, "message").None?) ==>
              m == DefaultServerMessage(status)
    ensures status != 404 && body.Some? && body.value.JObject? && LastMember(body.value.members, "message").Some? ==>
              var message := LastMember(body.value.members, "message").value;
              m == if Truthy(Defined(message)) then JsToString(message) else DefaultServerMessage(status)
  {
    if status == 404 then BackendDownMessage
    else
      match body
      case None => DefaultServerMessage(status)
      case Some(data) =>
        match GetProperty(data, Message)
        case Err(_) => DefaultServerMessage(status)
        case Ok(message) =>
          if Truthy(message) then JsToString(message.v) else DefaultServerMessage(status)
  }

  /** The page shows the message of every error the server raises with a non-empty one,
      except when the status is 404. */
  lemma ServerErrorShown(e: UploadGate.HttpError)
    requires e.message != []
    ensures StatusErrorMessage(UploadGate.StatusCode(e), Some(UploadGate.ErrorBody(e))) == e.message
  {
    var ms := UploadGate.ErrorBody(e).members;
    var m0 := ms[..1];
    var m1 := ms[..2];
    assert m1[..|m1| - 1] == m0;
    assert ms[..|ms| - 1] == m1;
    assert m0[|m0| - 1] == ("message", JString(e.message));
    assert m1[|m1| - 1].0 == "error" != "message";
    assert ms[|ms| - 1].0 == "statusCode" != "message";
    assert LastMember(m0, "message") == Some(JString(e.message));
    assert LastMember(m1, "message") == Some(JString(e.message));
    assert LastMember(ms, "message") == Some(JString(e.message));
  }

  /** What the submit handler ends with: the response data, or the message it shows. */
  function SubmitResult(outcome: FetchOutcome): (r: Result<Json, string>)
    ensures r.Ok? <==> outcome.Responded? && IsOkStatus(outcome.status) && outcome.body.Ok?
    ensures r.Ok? ==> r.value == outcome.body.value
    ensures outcome.NetworkFailure? && Includes(outcome.message, "fetch") ==> r == Err(UnreachableMessage)
    ensures outcome.NetworkFailure? && !Includes(outcome.message, "fetch") ==> r == Err(outcome.message)
    ensures outcome.Responded? && !IsOkStatus(outcome.status) ==>
              r == Err(StatusErrorMessage(outcome.status,
                                          if outcome.body.Ok? then Some(outcome.body.value) else None))
    ensures outcome.Responded? && IsOkStatus(outcome.status) && outcome.body.Err? ==> r == Err(outcome.body.error)
  {
    match outcome
    case NetworkFailure(message) =>
      Err(if Includes(message, "fetch") then UnreachableMessage else message)
    case Responded(status, body) =>
      if !IsOkStatus(status) then
        Err(StatusErrorMessage(status, match body case Ok(data) => Some(data) case Err(_) => None))
      else
        match body
        case Ok(data) => Ok(data)
        case Err(message) => Err(message)
  }

  /* ---------------------------------------------------------------- FAQ */

  /** The FAQ entries on the page. */
  const FaqCount: nat := 4

  /** The open entry after clicking entry `index`. */
  function Toggled(open: Option<nat>, index: nat): Option<nat> {
    if open == Some(index) then None else Some(index)
  }

  /** After a click, entry `k` is open exactly when it is the clicked entry and the clicked
      entry was closed: clicking the open entry closes it, clicking another opens only it. */
  lemma ToggleMeaning(open: Option<nat>, index: nat, k: nat)
    ensures Toggled(open, index) == Some(k) <==> k == index && open != Some(index)
  {
  }

  /** Two clicks on the same entry: it ends closed unless it was open before. */
  lemma ToggleTwice(open: Option<nat>, index: nat)
    ensures Toggled(Toggled(open, index), index) == if open == Some(index) then Some(index) else None
  {
  }

  /* ---------------------------------------------------------------- the page state */

  class HomePage {
    var file: Option<SelectedFile>
    /** The data URL of the selected image. */
    var preview: Option<string>
    var loading: bool
    /** The last response data; JNull when there is none. */
    var result: Json
    var error: Option<string>
    var openFaq: Option<nat>

    constructor()
      ensures file.None? && preview.None? && !loading && result == JNull && error.None? && openFaq.None?
    {
      file := None;
      preview := None;
      loading := false;
      result := JNull;
      error := None;
      openFaq := None;
    }

    /** A change of the file input. A refused file only sets the error; an accepted one
        becomes the file and clears the error and the result. The preview follows later. */
    method HandleFileChange(selected: Option<SelectedFile>)
      modifies this`file, this`error, this`result
      ensures selected.None? ==> file == old(file) && error == old(error) && result == old(result)
      ensures selected.Some? && SelectionError(selected.value).Some? ==>
                error == SelectionError(selected.value) && file == old(file) && result == old(result)
      ensures selected.Some? && SelectionError(selected.value).None? ==>
                file == selected && error.None? && result == JNull
    {
      if selected.None? {
        return;
      }
      var refusal := SelectionError(selected.value);
      if refusal.Some? {
        error := refusal;
        return;
      }
      file := selected;
      error := None;
      result := JNull;
    }

    /** The file reader finished: its data URL becomes the preview. */
    method OnPreviewLoaded(dataUrl: string)
      modifies this`preview
      ensures preview == Some(dataUrl)
    {
      preview := Some(dataUrl);
    }

    /** The synchronous part of a submit. Without a file only the error is set and no
        request goes out; otherwise the page starts loading with no error. */
    method BeginSubmit() returns (sent: bool)
      modifies this`error, this`loading
      ensures sent <==> file.Some?
      ensures !sent ==> error == Some(NoSelectionMessage) && loading == old(loading)
      ensures sent ==> loading && error.None?
    {
      if file.None? {
        error := Some(NoSelectionMessage);
        return false;
      }
      loading := true;
      error := None;
      sent := true;
    }

    /** The request settled: the result or the error is set, and loading always ends. */
    method FinishSubmit(outcome: FetchOutcome)
      modifies this`result, this`error, this`loading
      ensures !loading
      ensures SubmitResult(outcome).Ok? ==> result == SubmitResult(outcome).value && error == old(error)
      ensures SubmitResult(outcome).Err? ==> result == JNull && error == Some(SubmitResult(outcome).error)
    {
      match SubmitResult(outcome) {
        case Ok(data) =>
          result := data;
        case Err(message) =>
          error := Some(message);
          result := JNull;
      }
      loading := false;
    }

    /** A whole submit: without a file nothing but the error changes; with one, loading is
        over at the end, and either the response data becomes the result with no error, or
        the message becomes the error with no result. */
    method HandleSubmit(outcome: FetchOutcome)
      modifies this`result, this`error, this`loading
      ensures old(file).None? ==>
                error == Some(NoSelectionMessage) && loading == old(loading) && result == old(result)
      ensures old(file).Some? ==> !loading
      ensures old(file).Some? && SubmitResult(outcome).Ok? ==> result == SubmitResult(outcome).value && error.None?
      ensures old(file).Some? && SubmitResult(outcome).Err? ==>
                result == JNull && error == Some(SubmitResult(outcome).error)
    {
      var sent := BeginSubmit();
      if sent {
        FinishSubmit(outcome);
      }
    }

    /** Clears the file, the preview, the result and the error; nothing else changes. */
    method HandleReset()
      modifies this`file, this`preview, this`result, this`error
      ensures file.None? && preview.None? && result == JNull && error.None?
    {
      file := None;
      preview := None;
      result := JNull;
      error := None;
    }

    /** A click on the question of entry `index`. */
    method ToggleFaq(index: nat)
      requires index < FaqCount
      modifies this`openFaq
      ensures openFaq == Toggled(old(openFaq), index)
    {
      openFaq := if openFaq == Some(index) then None else Some(index);
    }
  }
}
