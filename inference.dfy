/**
 * The inference service: where the classifier script and its interpreter live, the command
 * line that runs the script on an uploaded image, the check on what the script prints,
 * and the best-effort store of results.
 *
 * The outcome of running the command (its output, or the error the child process reports)
 * and the outcome of JSON.parse are inputs, as is the outcome of a database write.
 */
module Inference {
  import opened Wrappers
  import opened JsValues
  import Decimal
  import NodePath
  import ShellWords
  import UploadGate

  /* ---------------------------------------------------------------- paths and command */

  /** The separator `path.join` uses on the host platform. */
  function Separator(platform: string): char {
    if platform == "win32" then '\\' else '/'
  }

  /** `path.join(root, 'ai', 'venv', dir, exe)` for a separator that occurs in none of
      the fixed names. */
  function VenvPath(projectRoot: string, sep: char, dir: string, exe: string): (r: string)
    requires sep == '/' || sep == '\\'
    requires dir != [] && dir[|dir| - 1] != sep
    ensures StartsWith(r, projectRoot)
    ensures EndsWith(r, [sep] + "ai" + [sep] + "venv" + [sep] + dir + [sep] + exe)
    ensures projectRoot == [] || projectRoot[|projectRoot| - 1] != sep ==>
              r == projectRoot + [sep] + "ai" + [sep] + "venv" + [sep] + dir + [sep] + exe
    ensures projectRoot != [] && projectRoot[|projectRoot| - 1] == sep ==>
              r == projectRoot + "ai" + [sep] + "venv" + [sep] + dir + [sep] + exe
  {
    var ai := NodePath.JoinPath(projectRoot, "ai", sep);
    var venv := NodePath.JoinPath(ai, "venv", sep);
    var bin := NodePath.JoinPath(venv, dir, sep);
    var path := NodePath.JoinPath(bin, exe, sep);
    NodePath.JoinPathEnds(projectRoot, "ai", sep);
    NodePath.JoinPathKeepsSuffix(ai, [sep] + "ai", "venv", sep);
    NodePath.JoinPathKeepsSuffix(venv, [sep] + "ai" + [sep] + "venv", dir, sep);
    NodePath.JoinPathKeepsSuffix(bin, [sep] + "ai" + [sep] + "venv" + [sep] + dir, exe, sep);
    StartsWithTrans(venv, ai, projectRoot);
    StartsWithTrans(bin, venv, projectRoot);
    StartsWithTrans(path, bin, projectRoot);
    path
  }

  /** The virtual environment's interpreter under the project root. */
  function PythonExecutable(projectRoot: string, platform: string): (r: string)
    ensures StartsWith(r, projectRoot)
    ensures platform == "win32" ==> EndsWith(r, "\\ai\\venv\\Scripts\\python.exe")
    ensures platform != "win32" ==> EndsWith(r, "/ai/venv/bin/python")
    ensures platform == "win32" && (projectRoot == [] || projectRoot[|projectRoot| - 1] != '\\') ==>
              r == projectRoot + "\\ai\\venv\\Scripts\\python.exe"
    ensures platform != "win32" && (projectRoot == [] || projectRoot[|projectRoot| - 1] != '/') ==>
              r == projectRoot + "/ai/venv/bin/python"
  {
    if platform == "win32" then
      var tail := ['\\'] + "ai" + ['\\'] + "venv" + ['\\'] + "Scripts" + ['\\'] + "python.exe";
      assert tail == "\\ai\\venv\\Scripts\\python.exe";
      VenvTail(projectRoot, '\\', "Scripts", "python.exe");
      VenvPath(projectRoot, '\\', "Scripts", "python.exe")
    else
      var tail := ['/'] + "ai" + ['/'] + "venv" + ['/'] + "bin" + ['/'] + "python";
      assert tail == "/ai/venv/bin/python";
      VenvTail(projectRoot, '/', "bin", "python");
      VenvPath(projectRoot, '/', "bin", "python")
  }

  lemma VenvTail(projectRoot: string, sep: char, dir: string, exe: string)
    ensures projectRoot + [sep] + "ai" + [sep] + "venv" + [sep] + dir + [sep] + exe
         == projectRoot + ([sep] + "ai" + [sep] + "venv" + [sep] + dir + [sep] + exe)
  {
  }

  /** The classifier script under the project root. */
  function ScriptPath(projectRoot: string, platform: string): (r: string)
    ensures StartsWith(r, projectRoot)
    ensures EndsWith(r, [Separator(platform)] + "ai" + [Separator(platform)] + "run_inference.py")
    ensures projectRoot == [] || projectRoot[|projectRoot| - 1] != Separator(platform) ==>
              r == projectRoot + [Separator(platform)] + "ai" + [Separator(platform)] + "run_inference.py"
  {
    var sep := Separator(platform);
    var ai := NodePath.JoinPath(projectRoot, "ai", sep);
    var script := NodePath.JoinPath(ai, "run_inference.py", sep);
    NodePath.JoinPathEnds(projectRoot, "ai", sep);
    NodePath.JoinPathKeepsSuffix(ai, [sep] + "ai", "run_inference.py", sep);
    StartsWithTrans(script, ai, projectRoot);
    script
  }

  /** The command line as the service writes it: the interpreter, the script and the image
      path, each between double quotes, separated by single spaces. */
  function QuotedCommand(executable: string, script: string, imagePath: string): (r: string)
    ensures |r| == |executable| + |script| + |imagePath| + 8
    ensures StartsWith(r, "\"" + executable + "\" \"")
    ensures r[|executable| + 4..|executable| + 4 + |script|] == script
    ensures EndsWith(r, "\" \"" + imagePath + "\"")
  {
    var r := "\"" + executable + "\" \"" + script + "\" \"" + imagePath + "\"";
    assert r == ("\"" + executable + "\" \"") + script + ("\" \"" + imagePath + "\"");
    r
  }

  /** When no path holds a character the shell treats specially between double quotes,
      the shell runs the interpreter on exactly the script and the image. */
  lemma QuotedCommandPlainWords(executable: string, script: string, imagePath: string)
    requires ShellWords.AllPlainInDoubleQuotes(executable)
    requires ShellWords.AllPlainInDoubleQuotes(script)
    requires ShellWords.AllPlainInDoubleQuotes(imagePath)
    ensures ShellWords.SplitWords(QuotedCommand(executable, script, imagePath))
         == Some([executable, script, imagePath])
  {
    ShellWords.DoubleQuotedLine(executable, script, imagePath);
  }

  lemma DigitsArePlain(s: string)
    requires Decimal.AllDigits(s)
    ensures ShellWords.AllPlainInDoubleQuotes(s)
  {
  }

  /** Up to the extension's dot, a stored path holds only digits, '-', letters and '/'. */
  lemma StoredPathPlainUpToDot(timestamp: nat, random: nat)
    ensures ShellWords.AllPlainInDoubleQuotes("uploads/" + UploadGate.StoredStem(timestamp, random) + ".")
  {
    var t, r := Decimal.DecimalString(timestamp), Decimal.DecimalString(random);
    var stem := UploadGate.StoredStem(timestamp, random);
    assert stem == t + "-" + r;
    DigitsArePlain(t);
    DigitsArePlain(r);
    ShellWords.AllPlainConcat(t, "-");
    ShellWords.AllPlainConcat(t + "-", r);
    ShellWords.AllPlainConcat("uploads/", stem);
    ShellWords.AllPlainConcat("uploads/" + stem, ".");
  }

  /** An image path holding '$' after a plain run: reading the line, the splitter has
      finished the interpreter and the script as words and stops inside the image path's
      double quotes at the '$'; the line is not a plain word list. */
  lemma QuotedCommandWithDollar(executable: string, script: string, imagePath: string, p: string, rest: string)
    requires ShellWords.AllPlainInDoubleQuotes(executable)
    requires ShellWords.AllPlainInDoubleQuotes(script)
    requires ShellWords.AllPlainInDoubleQuotes(p) && imagePath == p + "$" + rest
    ensures var line := QuotedCommand(executable, script, imagePath);
            var k := |executable| + |script| + |p| + 7;
            k < |line| && line[k..] == "$" + rest + "\"" &&
            ShellWords.SplitWords(line) == ShellWords.Words(line[k..], ShellWords.InDouble, p, true, [executable, script])
    ensures ShellWords.SplitWords(QuotedCommand(executable, script, imagePath)) == None
  {
    ShellWords.DoubleQuotedLineWithDollar(executable, script, p, rest);
  }

  /** When the text after the '$' starts with `(`, the shell meets a command substitution
      inside the image path's double quotes, and what follows it is the rest of the path. */
  lemma CommandSubstitutionInPath(executable: string, script: string, imagePath: string, p: string, rest: string)
    requires ShellWords.AllPlainInDoubleQuotes(executable)
    requires ShellWords.AllPlainInDoubleQuotes(script)
    requires ShellWords.AllPlainInDoubleQuotes(p) && imagePath == p + "$" + rest
    requires rest != [] && rest[0] == '('
    ensures var line := QuotedCommand(executable, script, imagePath);
            var k := |executable| + |script| + |p| + 7;
            k + 2 <= |line| && line[k..k + 2] == "$(" && line[k + 2..] == rest[1..] + "\"" &&
            ShellWords.SplitWords(line) == ShellWords.Words(line[k..], ShellWords.InDouble, p, true, [executable, script])
  {
    QuotedCommandWithDollar(executable, script, imagePath, p, rest);
    var line := QuotedCommand(executable, script, imagePath);
    SubstitutionAt(line, |executable| + |script| + |p| + 7, rest);
  }

  lemma SubstitutionAt(line: string, k: nat, rest: string)
    requires k < |line| && line[k..] == "$" + rest + "\"" && rest != [] && rest[0] == '('
    ensures k + 2 <= |line| && line[k..k + 2] == "$(" && line[k + 2..] == rest[1..] + "\""
  {
    assert line[k..][..2] == "$(";
    assert line[k..][2..] == rest[1..] + "\"";
  }

  /** A client file named like `x.$(reboot)` is stored under a name whose extension starts
      with `.$(`. On the command line that text sits inside the image path's double quotes,
      and the shell reaches it there: `$(` opens a command substitution, so the shell runs
      the text the client chose before the interpreter starts. */
  lemma QuotedCommandRunsClientText(executable: string, script: string, timestamp: nat, random: nat,
                                    clientStem: string, rest: string, name: string)
    requires ShellWords.AllPlainInDoubleQuotes(executable)
    requires ShellWords.AllPlainInDoubleQuotes(script)
    requires clientStem != [] && NodePath.Lacks(clientStem, '/')
    requires rest != [] && rest[0] == '(' && NodePath.Lacks(rest, '/') && NodePath.Lacks(rest, '.')
    requires name == UploadGate.StoredFilename(timestamp, random, clientStem + "." + ("$" + rest))
    ensures var line := QuotedCommand(executable, script, UploadGate.StoredPath(name));
            var p := "uploads/" + UploadGate.StoredStem(timestamp, random) + ".";
            var k := |executable| + |script| + |p| + 7;
            k + 2 <= |line| && line[k..k + 2] == "$(" && line[k + 2..] == rest[1..] + "\"" &&
            ShellWords.SplitWords(line) == ShellWords.Words(line[k..], ShellWords.InDouble, p, true, [executable, script])
    ensures ShellWords.SplitWords(QuotedCommand(executable, script, UploadGate.StoredPath(name))) == None
  {
    DollarExtensionPath(timestamp, random, clientStem, rest, name);
    StoredPathCommand(executable, script, timestamp, random, rest, UploadGate.StoredPath(name));
  }

  /** The command line for the stored path `uploads/<timestamp>-<random>.$<rest>`. */
  lemma StoredPathCommand(executable: string, script: string, timestamp: nat, random: nat, rest: string, path: string)
    requires ShellWords.AllPlainInDoubleQuotes(executable)
    requires ShellWords.AllPlainInDoubleQuotes(script)
    requires rest != [] && rest[0] == '('
    requires path == "uploads/" + UploadGate.StoredStem(timestamp, random) + "." + "$" + rest
    ensures var line := QuotedCommand(executable, script, path);
            var p := "uploads/" + UploadGate.StoredStem(timestamp, random) + ".";
            var k := |executable| + |script| + |p| + 7;
            k + 2 <= |line| && line[k..k + 2] == "$(" && line[k + 2..] == rest[1..] + "\"" &&
            ShellWords.SplitWords(line) == ShellWords.Words(line[k..], ShellWords.InDouble, p, true, [executable, script])
    ensures ShellWords.SplitWords(QuotedCommand(executable, script, path)) == None
  {
    StoredPathPlainUpToDot(timestamp, random);
    var p := "uploads/" + UploadGate.StoredStem(timestamp, random) + ".";
    CommandSubstitutionInPath(executable, script, path, p, rest);
    QuotedCommandWithDollar(executable, script, path, p, rest);
  }

  lemma DollarExtensionPath(timestamp: nat, random: nat, clientStem: string, rest: string, name: string)
    requires clientStem != [] && NodePath.Lacks(clientStem, '/')
    requires NodePath.Lacks(rest, '/') && NodePath.Lacks(rest, '.')
    requires name == UploadGate.StoredFilename(timestamp, random, clientStem + "." + ("$" + rest))
    ensures UploadGate.StoredPath(name) == "uploads/" + UploadGate.StoredStem(timestamp, random) + "." + "$" + rest
  {
    NodePath.LacksConcat("$", rest, '/');
    NodePath.LacksConcat("$", rest, '.');
    UploadGate.StoredNameOfFileName(timestamp, random, clientStem, "$" + rest);
    var stem := UploadGate.StoredStem(timestamp, random);
    assert name == stem + "." + ("$" + rest);
    calc {
      UploadGate.StoredPath(name);
      "uploads/" + (stem + "." + ("$" + rest));
      { SeqAssoc("uploads/", stem + ".", "$" + rest); }
      ("uploads/" + (stem + ".")) + ("$" + rest);
      { SeqAssoc("uploads/", stem, "."); SeqAssoc("uploads/" + stem + ".", "$", rest); }
      "uploads/" + stem + "." + "$" + rest;
    }
  }

  lemma SeqAssoc(a: string, b: string, c: string)
    ensures a + (b + c) == a + b + c
  {
  }

  /** The command line with each path single-quoted. */
  function SafeCommand(executable: string, script: string, imagePath: string): string {
    ShellWords.ShellQuote(executable) + " " + ShellWords.ShellQuote(script) + " " +
    ShellWords.ShellQuote(imagePath)
  }

  /** The shell runs the interpreter on exactly the script and the image, whatever
      characters the paths hold. */
  lemma SafeCommandWords(executable: string, script: string, imagePath: string)
    ensures ShellWords.SplitWords(SafeCommand(executable, script, imagePath)) == Some([executable, script, imagePath])
  {
    ShellWords.SafeLineRoundTrip(executable, script, imagePath);
  }

  /* ---------------------------------------------------------------- the result contract */

  /** What the child process reports: its output streams, or the error it failed with
      (non-zero exit, the 60 s timeout, the 10 MiB output buffer, a missing interpreter). */
  datatype ExecOutcome =
    | Completed(stdout: string, stderr: string)
    | ExecFailed(message: string)

  /** The prediction the service returns: the two fields it copies from the parsed output. */
  datatype Prediction = Prediction(predictedClass: Json, confidence: real)

  const InvalidFormatMessage := "Invalid prediction result format"
  const InferenceFailurePrefix := "Failed to run inference: "

  /** Standard error is logged when it is non-empty and does not mention `Warning`. */
  predicate StderrLogged(stderr: string): (r: bool)
    ensures r <==> stderr != [] && forall i :: !OccursAt(stderr, "Warning", i)
  {
    stderr != [] && !Includes(stderr, "Warning")
  }

  /** The check on the parsed output: reading `predicted_class` throws on null; otherwise
      the class must be truthy and the confidence a number. */
  function CheckPrediction(parsed: Json): (r: Result<Prediction, string>)
    ensures parsed.JNull? ==> r == Err(NullReadMessage(PredictedClass))
    ensures !parsed.JNull? && !parsed.JObject? ==> r == Err(InvalidFormatMessage)
    ensures parsed.JObject? ==>
              var cls := LastMember(parsed.members, "predicted_class");
              var conf := LastMember(parsed.members, "confidence");
              (r.Ok? <==> cls.Some? && Truthy(Defined(cls.value)) && conf.Some? && conf.value.JNumber?) &&
              (r.Ok? ==> r.value == Prediction(cls.value, conf.value.n)) &&
              (r.Err? ==> r.error == InvalidFormatMessage)
  {
    match GetProperty(parsed, PredictedClass)
    case Err(message) => Err(message)
    case Ok(cls) =>
      if !Truthy(cls) then Err(InvalidFormatMessage)
      else
        match GetProperty(parsed, Confidence)
        case Err(message) => Err(message)
        case Ok(conf) =>
          if !IsNumber(conf) then Err(InvalidFormatMessage)
          else Ok(Prediction(cls.v, conf.v.n))
  }

  /** Members other than `predicted_class` and `confidence`, wherever they stand, have no
      effect on the check or on the prediction it returns. */
  lemma ExtraMembersDropped(a: seq<(string, Json)>, extra: seq<(string, Json)>, b: seq<(string, Json)>)
    requires forall i :: 0 <= i < |extra| ==> extra[i].0 != "predicted_class" && extra[i].0 != "confidence"
    ensures CheckPrediction(JObject(a + extra + b)) == CheckPrediction(JObject(a + b))
  {
    LastMemberSkip(a, extra, b, "predicted_class");
    LastMemberSkip(a, extra, b, "confidence");
  }

  /** The shape the classifier script prints is accepted, whatever the confidence. */
  lemma ClassifierOutputAccepted(cls: string, confidence: real)
    requires cls != []
    ensures CheckPrediction(JObject([("predicted_class", JString(cls)), ("confidence", JNumber(confidence))]))
         == Ok(Prediction(JString(cls), confidence))
  {
    var ms := [("predicted_class", JString(cls)), ("confidence", JNumber(confidence))];
    var m0 := ms[..1];
    assert m0 == [("predicted_class", JString(cls))];
    assert m0[..0] == [];
    assert LastMember(m0, "predicted_class") == Some(JString(cls));
    assert ms[1].0 != "predicted_class";
    assert LastMember(ms, "predicted_class") == Some(JString(cls));
    assert LastMember(ms, "confidence") == Some(JNumber(confidence));
  }

  /** Rejected shapes: no class, an empty class, a confidence written as a string, output
      that is not an object. */
  lemma RejectedShapes()
    ensures CheckPrediction(JObject([("confidence", JNumber(0.9))])) == Err(InvalidFormatMessage)
    ensures CheckPrediction(JObject([("predicted_class", JString("")), ("confidence", JNumber(0.9))]))
         == Err(InvalidFormatMessage)
    ensures CheckPrediction(JObject([("predicted_class", JString("mel")), ("confidence", JString("0.9"))]))
         == Err(InvalidFormatMessage)
    ensures CheckPrediction(JArray([JString("mel"), JNumber(0.9)])) == Err(InvalidFormatMessage)
  {
    var es := [("predicted_class", JString("")), ("confidence", JNumber(0.9))];
    assert es[..1] == [("predicted_class", JString(""))];
    assert es[..1][..0] == [];
    var ss := [("predicted_class", JString("mel")), ("confidence", JString("0.9"))];
    assert ss[..1] == [("predicted_class", JString("mel"))];
    assert ss[..1][..0] == [];
    var ns := [("confidence", JNumber(0.9))];
    assert ns[..0] == [];
  }

  /** Shapes the check does not exclude: a confidence outside [0, 1] and a class that is
      not a string. */
  lemma AcceptedUnchecked()
    ensures CheckPrediction(JObject([("predicted_class", JString("mel")), ("confidence", JNumber(-3.5))]))
         == Ok(Prediction(JString("mel"), -3.5))
    ensures CheckPrediction(JObject([("predicted_class", JNumber(4.0)), ("confidence", JNumber(0.5))]))
         == Ok(Prediction(JNumber(4.0), 0.5))
  {
    ClassifierOutputAccepted("mel", -3.5);
    var ms := [("predicted_class", JNumber(4.0)), ("confidence", JNumber(0.5))];
    assert ms[..1] == [("predicted_class", JNumber(4.0))];
    assert ms[..1][..0] == [];
  }

  /** The body of `predict`'s try block: run the command, trim and parse its output, check
      it. The message of whatever failed is the error. */
  function RunInference(outcome: ExecOutcome, parse: string -> Result<Json, string>): (r: Result<Prediction, string>)
    ensures outcome.ExecFailed? ==> r == Err(outcome.message)
    ensures outcome.Completed? && parse(Trim(outcome.stdout)).Err? ==> r == Err(parse(Trim(outcome.stdout)).error)
    ensures outcome.Completed? && parse(Trim(outcome.stdout)).Ok? ==> r == CheckPrediction(parse(Trim(outcome.stdout)).value)
    ensures r.Ok? ==> outcome.Completed? && parse(Trim(outcome.stdout)).Ok?
  {
    match outcome
    case ExecFailed(message) => Err(message)
    case Completed(stdout, _) =>
      match parse(Trim(stdout))
      case Err(message) => Err(message)
      case Ok(parsed) => CheckPrediction(parsed)
  }

  /** Standard error never decides the outcome. */
  lemma StderrNeverFails(stdout: string, stderr1: string, stderr2: string, parse: string -> Result<Json, string>)
    ensures RunInference(Completed(stdout, stderr1), parse) == RunInference(Completed(stdout, stderr2), parse)
  {
  }

  /** The newline the script's print appends never reaches JSON.parse. */
  lemma TrailingNewlineIgnored(stdout: string, stderr: string, parse: string -> Result<Json, string>)
    ensures RunInference(Completed(stdout + "\n", stderr), parse) == RunInference(Completed(stdout, stderr), parse)
  {
    TrimIgnoresTrailingWhitespace(stdout, '\n');
  }

  /** What `predict` resolves or rejects with: every failure is one error whose message
      is the cause behind a fixed prefix. */
  function PredictResult(outcome: ExecOutcome, parse: string -> Result<Json, string>): (r: Result<Prediction, string>)
    ensures r.Ok? <==> RunInference(outcome, parse).Ok?
    ensures r.Ok? ==> r == RunInference(outcome, parse)
    ensures r.Err? ==> r.error == InferenceFailurePrefix + RunInference(outcome, parse).error
  {
    match RunInference(outcome, parse)
    case Ok(p) => Ok(p)
    case Err(message) => Err(InferenceFailurePrefix + message)
  }

  /* ---------------------------------------------------------------- the service */

  datatype LogEntry = Info(text: string) | Warning(text: string) | Failure(text: string)

  /** A stored result; the store stamps it with the time of the write. */
  datatype ImageRecord = ImageRecord(filename: string, predictedClass: Json, confidence: real, createdAt: nat)

  datatype WriteOutcome = Written | WriteFailed(message: string)

  function SaveFailedMessage(message: string): string {
    "Failed to save to MongoDB: " + message + ". Prediction still returned to user."
  }

  /** The log lines one call of `predict` adds, in order. */
  function PredictLog(command: string, outcome: ExecOutcome, parse: string -> Result<Json, string>): seq<LogEntry> {
    [Info("Executing: " + command)] + StderrLog(outcome) + FailureLog(RunInference(outcome, parse))
  }

  /** The warning logged for a run that wrote something other than warnings to stderr. */
  function StderrLog(outcome: ExecOutcome): seq<LogEntry> {
    if outcome.Completed? && StderrLogged(outcome.stderr) then [Warning("Python stderr: " + outcome.stderr)] else []
  }

  /** The error logged for a failed attempt. */
  function FailureLog(attempt: Result<Prediction, string>): seq<LogEntry> {
    if attempt.Err? then [Failure("Prediction failed: " + attempt.error)] else []
  }

  /** The warning `saveResult` logs: only a write that fails while a database is present. */
  function SaveLog(store: Option<seq<ImageRecord>>, write: WriteOutcome): seq<LogEntry> {
    if store.Some? && write.WriteFailed? then [Warning(SaveFailedMessage(write.message))] else []
  }

  /** What the controller's handling of a settled prediction adds to the service log: a
      failed prediction is not saved, so nothing; a successful one whatever the save logs. */
  function SettleLog(inference: Result<Prediction, string>, store: Option<seq<ImageRecord>>, write: WriteOutcome): seq<LogEntry> {
    if inference.Ok? then SaveLog(store, write) else []
  }

  lemma LogAssoc(a: seq<LogEntry>, b: seq<LogEntry>, c: seq<LogEntry>, d: seq<LogEntry>)
    ensures a + b + c + d == a + (b + c + d)
  {
  }

  /** The store after an attempt to write `record`: absent stays absent, a failed write
      leaves it as it was, a successful one appends the record. */
  function StoreAfterSave(store: Option<seq<ImageRecord>>, record: ImageRecord, write: WriteOutcome): Option<seq<ImageRecord>> {
    if store.Some? && write.Written? then Some(store.value + [record]) else store
  }

  /** The store is append-only: what it held before a save it still holds, in order, and a
      save adds at most the one record, at the end. */
  lemma StoreOnlyGrows(store: Option<seq<ImageRecord>>, record: ImageRecord, write: WriteOutcome)
    ensures StoreAfterSave(store, record, write).Some? <==> store.Some?
    ensures store.Some? ==>
              var after := StoreAfterSave(store, record, write).value;
              store.value <= after && |after| <= |store.value| + 1 &&
              (|after| == |store.value| + 1 ==> after[|after| - 1] == record)
  {
  }

  class InferenceService {
    const executable: string
    const scriptPath: string
    /** The results collection, or None when the service runs without a database. */
    var store: Option<seq<ImageRecord>>
    var log: seq<LogEntry>

    constructor(projectRoot: string, platform: string, store: Option<seq<ImageRecord>>)
      ensures executable == PythonExecutable(projectRoot, platform)
      ensures scriptPath == ScriptPath(projectRoot, platform)
      ensures this.store == store && log == []
    {
      executable := PythonExecutable(projectRoot, platform);
      scriptPath := ScriptPath(projectRoot, platform);
      this.store := store;
      log := [];
    }

    /** Runs the classifier on the image at `imagePath`. The store is not touched. */
    method Predict(imagePath: string, outcome: ExecOutcome, parse: string -> Result<Json, string>)
      returns (r: Result<Prediction, string>)
      modifies this`log
      ensures r == PredictResult(outcome, parse)
      ensures log == old(log) + PredictLog(QuotedCommand(executable, scriptPath, imagePath), outcome, parse)
    {
      var command := QuotedCommand(executable, scriptPath, imagePath);
      ghost var start := log;
      ghost var info := [Info("Executing: " + command)];
      log := log + [Info("Executing: " + command)];
      var attempt := Attempt(outcome, parse);
      ghost var warned := StderrLog(outcome);
      ghost var failed := FailureLog(attempt);
      if attempt.Err? {
        log := log + [Failure("Prediction failed: " + attempt.error)];
        r := Err(InferenceFailurePrefix + attempt.error);
      } else {
        r := attempt;
      }
      assert log == start + info + warned + failed;
      assert PredictLog(command, outcome, parse) == info + warned + failed;
      LogAssoc(start, info, warned, failed);
    }

    /** The try block up to the check of the parsed output: run the command, log stderr,
        trim and parse stdout, check it. */
    method Attempt(outcome: ExecOutcome, parse: string -> Result<Json, string>) returns (attempt: Result<Prediction, string>)
      modifies this`log
      ensures attempt == RunInference(outcome, parse)
      ensures log == old(log) + StderrLog(outcome)
    {
      match outcome {
        case ExecFailed(message) =>
          attempt := Err(message);
        case Completed(stdout, stderr) =>
          if StderrLogged(stderr) {
            log := log + [Warning("Python stderr: " + stderr)];
          }
          match parse(Trim(stdout)) {
            case Err(message) => attempt := Err(message);
            case Ok(parsed) => attempt := CheckPrediction(parsed);
          }
      }
    }

    /** Stores a result when a database is present. Never fails: a missing store or a
        failed write yields None, and only a failed write is logged. */
    method SaveResult(filename: string, predictedClass: Json, confidence: real, write: WriteOutcome, now: nat)
      returns (saved: Option<ImageRecord>)
      modifies this`store, this`log
      ensures saved.Some? <==> old(store).Some? && write.Written?
      ensures saved.Some? ==> saved.value == ImageRecord(filename, predictedClass, confidence, now)
      ensures store == StoreAfterSave(old(store), ImageRecord(filename, predictedClass, confidence, now), write)
      ensures log == old(log) + SaveLog(old(store), write)
    {
      if store.None? {
        return None;
      }
      match write {
        case WriteFailed(message) =>
          log := log + [Warning(SaveFailedMessage(message))];
          saved := None;
        case Written =>
          var record := ImageRecord(filename, predictedClass, confidence, now);
          store := Some(store.value + [record]);
          saved := Some(record);
      }
    }
  }
}
