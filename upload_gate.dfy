/**
 * The upload gate of the inference controller: the MIME-type filter, the size ceiling and
 * the name under which an accepted upload is stored in the uploads directory.
 */
module UploadGate {
  import opened Wrappers
  import opened JsValues
  import opened Decimal
  import NodePath

  /** The errors the HTTP layer reports. */
  datatype HttpError =
    | BadRequest(message: string)
    | PayloadTooLarge(message: string)       // raised by the upload middleware
    | InternalServerError(message: string)

  /** Multer's message when an upload exceeds `limits.fileSize`. */
  const FileTooLargeMessage := "File too large"

  function StatusCode(e: HttpError): nat {
    match e
    case BadRequest(_) => 400
    case PayloadTooLarge(_) => 413
    case InternalServerError(_) => 500
  }

  function StatusName(e: HttpError): string {
    match e
    case BadRequest(_) => "Bad Request"
    case PayloadTooLarge(_) => "Payload Too Large"
    case InternalServerError(_) => "Internal Server Error"
  }

  /** The JSON body the framework sends for an HTTP exception built from a message. */
  function ErrorBody(e: HttpError): Json {
    JObject([("message", JString(e.message)), ("error", JString(StatusName(e))),
             ("statusCode", JNumber(StatusCode(e) as real))])
  }

  /** Multer's `limits.fileSize`: 10 MiB. */
  const MaxFileSize: nat := 10 * 1024 * 1024

  /** The image subtypes both the server filter and the browser accept. */
  const ImageSubtypes: seq<string> := ["jpg", "jpeg", "png", "gif", "webp"]

  const OnlyImagesMessage := "Only image files are allowed"

  /** `mimetype.match(/\/(jpg|jpeg|png|gif|webp)$/)`: a case-sensitive suffix test;
      what precedes the '/' is not examined. */
  predicate ServerAcceptsType(mimetype: string) {
    EndsWith(mimetype, "/jpg") || EndsWith(mimetype, "/jpeg") || EndsWith(mimetype, "/png") ||
    EndsWith(mimetype, "/gif") || EndsWith(mimetype, "/webp")
  }

  /** `mimetype` is some text, a '/', then exactly one listed subtype. */
  ghost predicate EndsWithImageSubtype(mimetype: string) {
    exists i :: 0 <= i < |ImageSubtypes| && EndsWith(mimetype, "/" + ImageSubtypes[i])
  }

  /** The filter accepts exactly the types that end in '/' and a listed subtype, whatever
      comes before. */
  lemma ServerFilterMeaning(mimetype: string)
    ensures ServerAcceptsType(mimetype) <==> EndsWithImageSubtype(mimetype)
  {
    if ServerAcceptsType(mimetype) {
      ListedSuffixIsImageSubtype(mimetype);
    }
    if EndsWithImageSubtype(mimetype) {
      ImageSubtypeIsListedSuffix(mimetype);
    }
  }

  lemma ListedSuffixIsImageSubtype(mimetype: string)
    requires ServerAcceptsType(mimetype)
    ensures EndsWithImageSubtype(mimetype)
  {
    if EndsWith(mimetype, "/jpg") { SubtypeWitness(mimetype, 0, "/jpg"); }
    if EndsWith(mimetype, "/jpeg") { SubtypeWitness(mimetype, 1, "/jpeg"); }
    if EndsWith(mimetype, "/png") { SubtypeWitness(mimetype, 2, "/png"); }
    if EndsWith(mimetype, "/gif") { SubtypeWitness(mimetype, 3, "/gif"); }
    if EndsWith(mimetype, "/webp") { SubtypeWitness(mimetype, 4, "/webp"); }
  }

  lemma SubtypeWitness(mimetype: string, i: int, suffix: string)
    requires 0 <= i < |ImageSubtypes| && suffix == "/" + ImageSubtypes[i] && EndsWith(mimetype, suffix)
    ensures EndsWithImageSubtype(mimetype)
  {
  }

  lemma ImageSubtypeIsListedSuffix(mimetype: string)
    requires EndsWithImageSubtype(mimetype)
    ensures ServerAcceptsType(mimetype)
  {
    var i :| 0 <= i < |ImageSubtypes| && EndsWith(mimetype, "/" + ImageSubtypes[i]);
    if i == 0 { assert "/" + ImageSubtypes[0] == "/jpg"; }
    else if i == 1 { assert "/" + ImageSubtypes[1] == "/jpeg"; }
    else if i == 2 { assert "/" + ImageSubtypes[2] == "/png"; }
    else if i == 3 { assert "/" + ImageSubtypes[3] == "/gif"; }
    else { assert "/" + ImageSubtypes[4] == "/webp"; }
  }

  /** The filter's verdict: None lets the upload through, otherwise the error it reports. */
  function FileFilter(mimetype: string): (r: Option<HttpError>)
    ensures r.None? <==> EndsWithImageSubtype(mimetype)
    ensures r.Some? ==> r.value == BadRequest(OnlyImagesMessage)
  {
    ServerFilterMeaning(mimetype);
    if !ServerAcceptsType(mimetype) then Some(BadRequest(OnlyImagesMessage)) else None
  }

  /** The filter does not look at the part before '/'. */
  lemma ServerFilterIgnoresPrefix()
    ensures FileFilter("image/png").None?
    ensures FileFilter("application/png").None?
    ensures FileFilter("/webp").None?
  {
    assert EndsWith("image/png", "/png");
    assert EndsWith("application/png", "/png");
    assert EndsWith("/webp", "/webp");
  }

  /** The filter does not fold case and wants the subtype at the very end. */
  lemma ServerFilterRejections()
    ensures FileFilter("image/PNG") == Some(BadRequest(OnlyImagesMessage))
    ensures FileFilter("image/svg+xml") == Some(BadRequest(OnlyImagesMessage))
    ensures FileFilter("image/png; q=1") == Some(BadRequest(OnlyImagesMessage))
  {
    assert !ServerAcceptsType("image/PNG") by {
      assert "image/PNG"[5..] != "/png";
      assert "image/PNG"[4..] != "/jpeg";
      assert "image/PNG"[4..] != "/webp";
    }
    assert !ServerAcceptsType("image/svg+xml") by {
      assert "image/svg+xml"[9..] != "/png";
      assert "image/svg+xml"[8..] != "/jpeg";
    }
    assert !ServerAcceptsType("image/png; q=1") by {
      assert "image/png; q=1"[10..] != "/png";
      assert "image/png; q=1"[9..] != "/jpeg";
    }
  }

  /** The size the upload middleware lets through: at most 10 MiB. */
  predicate WithinSizeLimit(size: nat) {
    size <= MaxFileSize
  }

  /** A numeral holds neither a separator nor a dot. */
  lemma NumeralIsPlain(s: string)
    requires AllDigits(s)
    ensures NodePath.Lacks(s, '/') && NodePath.Lacks(s, '.')
  {
  }

  /** The part of a stored name before its extension: "<timestamp>-<random>". */
  function StoredStem(timestamp: nat, random: nat): (stem: string)
    ensures NodePath.Lacks(stem, '/') && NodePath.Lacks(stem, '.')
    ensures stem != []
  {
    var t, r := DecimalString(timestamp), DecimalString(random);
    NumeralIsPlain(t);
    NumeralIsPlain(r);
    NodePath.LacksConcat(t, "-", '/');
    NodePath.LacksConcat(t, "-", '.');
    NodePath.LacksConcat(t + "-", r, '/');
    NodePath.LacksConcat(t + "-", r, '.');
    t + "-" + r
  }

  /** `${Date.now()}-${Math.round(Math.random() * 1e9)}${path.extname(originalname)}`:
      the clock and the rounded random number are inputs. The name never holds a '/',
      so the file stays inside the uploads directory. */
  function StoredFilename(timestamp: nat, random: nat, originalname: string): (name: string)
    ensures NodePath.Lacks(name, '/')
    ensures EndsWith(name, NodePath.ExtName(originalname))
  {
    var ext := NodePath.ExtName(originalname);
    var stem := StoredStem(timestamp, random);
    NodePath.ExtNameIsTailOfBaseName(originalname);
    NodePath.LacksConcat(stem, ext, '/');
    stem + ext
  }

  /** A client name `stem.ext` (one dot, no '/') is stored as "<timestamp>-<random>.ext". */
  lemma StoredNameOfFileName(timestamp: nat, random: nat, stem: string, ext: string)
    requires stem != [] && NodePath.Lacks(stem, '/')
    requires NodePath.Lacks(ext, '/') && NodePath.Lacks(ext, '.')
    requires stem + "." + ext != ".."
    ensures StoredFilename(timestamp, random, stem + "." + ext) == StoredStem(timestamp, random) + "." + ext
  {
    NodePath.ExtNameOfFileName(stem, ext);
  }

  /** The path the disk storage reports for a stored file: `path.join('./uploads', name)`. */
  function StoredPath(filename: string): (p: string)
    ensures StartsWith(p, "uploads/") && EndsWith(p, filename)
  {
    "uploads/" + filename
  }

  /** Reads a stored name back into its timestamp, random number and extension. */
  function ParseStoredFilename(name: string): Option<(nat, nat, string)> {
    match ReadNumeral(name)
    case None => None
    case Some((timestamp, rest)) =>
      if rest == [] || rest[0] != '-' then None
      else
        match ReadNumeral(rest[1..])
        case None => None
        case Some((random, ext)) => Some((timestamp, random, ext))
  }

  /** The parse reads a numeral, a '-' and a second numeral; what follows is the extension. */
  lemma ParseStoredFilenameSteps(name: string, timestamp: nat, rest: string, random: nat, ext: string)
    requires ReadNumeral(name) == Some((timestamp, rest))
    requires rest != [] && rest[0] == '-'
    requires ReadNumeral(rest[1..]) == Some((random, ext))
    ensures ParseStoredFilename(name) == Some((timestamp, random, ext))
  {
  }

  /** A name of the stored shape parses back into its parts. */
  lemma ParseStoredShape(name: string, timestamp: nat, random: nat, ext: string)
    requires name == DecimalString(timestamp) + ("-" + DecimalString(random) + ext)
    requires ext == [] || ext[0] == '.'
    ensures ParseStoredFilename(name) == Some((timestamp, random, ext))
  {
    var t, r := DecimalString(timestamp), DecimalString(random);
    var rest := "-" + r + ext;
    AfterTimestamp(random, ext, rest);
    NumeralReadsBack(timestamp, rest);
    ParseStoredFilenameSteps(name, timestamp, rest, random, ext);
  }

  /** What follows the timestamp: a '-', then the random number, then the extension. */
  lemma AfterTimestamp(random: nat, ext: string, rest: string)
    requires ext == [] || ext[0] == '.'
    requires rest == "-" + DecimalString(random) + ext
    ensures rest != [] && rest[0] == '-' && !IsDigit(rest[0])
    ensures ReadNumeral(rest[1..]) == Some((random, ext))
  {
    assert rest[1..] == DecimalString(random) + ext;
    NumeralReadsBack(random, ext);
  }

  /** A rendered number followed by a non-digit reads back as that number. */
  lemma NumeralReadsBack(n: nat, tail: string)
    requires tail == [] || !IsDigit(tail[0])
    ensures ReadNumeral(DecimalString(n) + tail) == Some((n, tail))
  {
    ReadNumeralOf(DecimalString(n), tail);
    DecimalRoundTrip(n);
  }

  /** The stored name determines the timestamp, the random number and the extension. */
  lemma StoredFilenameRoundTrip(timestamp: nat, random: nat, originalname: string)
    ensures ParseStoredFilename(StoredFilename(timestamp, random, originalname))
         == Some((timestamp, random, NodePath.ExtName(originalname)))
  {
    var ext := NodePath.ExtName(originalname);
    var name := StoredFilename(timestamp, random, originalname);
    StoredFilenameShape(timestamp, random, originalname, name);
    ParseStoredShape(name, timestamp, random, ext);
  }

  lemma StoredFilenameShape(timestamp: nat, random: nat, originalname: string, name: string)
    requires name == StoredFilename(timestamp, random, originalname)
    ensures name == DecimalString(timestamp) + ("-" + DecimalString(random) + NodePath.ExtName(originalname))
  {
    var t, r, ext := DecimalString(timestamp), DecimalString(random), NodePath.ExtName(originalname);
    var stem := StoredStem(timestamp, random);
    assert name == stem + ext;
    assert stem == t + "-" + r;
    JoinFour(t, "-", r, ext);
  }

  lemma JoinFour(a: string, b: string, c: string, d: string)
    ensures a + b + c + d == a + (b + c + d)
  {
  }

  /** Two uploads with different clock readings or random numbers never share a name,
      whatever their client file names. */
  lemma StoredFilenameInjective(t1: nat, r1: nat, o1: string, t2: nat, r2: nat, o2: string)
    requires StoredFilename(t1, r1, o1) == StoredFilename(t2, r2, o2)
    ensures t1 == t2 && r1 == r2
    ensures NodePath.ExtName(o1) == NodePath.ExtName(o2)
  {
    StoredFilenameRoundTrip(t1, r1, o1);
    StoredFilenameRoundTrip(t2, r2, o2);
  }

  /** The stored file has the client file's extension, so it is served with the same type. */
  lemma StoredFilenameKeepsExtension(timestamp: nat, random: nat, originalname: string)
    ensures NodePath.ExtName(StoredFilename(timestamp, random, originalname))
         == NodePath.ExtName(originalname)
  {
    var ext := NodePath.ExtName(originalname);
    var stem := StoredStem(timestamp, random);
    var name := StoredFilename(timestamp, random, originalname);
    if ext == [] {
      assert name == stem;
      NodePath.ExtNameWithoutDot(name);
    } else {
      assert name == stem + ext;
      NodePath.ExtNameIsTailOfBaseName(originalname);
      StemThenExtension(stem, ext);
    }
  }

  /** A stem with no '/' or '.' followed by an extension keeps that extension. */
  lemma StemThenExtension(stem: string, ext: string)
    requires stem != [] && NodePath.Lacks(stem, '/') && NodePath.Lacks(stem, '.')
    requires ext != [] && ext[0] == '.' && NodePath.Lacks(ext, '/')
    requires forall i :: 0 < i < |ext| ==> ext[i] != '.'
    ensures NodePath.ExtName(stem + ext) == ext
  {
    var tail := ext[1..];
    assert ext == "." + tail;
    assert stem + ext == stem + "." + tail;
    forall i | 0 <= i < |tail| ensures tail[i] == ext[i + 1] {
    }
    assert (stem + "." + tail)[0] == stem[0];
    NodePath.ExtNameOfFileName(stem, tail);
  }
}
