/**
 * The five portfolio data endpoints under `/api/admin/portfolio/`. Each one owns one
 * key of one JSON document in `src/data/`: `projects`, `skills` and `experiences`
 * have a file each, while `education` and `certificates` are two keys of the same
 * `education.json`.
 *
 * GET reads the document and answers its key, or `[]` when the key is absent or
 * falsy. PUT takes an array and writes the document back with that key replaced,
 * keeping every other top-level key.
 *
 * The data directory is a class whose `files` map a path to the text of a file,
 * either unparsable or a parsed JSON value; a path outside the map is a missing
 * file. JSON numbers are integers here.
 */
module JsonStore {
  import opened Wrappers

  datatype Json =
    | JNull
    | JBool(b: bool)
    | JNum(n: int)
    | JStr(s: string)
    | JArr(items: seq<Json>)
    | JObj(fields: map<string, Json>)

  /** The contents of a file: text `JSON.parse` rejects, or the value it parses to. */
  datatype FileText = Malformed | WellFormed(doc: Json)

  datatype Response = Response(status: int, body: Json)

  /** JavaScript truthiness of a parsed value: `null`, `false`, `0` and `""` are falsy. */
  predicate Truthy(j: Json) {
    match j
    case JNull => false
    case JBool(b) => b
    case JNum(n) => n != 0
    case JStr(s) => s != ""
    case JArr(_) => true
    case JObj(_) => true
  }

  function ErrorBody(message: string): Json {
    JObj(map["error" := JStr(message)])
  }

  const SuccessBody := JObj(map["success" := JBool(true)])

  /** The five data endpoints. */
  datatype Endpoint = Projects | Skills | Experiences | Education | Certificates {

    /** The document key the endpoint owns. */
    function Key(): string {
      match this
      case Projects => "projects"
      case Skills => "skills"
      case Experiences => "experiences"
      case Education => "education"
      case Certificates => "certificates"
    }

    /** The file the endpoint reads and writes; education and certificates share one. */
    function FilePath(): string {
      match this
      case Projects => "src/data/projects.json"
      case Skills => "src/data/skills.json"
      case Experiences => "src/data/experiences.json"
      case Education => "src/data/education.json"
      case Certificates => "src/data/education.json"
    }

    function ReadError(): string {
      match this
      case Projects => "Failed to read projects"
      case Skills => "Failed to read skills"
      case Experiences => "Failed to read experiences"
      case Education => "Failed to read education data"
      case Certificates => "Failed to read certificates"
    }

    function FormatError(): string {
      match this
      case Projects => "Invalid data format. Expected an array of projects."
      case Skills => "Invalid data format. Expected an array of skills."
      case Experiences => "Invalid data format. Expected an array of experiences."
      case Education => "Invalid data format. Expected an array of education entries."
      case Certificates => "Invalid data format. Expected an array of certificates."
    }

    function UpdateError(): string {
      "Failed to update " + Key()
    }
  }

  /** Two endpoints write the same file exactly when they are the same endpoint or the education pair. */
  lemma SharedFiles(e: Endpoint, f: Endpoint)
    ensures e.FilePath() == f.FilePath() <==> e == f || {e, f} == {Education, Certificates}
    ensures e.Key() == f.Key() <==> e == f
  {
  }

  /** The placeholder check of every route: it accepts every request, so no route ever answers 401. */
  function Authenticate(authorization: Option<string>): (r: bool)
    ensures r
  {
    true
  }

  // ------------------------------------------------------------ property access

  /** `doc.key` on a value that is not `null`: only objects have the endpoint keys. */
  function Field(doc: Json, key: string): Option<Json> {
    if doc.JObj? && key in doc.fields then Some(doc.fields[key]) else None
  }

  /** Reads a file, `None` when it is missing or does not parse. */
  function ReadDoc(files: map<string, FileText>, path: string): (r: Option<Json>)
    ensures r.Some? <==> path in files && files[path].WellFormed?
  {
    if path in files && files[path].WellFormed? then Some(files[path].doc) else None
  }

  /**
   * GET: `JSON.parse(readFileSync(path)).key || []`. A missing or unparsable file
   * and a document that is `null` (whose property access throws) answer 500.
   */
  function Get(files: map<string, FileText>, e: Endpoint): (r: Response)
    ensures r.status == 500 <==> ReadDoc(files, e.FilePath()) in {None, Some(JNull)}
    ensures r.status == 500 ==> r.body == ErrorBody(e.ReadError())
    ensures r.status != 500 ==> r.status == 200 && Truthy(r.body)
    ensures r.status == 200 ==> r.body == JArr([]) || Some(r.body) == Field(ReadDoc(files, e.FilePath()).value, e.Key())
    ensures ReadDoc(files, e.FilePath()).Some? && ReadDoc(files, e.FilePath()).value != JNull
      && Field(ReadDoc(files, e.FilePath()).value, e.Key()).Some?
      ==> r == Response(200, if Truthy(Field(ReadDoc(files, e.FilePath()).value, e.Key()).value)
                             then Field(ReadDoc(files, e.FilePath()).value, e.Key()).value
                             else JArr([]))
  {
    match ReadDoc(files, e.FilePath())
    case None => Response(500, ErrorBody(e.ReadError()))
    case Some(doc) =>
      if doc.JNull? then Response(500, ErrorBody(e.ReadError()))
      else
        match Field(doc, e.Key())
        case Some(v) => if Truthy(v) then Response(200, v) else Response(200, JArr([]))
        case None => Response(200, JArr([]))
  }

  /** A key absent from a readable, non-`null` document reads as `[]`. */
  lemma GetAbsentKey(files: map<string, FileText>, e: Endpoint)
    requires ReadDoc(files, e.FilePath()).Some?
    requires ReadDoc(files, e.FilePath()).value != JNull
    requires Field(ReadDoc(files, e.FilePath()).value, e.Key()).None?
    ensures Get(files, e) == Response(200, JArr([]))
  {
  }

  // ------------------------------------------------------------ object spread

  function DigitChar(d: int): (c: char)
    requires 0 <= d < 10
    ensures '0' <= c <= '9'
  {
    ['0', '1', '2', '3', '4', '5', '6', '7', '8', '9'][d]
  }

  predicate IsDigits(s: string) {
    s != [] && forall i :: 0 <= i < |s| ==> '0' <= s[i] <= '9'
  }

  /** The decimal name of an array index, as JavaScript writes property keys. */
  function IndexName(n: nat): (r: string)
    ensures IsDigits(r)
  {
    if n < 10 then [DigitChar(n)] else IndexName(n / 10) + [DigitChar(n % 10)]
  }

  /** The own properties of an array or string when spread: one per index. */
  function IndexFields(xs: seq<Json>): (r: map<string, Json>)
    ensures forall k :: k in r ==> IsDigits(k)
  {
    if xs == [] then map[]
    else IndexFields(xs[..|xs| - 1])[IndexName(|xs| - 1) := xs[|xs| - 1]]
  }

  /** `{...doc}`: an object's fields, an array's or a string's indices, and nothing for the rest. */
  function Spread(doc: Json): (r: map<string, Json>)
    ensures doc.JObj? ==> r == doc.fields
    ensures !doc.JObj? ==> forall k :: k in r ==> IsDigits(k)
  {
    match doc
    case JObj(fields) => fields
    case JArr(xs) => IndexFields(xs)
    case JStr(s) => IndexFields(seq(|s|, i requires 0 <= i < |s| => JStr([s[i]])))
    case _ => map[]
  }

  /** No endpoint key is an index name, so spreading a non-object never supplies one. */
  lemma KeyIsNotIndex(e: Endpoint)
    ensures !IsDigits(e.Key())
  {
    assert !('0' <= e.Key()[0] <= '9');
  }

  /** The document PUT writes: `{ ...doc, [key]: items }`. */
  function Replaced(doc: Json, e: Endpoint, items: seq<Json>): (r: Json)
    ensures r.JObj? && e.Key() in r.fields && r.fields[e.Key()] == JArr(items)
    ensures forall k :: k in Spread(doc) && k != e.Key() ==> k in r.fields && r.fields[k] == Spread(doc)[k]
    ensures forall k :: k in r.fields ==> k == e.Key() || k in Spread(doc)
  {
    JObj(Spread(doc)[e.Key() := JArr(items)])
  }

  // ------------------------------------------------------------ the data directory

  class DataDir {
    var files: map<string, FileText>

    constructor(initial: map<string, FileText>)
      ensures files == initial
    {
      files := initial;
    }

    /**
     * PUT with the parsed request body (`None` when `req.json()` fails). Only an
     * array body over a readable file writes, and it writes only that file.
     */
    method Put(e: Endpoint, body: Option<Json>) returns (r: Response)
      modifies this
      ensures body.None? ==> r == Response(500, ErrorBody(e.UpdateError())) && files == old(files)
      ensures body.Some? && !body.value.JArr? ==> r == Response(400, ErrorBody(e.FormatError())) && files == old(files)
      ensures body.Some? && body.value.JArr? && ReadDoc(old(files), e.FilePath()).None? ==>
        r == Response(500, ErrorBody(e.UpdateError())) && files == old(files)
      ensures body.Some? && body.value.JArr? && ReadDoc(old(files), e.FilePath()).Some? ==>
        (r == Response(200, SuccessBody)
        && files == old(files)[e.FilePath() := WellFormed(Replaced(old(files)[e.FilePath()].doc, e, body.value.items))])
    {
      if body.None? {
        return Response(500, ErrorBody(e.UpdateError()));
      }
      if !body.value.JArr? {
        return Response(400, ErrorBody(e.FormatError()));
      }
      var current := ReadDoc(files, e.FilePath());
      if current.None? {
        return Response(500, ErrorBody(e.UpdateError()));
      }
      files := files[e.FilePath() := WellFormed(Replaced(current.value, e, body.value.items))];
      r := Response(200, SuccessBody);
    }
  }

  // ------------------------------------------------------------ PUT then GET

  /** The files after a PUT of `items` that succeeded, as `DataDir.Put` leaves them. */
  function AfterPut(files: map<string, FileText>, e: Endpoint, items: seq<Json>): map<string, FileText>
    requires ReadDoc(files, e.FilePath()).Some?
  {
    files[e.FilePath() := WellFormed(Replaced(files[e.FilePath()].doc, e, items))]
  }

  /** After a successful PUT, GET on the same endpoint answers exactly the array written. */
  lemma GetAfterPut(files: map<string, FileText>, e: Endpoint, items: seq<Json>)
    requires ReadDoc(files, e.FilePath()).Some?
    ensures Get(AfterPut(files, e, items), e) == Response(200, JArr(items))
  {
  }

  /**
   * A PUT leaves every other endpoint's GET as it was; in particular PUT of
   * `education` keeps `certificates` and the other way round. The one exception is
   * a shared file whose document was `null`: GET on it failed before, and the PUT
   * replaced it with an object.
   */
  lemma PutIsolation(files: map<string, FileText>, e: Endpoint, f: Endpoint, items: seq<Json>)
    requires ReadDoc(files, e.FilePath()).Some?
    requires f != e
    requires f.FilePath() == e.FilePath() ==> files[e.FilePath()].doc != JNull
    ensures Get(AfterPut(files, e, items), f) == Get(files, f)
  {
    SharedFiles(e, f);
    if f.FilePath() == e.FilePath() {
      var doc := files[e.FilePath()].doc;
      var after := Replaced(doc, e, items);
      assert ReadDoc(AfterPut(files, e, items), f.FilePath()) == Some(after);
      if doc.JObj? {
        assert Field(after, f.Key()) == Field(doc, f.Key());
      } else {
        KeyIsNotIndex(f);
        assert f.Key() !in after.fields;
        assert Field(doc, f.Key()) == None;
      }
    } else {
      assert ReadDoc(AfterPut(files, e, items), f.FilePath()) == ReadDoc(files, f.FilePath());
    }
  }

  /** The shared-file exception is real: a `null` `education.json` fails certificates' GET until education is PUT. */
  lemma NullDocumentException(files: map<string, FileText>)
    requires files == map[Education.FilePath() := WellFormed(JNull)]
    ensures Get(files, Certificates).status == 500
    ensures Get(AfterPut(files, Education, []), Certificates) == Response(200, JArr([]))
  {
    assert Certificates.Key() !in Spread(JNull);
  }
}
