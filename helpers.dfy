/**
 * The application helpers: the bounded history of analyses kept in the
 * session, the validation of an uploaded file, the colour of a score and
 * the merge of the configuration file over the defaults.
 */
module Helpers {
  import opened Common
  import opened Text
  import opened Scoring

  // ------------------------------------------------------------- history

  /** One entry of `analysis_history`; the timestamp is supplied by the caller's clock. */
  datatype HistoryItem = HistoryItem(filename: string, timestamp: string, analysis: Analysis)

  /** How many analyses the history keeps. */
  const MaxHistory: nat := 10

  /** The last `n` elements of `s` (all of them when there are fewer). */
  function LastN<T>(s: seq<T>, n: nat): (r: seq<T>)
    ensures |r| == Min(|s|, n)
    ensures r == s[|s| - |r|..]
  {
    if |s| > n then s[|s| - n..] else s
  }

  /** Truncating after every append keeps the same elements as truncating once at the end. */
  lemma TruncateEarly<T>(s: seq<T>, x: T, n: nat)
    requires n >= 1
    ensures LastN(LastN(s, n) + [x], n) == LastN(s + [x], n)
  {
    var t := LastN(s, n);
    var u := s + [x];
    assert t + [x] == u[|u| - |t| - 1..];
  }

  /**
   * The session's `analysis_history`. `added` is every analysis ever
   * recorded, in order; the history keeps the newest ten of them.
   */
  class AnalysisHistory {
    var items: seq<HistoryItem>
    ghost var added: seq<HistoryItem>

    ghost predicate Valid()
      reads this
    {
      items == LastN(added, MaxHistory)
    }

    /** `init_session_state`: an empty history. */
    constructor ()
      ensures Valid() && items == [] && added == []
    {
      items := [];
      added := [];
    }

    /**
     * `add_analysis_to_history`: the new item goes last, the history then
     * being cut to its last ten entries.
     */
    method AddAnalysis(analysis: Analysis, filename: string, timestamp: string)
      requires Valid()
      modifies this
      ensures Valid()
      ensures added == old(added) + [HistoryItem(filename, timestamp, analysis)]
      ensures items == LastN(old(items) + [HistoryItem(filename, timestamp, analysis)], MaxHistory)
      ensures |items| <= MaxHistory && items[|items| - 1] == HistoryItem(filename, timestamp, analysis)
    {
      var item := HistoryItem(filename, timestamp, analysis);
      TruncateEarly(added, item, MaxHistory);
      items := items + [item];
      if |items| > MaxHistory {
        items := items[|items| - MaxHistory..];
      }
      added := added + [item];
    }
  }

  // ----------------------------------------------------- file validation

  /** An uploaded file: its name and its size in bytes. */
  datatype UploadedFile = UploadedFile(name: string, size: nat)

  const MaxFileSize: nat := 10 * 1024 * 1024
  const AllowedExtensions: seq<string> := ["pdf", "docx", "txt"]

  /** `name.split('.')[-1]`: the text after the last dot, or the whole name without one. */
  function AfterLastDot(name: string): (ext: string)
    ensures '.' !in ext
    ensures |ext| <= |name| && ext == name[|name| - |ext|..]
    ensures |ext| < |name| ==> name[|name| - |ext| - 1] == '.'
  {
    if name == [] then []
    else if name[|name| - 1] == '.' then []
    else AfterLastDot(name[..|name| - 1]) + [name[|name| - 1]]
  }

  /** The file's extension, lower-cased. */
  function Extension(name: string): string
  {
    Lower(AfterLastDot(name))
  }

  /** `validate_file`: no file, then size, then extension are checked, in that order. */
  function ValidateFile(file: Option<UploadedFile>): (r: (bool, string))
    ensures r.0 <==> file.Some? && file.value.size <= MaxFileSize && Extension(file.value.name) in AllowedExtensions
    ensures file.None? ==> r == (false, "No file uploaded")
    ensures file.Some? && file.value.size > MaxFileSize ==> r == (false, "File size exceeds 10.0MB limit")
    ensures file.Some? && file.value.size <= MaxFileSize && Extension(file.value.name) !in AllowedExtensions ==>
      r == (false, "Unsupported file type. Allowed: " + Join(AllowedExtensions, ", "))
    ensures r.0 ==> r.1 == "File is valid"
  {
    match file
    case None => (false, "No file uploaded")
    case Some(f) =>
      if f.size > MaxFileSize then (false, "File size exceeds 10.0MB limit")
      else if Extension(f.name) !in AllowedExtensions
      then (false, "Unsupported file type. Allowed: " + Join(AllowedExtensions, ", "))
      else (true, "File is valid")
  }

  /** The size check is strict: a PDF of exactly 10 MiB passes, one byte more fails. */
  lemma SizeLimitIsInclusive()
    ensures ValidateFile(Some(UploadedFile("resume.pdf", MaxFileSize))).0
    ensures !ValidateFile(Some(UploadedFile("resume.pdf", MaxFileSize + 1))).0
  {
    assert AfterLastDot("resume.pdf") == "pdf" by {
      assert "resume.pdf"[..9] == "resume.pd";
      assert "resume.pd"[..8] == "resume.p";
      assert "resume.p"[..7] == "resume.";
    }
    assert Lower("pdf") == "pdf";
  }

  /** Only the part after the last dot counts: "cv.pdf.exe" is refused. */
  lemma LastDotDecides()
    ensures !ValidateFile(Some(UploadedFile("cv.pdf.exe", 1))).0
  {
    assert AfterLastDot("cv.pdf.exe") == "exe" by {
      assert "cv.pdf.exe"[..9] == "cv.pdf.ex";
      assert "cv.pdf.ex"[..8] == "cv.pdf.e";
      assert "cv.pdf.e"[..7] == "cv.pdf.";
    }
  }

  // ---------------------------------------------------------- score colour

  /** `format_score_color`. */
  function ScoreColor(score: real): (color: string)
    ensures score >= 85.0 <==> color == "green"
    ensures 70.0 <= score < 85.0 <==> color == "orange"
    ensures 50.0 <= score < 70.0 <==> color == "yellow"
    ensures score < 50.0 <==> color == "red"
  {
    if score >= 85.0 then "green"
    else if score >= 70.0 then "orange"
    else if score >= 50.0 then "yellow"
    else "red"
  }

  /** The colours from worst to best. */
  function ColorRank(color: string): nat
  {
    if color == "green" then 3 else if color == "orange" then 2 else if color == "yellow" then 1 else 0
  }

  /** A higher score never gets a worse colour. */
  lemma ScoreColorMonotone(a: real, b: real)
    requires a <= b
    ensures ColorRank(ScoreColor(a)) <= ColorRank(ScoreColor(b))
  {
  }

  // -------------------------------------------------------- configuration

  /** A JSON value; numbers are reals. */
  datatype Json =
    | JNull
    | JBool(b: bool)
    | JNumber(n: real)
    | JString(s: string)
    | JArray(elems: seq<Json>)
    | JObject(fields: map<string, Json>)

  const DefaultConfig: map<string, Json> := map[
    "app_title" := JString("AI Resume Screener"),
    "max_files_batch" := JNumber(5.0),
    "score_thresholds" := JObject(map[
      "excellent" := JNumber(85.0), "good" := JNumber(70.0),
      "average" := JNumber(50.0), "poor" := JNumber(30.0)])
  ]

  /**
   * `load_config`: the parsed `config.json`, if the file exists and parses
   * (`None` otherwise), merged over the defaults. A value that is not an
   * object makes the merge fail, and the defaults are returned unchanged.
   */
  function LoadConfig(file: Option<Json>): (config: map<string, Json>)
    ensures DefaultConfig.Keys <= config.Keys
    ensures forall k :: k in DefaultConfig && (file.None? || !file.value.JObject? || k !in file.value.fields) ==>
      config[k] == DefaultConfig[k]
    ensures file.Some? && file.value.JObject? ==>
      config.Keys == DefaultConfig.Keys + file.value.fields.Keys
      && forall k :: k in file.value.fields ==> config[k] == file.value.fields[k]
    ensures file.None? || !file.value.JObject? ==> config == DefaultConfig
  {
    match file
    case Some(JObject(fields)) => DefaultConfig + fields
    case _ => DefaultConfig
  }

  /** Merging is idempotent: loading the merged configuration again yields it unchanged. */
  lemma LoadConfigIdempotent(file: Option<Json>)
    ensures LoadConfig(Some(JObject(LoadConfig(file)))) == LoadConfig(file)
  {
    var c := LoadConfig(file);
    assert DefaultConfig + c == c;
  }
}
