/**
 * The HTTP layer's logic: validating a POST body against the insert schema,
 * mapping failures to status codes, and building the CSV export.
 */
module Routes {

  import opened Wrappers
  import opened Schema
  import opened Storage

  // ---------------------------------------------------------------------------
  // Body validation

  /** A parsed JSON value; numbers are kept only as far as their kind matters. */
  datatype JsonValue =
    | JNull
    | JBool(b: bool)
    | JNumber(n: int)
    | JString(s: string)
    | JArray(items: seq<JsonValue>)
    | JObject(fields: map<string, JsonValue>)

  function Field(body: JsonValue, key: string): Option<JsonValue>
    requires body.JObject?
  {
    if key in body.fields then Some(body.fields[key]) else None
  }

  /** `mood`: a NOT NULL text column without default, so a required string. */
  function RequiredString(v: Option<JsonValue>): (r: Option<string>)
    ensures r.Some? <==> v.Some? && v.value.JString?
  {
    match v
    case Some(JString(s)) => Some(s)
    case _ => None
  }

  /** `name`, `email`: nullable text columns, so an optional, nullable string. */
  function NullableString(v: Option<JsonValue>): (r: Option<Option<string>>)
    ensures r.Some? <==> v.None? || v.value.JNull? || v.value.JString?
  {
    match v
    case None => Some(None)
    case Some(JNull) => Some(None)
    case Some(JString(s)) => Some(Some(s))
    case _ => None
  }

  /** `consent`: NOT NULL with a default, so optional but not nullable. */
  function OptionalBool(v: Option<JsonValue>): (r: Option<Option<bool>>)
    ensures r.Some? <==> v.None? || v.value.JBool?
  {
    match v
    case None => Some(None)
    case Some(JBool(b)) => Some(Some(b))
    case _ => None
  }

  /**
   * The insert schema's parse. Keys outside the four columns are ignored
   * (`id` and `timestamp` among them); on failure the result names exactly
   * the offending fields, in column order.
   */
  function ParseInsert(body: JsonValue): (r: Result<InsertMoodSubmission, seq<string>>)
    ensures r.Failure? ==> |r.error| > 0
    ensures r.Failure? && body.JObject? ==>
      && ("mood" in r.error <==> RequiredString(Field(body, "mood")).None?)
      && ("name" in r.error <==> NullableString(Field(body, "name")).None?)
      && ("email" in r.error <==> NullableString(Field(body, "email")).None?)
      && ("consent" in r.error <==> OptionalBool(Field(body, "consent")).None?)
    ensures r.Failure? && body.JObject? ==>
      r.error == (if RequiredString(Field(body, "mood")).None? then ["mood"] else [])
               + (if NullableString(Field(body, "name")).None? then ["name"] else [])
               + (if NullableString(Field(body, "email")).None? then ["email"] else [])
               + (if OptionalBool(Field(body, "consent")).None? then ["consent"] else [])
    ensures r.Success? <==>
      && body.JObject?
      && RequiredString(Field(body, "mood")).Some?
      && NullableString(Field(body, "name")).Some?
      && NullableString(Field(body, "email")).Some?
      && OptionalBool(Field(body, "consent")).Some?
    ensures r.Success? ==>
      && Field(body, "mood") == Some(JString(r.value.mood))
      && (r.value.consent.Some? <==> Field(body, "consent").Some?)
    ensures r.Success? && Field(body, "name").Some? && Field(body, "name").value.JString? ==>
      r.value.name == Some(Field(body, "name").value.s)
    ensures r.Success? && (Field(body, "name") == None || Field(body, "name") == Some(JNull)) ==>
      r.value.name == None
    ensures r.Success? && Field(body, "email").Some? && Field(body, "email").value.JString? ==>
      r.value.email == Some(Field(body, "email").value.s)
    ensures r.Success? && (Field(body, "email") == None || Field(body, "email") == Some(JNull)) ==>
      r.value.email == None
    ensures r.Success? && Field(body, "consent").Some? ==>
      r.value.consent == Some(Field(body, "consent").value.b)
  {
    if !body.JObject? then Failure([""])
    else
      var mood := RequiredString(Field(body, "mood"));
      var name := NullableString(Field(body, "name"));
      var email := NullableString(Field(body, "email"));
      var consent := OptionalBool(Field(body, "consent"));
      if mood.Some? && name.Some? && email.Some? && consent.Some? then
        Success(InsertMoodSubmission(mood.value, name.value, email.value, consent.value))
      else
        Failure((if mood.None? then ["mood"] else [])
              + (if name.None? then ["name"] else [])
              + (if email.None? then ["email"] else [])
              + (if consent.None? then ["consent"] else []))
  }

  /** Any string is accepted as a mood, one of the five or not. */
  lemma AnyMoodParses(mood: string)
    ensures ParseInsert(JObject(map["mood" := JString(mood)]))
         == Success(InsertMoodSubmission(mood, None, None, None))
  {
  }

  // ---------------------------------------------------------------------------
  // POST /api/moods

  datatype PostResponse =
    | Created(row: MoodSubmission)      // 200, the created row as JSON
    | InvalidSubmission(issues: seq<string>)  // 400
    | SubmitFailed                      // 500

  function Status(resp: PostResponse): int {
    match resp
    case Created(_) => 200
    case InvalidSubmission(_) => 400
    case SubmitFailed => 500
  }

  /**
   * A body the schema rejects gives 400 and stores nothing; a store failure
   * (the database unavailable, or a duplicate generated id) gives 500 and
   * stores nothing; otherwise the new row is stored and returned.
   */
  method PostMood(store: DatabaseStorage, body: JsonValue, uuid: string, now: int, available: bool)
    returns (resp: PostResponse)
    requires store.Valid()
    modifies store
    ensures store.Valid()
    ensures ParseInsert(body).Failure? ==>
      resp == InvalidSubmission(ParseInsert(body).error) && store.rows == old(store.rows)
    ensures ParseInsert(body).Success? && (!available || HasId(old(store.rows), uuid)) ==>
      resp == SubmitFailed && store.rows == old(store.rows)
    ensures ParseInsert(body).Success? && available && !HasId(old(store.rows), uuid) ==>
      resp == Created(NewRow(ParseInsert(body).value, uuid, now)) && store.rows == old(store.rows) + [resp.row]
    ensures Status(resp) == 400 <==> ParseInsert(body).Failure?
  {
    var parsed := ParseInsert(body);
    if parsed.Failure? {
      return InvalidSubmission(parsed.error);
    }
    var created := store.CreateMoodSubmission(parsed.value, uuid, now, available);
    if created.Failure? {
      return SubmitFailed;
    }
    resp := Created(created.value);
  }

  // ---------------------------------------------------------------------------
  // GET /api/moods/export

  const CsvHeaderLine: string := "ID,Mood,Name,Email,Timestamp,Consent"
  const CsvHeader: string := CsvHeaderLine + "\n"

  /** `value || ""`: a null or empty optional text becomes the empty string. */
  function TextOrEmpty(o: Option<string>): (r: string)
    ensures o.None? ==> r == ""
    ensures o.Some? ==> r == o.value
  {
    match o
    case None => ""
    case Some(s) => if s == "" then "" else s
  }

  function Quoted(s: string): string {
    "\"" + s + "\""
  }

  function BoolText(b: bool): string {
    if b then "true" else "false"
  }

  /**
   * One CSV row. `iso` stands for `Date.prototype.toISOString`. Only mood,
   * name, email and timestamp are quoted, and nothing inside them is escaped.
   */
  function CsvRow(s: MoodSubmission, iso: int -> string): (r: string)
    ensures r == Join(RowFields(s, iso), ',')
  {
    JoinSix(s.id, Quoted(s.mood), Quoted(TextOrEmpty(s.name)), Quoted(TextOrEmpty(s.email)),
            Quoted(iso(s.timestamp)), BoolText(s.consent), ',');
    s.id + "," + Quoted(s.mood) + "," + Quoted(TextOrEmpty(s.name)) + ","
      + Quoted(TextOrEmpty(s.email)) + "," + Quoted(iso(s.timestamp)) + "," + BoolText(s.consent)
  }

  lemma JoinSix(f0: string, f1: string, f2: string, f3: string, f4: string, f5: string, sep: char)
    ensures Join([f0, f1, f2, f3, f4, f5], sep)
         == f0 + [sep] + f1 + [sep] + f2 + [sep] + f3 + [sep] + f4 + [sep] + f5
  {
    assert [f0, f1, f2, f3, f4, f5] == [f0] + ([f1] + ([f2] + ([f3] + ([f4] + [f5]))));
    JoinCons(f4, [f5], sep);
    JoinCons(f3, [f4] + [f5], sep);
    JoinCons(f2, [f3] + ([f4] + [f5]), sep);
    JoinCons(f1, [f2] + ([f3] + ([f4] + [f5])), sep);
    JoinCons(f0, [f1] + ([f2] + ([f3] + ([f4] + [f5]))), sep);
  }

  lemma JoinCons(x: string, rest: seq<string>, sep: char)
    requires rest != []
    ensures Join([x] + rest, sep) == x + [sep] + Join(rest, sep)
  {
    assert ([x] + rest)[1..] == rest;
  }

  function CsvRows(subs: seq<MoodSubmission>, iso: int -> string): (r: seq<string>)
    ensures |r| == |subs|
    ensures forall i :: 0 <= i < |subs| ==> r[i] == CsvRow(subs[i], iso)
  {
    if subs == [] then [] else [CsvRow(subs[0], iso)] + CsvRows(subs[1..], iso)
  }

  /** The summed length of the parts. */
  function TotalLength(parts: seq<string>): nat {
    if parts == [] then 0 else |parts[0]| + TotalLength(parts[1..])
  }

  /**
   * `Array.prototype.join(sep)`: no separator before the first or after the
   * last part, so exactly one between each neighbouring pair.
   */
  function Join(parts: seq<string>, sep: char): (r: string)
    ensures |r| == TotalLength(parts) + (if parts == [] then 0 else |parts| - 1)
  {
    if parts == [] then ""
    else if |parts| == 1 then parts[0]
    else parts[0] + [sep] + Join(parts[1..], sep)
  }

  /** Splitting at every `sep`: the partner of `Join`. */
  function Split(s: string, sep: char): (r: seq<string>)
    ensures |r| > 0
  {
    if s == [] then [""]
    else
      var rest := Split(s[1..], sep);
      if s[0] == sep then [""] + rest
      else [[s[0]] + rest[0]] + rest[1..]
  }

  /** The export document: the header line, then the rows joined by LF. */
  function ExportCsv(subs: seq<MoodSubmission>, iso: int -> string): (text: string)
    ensures CsvHeader <= text
    ensures subs == [] <==> text == CsvHeader
  {
    var body := Join(CsvRows(subs, iso), '\n');
    assert subs != [] ==> |body| > 0 by {
      if subs != [] { JoinNonEmpty(CsvRows(subs, iso), '\n'); }
    }
    CsvHeader + body
  }

  lemma {:induction false} JoinNonEmpty(parts: seq<string>, sep: char)
    requires |parts| > 0 && |parts[0]| > 0
    ensures |Join(parts, sep)| > 0
  {
  }

  lemma {:induction false} SplitNoSep(s: string, sep: char)
    requires sep !in s
    ensures Split(s, sep) == [s]
  {
    if s != [] {
      SplitNoSep(s[1..], sep);
      assert [s[0]] + s[1..] == s;
    }
  }

  lemma {:induction false} SplitConcat(a: string, sep: char, rest: string)
    requires sep !in a
    ensures Split(a + [sep] + rest, sep) == [a] + Split(rest, sep)
  {
    if a == [] {
      assert a + [sep] + rest == [sep] + rest;
      assert ([sep] + rest)[1..] == rest;
    } else {
      var s := a + [sep] + rest;
      assert s[1..] == a[1..] + [sep] + rest;
      SplitConcat(a[1..], sep, rest);
      assert [a[0]] + a[1..] == a;
    }
  }

  /** Splitting a join gives back the parts when no part holds the separator. */
  lemma {:induction false} SplitJoin(parts: seq<string>, sep: char)
    requires |parts| > 0
    requires forall i :: 0 <= i < |parts| ==> sep !in parts[i]
    ensures Split(Join(parts, sep), sep) == parts
  {
    if |parts| == 1 {
      SplitNoSep(parts[0], sep);
    } else {
      SplitJoin(parts[1..], sep);
      SplitConcat(parts[0], sep, Join(parts[1..], sep));
      assert parts == [parts[0]] + parts[1..];
    }
  }

  predicate LineSafe(s: MoodSubmission, iso: int -> string) {
    '\n' !in s.id && '\n' !in s.mood && '\n' !in TextOrEmpty(s.name)
      && '\n' !in TextOrEmpty(s.email) && '\n' !in iso(s.timestamp)
  }

  lemma CsvRowLineSafe(s: MoodSubmission, iso: int -> string)
    requires LineSafe(s, iso)
    ensures '\n' !in CsvRow(s, iso)
  {
  }

  /**
   * When no field holds a line feed, the export's lines are exactly the header
   * and then one row per submission, in input order, with no trailing line.
   */
  lemma ExportLines(subs: seq<MoodSubmission>, iso: int -> string)
    requires |subs| > 0
    requires forall i :: 0 <= i < |subs| ==> LineSafe(subs[i], iso)
    ensures Split(ExportCsv(subs, iso), '\n') == [CsvHeaderLine] + CsvRows(subs, iso)
  {
    var rows := CsvRows(subs, iso);
    forall i | 0 <= i < |rows| ensures '\n' !in rows[i] {
      CsvRowLineSafe(subs[i], iso);
    }
    SplitJoin(rows, '\n');
    var body := Join(rows, '\n');
    assert ExportCsv(subs, iso) == CsvHeaderLine + ['\n'] + body;
    HeaderHasNoLineFeed();
    SplitConcat(CsvHeaderLine, '\n', body);
  }

  /** With no submissions the document is the header and a line feed: two lines, the second empty. */
  lemma ExportLinesEmpty(iso: int -> string)
    ensures Split(ExportCsv([], iso), '\n') == [CsvHeaderLine, ""]
  {
    HeaderHasNoLineFeed();
    SplitConcat(CsvHeaderLine, '\n', "");
  }

  lemma HeaderHasNoLineFeed()
    ensures '\n' !in CsvHeaderLine
  {
  }

  /** The fields a reader recovers from one row. */
  datatype CsvRecord = CsvRecord(id: string, mood: string, name: string, email: string, timestamp: string, consent: bool)

  function Unquote(s: string): Option<string> {
    if |s| >= 2 && s[0] == '"' && s[|s| - 1] == '"' then Some(s[1..|s| - 1]) else None
  }

  /** A plain reader of one row: six comma-separated fields, four of them quoted. */
  function ParseRow(line: string): Option<CsvRecord> {
    var f := Split(line, ',');
    if |f| != 6 then None
    else
      var mood, name, email, ts := Unquote(f[1]), Unquote(f[2]), Unquote(f[3]), Unquote(f[4]);
      if mood.None? || name.None? || email.None? || ts.None? then None
      else if f[5] == "true" then Some(CsvRecord(f[0], mood.value, name.value, email.value, ts.value, true))
      else if f[5] == "false" then Some(CsvRecord(f[0], mood.value, name.value, email.value, ts.value, false))
      else None
  }

  /**
   * No field holds a comma. For the plain reader above that is the only
   * character that breaks a row; a reader following RFC 4180 would also be
   * misled by a quote inside a field, because quotes are never doubled.
   */
  predicate CommaFree(s: MoodSubmission, iso: int -> string) {
    ',' !in s.id && ',' !in s.mood && ',' !in TextOrEmpty(s.name)
      && ',' !in TextOrEmpty(s.email) && ',' !in iso(s.timestamp)
  }

  /** The six fields of a row as written, before they are joined by commas. */
  function RowFields(s: MoodSubmission, iso: int -> string): seq<string> {
    [s.id, Quoted(s.mood), Quoted(TextOrEmpty(s.name)), Quoted(TextOrEmpty(s.email)),
     Quoted(iso(s.timestamp)), BoolText(s.consent)]
  }

  lemma UnquoteQuoted(s: string)
    ensures Unquote(Quoted(s)) == Some(s)
  {
    assert Quoted(s)[1..|Quoted(s)| - 1] == s;
  }

  /**
   * A row reads back as the submission's id, mood, name and email (absent as
   * empty), timestamp text and consent, for fields without commas.
   */
  lemma CsvRowRoundTrip(s: MoodSubmission, iso: int -> string)
    requires CommaFree(s, iso)
    ensures ParseRow(CsvRow(s, iso))
         == Some(CsvRecord(s.id, s.mood, TextOrEmpty(s.name), TextOrEmpty(s.email), iso(s.timestamp), s.consent))
  {
    var parts := RowFields(s, iso);
    assert forall i :: 0 <= i < |parts| ==> ',' !in parts[i];
    SplitJoin(parts, ',');
    UnquoteQuoted(s.mood);
    UnquoteQuoted(TextOrEmpty(s.name));
    UnquoteQuoted(TextOrEmpty(s.email));
    UnquoteQuoted(iso(s.timestamp));
  }

  /**
   * GET /api/moods/export: the rows of the listing (the 100 most recent,
   * newest first), not the whole table.
   */
  function GetExport(store: DatabaseStorage, iso: int -> string): (text: string)
    reads store
    ensures text == ExportCsv(Recent(store.rows), iso)
  {
    ExportCsv(store.GetMoodSubmissions(), iso)
  }
}
