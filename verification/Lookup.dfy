// retrieve_cusno: choose a directory, probe its indexes and single object, fall back to latest/,
// check the record found, and scan the bulk file when it is the wrong one.
module Lookup {
  import opened Values
  import opened Bucket

  // ---------- keys ----------

  /** str.zfill(3): zeros go after a leading sign. */
  function ZFill3(s: string): (r: string)
    ensures |r| == if |s| < 3 then 3 else |s|
  {
    if |s| >= 3 then s
    else
      var zeros := "000"[..3 - |s|];
      if s != "" && (s[0] == '+' || s[0] == '-') then [s[0]] + zeros + s[1..] else zeros + s
  }

  /** The shard a customer number belongs to: its last three characters, zero-padded. */
  function IndexPrefix(cusno: string): (r: string)
    ensures |r| == 3
  {
    var s := ZFill3(Strip(cusno));
    s[|s| - 3..]
  }

  function ShardKey(dir: string, cusno: string): string { dir + "/index_" + IndexPrefix(cusno) + ".json" }

  function FullKey(dir: string): string { dir + "/index.json" }

  function SingleKey(dir: string, cusno: string): string { dir + "/" + cusno + ".json" }

  function BulkKey(dir: string): string { dir + "/bulk.jsonl" }

  function MetaKey(dir: string): string { dir + "/_meta.json" }

  function Latest(root: string): string { root + "/latest" }

  // ---------- reading objects ----------

  datatype Outcome = Doc(doc: Json) | Missing | Raised

  /** A parsed object; JSON null is Python's None and counts as nothing found. */
  function AsDoc(j: Option<Json>): (r: Outcome)
    ensures r.Doc? ==> j == Some(r.doc) && !r.doc.Null?
  {
    if j.None? || j.value.Null? then Missing else Doc(j.value)
  }

  function ReadJson(e: Env, b: Objects, key: string): Option<Json> {
    if key in b then e.parse(b[key]) else None
  }

  datatype Unpacked = Pair(a: Json, b: Json) | WrongCount | NotIterable

  /** `start_off, length = entry`.  An object yields two of its names, which are strings of some kind. */
  function Unpack(entry: Json): Unpacked {
    match entry
    case Arr(items) => if |items| == 2 then Pair(items[0], items[1]) else WrongCount
    case Str(s) => if |s| == 2 then Pair(Str(s[..1]), Str(s[1..])) else WrongCount
    case Obj(fields) => if |fields| == 2 then Pair(Str("name"), Str("name")) else WrongCount
    case _ => NotIterable
  }

  /** The bulk record an index entry points at: a ranged GET, or the whole object and a slice. */
  function Entry(e: Env, bulk: Option<Bytes>, entry: Json): Outcome {
    match Unpack(entry)
    case NotIterable => Raised
    case WrongCount => Missing
    case Pair(a, n) =>
      if bulk.None? then Missing else
      match e.ranged(bulk.value, a, n)
      case Failed => Missing
      case Part(bytes) => AsDoc(e.parse(bytes))
      case Unsupported =>
        if IntOf(a).None? || IntOf(n).None? then Raised
        else AsDoc(e.parse(Slice(bulk.value, IntOf(a).value, IntOf(a).value + IntOf(n).value)))
  }

  function ViaIndex(e: Env, b: Objects, indexKey: string, bulkKey: string, cusno: string): Outcome {
    match ReadJson(e, b, indexKey)
    case None => Missing
    case Some(Obj(index)) => if cusno in index then Entry(e, Get(b, bulkKey), index[cusno]) else Missing
    case Some(Arr(items)) => if Str(cusno) in items then Raised else Missing
    case Some(Str(s)) => if Contains(s, cusno) then Raised else Missing
    case Some(_) => Raised
  }

  /** Shard index, then full index, then the customer's own object, in one directory. */
  function Probe(e: Env, b: Objects, dir: string, cusno: string): Outcome {
    var shard := ViaIndex(e, b, ShardKey(dir, cusno), BulkKey(dir), cusno);
    if !shard.Missing? then shard else
    var full := ViaIndex(e, b, FullKey(dir), BulkKey(dir), cusno);
    if !full.Missing? then full else AsDoc(ReadJson(e, b, SingleKey(dir, cusno)))
  }

  // ---------- choosing a directory ----------

  /** What the object store shows: its objects, and the names list_objects gives, or None if it fails. */
  datatype Site = Site(objects: Objects, listing: Option<seq<string>>)

  datatype Choice = At(dir: string, useLatest: bool) | Nowhere | ChoiceRaised

  datatype DateField = Date(s: string) | NoDate | BadType

  predicate IsDate(e: Env, s: string) {
    |s| == 8 && forall i :: 0 <= i < 8 ==> e.isDigit(s[i])
  }

  /** `s.replace("-", "")` */
  function WithoutDashes(s: string): string {
    if s == "" then "" else (if s[0] == '-' then "" else [s[0]]) + WithoutDashes(s[1..])
  }

  function DateFrom(e: Env, v: Json): DateField {
    match v
    case Str(s) => if IsDate(e, s) then Date(s) else NoDate
    case Arr(items) => if |items| == 8 then BadType else NoDate
    case Obj(fields) => if |fields| == 8 then BadType else NoDate
    case _ => BadType
  }

  /** `latest_date`, or else `load_date` without its dashes. */
  function LatestDate(e: Env, m: map<string, Json>): DateField {
    var latest := Get(m, "latest_date");
    if latest.Some? && Truthy(latest.value) then DateFrom(e, latest.value)
    else if "load_date" !in m then NoDate
    else if !m["load_date"].Str? then BadType
    else DateFrom(e, Str(WithoutDashes(m["load_date"].s)))
  }

  /** The part of s before the first slash. */
  function UpToSlash(s: string): (r: string)
    ensures r <= s && '/' !in r
    ensures |r| < |s| ==> s[|r|] == '/'
  {
    if s == "" || s[0] == '/' then "" else [s[0]] + UpToSlash(s[1..])
  }

  /** The date directory a listed name stands for. */
  function DateOf(e: Env, root: string, name: string): Option<string> {
    if root + "/" <= name then
      var remaining := name[|root| + 1..];
      var date := UpToSlash(remaining);
      if |date| < |remaining| && IsDate(e, date) then Some(date) else None
    else None
  }

  function DatesIn(e: Env, root: string, names: seq<string>): seq<string> {
    if names == [] then [] else
    var init, last := names[..|names| - 1], names[|names| - 1];
    DatesIn(e, root, init) + if DateOf(e, root, last).Some? then [DateOf(e, root, last).value] else []
  }

  /** Code point order. */
  predicate AtMost(a: string, b: string) {
    a == "" || (b != "" && (a[0] < b[0] || (a[0] == b[0] && AtMost(a[1..], b[1..]))))
  }

  function Newest(dates: seq<string>): string
    requires dates != []
  {
    if |dates| == 1 then dates[0] else
    var best := Newest(dates[..|dates| - 1]);
    if AtMost(best, dates[|dates| - 1]) then dates[|dates| - 1] else best
  }

  /** Without a usable date the latest/ directory is tried, if it has the customer's shard index. */
  function LatestOnly(b: Objects, root: string, cusno: string): Choice {
    if ShardKey(Latest(root), cusno) in b then At(Latest(root), true) else Nowhere
  }

  function ChooseDir(e: Env, site: Site, root: string, cusno: string): Choice {
    match ReadJson(e, site.objects, root + "/_latest_date.json")
    case Some(Obj(m)) =>
      (match LatestDate(e, m)
       case BadType => ChoiceRaised
       case NoDate => LatestOnly(site.objects, root, cusno)
       case Date(s) =>
         if "use_latest" in m && Truthy(m["use_latest"]) then At(Latest(root), true) else At(root + "/" + s, false))
    case Some(_) => ChoiceRaised
    case None =>
      if site.listing.None? then Nowhere else
      var dates := DatesIn(e, root, site.listing.value);
      if dates == [] then LatestOnly(site.objects, root, cusno) else At(root + "/" + Newest(dates), false)
  }

  // ---------- is it the right record? ----------

  datatype Verdict = Yes | No | Crash

  /** `"CUSNO" in columns`; None is a TypeError. */
  function CusnoIn(columns: Json): Option<bool> {
    match columns
    case Arr(items) => Some(Str("CUSNO") in items)
    case Str(s) => Some(Contains(s, "CUSNO"))
    case Obj(fields) => Some("CUSNO" in fields)
    case _ => None
  }

  /** _match_cusno: an encrypted customer number is decrypted first. */
  function Match(e: Env, doc: Json, cusno: string, columns: Json): Verdict {
    if !doc.Obj? then Crash
    else if "CUSNO" !in doc.fields || doc.fields["CUSNO"].Null? then No
    else
      var raw := StrOf(e.str, doc.fields["CUSNO"]);
      match CusnoIn(columns)
      case None => Crash
      case Some(false) => if raw == cusno then Yes else No
      case Some(true) => if e.open(raw) == Some(cusno) then Yes else No
  }

  datatype Meta = Meta(columns: Json, mapping: map<string, Json>) | MetaRaised

  /** `m.get(key) or default` */
  function OrElse(m: map<string, Json>, key: string, default: Json): Json {
    if key in m && Truthy(m[key]) then m[key] else default
  }

  function ReadMeta(e: Env, b: Objects, dir: string): Meta {
    match ReadJson(e, b, MetaKey(dir))
    case None => Meta(Arr([]), map[])
    case Some(Obj(m)) =>
      var info := OrElse(m, "column_info", Obj(map[]));
      if info.Obj? then Meta(OrElse(m, "encrypted_columns", Arr([])), info.fields) else MetaRaised
    case Some(_) => MetaRaised
  }

  // ---------- the linear scan ----------

  /** A line's record; blank and malformed lines have none. */
  function Record(e: Env, line: string): Option<Json> {
    if Strip(line) == "" then None else e.parse(e.encode(Strip(line)))
  }

  function ScanLines(e: Env, lines: seq<Line>, cusno: string, columns: Json): Outcome {
    if lines == [] then Missing else
    var rest := ScanLines(e, lines[1..], cusno, columns);
    match Record(e, lines[0].text)
    case None => rest
    case Some(j) =>
      match Match(e, j, cusno, columns)
      case Yes => Doc(j)
      case Crash => Raised
      case No => rest
  }

  function ScanBulk(e: Env, b: Objects, dir: string, cusno: string, columns: Json): Outcome {
    match Get(b, BulkKey(dir))
    case None => Missing
    case Some(data) =>
      match e.decode(data)
      case None => Raised
      case Some(text) => ScanLines(e, Lines(text), cusno, columns)
  }

  // ---------- the whole lookup ----------

  datatype Selection =
    | Selected(doc: Json, dir: string, columns: Json, mapping: map<string, Json>)
    | NotFound
    | Failure

  /** Check a candidate found in dir, and scan dir's bulk file when it is not the customer's. */
  function Confirm(e: Env, b: Objects, dir: string, doc: Json, cusno: string): Selection {
    match ReadMeta(e, b, dir)
    case MetaRaised => Failure
    case Meta(columns, mapping) =>
      match Match(e, doc, cusno, columns)
      case Crash => Failure
      case Yes => Selected(doc, dir, columns, mapping)
      case No =>
        match ScanBulk(e, b, dir, cusno, columns)
        case Raised => Failure
        case Missing => NotFound
        case Doc(d) => Selected(d, dir, columns, mapping)
  }

  function SelectIn(e: Env, b: Objects, root: string, dir: string, useLatest: bool, cusno: string): Selection {
    match Probe(e, b, dir, cusno)
    case Raised => Failure
    case Doc(d) => Confirm(e, b, dir, d, cusno)
    case Missing =>
      if useLatest then NotFound else
      match Probe(e, b, Latest(root), cusno)
      case Raised => Failure
      case Missing => NotFound
      case Doc(d) => Confirm(e, b, Latest(root), d, cusno)
  }

  function Select(e: Env, site: Site, root: string, requested: string): Selection {
    var cusno := Strip(requested);
    if cusno == "" then NotFound else
    match ChooseDir(e, site, root, cusno)
    case Nowhere => NotFound
    case ChoiceRaised => Failure
    case At(dir, useLatest) => SelectIn(e, site.objects, root, dir, useLatest, cusno)
  }
}
