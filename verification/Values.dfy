// Values the service passes around: JSON documents, the strings Redis stores, JWT payloads
// and Python's truth test and whitespace rules.
module Values {

  datatype Option<+T> = None | Some(value: T)

  /** A decoded JSON value.  Object members are unordered, as every dumps call sorts or ignores order. */
  datatype Json =
    | Null
    | Bool(b: bool)
    | Int(n: int)
    | Float(x: real)
    | Str(s: string)
    | Arr(items: seq<Json>)
    | Obj(fields: map<string, Json>)

  /** A string held by Redis, by the codec that produced it: raw text, json.dumps or datetime.isoformat. */
  datatype Text = Raw(s: string) | Dumped(json: Json) | Iso(at: int)

  /** json.loads: succeeds on what json.dumps wrote. */
  function Loads(t: Text): Option<Json> {
    match t
    case Dumped(j) => Some(j)
    case _ => None
  }

  /** datetime.fromisoformat: succeeds on what isoformat wrote. */
  function FromIso(t: Text): Option<int> {
    match t
    case Iso(at) => Some(at)
    case _ => None
  }

  /** Python's bool(v) for a JSON value. */
  predicate Truthy(j: Json) {
    match j
    case Null => false
    case Bool(b) => b
    case Int(n) => n != 0
    case Float(x) => x != 0.0
    case Str(s) => s != ""
    case Arr(items) => items != []
    case Obj(fields) => fields != map[]
  }

  /** The values Python counts as false. */
  lemma FalsyValues(j: Json)
    ensures !Truthy(j) <==> j in {Null, Bool(false), Int(0), Float(0.0), Str(""), Arr([]), Obj(map[])}
  {
  }

  function Get<K, V>(m: map<K, V>, k: K): Option<V> {
    if k in m then Some(m[k]) else None
  }

  /** Maps that agree key by key are equal. */
  lemma SameMap<K, V>(a: map<K, V>, b: map<K, V>)
    requires forall k :: Get(a, k) == Get(b, k)
    ensures a == b
  {
    forall k ensures k in a <==> k in b { assert Get(a, k) == Get(b, k); }
    forall k | k in a ensures a[k] == b[k] { assert Get(a, k) == Get(b, k); }
  }

  /** str(j), where `str` is Python's on values that are not strings. */
  function StrOf(str: Json -> string, j: Json): string {
    if j.Str? then j.s else str(j)
  }

  /** `s or None`. */
  function NonEmpty(s: string): Option<string> {
    if s == "" then None else Some(s)
  }

  predicate IsGiven(o: Option<string>) {
    o.Some? && o.value != ""
  }

  /** str.isspace for one character, which is what str.strip removes. */
  predicate IsSpace(c: char) {
    || '\t' <= c <= '\r' || '\U{1C}' <= c <= ' ' || c == '\U{85}' || c == '\U{A0}' || c == '\U{1680}'
    || '\U{2000}' <= c <= '\U{200A}' || c == '\U{2028}' || c == '\U{2029}' || c == '\U{202F}'
    || c == '\U{205F}' || c == '\U{3000}'
  }

  function StripLeft(s: string): string {
    if s != "" && IsSpace(s[0]) then StripLeft(s[1..]) else s
  }

  function StripRight(s: string): string {
    if s != "" && IsSpace(s[|s| - 1]) then StripRight(s[..|s| - 1]) else s
  }

  /** str.strip */
  function Strip(s: string): string {
    StripRight(StripLeft(s))
  }
}
