// The object store of batch profiles: keys, byte contents, and the library calls the lookup makes
// on them, as functions with the laws they are assumed to obey.
module Bucket {
  import opened Values

  newtype byte = x: int | 0 <= x < 256

  type Bytes = seq<byte>

  type Objects = map<string, Bytes>

  /** What a ranged GET on an existing object gives for the two values found in an index entry. */
  datatype Ranged = Part(bytes: Bytes) | Failed | Unsupported

  /** Library functions: UTF-8, JSON, str(), str.isdigit on a character, ranged GET, and
      decrypt_field_value, which answers None when no key is available. */
  datatype Env = Env(
    encode: string -> Bytes,
    decode: Bytes -> Option<string>,
    parse: Bytes -> Option<Json>,
    str: Json -> string,
    isDigit: char -> bool,
    ranged: (Bytes, Json, Json) -> Ranged,
    open: string -> Option<string>)

  /** Encoding a concatenation concatenates the encodings. */
  predicate Concatenates(e: Env, s: string, t: string) {
    e.encode(s + t) == e.encode(s) + e.encode(t)
  }

  /** Decoding undoes encoding. */
  predicate Decodes(e: Env, s: string) {
    e.decode(e.encode(s)) == Some(s)
  }

  /** Outer white space does not change what a JSON text means. */
  predicate Trims(e: Env, s: string) {
    e.parse(e.encode(s)).Some? ==> e.parse(e.encode(Strip(s))) == e.parse(e.encode(s))
  }

  /** A ranged GET inside the object returns the range. */
  predicate Ranges(e: Env, b: Bytes, i: int, n: int) {
    0 <= i && 0 < n && i + n <= |b| ==> e.ranged(b, Int(i), Int(n)) == Part(b[i..i + n])
  }

  ghost predicate Lawful(e: Env) {
    && (forall s, t :: Concatenates(e, s, t)) && (forall s :: Decodes(e, s)) && (forall s :: Trims(e, s))
    && (forall b, i, n :: Ranges(e, b, i, n)) && e.parse(e.encode("")) == None
  }

  /** data[a:b] in Python. */
  function Slice(data: Bytes, a: int, b: int): Bytes {
    var lo, hi := SliceBound(a, |data|), SliceBound(b, |data|);
    if lo <= hi then data[lo..hi] else []
  }

  function SliceBound(i: int, n: nat): (r: nat)
    ensures r <= n
  {
    if i < 0 then (if n + i < 0 then 0 else n + i) else if i < n then i else n
  }

  /** The value as a Python int, which bool also is. */
  function IntOf(j: Json): Option<int> {
    match j
    case Int(n) => Some(n)
    case Bool(b) => Some(if b then 1 else 0)
    case _ => None
  }

  /** `t in s` for strings. */
  predicate Contains(s: string, t: string) {
    t <= s || (s != "" && Contains(s[1..], t))
  }

  // ---------- lines ----------

  /** The boundaries of str.splitlines; carriage return followed by line feed is one. */
  predicate IsBreak(c: char) {
    c == '\n' || c == '\r' || c == '\U{0B}' || c == '\U{0C}' || '\U{1C}' <= c <= '\U{1E}'
    || c == '\U{85}' || c == '\U{2028}' || c == '\U{2029}'
  }

  /** No boundary within. */
  predicate Unbroken(s: string) {
    forall i :: 0 <= i < |s| ==> !IsBreak(s[i])
  }

  datatype Line = Line(text: string, end: string)

  /** The length of the first line, without its boundary. */
  function LineLength(s: string): (n: nat)
    ensures n <= |s|
  {
    if s == "" || IsBreak(s[0]) then 0 else 1 + LineLength(s[1..])
  }

  lemma {:induction false} LengthIsFirstBreak(s: string)
    ensures LineLength(s) < |s| ==> IsBreak(s[LineLength(s)])
    ensures Unbroken(s[..LineLength(s)])
  {
    if s != "" && !IsBreak(s[0]) {
      LengthIsFirstBreak(s[1..]);
      assert s[..LineLength(s)] == [s[0]] + s[1..][..LineLength(s[1..])];
    }
  }

  function BreakLength(s: string): (n: nat)
    ensures s != "" ==> 1 <= n <= |s|
    ensures s == "" ==> n == 0
  {
    if s == "" then 0 else if s[0] == '\r' && |s| > 1 && s[1] == '\n' then 2 else 1
  }

  function FirstLine(s: string): Line {
    var n := LineLength(s);
    Line(s[..n], s[n..n + BreakLength(s[n..])])
  }

  /** What follows the first line. */
  function Rest(s: string): (r: string)
    ensures s != "" ==> |r| < |s|
  {
    var n := LineLength(s);
    s[n + BreakLength(s[n..])..]
  }

  /** The lines with their boundaries. */
  function Lines(s: string): seq<Line>
    decreases |s|
  {
    if s == "" then [] else [FirstLine(s)] + Lines(Rest(s))
  }

  lemma FirstAndRest(s: string)
    ensures FirstLine(s).text + FirstLine(s).end + Rest(s) == s
  {
  }

  /** A text whose first part ends with a line feed splits part by part. */
  lemma {:induction false} LinesAppend(a: string, b: string)
    requires a == "" || a[|a| - 1] == '\n'
    ensures Lines(a + b) == Lines(a) + Lines(b)
    decreases |a|
  {
    if a == "" {
      assert a + b == b;
    } else {
      FirstAppend(a, b);
      LinesAppend(Rest(a), b);
      LinesStep(a);
      LinesStep(a + b);
      Regroup(FirstLine(a), Lines(Rest(a)), Lines(b), Lines(a), Lines(a + b));
    }
  }

  lemma Regroup(first: Line, x: seq<Line>, y: seq<Line>, one: seq<Line>, both: seq<Line>)
    requires one == [first] + x && both == [first] + (x + y)
    ensures both == one + y
  {
  }

  lemma LinesStep(s: string)
    requires s != ""
    ensures Lines(s) == [FirstLine(s)] + Lines(Rest(s))
  {
  }

  lemma {:induction false} LengthAppend(a: string, b: string)
    requires a != "" && a[|a| - 1] == '\n'
    ensures LineLength(a + b) == LineLength(a) < |a|
  {
    if !IsBreak(a[0]) {
      assert (a + b)[1..] == a[1..] + b;
      LengthAppend(a[1..], b);
    }
  }

  lemma FirstAppend(a: string, b: string)
    requires a != "" && a[|a| - 1] == '\n'
    ensures FirstLine(a + b) == FirstLine(a) && Rest(a + b) == Rest(a) + b
    ensures Rest(a) == "" || Rest(a)[|Rest(a)| - 1] == '\n'
  {
    LengthAppend(a, b);
    var n := LineLength(a);
    CutAppend(a, b, n, 0);
    BreakAppend(a[n..], b);
    CutAppend(a, b, n, BreakLength(a[n..]));
  }

  lemma BreakAppend(a: string, b: string)
    requires a != "" && a[|a| - 1] == '\n'
    ensures BreakLength(a + b) == BreakLength(a)
  {
  }

  lemma CutAppend(a: string, b: string, n: nat, m: nat)
    requires n + m <= |a|
    ensures (a + b)[..n] == a[..n] && (a + b)[n..n + m] == a[n..n + m] && (a + b)[n + m..] == a[n + m..] + b
  {
  }

  lemma {:induction false} LengthIs(a: string, rest: string)
    requires Unbroken(a) && (rest == "" || IsBreak(rest[0]))
    ensures LineLength(a + rest) == |a|
  {
    if a == "" {
      assert a + rest == rest;
    } else {
      assert (a + rest)[1..] == a[1..] + rest;
      LengthIs(a[1..], rest);
    }
  }

  lemma FirstPiece(a: string, c: char, t: string)
    requires Unbroken(a) && IsBreak(c) && c != '\r'
    ensures var s := a + ([c] + t); FirstLine(s) == Line(a, [c]) && Rest(s) == t
  {
    var s := a + ([c] + t);
    LengthIs(a, [c] + t);
    assert s[|a|..] == [c] + t && s[|a|..|a| + 1] == [c] && s[|a| + 1..] == t;
  }

  lemma OnePiece(t: string)
    requires Unbroken(t) && t != ""
    ensures Lines(t) == [Line(t, "")]
  {
    LengthIs(t, "");
    assert t + "" == t;
    LinesStep(t);
  }

  /** A boundary inside a text makes two pieces of it. */
  lemma TwoPieces(a: string, c: char, t: string)
    requires Unbroken(a) && Unbroken(t) && t != "" && IsBreak(c) && c != '\r'
    ensures Lines(a + ([c] + t)) == [Line(a, [c]), Line(t, "")]
  {
    FirstPiece(a, c, t);
    OnePiece(t);
    LinesStep(a + ([c] + t));
  }

  lemma {:induction false} PiecesUnbroken(s: string, i: nat)
    requires i < |Lines(s)|
    ensures Unbroken(Lines(s)[i].text)
    decreases |s|
  {
    LengthIsFirstBreak(s);
    if i > 0 { PiecesUnbroken(Rest(s), i - 1); }
  }

  // ---------- the byte range of a line ----------

  /** A line of a JSON Lines text, its terminator, and what stands before and after. */
  datatype Place = Place(before: string, line: string, end: string, after: string) {
    function Text(): string {
      before + ((line + end) + after)
    }

    /** Lines end with a line feed; only the last may go without. */
    predicate Proper() {
      && (before == "" || before[|before| - 1] == '\n') && '\n' !in line
      && (end == "\n" || (end == "" && after == ""))
    }
  }

  /** The bytes at a line's offset are the line's, with or without its terminator. */
  lemma PlaceBytes(e: Env, p: Place, span: string)
    requires Lawful(e) && (span == p.line || span == p.line + p.end)
    ensures var data, off, bytes := e.encode(p.Text()), |e.encode(p.before)|, e.encode(span);
      off + |bytes| <= |data| && data[off..off + |bytes|] == bytes
  {
    var own := p.line + p.end;
    assert Concatenates(e, p.before, own + p.after) && Concatenates(e, own, p.after);
    assert Concatenates(e, p.line, p.end);
  }

  /** A text splits into the pieces before a line, of the line, and after it. */
  lemma PlaceLines(p: Place)
    requires p.Proper()
    ensures Lines(p.Text()) == Lines(p.before) + (Lines(p.line + p.end) + Lines(p.after))
  {
    LinesAppend(p.before, (p.line + p.end) + p.after);
    if p.end == "" { assert (p.line + p.end) + p.after == p.line + p.end; }
    else { LinesAppend(p.line + p.end, p.after); }
  }

  // ---------- white space around a line ----------

  predicate Blank(s: string) {
    forall i :: 0 <= i < |s| ==> IsSpace(s[i])
  }

  lemma {:induction false} StripLeftBlank(s: string)
    requires Blank(s)
    ensures StripLeft(s) == ""
  {
    if s != "" { StripLeftBlank(s[1..]); }
  }

  lemma {:induction false} StripRightPadded(s: string, w: string)
    requires Blank(w)
    ensures StripRight(s + w) == StripRight(s)
  {
    if w == "" {
      assert s + w == s;
    } else {
      assert (s + w)[..|s + w| - 1] == s + w[..|w| - 1];
      StripRightPadded(s, w[..|w| - 1]);
    }
  }

  lemma {:induction false} StripPadded(s: string, w: string)
    requires Blank(w)
    ensures Strip(s + w) == Strip(s)
  {
    if Blank(s) {
      StripLeftBlank(s);
      StripLeftBlank(s + w);
    } else if IsSpace(s[0]) {
      assert (s + w)[1..] == s[1..] + w;
      assert Blank(s[1..]) ==> Blank(s);
      StripPadded(s[1..], w);
    } else {
      StripRightPadded(s, w);
    }
  }

  lemma {:induction false} StripLeftPadded(w: string, s: string)
    requires Blank(w)
    ensures StripLeft(w + s) == StripLeft(s)
  {
    if w == "" {
      assert w + s == s;
    } else {
      assert (w + s)[1..] == w[1..] + s;
      StripLeftPadded(w[1..], s);
    }
  }

  lemma {:induction false} StripLeftShape(s: string) returns (w: string)
    ensures Blank(w) && s == w + StripLeft(s) && (StripLeft(s) != "" ==> !IsSpace(StripLeft(s)[0]))
  {
    if s != "" && IsSpace(s[0]) {
      var v := StripLeftShape(s[1..]);
      w := [s[0]] + v;
    } else {
      w := "";
    }
  }

  lemma {:induction false} StripRightShape(s: string) returns (w: string)
    ensures Blank(w) && s == StripRight(s) + w && (StripRight(s) != "" ==> !IsSpace(StripRight(s)[|StripRight(s)| - 1]))
  {
    if s != "" && IsSpace(s[|s| - 1]) {
      var v := StripRightShape(s[..|s| - 1]);
      w := v + [s[|s| - 1]];
    } else {
      w := "";
    }
  }

  /** A text is its stripped core between white space. */
  lemma StripShape(s: string) returns (w: string, v: string)
    ensures Blank(w) && Blank(v) && s == w + (Strip(s) + v)
    ensures Strip(s) != "" ==> !IsSpace(Strip(s)[0]) && !IsSpace(Strip(s)[|Strip(s)| - 1])
  {
    w := StripLeftShape(s);
    v := StripRightShape(StripLeft(s));
  }

  lemma StripCore(w: string, core: string, v: string)
    requires Blank(w) && Blank(v) && (core != "" ==> !IsSpace(core[0]) && !IsSpace(core[|core| - 1]))
    ensures Strip(w + (core + v)) == core
  {
    StripLeftPadded(w, core + v);
    StripPadded(core, v);
  }

  /** When the core of a text holds no break, it is one piece of it, with only blank pieces before. */
  lemma {:induction false} CorePiece(s: string) returns (x: nat)
    requires Strip(s) != "" && Unbroken(Strip(s))
    ensures x < |Lines(s)| && Strip(Lines(s)[x].text) == Strip(s)
    ensures forall y :: 0 <= y < x ==> Strip(Lines(s)[y].text) == ""
    decreases |s|
  {
    LinesStep(s);
    if Blank(FirstLine(s).text) {
      BlankStrip(FirstLine(s).text);
      BlankFirst(s);
      var n := CorePiece(Rest(s));
      x := n + 1;
      LaterPiece(FirstLine(s), Lines(Rest(s)), Lines(s), n, Strip(s));
    } else {
      CoreFirst(s);
      x := 0;
    }
  }

  lemma LaterPiece(first: Line, rest: seq<Line>, lines: seq<Line>, n: nat, core: string)
    requires lines == [first] + rest && Strip(first.text) == ""
    requires n < |rest| && Strip(rest[n].text) == core && forall y :: 0 <= y < n ==> Strip(rest[y].text) == ""
    ensures n + 1 < |lines| && Strip(lines[n + 1].text) == core
    ensures forall y :: 0 <= y < n + 1 ==> Strip(lines[y].text) == ""
  {
    assert forall y :: 0 < y <= n + 1 ==> lines[y] == rest[y - 1];
  }

  lemma BlankFirst(s: string)
    requires Blank(FirstLine(s).text)
    ensures Strip(Rest(s)) == Strip(s)
  {
    var l, r := FirstLine(s), Rest(s);
    FirstAndRest(s);
    FirstEndBlank(s);
    SkipBlank(l.text + l.end, r);
  }

  lemma CoreFirst(s: string)
    requires Strip(s) != "" && Unbroken(Strip(s)) && !Blank(FirstLine(s).text)
    ensures Strip(FirstLine(s).text) == Strip(s)
  {
    var w, v := StripShape(s);
    FirstHasCore(s, w, Strip(s), v);
  }

  lemma BlankStrip(s: string)
    requires Blank(s)
    ensures Strip(s) == ""
  {
    StripLeftBlank(s);
  }

  lemma SkipBlank(w: string, s: string)
    requires Blank(w)
    ensures Strip(w + s) == Strip(s)
  {
    StripLeftPadded(w, s);
  }

  /** A first line that is not blank holds the whole core. */
  lemma FirstHasCore(s: string, w: string, core: string, v: string)
    requires s == w + (core + v) && Blank(w) && Blank(v) && Unbroken(core) && core != ""
    requires !IsSpace(core[0]) && !IsSpace(core[|core| - 1]) && !Blank(FirstLine(s).text)
    ensures Strip(FirstLine(s).text) == core
  {
    var n := LineLength(s);
    LengthIsFirstBreak(s);
    assert forall i :: 0 <= i < |w| ==> s[i] == w[i];
    assert forall i :: |w| <= i < |w| + |core| ==> s[i] == core[i - |w|];
    assert n > |w|;
    assert n >= |w| + |core|;
    var u := v[..n - |w| - |core|];
    assert s[..n] == w + (core + u);
    StripCore(w, core, u);
  }

  lemma FirstEndBlank(s: string)
    ensures Blank(FirstLine(s).end)
  {
    var n := LineLength(s);
    var end := FirstLine(s).end;
    LengthIsFirstBreak(s);
    if n < |s| { BreakIsSpace(s[n]); }
  }

  lemma BreakIsSpace(c: char)
    requires IsBreak(c)
    ensures IsSpace(c)
  {
  }
}
