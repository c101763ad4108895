// What the lookup guarantees for any contents of the object store, and when its index-accelerated
// answer is the one a linear scan gives.
module LookupTheorems {
  import opened Values
  import opened Bucket
  import opened Lookup

  // ---------- the scan ----------

  /** The line holds the customer's record. */
  predicate Holds(e: Env, line: string, cusno: string, columns: Json) {
    Record(e, line).Some? && Match(e, Record(e, line).value, cusno, columns).Yes?
  }

  /** The scan goes past the line. */
  predicate Passes(e: Env, line: string, cusno: string, columns: Json) {
    Record(e, line).Some? ==> Match(e, Record(e, line).value, cusno, columns).No?
  }

  lemma {:induction false} ScanPasses(e: Env, lines: seq<Line>, i: nat, cusno: string, columns: Json)
    requires i <= |lines| && forall x :: 0 <= x < i ==> Passes(e, lines[x].text, cusno, columns)
    ensures ScanLines(e, lines, cusno, columns) == ScanLines(e, lines[i..], cusno, columns)
  {
    if i == 0 {
      assert lines[0..] == lines;
    } else {
      assert lines[1..][i - 1..] == lines[i..];
      assert Passes(e, lines[0].text, cusno, columns);
      ScanPasses(e, lines[1..], i - 1, cusno, columns);
    }
  }

  /** The scan finds the first line that holds the customer, if nothing before it stops the scan. */
  lemma ScanFindsFirst(e: Env, lines: seq<Line>, i: nat, cusno: string, columns: Json)
    requires i < |lines| && forall x :: 0 <= x < i ==> Passes(e, lines[x].text, cusno, columns)
    requires Holds(e, lines[i].text, cusno, columns)
    ensures ScanLines(e, lines, cusno, columns) == Doc(Record(e, lines[i].text).value)
  {
    ScanPasses(e, lines, i, cusno, columns);
  }

  /** And what it finds is such a line. */
  lemma {:induction false} ScanFound(e: Env, lines: seq<Line>, cusno: string, columns: Json) returns (i: nat)
    requires ScanLines(e, lines, cusno, columns).Doc?
    ensures i < |lines| && Holds(e, lines[i].text, cusno, columns)
    ensures Record(e, lines[i].text) == Some(ScanLines(e, lines, cusno, columns).doc)
    ensures forall x :: 0 <= x < i ==> Passes(e, lines[x].text, cusno, columns)
  {
    if Holds(e, lines[0].text, cusno, columns) {
      i := 0;
    } else {
      var n := ScanFound(e, lines[1..], cusno, columns);
      i := n + 1;
      forall x | 0 <= x < i ensures Passes(e, lines[x].text, cusno, columns) {
        assert x > 0 ==> lines[x] == lines[1..][x - 1];
      }
    }
  }

  /** A scan that finds nothing went past every line. */
  lemma {:induction false} ScanNothing(e: Env, lines: seq<Line>, cusno: string, columns: Json)
    ensures ScanLines(e, lines, cusno, columns).Missing? <==>
      forall x :: 0 <= x < |lines| ==> Passes(e, lines[x].text, cusno, columns)
  {
    if lines != [] {
      ScanNothing(e, lines[1..], cusno, columns);
      assert forall x :: 0 < x < |lines| ==> lines[x] == lines[1..][x - 1];
      assert forall x :: 0 <= x < |lines| - 1 ==> lines[1..][x] == lines[x + 1];
    }
  }

  // ---------- any contents, stale or wrong indexes included ----------

  /** Where a selected record can come from. */
  predicate Sourced(e: Env, b: Objects, dir: string, cusno: string, columns: Json, doc: Json) {
    var first := Probe(e, b, dir, cusno);
    && first.Doc?
    && (match Match(e, first.doc, cusno, columns)
        case Yes => doc == first.doc
        case No => ScanBulk(e, b, dir, cusno, columns) == Doc(doc)
        case Crash => false)
  }

  lemma ScanMatches(e: Env, b: Objects, dir: string, cusno: string, columns: Json)
    requires ScanBulk(e, b, dir, cusno, columns).Doc?
    ensures Match(e, ScanBulk(e, b, dir, cusno, columns).doc, cusno, columns).Yes?
  {
    var i := ScanFound(e, Lines(e.decode(b[BulkKey(dir)]).value), cusno, columns);
  }

  /** A selected record is always the requested customer's.  It is the first candidate of one
      directory, or, when that is someone else's, the first match in the same directory's bulk file;
      and that directory's _meta.json decided.  latest/ is used only when the chosen one has no candidate. */
  lemma SelectedIsRight(e: Env, site: Site, root: string, requested: string)
    ensures var r, cusno, b := Select(e, site, root, requested), Strip(requested), site.objects;
      r.Selected? ==>
        && Match(e, r.doc, cusno, r.columns).Yes?
        && ReadMeta(e, b, r.dir) == Meta(r.columns, r.mapping)
        && Sourced(e, b, r.dir, cusno, r.columns, r.doc)
        && var choice := ChooseDir(e, site, root, cusno);
           choice.At? && r.dir == Deciding(e, b, root, choice.dir, choice.useLatest, cusno)
  {
    var cusno, b := Strip(requested), site.objects;
    var choice := ChooseDir(e, site, root, cusno);
    if choice.At? {
      var at := Deciding(e, b, root, choice.dir, choice.useLatest, cusno);
      SelectsAt(e, b, root, choice.dir, choice.useLatest, cusno);
      if Probe(e, b, at, cusno).Doc? { ConfirmedIsRight(e, b, at, cusno); }
    }
  }

  lemma SelectsAt(e: Env, b: Objects, root: string, dir: string, useLatest: bool, cusno: string)
    ensures var at := Deciding(e, b, root, dir, useLatest, cusno);
      SelectIn(e, b, root, dir, useLatest, cusno)
      == match Probe(e, b, at, cusno)
         case Raised => Failure
         case Missing => NotFound
         case Doc(d) => Confirm(e, b, at, d, cusno)
  {
  }

  lemma ConfirmedIsRight(e: Env, b: Objects, dir: string, cusno: string)
    requires Probe(e, b, dir, cusno).Doc?
    ensures var r := Confirm(e, b, dir, Probe(e, b, dir, cusno).doc, cusno);
      r.Selected? ==>
        && r.dir == dir && Match(e, r.doc, cusno, r.columns).Yes?
        && ReadMeta(e, b, dir) == Meta(r.columns, r.mapping) && Sourced(e, b, dir, cusno, r.columns, r.doc)
  {
    var r := Confirm(e, b, dir, Probe(e, b, dir, cusno).doc, cusno);
    if r.Selected? && ScanBulk(e, b, dir, cusno, r.columns).Doc? { ScanMatches(e, b, dir, cusno, r.columns); }
  }

  /** The directory whose candidate decides: the chosen one, or latest/ when that one has none. */
  function Deciding(e: Env, b: Objects, root: string, dir: string, useLatest: bool, cusno: string): string {
    if Probe(e, b, dir, cusno).Missing? && !useLatest then Latest(root) else dir
  }

  /** The bulk file has a line that holds the customer, and nothing before it stops the scan. */
  predicate InBulk(e: Env, b: Objects, dir: string, cusno: string, columns: Json) {
    && BulkKey(dir) in b && e.decode(b[BulkKey(dir)]).Some?
    && var lines := Lines(e.decode(b[BulkKey(dir)]).value);
       exists i :: && 0 <= i < |lines| && Holds(e, lines[i].text, cusno, columns)
                   && forall x :: 0 <= x < i ==> Passes(e, lines[x].text, cusno, columns)
  }

  lemma ScanIsInBulk(e: Env, b: Objects, dir: string, cusno: string, columns: Json)
    ensures ScanBulk(e, b, dir, cusno, columns).Doc? <==> InBulk(e, b, dir, cusno, columns)
  {
    if ScanBulk(e, b, dir, cusno, columns).Doc? {
      var i := ScanFound(e, Lines(e.decode(b[BulkKey(dir)]).value), cusno, columns);
    }
    if InBulk(e, b, dir, cusno, columns) {
      var lines := Lines(e.decode(b[BulkKey(dir)]).value);
      var i :| && 0 <= i < |lines| && Holds(e, lines[i].text, cusno, columns)
               && forall x :: 0 <= x < i ==> Passes(e, lines[x].text, cusno, columns);
      ScanFindsFirst(e, lines, i, cusno, columns);
    }
  }

  /** A record is selected exactly when the deciding directory has a candidate and readable metadata, and
      the candidate is the customer's or the directory's bulk file holds the customer.  Without a candidate
      no bulk file is read. */
  lemma SelectedExactly(e: Env, site: Site, root: string, requested: string, dir: string, useLatest: bool)
    requires Strip(requested) != "" && ChooseDir(e, site, root, Strip(requested)) == At(dir, useLatest)
    ensures var cusno, b := Strip(requested), site.objects;
      var at := Deciding(e, b, root, dir, useLatest, cusno);
      Select(e, site, root, requested).Selected? <==>
        && Probe(e, b, at, cusno).Doc? && ReadMeta(e, b, at).Meta?
        && var verdict := Match(e, Probe(e, b, at, cusno).doc, cusno, ReadMeta(e, b, at).columns);
           verdict.Yes? || (verdict.No? && InBulk(e, b, at, cusno, ReadMeta(e, b, at).columns))
  {
    var cusno, b := Strip(requested), site.objects;
    var at := Deciding(e, b, root, dir, useLatest, cusno);
    var meta := ReadMeta(e, b, at);
    if meta.Meta? { ScanIsInBulk(e, b, at, cusno, meta.columns); }
  }

  // ---------- correct indexes ----------

  lemma EmptyIsNoDocument(e: Env, bytes: Bytes)
    requires Lawful(e) && e.parse(bytes).Some?
    ensures bytes != []
  {
    assert Concatenates(e, "", "") && "" + "" == "";
    assert |e.encode("")| == 2 * |e.encode("")|;
  }

  /** Bytes off to off + n of the data. */
  predicate Slices(data: Bytes, off: nat, n: nat, bytes: Bytes) {
    off + n <= |data| && data[off..off + n] == bytes
  }

  lemma RangeRead(e: Env, data: Bytes, off: nat, bytes: Bytes)
    requires Lawful(e) && e.parse(bytes).Some? && Slices(data, off, |bytes|, bytes)
    ensures Entry(e, Some(data), Arr([Int(off), Int(|bytes|)])) == AsDoc(e.parse(bytes))
  {
    EmptyIsNoDocument(e, bytes);
    assert Ranges(e, data, off, |bytes|);
  }

  /** The customer's shard has an entry for a byte range of the bulk file that is a document. */
  predicate Indexed(e: Env, b: Objects, dir: string, cusno: string, data: Bytes, off: nat, bytes: Bytes) {
    && Get(b, BulkKey(dir)) == Some(data) && Slices(data, off, |bytes|, bytes) && e.parse(bytes).Some?
    && var index := ReadJson(e, b, ShardKey(dir, cusno));
       index.Some? && index.value.Obj? && Get(index.value.fields, cusno) == Some(Arr([Int(off), Int(|bytes|)]))
  }

  /** A correct entry is always followed: no other object and no other line matters. */
  lemma IndexedIsSelected(e: Env, b: Objects, root: string, dir: string, useLatest: bool, cusno: string,
                          data: Bytes, off: nat, bytes: Bytes, columns: Json, mapping: map<string, Json>)
    requires Lawful(e) && Indexed(e, b, dir, cusno, data, off, bytes) && ReadMeta(e, b, dir) == Meta(columns, mapping)
    requires Match(e, e.parse(bytes).value, cusno, columns).Yes?
    ensures SelectIn(e, b, root, dir, useLatest, cusno) == Selected(e.parse(bytes).value, dir, columns, mapping)
  {
    RangeRead(e, data, off, bytes);
    SelectCandidate(e, b, root, dir, useLatest, cusno, e.parse(bytes).value);
  }

  lemma SelectCandidate(e: Env, b: Objects, root: string, dir: string, useLatest: bool, cusno: string, doc: Json)
    requires ViaIndex(e, b, ShardKey(dir, cusno), BulkKey(dir), cusno) == Doc(doc)
    ensures SelectIn(e, b, root, dir, useLatest, cusno) == Confirm(e, b, dir, doc, cusno)
  {
  }

  // ---------- correct indexes and the scan ----------

  /** The customer's line: a line of the bulk text whose byte range, with or without its terminator, is the
      customer's index entry, and which is a document of that customer. */
  predicate CustomersLine(e: Env, b: Objects, dir: string, cusno: string, columns: Json, p: Place, span: string) {
    && p.Proper() && (span == p.line || span == p.line + p.end)
    && Indexed(e, b, dir, cusno, e.encode(p.Text()), |e.encode(p.before)|, e.encode(span))
    && Match(e, e.parse(e.encode(span)).value, cusno, columns).Yes?
  }

  /** The scan goes past all pieces of s. */
  predicate AllPass(e: Env, s: string, cusno: string, columns: Json) {
    forall x :: 0 <= x < |Lines(s)| ==> Passes(e, Lines(s)[x].text, cusno, columns)
  }

  /** A line is the scan's record of its core, whatever white space surrounds it. */
  lemma LineRecord(e: Env, p: Place, span: string, piece: string)
    requires Lawful(e) && p.Proper() && (span == p.line || span == p.line + p.end)
    requires e.parse(e.encode(span)).Some? && Strip(piece) == Strip(p.line)
    ensures Strip(p.line) != "" && Record(e, piece) == e.parse(e.encode(span))
  {
    StripPadded(p.line, p.end);
    assert Trims(e, span);
  }

  lemma CoreMeetsScan(e: Env, p: Place, span: string, cusno: string, columns: Json)
    requires Lawful(e) && p.Proper() && (span == p.line || span == p.line + p.end)
    requires e.parse(e.encode(span)).Some? && Match(e, e.parse(e.encode(span)).value, cusno, columns).Yes?
    requires Unbroken(Strip(p.line)) && AllPass(e, p.before, cusno, columns)
    ensures ScanLines(e, Lines(p.Text()), cusno, columns) == Doc(e.parse(e.encode(span)).value)
  {
    var own := p.line + p.end;
    LineRecord(e, p, span, p.line);
    StripPadded(p.line, p.end);
    PlaceLines(p);
    var x := CorePiece(own);
    var piece := Lines(own)[x].text;
    LineRecord(e, p, span, piece);
    BlankPass(e, Lines(own), x, cusno, columns);
    ScanPrefix(e, Lines(p.before), Lines(own), Lines(p.after), x, cusno, columns);
  }

  lemma BlankPass(e: Env, lines: seq<Line>, x: nat, cusno: string, columns: Json)
    requires x <= |lines| && forall y :: 0 <= y < x ==> Strip(lines[y].text) == ""
    ensures forall y :: 0 <= y < x ==> Passes(e, lines[y].text, cusno, columns)
  {
  }

  lemma ScanPrefix(e: Env, before: seq<Line>, own: seq<Line>, after: seq<Line>, x: nat, cusno: string, columns: Json)
    requires forall y :: 0 <= y < |before| ==> Passes(e, before[y].text, cusno, columns)
    requires x < |own| && forall y :: 0 <= y < x ==> Passes(e, own[y].text, cusno, columns)
    requires Holds(e, own[x].text, cusno, columns)
    ensures ScanLines(e, before + (own + after), cusno, columns) == Doc(Record(e, own[x].text).value)
  {
    var all := before + (own + after);
    assert forall y :: 0 <= y < |before| ==> all[y] == before[y];
    assert forall y :: |before| <= y <= |before| + x ==> all[y] == own[y - |before|];
    ScanFindsFirst(e, all, |before| + x, cusno, columns);
  }

  /** No other piece of the bulk text has the very same record as the customer's line. */
  ghost predicate Sole(e: Env, p: Place, doc: Json) {
    && (forall x :: 0 <= x < |Lines(p.before)| ==> Record(e, Lines(p.before)[x].text) != Some(doc))
    && (forall x :: 0 <= x < |Lines(p.after)| ==> Record(e, Lines(p.after)[x].text) != Some(doc))
    && (forall x :: 0 <= x < |Lines(p.line + p.end)| && Record(e, Lines(p.line + p.end)[x].text) == Some(doc) ==>
          Strip(Lines(p.line + p.end)[x].text) == Strip(p.line))
  }

  lemma ScanMeetsCore(e: Env, p: Place, cusno: string, columns: Json, doc: Json)
    requires p.Proper() && Sole(e, p, doc) && ScanLines(e, Lines(p.Text()), cusno, columns) == Doc(doc)
    ensures Unbroken(Strip(p.line)) && AllPass(e, p.before, cusno, columns)
  {
    var before, own, after := Lines(p.before), Lines(p.line + p.end), Lines(p.after);
    var all := before + (own + after);
    PlaceLines(p);
    var i := ScanFound(e, all, cusno, columns);
    FromWhichPart(before, own, after, i);
    if |before| <= i < |before| + |own| {
      PiecesUnbroken(p.line + p.end, i - |before|);
      StripUnbroken(own[i - |before|].text);
    }
    forall x | 0 <= x < |before| ensures Passes(e, before[x].text, cusno, columns) { assert all[x] == before[x]; }
  }

  lemma FromWhichPart(before: seq<Line>, own: seq<Line>, after: seq<Line>, i: nat)
    requires i < |before + (own + after)|
    ensures var all := before + (own + after);
      || (i < |before| && all[i] == before[i])
      || (|before| <= i < |before| + |own| && all[i] == own[i - |before|])
      || (|before| + |own| <= i && all[i] == after[i - |before| - |own|])
  {
  }

  lemma StripUnbroken(s: string)
    requires Unbroken(s)
    ensures Unbroken(Strip(s))
  {
    var w, v := StripShape(s);
    assert forall i :: 0 <= i < |Strip(s)| ==> Strip(s)[i] == s[|w| + i];
  }

  /** The lookup selects the customer's line.  A first-match scan of the bulk file selects the same exactly
      when the core of that line holds no splitlines boundary and no piece before the line stops the scan. */
  lemma IndexedIsScan(e: Env, site: Site, root: string, requested: string, dir: string, useLatest: bool,
                      columns: Json, mapping: map<string, Json>, p: Place, span: string)
    requires Lawful(e) && Strip(requested) != "" && ChooseDir(e, site, root, Strip(requested)) == At(dir, useLatest)
    requires ReadMeta(e, site.objects, dir) == Meta(columns, mapping)
    requires CustomersLine(e, site.objects, dir, Strip(requested), columns, p, span)
    requires Sole(e, p, e.parse(e.encode(span)).value)
    ensures var cusno, doc := Strip(requested), e.parse(e.encode(span)).value;
      && Select(e, site, root, requested) == Selected(doc, dir, columns, mapping)
      && (Select(e, site, root, requested)
          == FromScan(ScanBulk(e, site.objects, dir, cusno, columns), dir, columns, mapping)
          <==> Unbroken(Strip(p.line)) && AllPass(e, p.before, cusno, columns))
  {
    var cusno, doc := Strip(requested), e.parse(e.encode(span)).value;
    IndexedIsSelected(e, site.objects, root, dir, useLatest, cusno, e.encode(p.Text()), |e.encode(p.before)|,
                      e.encode(span), columns, mapping);
    assert Decodes(e, p.Text());
    if Unbroken(Strip(p.line)) && AllPass(e, p.before, cusno, columns) {
      CoreMeetsScan(e, p, span, cusno, columns);
    } else if ScanLines(e, Lines(p.Text()), cusno, columns) == Doc(doc) {
      ScanMeetsCore(e, p, cusno, columns, doc);
    }
  }

  function FromScan(o: Outcome, dir: string, columns: Json, mapping: map<string, Json>): Selection {
    match o
    case Doc(d) => Selected(d, dir, columns, mapping)
    case Missing => NotFound
    case Raised => Failure
  }

  /** Every piece of the bulk text but the customer's whole line goes past the scan: customer numbers are
      unique and nothing stops the scan. */
  ghost predicate Unique(e: Env, p: Place, cusno: string, columns: Json) {
    && AllPass(e, p.before, cusno, columns) && AllPass(e, p.after, cusno, columns)
    && forall x :: 0 <= x < |Lines(p.line + p.end)| && Strip(Lines(p.line + p.end)[x].text) != Strip(p.line) ==>
         Passes(e, Lines(p.line + p.end)[x].text, cusno, columns)
  }

  /** Among unique customers the scan finds the customer exactly when the core of its line holds no boundary;
      otherwise it finds nothing, though the lookup selects the record. */
  lemma UniqueIsScan(e: Env, p: Place, span: string, cusno: string, columns: Json)
    requires Lawful(e) && p.Proper() && (span == p.line || span == p.line + p.end)
    requires e.parse(e.encode(span)).Some? && Match(e, e.parse(e.encode(span)).value, cusno, columns).Yes?
    requires Unique(e, p, cusno, columns)
    ensures ScanLines(e, Lines(p.Text()), cusno, columns)
            == if Unbroken(Strip(p.line)) then Doc(e.parse(e.encode(span)).value) else Missing
  {
    if Unbroken(Strip(p.line)) {
      CoreMeetsScan(e, p, span, cusno, columns);
    } else {
      var before, own, after := Lines(p.before), Lines(p.line + p.end), Lines(p.after);
      forall x | 0 <= x < |own| ensures Passes(e, own[x].text, cusno, columns) {
        PiecesUnbroken(p.line + p.end, x);
        StripUnbroken(own[x].text);
      }
      PlaceLines(p);
      forall i | 0 <= i < |before + (own + after)| ensures Passes(e, (before + (own + after))[i].text, cusno, columns) {
        FromWhichPart(before, own, after, i);
      }
      ScanNothing(e, before + (own + after), cusno, columns);
    }
  }

  // ---------- a record the scan cannot see ----------

  /** JSON text with a splitlines boundary inside a string: one document, and neither half holds a record. */
  predicate SplitDocument(e: Env, a: string, c: char, t: string, doc: Json) {
    && Unbroken(a) && Unbroken(t) && t != "" && IsBreak(c) && c != '\r' && c != '\n'
    && e.parse(e.encode(a + ([c] + t))) == Some(doc) && Record(e, a).None? && Record(e, t).None?
  }

  /** In a bulk file of this one record its customer is found through the index and not by the scan. */
  lemma ScanMissesRecord(e: Env, b: Objects, root: string, dir: string, useLatest: bool, cusno: string,
                         columns: Json, mapping: map<string, Json>, a: string, c: char, t: string, doc: Json)
    requires Lawful(e) && SplitDocument(e, a, c, t, doc) && Match(e, doc, cusno, columns).Yes?
    requires ReadMeta(e, b, dir) == Meta(columns, mapping)
    requires Indexed(e, b, dir, cusno, e.encode(a + ([c] + t)), 0, e.encode(a + ([c] + t)))
    ensures SelectIn(e, b, root, dir, useLatest, cusno) == Selected(doc, dir, columns, mapping)
    ensures ScanBulk(e, b, dir, cusno, columns) == Missing
  {
    var text := a + ([c] + t);
    IndexedIsSelected(e, b, root, dir, useLatest, cusno, e.encode(text), 0, e.encode(text), columns, mapping);
    assert Decodes(e, text);
    TwoPieces(a, c, t);
    ScanNothing(e, [Line(a, [c]), Line(t, "")], cusno, columns);
  }

  // ---------- every request ----------

  /** The customer's line, as a scan of the text would find it. */
  predicate ScannedLine(e: Env, b: Objects, dir: string, text: string, c: string, columns: Json, p: Place,
      span: string) {
    && p.Text() == text && CustomersLine(e, b, dir, c, columns, p, span)
    && Unbroken(Strip(p.line)) && AllPass(e, p.before, c, columns)
  }

  /** The shard of every customer the bulk text holds has the entry of a line the scan would find; a customer
      without an entry is not in the text. */
  ghost predicate CompleteFor(e: Env, b: Objects, dir: string, text: string, index: map<string, Json>, c: string,
      columns: Json) {
    if c in index then exists p: Place, span :: ScannedLine(e, b, dir, text, c, columns, p, span)
    else AllPass(e, text, c, columns)
  }

  /** Nothing but the shard index could answer for the customer: what else is found is someone else's. */
  predicate NothingElse(e: Env, b: Objects, root: string, dir: string, useLatest: bool, cusno: string, columns: Json) {
    var other := Probe(e, b, dir, cusno);
    && (other.Doc? ==> Match(e, other.doc, cusno, columns).No?) && !other.Raised?
    && (other.Missing? && !useLatest ==> Probe(e, b, Latest(root), cusno).Missing?)
  }

  /** With a complete index the lookup is the scan, for customers in the file and absent ones alike. */
  lemma LookupIsScan(e: Env, site: Site, root: string, requested: string, dir: string, useLatest: bool,
                     text: string, index: map<string, Json>, columns: Json, mapping: map<string, Json>)
    requires Lawful(e) && Strip(requested) != "" && ChooseDir(e, site, root, Strip(requested)) == At(dir, useLatest)
    requires Get(site.objects, BulkKey(dir)) == Some(e.encode(text))
    requires ReadJson(e, site.objects, ShardKey(dir, Strip(requested))) == Some(Obj(index))
    requires ReadMeta(e, site.objects, dir) == Meta(columns, mapping)
    requires CompleteFor(e, site.objects, dir, text, index, Strip(requested), columns)
    requires Strip(requested) !in index
        ==> NothingElse(e, site.objects, root, dir, useLatest, Strip(requested), columns)
    ensures Select(e, site, root, requested)
            == FromScan(ScanBulk(e, site.objects, dir, Strip(requested), columns), dir, columns, mapping)
  {
    var cusno, b := Strip(requested), site.objects;
    assert Decodes(e, text);
    if cusno in index {
      var p: Place, span :| ScannedLine(e, b, dir, text, cusno, columns, p, span);
      IndexedIsSelected(e, b, root, dir, useLatest, cusno, e.encode(text), |e.encode(p.before)|, e.encode(span),
          columns, mapping);
      CoreMeetsScan(e, p, span, cusno, columns);
    } else {
      ScanNothing(e, Lines(text), cusno, columns);
      AbsentIsNotFound(e, b, root, dir, useLatest, cusno, columns, mapping);
    }
  }

  lemma AbsentIsNotFound(e: Env, b: Objects, root: string, dir: string, useLatest: bool, cusno: string,
                         columns: Json, mapping: map<string, Json>)
    requires ReadMeta(e, b, dir) == Meta(columns, mapping) && ScanBulk(e, b, dir, cusno, columns).Missing?
    requires NothingElse(e, b, root, dir, useLatest, cusno, columns)
    ensures SelectIn(e, b, root, dir, useLatest, cusno) == NotFound
  {
  }

  // ---------- the newest date ----------

  lemma {:induction false} AtMostTotal(a: string, b: string)
    ensures AtMost(a, b) || AtMost(b, a)
    ensures AtMost(a, b) && AtMost(b, a) ==> a == b
    ensures AtMost(a, a)
  {
    if a != "" {
      AtMostTotal(a[1..], if b != "" then b[1..] else "");
      assert b != "" && a[0] == b[0] && a[1..] == b[1..] ==> a == [a[0]] + a[1..] && b == [b[0]] + b[1..];
    }
  }

  lemma {:induction false} AtMostTransitive(a: string, b: string, d: string)
    requires AtMost(a, b) && AtMost(b, d)
    ensures AtMost(a, d)
  {
    if a != "" && b != "" && d != "" && a[0] == b[0] == d[0] { AtMostTransitive(a[1..], b[1..], d[1..]); }
  }

  /** The fallback directory is the greatest of the listed dates. */
  lemma {:induction false} NewestIsGreatest(dates: seq<string>)
    requires dates != []
    ensures Newest(dates) in dates && forall i :: 0 <= i < |dates| ==> AtMost(dates[i], Newest(dates))
  {
    var n := |dates| - 1;
    AtMostTotal(dates[n], dates[n]);
    if n > 0 {
      NewestIsGreatest(dates[..n]);
      var best := Newest(dates[..n]);
      AtMostTotal(best, dates[n]);
      forall i | 0 <= i < |dates| ensures AtMost(dates[i], Newest(dates)) {
        if i < n {
          assert dates[..n][i] == dates[i];
          if AtMost(best, dates[n]) { AtMostTransitive(dates[i], best, dates[n]); }
        }
      }
    }
  }
}
