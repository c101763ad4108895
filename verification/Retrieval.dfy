// retrieve_cusno as it is written: variables reassigned stage by stage, loops over names and lines.
// The method is proved against Lookup.Select.
module Retrieval {
  import opened Values
  import opened Bucket
  import opened Lookup

  lemma DatesNext(e: Env, root: string, names: seq<string>, i: nat)
    requires i < |names|
    ensures DatesIn(e, root, names[..i + 1])
            == DatesIn(e, root, names[..i]) + if DateOf(e, root, names[i]).Some?
                then [DateOf(e, root, names[i]).value] else []
  {
    assert names[..i + 1][..i] == names[..i];
  }

  /** Collects the date directories among the listed names. */
  method CollectDates(e: Env, root: string, names: seq<string>) returns (dates: seq<string>)
    ensures dates == DatesIn(e, root, names)
  {
    dates := [];
    for i := 0 to |names|
      invariant dates == DatesIn(e, root, names[..i])
    {
      DatesNext(e, root, names, i);
      var date := DateOf(e, root, names[i]);
      if date.Some? { dates := dates + [date.value]; }
    }
    assert names[..|names|] == names;
  }

  lemma NewestNext(dates: seq<string>, i: nat)
    requires 0 < i < |dates|
    ensures Newest(dates[..i + 1]) == if AtMost(Newest(dates[..i]), dates[i]) then dates[i] else Newest(dates[..i])
  {
    assert dates[..i + 1][..i] == dates[..i];
  }

  method PickNewest(dates: seq<string>) returns (best: string)
    requires dates != []
    ensures best == Newest(dates)
  {
    best := dates[0];
    for i := 1 to |dates|
      invariant best == Newest(dates[..i])
    {
      NewestNext(dates, i);
      if AtMost(best, dates[i]) { best := dates[i]; }
    }
    assert dates[..|dates|] == dates;
  }

  /** The first line whose record is the customer's. */
  method ScanForCustomer(e: Env, text: string, cusno: string, columns: Json) returns (r: Outcome)
    ensures r == ScanLines(e, Lines(text), cusno, columns)
  {
    var lines := Lines(text);
    var i := 0;
    assert lines[0..] == lines;
    while i < |lines|
      invariant 0 <= i <= |lines|
      invariant ScanLines(e, lines, cusno, columns) == ScanLines(e, lines[i..], cusno, columns)
    {
      assert lines[i..][1..] == lines[i + 1..];
      var line := Strip(lines[i].text);
      i := i + 1;
      if line == "" { continue; }
      var candidate := e.parse(e.encode(line));
      if candidate.None? { continue; }
      var verdict := Match(e, candidate.value, cusno, columns);
      if verdict.Crash? { return Raised; }
      if verdict.Yes? { return Doc(candidate.value); }
    }
    r := Missing;
  }

  method RetrieveCusno(e: Env, site: Site, root: string, requested: string) returns (r: Selection)
    ensures r == Select(e, site, root, requested)
  {
    var cusno := Strip(requested);
    if cusno == "" { return NotFound; }
    var choice := ChooseQueryPath(e, site, root, cusno);
    if choice.Nowhere? { return NotFound; }
    if choice.ChoiceRaised? { return Failure; }
    var path, useLatest := choice.dir, choice.useLatest;

    var found := Find(e, site.objects, path, cusno);
    var usedFallback := false;
    if found.Missing? && !useLatest {
      found := Find(e, site.objects, Latest(root), cusno);
      usedFallback := found.Doc?;
    }
    if found.Raised? { return Failure; }
    if found.Missing? { return NotFound; }

    var effective := if usedFallback then Latest(root) else path;
    var meta := ReadMeta(e, site.objects, effective);
    if meta.MetaRaised? { return Failure; }
    var verdict := Match(e, found.doc, cusno, meta.columns);
    if verdict.Crash? { return Failure; }
    if verdict.No? {
      found := Rescan(e, site.objects, effective, cusno, meta.columns);
      if found.Raised? { return Failure; }
      if found.Missing? { return NotFound; }
    }
    r := Selected(found.doc, effective, meta.columns, meta.mapping);
  }

  method ChooseQueryPath(e: Env, site: Site, root: string, cusno: string) returns (r: Choice)
    ensures r == ChooseDir(e, site, root, cusno)
  {
    var date: Option<string> := None;
    var useLatest := false;
    match ReadJson(e, site.objects, root + "/_latest_date.json") {
      case Some(Obj(m)) =>
        var field := LatestDate(e, m);
        if field.BadType? { return ChoiceRaised; }
        useLatest := "use_latest" in m && Truthy(m["use_latest"]);
        if field.Date? { date := Some(field.s); }
      case Some(_) => return ChoiceRaised;
      case None =>
        if site.listing.None? { return Nowhere; }
        var dates := CollectDates(e, root, site.listing.value);
        if dates != [] {
          var newest := PickNewest(dates);
          date := Some(newest);
        }
    }
    if date.None? {
      if ShardKey(Latest(root), cusno) !in site.objects { return Nowhere; }
      return At(Latest(root), true);
    }
    r := At(if useLatest then Latest(root) else root + "/" + date.value, useLatest);
  }

  method Find(e: Env, b: Objects, dir: string, cusno: string) returns (r: Outcome)
    ensures r == Probe(e, b, dir, cusno)
  {
    r := FetchViaIndex(e, b, ShardKey(dir, cusno), BulkKey(dir), cusno);
    if r.Missing? { r := FetchViaIndex(e, b, FullKey(dir), BulkKey(dir), cusno); }
    if r.Missing? { r := AsDoc(ReadJson(e, b, SingleKey(dir, cusno))); }
  }

  method FetchViaIndex(e: Env, b: Objects, indexKey: string, bulkKey: string, cusno: string) returns (r: Outcome)
    ensures r == ViaIndex(e, b, indexKey, bulkKey, cusno)
  {
    var index := ReadJson(e, b, indexKey);
    if index.None? { return Missing; }
    match index.value {
      case Obj(entries) =>
        if cusno !in entries { return Missing; }
        r := Entry(e, Get(b, bulkKey), entries[cusno]);
      case Arr(items) => r := if Str(cusno) in items then Raised else Missing;
      case Str(s) => r := if Contains(s, cusno) then Raised else Missing;
      case _ => r := Raised;
    }
  }

  method Rescan(e: Env, b: Objects, dir: string, cusno: string, columns: Json) returns (r: Outcome)
    ensures r == ScanBulk(e, b, dir, cusno, columns)
  {
    if BulkKey(dir) !in b { return Missing; }
    var text := e.decode(b[BulkKey(dir)]);
    if text.None? { return Raised; }
    r := ScanForCustomer(e, text.value, cusno, columns);
  }
}
