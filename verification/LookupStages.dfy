// The stages of the lookup, by the keys and fields they read: which directory is chosen, which
// candidate wins, what the metadata says.
module LookupStages {
  import opened Values
  import opened Bucket
  import opened Lookup
  import opened LookupTheorems

  // ---------- the directory ----------

  predicate EightDigits(e: Env, d: string) {
    |d| == 8 && forall i :: 0 <= i < |d| ==> e.isDigit(d[i])
  }

  /** A name under root's directory d. */
  predicate Under(root: string, d: string, name: string) {
    root + ("/" + (d + "/")) <= name
  }

  lemma {:induction false} UpToSlashIs(d: string, rest: string)
    requires '/' !in d
    ensures UpToSlash(d + (['/'] + rest)) == d
  {
    var s := d + (['/'] + rest);
    if d != "" {
      assert s[1..] == d[1..] + (['/'] + rest);
      UpToSlashIs(d[1..], rest);
    }
  }

  lemma DateOfIs(e: Env, root: string, name: string, d: string)
    requires EightDigits(e, d) && '/' !in d && Under(root, d, name)
    ensures DateOf(e, root, name) == Some(d)
  {
    var rest := name[|root| + 1 + |d| + 1..];
    assert name == root + ("/" + (d + "/")) + rest;
    assert name[|root| + 1..] == d + (['/'] + rest) && root + "/" <= name;
    UpToSlashIs(d, rest);
  }

  lemma DateOfUnder(e: Env, root: string, name: string, d: string)
    requires DateOf(e, root, name) == Some(d)
    ensures EightDigits(e, d) && '/' !in d && Under(root, d, name)
  {
    var remaining := name[|root| + 1..];
    assert name == root + "/" + remaining;
    assert remaining == d + "/" + remaining[|d| + 1..];
    assert name == root + ("/" + (d + "/")) + remaining[|d| + 1..];
  }

  lemma DateOfExactly(e: Env, root: string, name: string, d: string)
    ensures DateOf(e, root, name) == Some(d) <==> EightDigits(e, d) && '/' !in d && Under(root, d, name)
  {
    if DateOf(e, root, name) == Some(d) { DateOfUnder(e, root, name, d); }
    if EightDigits(e, d) && '/' !in d && Under(root, d, name) { DateOfIs(e, root, name, d); }
  }

  /** The listed dates are exactly the eight-digit directories some listed name is under. */
  lemma {:induction false} DatesListed(e: Env, root: string, names: seq<string>, d: string)
    ensures d in DatesIn(e, root, names) <==>
      EightDigits(e, d) && '/' !in d && exists i :: 0 <= i < |names| && Under(root, d, names[i])
  {
    if names != [] {
      var n := |names| - 1;
      DatesListed(e, root, names[..n], d);
      DateOfExactly(e, root, names[n], d);
      assert forall i :: 0 <= i < n ==> names[..n][i] == names[i];
    }
  }

  lemma {:induction false} DashesGone(s: string, t: string)
    requires '-' !in s
    ensures WithoutDashes(s + t) == s + WithoutDashes(t)
  {
    if s == "" {
      assert s + t == t;
    } else {
      assert (s + t)[1..] == s[1..] + t;
      DashesGone(s[1..], t);
    }
  }

  lemma DashGone(t: string)
    ensures WithoutDashes("-" + t) == WithoutDashes(t)
  {
    assert ("-" + t)[1..] == t && "" + WithoutDashes(t) == WithoutDashes(t);
  }

  lemma LoadDate(y: string, m: string, d: string)
    requires '-' !in y && '-' !in m && '-' !in d
    ensures WithoutDashes(y + ("-" + (m + ("-" + d)))) == y + (m + d)
  {
    DashesGone(y, "-" + (m + ("-" + d)));
    DashGone(m + ("-" + d));
    DashesGone(m, "-" + d);
    DashGone(d);
    DashesGone(d, "");
    assert d + "" == d && d + WithoutDashes("") == d;
  }

  /** The metadata names an eight-digit date, as latest_date or, without one, as a dashed load_date. */
  ghost predicate NamesDate(e: Env, m: map<string, Json>, date: string) {
    && EightDigits(e, date)
    && (|| Get(m, "latest_date") == Some(Str(date))
        || (Get(m, "latest_date") in {None, Some(Null), Some(Str(""))} && exists y, mm, d :: Dashed(m, date, y, mm, d)))
  }

  predicate Dashed(m: map<string, Json>, date: string, y: string, mm: string, d: string) {
    && '-' !in y && '-' !in mm && '-' !in d && date == y + (mm + d)
    && Get(m, "load_date") == Some(Str(y + ("-" + (mm + ("-" + d)))))
  }

  /** With a date in the metadata its directory is read, or latest/ when the metadata says so. */
  lemma ChosenByMetadata(e: Env, site: Site, root: string, cusno: string, m: map<string, Json>, date: string)
    requires ReadJson(e, site.objects, root + "/_latest_date.json") == Some(Obj(m)) && NamesDate(e, m, date)
    requires "use_latest" in m ==> m["use_latest"].Bool?
    ensures ChooseDir(e, site, root, cusno)
            == if Get(m, "use_latest") == Some(Bool(true)) then At(root + "/latest", true)
                else At(root + "/" + date, false)
  {
    if Get(m, "latest_date") != Some(Str(date)) {
      var y, mm, d :| Dashed(m, date, y, mm, d);
      LoadDate(y, mm, d);
    }
  }

  /** The metadata has a latest_date that is no date, or neither of the two fields. */
  predicate NamesNoDate(e: Env, m: map<string, Json>) {
    || (Get(m, "latest_date") in {None, Some(Null), Some(Str(""))} && Get(m, "load_date") in {None, Some(Str(""))})
    || ("latest_date" in m && m["latest_date"].Str? && m["latest_date"].s != "" && !EightDigits(e, m["latest_date"].s))
  }

  /** With no usable date latest/ is read if it has the customer's shard. */
  lemma ChosenLatest(e: Env, site: Site, root: string, cusno: string, m: map<string, Json>)
    requires var meta := ReadJson(e, site.objects, root + "/_latest_date.json");
      || (meta == Some(Obj(m)) && NamesNoDate(e, m))
      || (meta.None? && site.listing.Some? && DatesIn(e, root, site.listing.value) == [])
    ensures ChooseDir(e, site, root, cusno)
            == if root + "/latest" + "/index_" + IndexPrefix(cusno) + ".json" in site.objects
               then At(root + "/latest", true) else Nowhere
  {
    if "latest_date" in m && m["latest_date"].Str?
        { assert IsDate(e, m["latest_date"].s) ==> EightDigits(e, m["latest_date"].s); }
  }

  /** Without metadata the greatest listed date is read. */
  lemma ChosenByListing(e: Env, site: Site, root: string, cusno: string, names: seq<string>, d: string)
    requires ReadJson(e, site.objects, root + "/_latest_date.json").None? && site.listing == Some(names)
    requires EightDigits(e, d) && '/' !in d && exists i :: 0 <= i < |names| && Under(root, d, names[i])
    ensures var choice := ChooseDir(e, site, root, cusno);
      && choice.At? && !choice.useLatest
      && exists newest :: && choice.dir == root + "/" + newest && AtMost(d, newest) && EightDigits(e, newest)
                          && exists i :: 0 <= i < |names| && Under(root, newest, names[i])
  {
    var dates := DatesIn(e, root, names);
    DatesListed(e, root, names, d);
    var i :| 0 <= i < |dates| && dates[i] == d;
    NewestIsGreatest(dates);
    DatesListed(e, root, names, Newest(dates));
    assert AtMost(dates[i], Newest(dates));
  }

  /** Metadata that is not an object, or a listing that fails, ends the lookup. */
  lemma ChosenNone(e: Env, site: Site, root: string, cusno: string)
    ensures var meta := ReadJson(e, site.objects, root + "/_latest_date.json");
      && (meta.Some? && !meta.value.Obj? ==> ChooseDir(e, site, root, cusno).ChoiceRaised?)
      && (meta.None? && site.listing.None? ==> ChooseDir(e, site, root, cusno).Nowhere?)
  {
  }

  // ---------- the candidate ----------

  /** The index object is missing, unreadable, or has no entry for the customer. */
  predicate Silent(index: Option<Json>, cusno: string) {
    index.None? || (index.value.Obj? && cusno !in index.value.fields)
  }

  /** The index object has an entry that is a byte range of the bulk file. */
  predicate Ranged(e: Env, b: Objects, dir: string, index: Option<Json>, cusno: string, data: Bytes, off: nat,
      bytes: Bytes) {
    && Get(b, dir + "/bulk.jsonl") == Some(data) && Slices(data, off, |bytes|, bytes) && e.parse(bytes).Some?
    && index.Some? && index.value.Obj?
    && Get(index.value.fields, cusno) == Some(Arr([Int(off), Int(|bytes|)]))
  }

  lemma RangedEntry(e: Env, b: Objects, dir: string, indexKey: string, cusno: string, data: Bytes, off: nat,
      bytes: Bytes)
    requires Bucket.Lawful(e) && Ranged(e, b, dir, ReadJson(e, b, indexKey), cusno, data, off, bytes)
    ensures ViaIndex(e, b, indexKey, dir + "/bulk.jsonl", cusno) == AsDoc(e.parse(bytes))
  {
    RangeRead(e, data, off, bytes);
  }

  /** The shard index wins, then index.json, then the customer's own object. */
  lemma CandidateOrder(e: Env, b: Objects, dir: string, cusno: string, data: Bytes, off: nat, bytes: Bytes)
    requires Bucket.Lawful(e) && (e.parse(bytes).Some? ==> !e.parse(bytes).value.Null?)
    ensures var shard := ReadJson(e, b, dir + "/index_" + IndexPrefix(cusno) + ".json");
      var full := ReadJson(e, b, dir + "/index.json");
      var own := ReadJson(e, b, dir + "/" + cusno + ".json");
      && (Ranged(e, b, dir, shard, cusno, data, off, bytes) ==> Probe(e, b, dir, cusno) == Doc(e.parse(bytes).value))
      && (Silent(shard, cusno) && Ranged(e, b, dir, full, cusno, data, off, bytes) ==>
            Probe(e, b, dir, cusno) == Doc(e.parse(bytes).value))
      && (Silent(shard, cusno) && Silent(full, cusno) ==>
            Probe(e, b, dir, cusno) == if own.None? || own.value.Null? then Missing else Doc(own.value))
  {
    var shardKey, fullKey := dir + "/index_" + IndexPrefix(cusno) + ".json", dir + "/index.json";
    if Ranged(e, b, dir, ReadJson(e, b, shardKey), cusno, data, off, bytes) {
      RangedEntry(e, b, dir, shardKey, cusno, data, off, bytes);
    }
    if Ranged(e, b, dir, ReadJson(e, b, fullKey), cusno, data, off, bytes) {
      RangedEntry(e, b, dir, fullKey, cusno, data, off, bytes);
    }
  }

  /** An old client without ranged GET reads the same bytes from the whole object. */
  lemma SlicedEntry(e: Env, data: Bytes, off: nat, bytes: Bytes)
    requires Slices(data, off, |bytes|, bytes) && e.ranged(data, Int(off), Int(|bytes|)).Unsupported?
    ensures Entry(e, Some(data), Arr([Int(off), Int(|bytes|)])) == AsDoc(e.parse(bytes))
  {
  }

  /** Entries that are not a pair, or point into no bulk file, yield nothing or an error. */
  lemma MalformedEntry(e: Env, bulk: Option<Bytes>, items: seq<Json>)
    ensures |items| != 2 ==> Entry(e, bulk, Arr(items)).Missing?
    ensures |items| == 2 && bulk.None? ==> Entry(e, bulk, Arr(items)).Missing?
    ensures Entry(e, bulk, Null).Raised? && forall n :: Entry(e, bulk, Int(n)).Raised?
  {
  }

  /** The customer's candidate is selected with its own directory's metadata; latest/ is asked only when a dated
      directory has no candidate. */
  lemma CandidateSelected(e: Env, b: Objects, root: string, dir: string, useLatest: bool, cusno: string,
                          at: string, doc: Json, columns: Json, names: map<string, Json>)
    requires Probe(e, b, at, cusno) == Doc(doc) && ReadMeta(e, b, at) == Meta(columns, names)
    requires Match(e, doc, cusno, columns).Yes?
    ensures at == dir ==> SelectIn(e, b, root, dir, useLatest, cusno) == Selected(doc, dir, columns, names)
    ensures at == root + "/latest" && Probe(e, b, dir, cusno).Missing? ==>
      SelectIn(e, b, root, dir, useLatest, cusno)
      == if useLatest then NotFound else Selected(doc, root + "/latest", columns, names)
  {
  }

  /** A record without a customer number is nobody's; one that is no object ends the lookup. */
  lemma NobodysRecord(e: Env, doc: Json, cusno: string, columns: Json)
    ensures doc.Obj? && Get(doc.fields, "CUSNO") in {None, Some(Null)} ==> Match(e, doc, cusno, columns) == No
    ensures !doc.Obj? ==> Match(e, doc, cusno, columns) == Crash
  {
  }

  /** A number that is no string is compared by its text. */
  lemma NumberCompared(e: Env, doc: map<string, Json>, n: int, cusno: string, columns: seq<Json>)
    requires Get(doc, "CUSNO") == Some(Int(n)) && Str("CUSNO") !in columns
    ensures Match(e, Obj(doc), cusno, Arr(columns)) == if e.str(Int(n)) == cusno then Yes else No
  {
  }

  /** A candidate that is no object ends the lookup; one of nobody or of somebody else leaves it to the scan,
      which ends it when the bulk file is not UTF-8 and finds nothing when there is no bulk file. */
  lemma CandidateRefused(e: Env, b: Objects, root: string, dir: string, useLatest: bool, cusno: string,
                         doc: Json, columns: Json, names: map<string, Json>)
    requires Probe(e, b, dir, cusno) == Doc(doc) && ReadMeta(e, b, dir) == Meta(columns, names)
    ensures var r := SelectIn(e, b, root, dir, useLatest, cusno);
      && (!doc.Obj? ==> r == Failure)
      && (Match(e, doc, cusno, columns).No? && dir + "/bulk.jsonl" !in b ==> r == NotFound)
      && (Match(e, doc, cusno, columns).No? && dir + "/bulk.jsonl" in b && e.decode(b[dir + "/bulk.jsonl"]).None? ==>
            r == Failure)
  {
  }

  // ---------- the metadata ----------

  /** A member that is there and not empty, or the default. */
  predicate Given(m: map<string, Json>, key: string, v: Json, empty: Json) {
    if key in m then m[key] == v != empty else v == empty
  }

  /** Encrypted columns and column names come from _meta.json of the record's directory; without it there are none. */
  lemma MetadataRead(e: Env, b: Objects, dir: string, m: map<string, Json>, columns: seq<Json>, names: map<string,
      Json>)
    ensures var meta := ReadJson(e, b, dir + "/_meta.json");
      && (meta.None? ==> ReadMeta(e, b, dir) == Meta(Arr([]), map[]))
      && (meta.Some? && !meta.value.Obj? ==> ReadMeta(e, b, dir).MetaRaised?)
      && ((&& meta == Some(Obj(m)) && Given(m, "encrypted_columns", Arr(columns), Arr([]))
           && Given(m, "column_info", Obj(names), Obj(map[]))) ==>
            ReadMeta(e, b, dir) == Meta(Arr(columns), names))
  {
  }

  // ---------- the boundary characters ----------

  /** The raw separators of JSON strings split a line of the scan, and its line feed does; a space does not. */
  lemma SeparatorsBreak()
    ensures IsBreak('\U{85}') && IsBreak('\U{2028}') && IsBreak('\U{2029}') && IsBreak('\n') && IsBreak('\r')
    ensures !IsBreak(' ') && !IsBreak('\t') && !IsBreak('a') && !IsBreak('"')
  {
  }
}
