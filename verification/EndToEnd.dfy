// The whole of retrieve_cusno: select a record, decrypt its columns, attach the column names.
module EndToEnd {
  import opened Values
  import opened Bucket
  import opened Lookup
  import opened LookupTheorems
  import Retrieval
  import opened Documents
  import opened ColumnNames

  datatype Answer = Found(doc: Fields) | Nothing | Raises

  predicate Hashable(j: Json) {
    !j.Arr? && !j.Obj?
  }

  /** The column names a loop over the metadata's value looks up; None is a TypeError on the way. */
  function NamesOf(x: Crypto, columns: Json): Option<seq<string>> {
    match columns
    case Arr(items) => if forall i :: 0 <= i < |items| ==> Hashable(items[i]) then Some(Strings(items)) else None
    case Str(s) => Some(seq(|s|, i requires 0 <= i < |s| => [s[i]]))
    case Obj(fields) => Some(x.names(fields))
    case _ => None
  }

  /** Entries that are not strings are never keys of a document. */
  function Strings(items: seq<Json>): seq<string> {
    if items == [] then [] else (if items[0].Str? then [items[0].s] else []) + Strings(items[1..])
  }

  /** Decryption as the lookup calls it: a ValueError leaves the document as it is. */
  function Opened(x: Crypto, doc: Fields, columns: Json): Option<Fields> {
    if !Truthy(columns) then Some(doc) else
    var names := NamesOf(x, columns);
    match OpenDocument(x, doc, if names.Some? then names.value else [])
    case ValueFault => Some(doc)
    case TypeFault => None
    case Decrypted(d) => if names.None? && FlagOf(x, doc).Encrypted? then None else Some(d)
  }

  function Finish(x: Crypto, selection: Selection): Answer {
    match selection
    case NotFound => Nothing
    case Failure => Raises
    case Selected(doc, _, columns, mapping) =>
      if !doc.Obj? then Raises else
      var d := Opened(x, doc.fields, columns);
      if d.None? then Raises else Found(ApplyMapping(d.value, mapping))
  }

  function Retrieve(e: Env, x: Crypto, site: Site, root: string, requested: string): Answer {
    Finish(x, Select(e, site, root, requested))
  }

  method RetrieveRecord(e: Env, x: Crypto, site: Site, root: string, requested: string) returns (r: Answer)
    ensures r == Retrieve(e, x, site, root, requested)
  {
    var selection := Retrieval.RetrieveCusno(e, site, root, requested);
    if selection.NotFound? { return Nothing; }
    if selection.Failure? || !selection.doc.Obj? { return Raises; }
    var doc := selection.doc.fields;
    if Truthy(selection.columns) {
      var names := NamesOf(x, selection.columns);
      var plain := DecryptInPlace(x, doc, if names.Some? then names.value else []);
      if plain.TypeFault? || (plain.Decrypted? && names.None? && FlagOf(x, doc).Encrypted?) { return Raises; }
      if plain.Decrypted? { doc := plain.doc; }
    }
    var mapped := ApplyInPlace(doc, selection.mapping);
    r := Found(mapped);
  }

  // ---------- what was uploaded is what is retrieved ----------

  /** The columns as _meta.json lists them. */
  function Listed(columns: seq<string>): Json {
    Arr(seq(|columns|, i requires 0 <= i < |columns| => Str(columns[i])))
  }

  lemma {:induction false} ListedNames(x: Crypto, columns: seq<string>)
    ensures NamesOf(x, Listed(columns)) == Some(columns)
    ensures Str("CUSNO") in Listed(columns).items <==> "CUSNO" in columns
  {
    var items := Listed(columns).items;
    StringsOf(columns);
    if Str("CUSNO") in items {
      var i :| 0 <= i < |items| && items[i] == Str("CUSNO");
      assert columns[i] == "CUSNO";
    }
    if "CUSNO" in columns {
      var i :| 0 <= i < |columns| && columns[i] == "CUSNO";
      assert items[i] == Str("CUSNO");
    }
  }

  lemma {:induction false} StringsOf(columns: seq<string>)
    ensures Strings(Listed(columns).items) == columns
  {
    if columns != [] {
      StringsOf(columns[1..]);
      assert Listed(columns).items[1..] == Listed(columns[1..]).items;
      assert columns == [columns[0]] + columns[1..];
    }
  }

  /** The customer check decrypts as the document transform does. */
  predicate OpensAlike(e: Env, x: Crypto, s: string) {
    e.open(s) == DecryptValue(x, s)
  }

  ghost predicate Coherent(e: Env, x: Crypto) {
    forall s :: OpensAlike(e, x, s)
  }

  /** An uploaded record passes the check for its own customer and for no other, with CUSNO encrypted or not. */
  lemma UploadedMatches(e: Env, x: Crypto, outer: Nonces, inner: Nonces, doc: Fields, columns: seq<string>,
      owner: string, cusno: string)
    requires Documents.Lawful(x) && Coherent(e, x) && x.available && x.key.Some? && GoodNonces(outer)
    requires Get(doc, "CUSNO") == Some(Str(owner))
    ensures Match(e, Obj(EncryptDocument(x, outer, inner, doc, columns)), cusno, Listed(columns))
            == if owner == cusno then Yes else No
  {
    ListedNames(x, columns);
    ValueRoundTrip(x, outer("CUSNO"), owner);
    assert OpensAlike(e, x, EncryptValue(x, outer("CUSNO"), owner));
    assert |"CUSNO"| != |"data"|;
    var sealed := EncryptDocument(x, outer, inner, doc, columns);
    assert sealed["CUSNO"] == if "CUSNO" in columns then Str(EncryptValue(x, outer("CUSNO"), owner)) else Str(owner);
  }

  /** The record was uploaded for the customer: some plain document with that number was encrypted into it. */
  ghost predicate UploadedFor(x: Crypto, record: Json, columns: seq<string>, cusno: string)
    requires x.key.Some?
  {
    exists outer: Nonces, inner: Nonces, doc: Fields ::
      && GoodNonces(outer) && GoodNonces(inner) && Get(doc, "CUSNO") == Some(Str(cusno))
      && record == Obj(EncryptDocument(x, outer, inner, doc, columns))
  }

  lemma UploadMatches(e: Env, x: Crypto, record: Json, columns: seq<string>, owner: string, cusno: string)
    requires Documents.Lawful(x) && Coherent(e, x) && x.available && x.key.Some?
    requires UploadedFor(x, record, columns, owner)
    ensures Match(e, record, cusno, Listed(columns)) == if owner == cusno then Yes else No
  {
    var outer: Nonces, inner: Nonces, doc: Fields :|
      && GoodNonces(outer) && GoodNonces(inner) && Get(doc, "CUSNO") == Some(Str(owner))
      && record == Obj(EncryptDocument(x, outer, inner, doc, columns));
    UploadedMatches(e, x, outer, inner, doc, columns, owner, cusno);
  }

  /** The record was uploaded for some customer. */
  ghost predicate Uploaded(x: Crypto, record: Json, columns: seq<string>)
    requires x.key.Some?
  {
    exists owner :: UploadedFor(x, record, columns, owner)
  }

  /** The candidate and the bulk lines of a directory are uploads. */
  ghost predicate HoldsUploads(e: Env, x: Crypto, b: Objects, dir: string, cusno: string, columns: seq<string>)
    requires x.key.Some?
  {
    && (Probe(e, b, dir, cusno).Doc? ==> Uploaded(x, Probe(e, b, dir, cusno).doc, columns))
    && (BulkKey(dir) in b && e.decode(b[BulkKey(dir)]).Some? ==>
          var lines := Lines(e.decode(b[BulkKey(dir)]).value);
          forall i :: 0 <= i < |lines| && Record(e, lines[i].text).Some? ==>
            Uploaded(x, Record(e, lines[i].text).value, columns))
  }

  /** Among uploads, whatever the indexes say, the selected record was uploaded for the requested customer. */
  lemma SelectedIsRequested(e: Env, x: Crypto, site: Site, root: string, requested: string, columns: seq<string>)
    requires Documents.Lawful(x) && Coherent(e, x) && x.available && x.key.Some?
    requires var r := Select(e, site, root, requested);
      r.Selected? ==> r.columns == Listed(columns) && HoldsUploads(e, x, site.objects, r.dir, Strip(requested), columns)
    ensures var r := Select(e, site, root, requested);
      r.Selected? ==> UploadedFor(x, r.doc, columns, Strip(requested))
  {
    var r, cusno, b := Select(e, site, root, requested), Strip(requested), site.objects;
    if r.Selected? {
      SelectedIsRight(e, site, root, requested);
      SelectedUpload(e, x, b, r.dir, cusno, columns, r.doc);
      var owner :| UploadedFor(x, r.doc, columns, owner);
      UploadMatches(e, x, r.doc, columns, owner, cusno);
    }
  }

  lemma SelectedUpload(e: Env, x: Crypto, b: Objects, dir: string, cusno: string, columns: seq<string>, doc: Json)
    requires x.key.Some? && HoldsUploads(e, x, b, dir, cusno, columns)
    requires Sourced(e, b, dir, cusno, Listed(columns), doc)
    ensures Uploaded(x, doc, columns)
  {
    if ScanBulk(e, b, dir, cusno, Listed(columns)) == Doc(doc) {
      var i := ScanFound(e, Lines(e.decode(b[BulkKey(dir)]).value), cusno, Listed(columns));
    }
  }

  /** End to end: when the customer's index entry is the byte range of a record uploaded with encrypted
      columns, retrieving the customer gives back the record in plain text with its columns named. */
  lemma RetrieveUploaded(e: Env, x: Crypto, site: Site, root: string, requested: string, dir: string, useLatest: bool,
                         data: Bytes, off: nat, bytes: Bytes, mapping: Fields,
                         outer: Nonces, inner: Nonces, doc: Fields, sealed: Fields, columns: seq<string>)
    requires Bucket.Lawful(e) && Documents.Lawful(x) && Coherent(e, x) && x.available && x.key.Some?
    requires GoodNonces(outer) && GoodNonces(inner) && Distinct(columns)
    requires ReadMeta(e, site.objects, dir) == Meta(Listed(columns), mapping)
    requires Indexed(e, site.objects, dir, Strip(requested), data, off, bytes)
    requires sealed == EncryptDocument(x, outer, inner, doc, columns) && AsksDecryption(x, sealed)
    requires e.parse(bytes) == Some(Obj(sealed)) && Get(doc, "CUSNO") == Some(Str(Strip(requested)))
    ensures Strip(requested) != "" && ChooseDir(e, site, root, Strip(requested)) == At(dir, useLatest) ==>
      Retrieve(e, x, site, root, requested) == Found(ApplyMapping(doc, mapping))
  {
    var cusno := Strip(requested);
    UploadedMatches(e, x, outer, inner, doc, columns, cusno, cusno);
    FlagReads(x, sealed);
    IndexedIsSelected(e, site.objects, root, dir, useLatest, cusno, data, off, bytes, Listed(columns), mapping);
    FinishUploaded(x, dir, mapping, outer, inner, doc, columns);
  }

  /** A correctly indexed record flagged as plain text comes back as it is stored, with its columns named. */
  lemma RetrievePlainText(e: Env, x: Crypto, site: Site, root: string, requested: string, dir: string, useLatest: bool,
                          data: Bytes, off: nat, bytes: Bytes, mapping: Fields, doc: Fields, columns: Json)
    requires Bucket.Lawful(e) && SaysPlainText(x, doc) && ReadMeta(e, site.objects, dir) == Meta(columns, mapping)
    requires Indexed(e, site.objects, dir, Strip(requested), data, off, bytes) && e.parse(bytes) == Some(Obj(doc))
    requires Match(e, Obj(doc), Strip(requested), columns).Yes?
    ensures Strip(requested) != "" && ChooseDir(e, site, root, Strip(requested)) == At(dir, useLatest) ==>
      Retrieve(e, x, site, root, requested) == Found(ApplyMapping(doc, mapping))
  {
    var cusno, names := Strip(requested), NamesOf(x, columns);
    PlainTextKept(x, doc, if names.Some? then names.value else []);
    FlagReads(x, doc);
    IndexedIsSelected(e, site.objects, root, dir, useLatest, cusno, data, off, bytes, columns, mapping);
  }

  /** A flag that is no number leaves the record as it is stored; one of the wrong type ends the lookup. */
  lemma UnreadableFlag(x: Crypto, doc: Fields, dir: string, columns: seq<string>, mapping: Fields)
    requires "encrypted_yn" in doc && columns != []
    ensures doc["encrypted_yn"].Str? && x.integer(doc["encrypted_yn"].s).None? ==>
      Finish(x, Selected(Obj(doc), dir, Listed(columns), mapping)) == Found(ApplyMapping(doc, mapping))
    ensures doc["encrypted_yn"].Arr? || doc["encrypted_yn"].Obj? ==>
      Finish(x, Selected(Obj(doc), dir, Listed(columns), mapping)) == Raises
  {
    ListedNames(x, columns);
  }

  lemma FinishUploaded(x: Crypto, dir: string, mapping: Fields, outer: Nonces, inner: Nonces, doc: Fields,
      columns: seq<string>)
    requires Documents.Lawful(x) && x.available && x.key.Some? && GoodNonces(outer) && GoodNonces(inner)
        && Distinct(columns)
    requires FlagOf(x, EncryptDocument(x, outer, inner, doc, columns)) == Encrypted
    ensures Finish(x, Selected(Obj(EncryptDocument(x, outer, inner, doc, columns)), dir, Listed(columns), mapping))
            == Found(ApplyMapping(doc, mapping))
  {
    ListedNames(x, columns);
    DocumentRoundTrip(x, outer, inner, doc, columns);
    if columns == [] { SealedNothing(x, outer, inner, doc); }
  }
}
