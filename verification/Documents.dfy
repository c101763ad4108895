// The transforms a retrieved record goes through: decrypting its encrypted columns and attaching
// column names, in flat, nested ("data") and mixed documents.
module Documents {
  import opened Values
  import opened Bucket

  type Fields = map<string, Json>

  // ---------- decrypting one value ----------

  const NONCE_SIZE := 12
  const TAG_SIZE := 16

  /** UTF-8, Base64 and AES-GCM; `key` is None when the key store fails, `integer` is int() on a string,
      `names` lists the names of an object in document order.
      unBase64 and unseal answer None for text that is not Base64 and for a tag that does not verify. */
  datatype Crypto = Crypto(
    available: bool,
    key: Option<Bytes>,
    utf8: string -> Bytes,
    unUtf8: Bytes -> Option<string>,
    base64: Bytes -> string,
    unBase64: string -> Option<Bytes>,
    seal: (Bytes, Bytes, Bytes) -> Bytes,
    unseal: (Bytes, Bytes, Bytes) -> Option<Bytes>,
    integer: string -> Option<int>,
    names: Fields -> seq<string>)

  predicate Utf8Inverts(x: Crypto, s: string) {
    x.unUtf8(x.utf8(s)) == Some(s)
  }

  predicate Base64Inverts(x: Crypto, b: Bytes) {
    x.unBase64(x.base64(b)) == Some(b)
  }

  /** Unsealing undoes sealing, which adds a tag. */
  predicate Unseals(x: Crypto, key: Bytes, nonce: Bytes, plain: Bytes) {
    && (|nonce| == NONCE_SIZE ==> x.unseal(key, nonce, x.seal(key, nonce, plain)) == Some(plain))
    && |x.seal(key, nonce, plain)| == |plain| + TAG_SIZE
  }

  ghost predicate Lawful(x: Crypto) {
    && (forall s :: Utf8Inverts(x, s)) && (forall b :: Base64Inverts(x, b)) && x.unBase64("") == Some([])
    && (forall k, n, p :: Unseals(x, k, n, p))
  }

  /** decrypt_field_value on a string; None is the RuntimeError of a missing key. */
  function DecryptValue(x: Crypto, s: string): Option<string> {
    if !x.available then Some(s) else
    match x.unBase64(s)
    case None => Some(s)
    case Some(data) =>
      if |data| < NONCE_SIZE + TAG_SIZE then Some(s)
      else if x.key.None? then None
      else match x.unseal(x.key.value, data[..NONCE_SIZE], data[NONCE_SIZE..])
        case None => Some(s)
        case Some(plain) => Some(if x.unUtf8(plain).Some? then x.unUtf8(plain).value else s)
  }

  /** What the uploader stores: nonce, ciphertext and tag in Base64. */
  function EncryptValue(x: Crypto, nonce: Bytes, s: string): string
    requires x.key.Some?
  {
    x.base64(nonce + x.seal(x.key.value, nonce, x.utf8(s)))
  }

  /** A real ciphertext is never taken for plain text, and decrypts to what was encrypted. */
  lemma ValueRoundTrip(x: Crypto, nonce: Bytes, s: string)
    requires Lawful(x) && x.available && x.key.Some? && |nonce| == NONCE_SIZE
    ensures var data := nonce + x.seal(x.key.value, nonce, x.utf8(s));
      |data| >= NONCE_SIZE + TAG_SIZE && x.unBase64(EncryptValue(x, nonce, s)) == Some(data)
    ensures DecryptValue(x, EncryptValue(x, nonce, s)) == Some(s)
    ensures EncryptValue(x, nonce, s) != ""
  {
    var sealed := x.seal(x.key.value, nonce, x.utf8(s));
    var data := nonce + sealed;
    assert Utf8Inverts(x, s) && Base64Inverts(x, data) && Unseals(x, x.key.value, nonce, x.utf8(s));
    assert data[..NONCE_SIZE] == nonce && data[NONCE_SIZE..] == sealed;
  }

  // ---------- decrypting columns ----------

  predicate IsText(j: Json) {
    j.Str? && j.s != ""
  }

  /** One column: decrypted in place, removed when the key is missing. */
  function DecryptField(x: Crypto, t: Fields, col: string): Fields {
    if col in t && IsText(t[col]) then
      match DecryptValue(x, t[col].s)
      case None => t - {col}
      case Some(s) => t[col := Str(s)]
    else t
  }

  /** The columns one after the other. */
  function DecryptFields(x: Crypto, t: Fields, columns: seq<string>): Fields {
    if columns == [] then t
    else DecryptField(x, DecryptFields(x, t, columns[..|columns| - 1]), columns[|columns| - 1])
  }

  method DecryptColumns(x: Crypto, target: Fields, columns: seq<string>) returns (result: Fields)
    ensures result == DecryptFields(x, target, columns)
  {
    result := target;
    for i := 0 to |columns|
      invariant result == DecryptFields(x, target, columns[..i])
    {
      assert columns[..i + 1][..i] == columns[..i];
      var col := columns[i];
      if col in result && IsText(result[col]) {
        var value := DecryptValue(x, result[col].s);
        if value.Some? { result := result[col := Str(value.value)]; } else { result := result - {col}; }
      }
    }
    assert columns[..|columns|] == columns;
  }

  predicate Distinct(columns: seq<string>) {
    forall i, j :: 0 <= i < j < |columns| ==> columns[i] != columns[j]
  }

  /** What becomes of a field that is in the columns. */
  function FieldAfter(x: Crypto, v: Option<Json>): Option<Json> {
    if v.Some? && IsText(v.value) then
      match DecryptValue(x, v.value.s)
      case None => None
      case Some(s) => Some(Str(s))
    else v
  }

  /** Field by field: every column once, everything else untouched. */
  lemma {:induction false} DecryptedFields(x: Crypto, t: Fields, columns: seq<string>, k: string)
    requires Distinct(columns)
    ensures Get(DecryptFields(x, t, columns), k) == if k in columns then FieldAfter(x, Get(t, k)) else Get(t, k)
  {
    if columns != [] {
      var n := |columns| - 1;
      DecryptedFields(x, t, columns[..n], k);
      assert columns == columns[..n] + [columns[n]];
    }
  }

  /** What int(encrypted_yn) says: zero, anything else, a ValueError or a TypeError. */
  datatype Flag = PlainText | Encrypted | NotANumber | WrongType

  function FlagOf(x: Crypto, doc: Fields): Flag {
    if "encrypted_yn" !in doc then Encrypted else
    match doc["encrypted_yn"]
    case Null => Encrypted
    case Int(n) => if n == 0 then PlainText else Encrypted
    case Bool(b) => if b then Encrypted else PlainText
    case Float(r) => if -1.0 < r < 1.0 then PlainText else Encrypted
    case Str(s) =>
      if x.integer(s).None? then NotANumber else if x.integer(s).value == 0 then PlainText else Encrypted
    case _ => WrongType
  }

  predicate IsNested(doc: Fields) {
    "data" in doc && doc["data"].Obj?
  }

  /** The document with its nested part replaced. */
  function WithData(doc: Fields, data: Fields): Fields {
    doc["data" := Obj(data)]
  }

  datatype Decryption = Decrypted(doc: Fields) | ValueFault | TypeFault

  /** The flag decides; then the nested part, then the top level. */
  function OpenDocument(x: Crypto, doc: Fields, columns: seq<string>): Decryption {
    match FlagOf(x, doc)
    case NotANumber => ValueFault
    case WrongType => TypeFault
    case PlainText => Decrypted(doc)
    case Encrypted =>
      var result := if IsNested(doc) then WithData(doc, DecryptFields(x, doc["data"].fields, columns)) else doc;
      Decrypted(DecryptFields(x, result, columns))
  }

  /** decrypt_document */
  function DecryptDocument(x: Crypto, doc: Fields, columns: seq<string>): Decryption {
    if columns == [] then Decrypted(doc) else OpenDocument(x, doc, columns)
  }

  method DecryptInPlace(x: Crypto, doc: Fields, columns: seq<string>) returns (r: Decryption)
    ensures r == OpenDocument(x, doc, columns)
  {
    match FlagOf(x, doc) {
      case NotANumber => return ValueFault;
      case WrongType => return TypeFault;
      case PlainText => return Decrypted(doc);
      case Encrypted =>
    }
    var result := doc;
    if "data" in result && result["data"].Obj? {
      var data := DecryptColumns(x, result["data"].fields, columns);
      result := result["data" := Obj(data)];
    }
    result := DecryptColumns(x, result, columns);
    r := Decrypted(result);
  }

  // ---------- decrypting inverts encrypting ----------

  type Nonces = string -> Bytes

  /** Column-wise encryption of the strings among the columns, each under its own nonce. */
  function EncryptFields(x: Crypto, nonces: Nonces, t: Fields, columns: seq<string>): Fields
    requires x.key.Some?
  {
    map k | k in t :: if k in columns && t[k].Str? then Str(EncryptValue(x, nonces(k), t[k].s)) else t[k]
  }

  function EncryptDocument(x: Crypto, outer: Nonces, inner: Nonces, doc: Fields, columns: seq<string>): Fields
    requires x.key.Some?
  {
    EncryptFields(x, outer,
        if IsNested(doc) then WithData(doc, EncryptFields(x, inner, doc["data"].fields, columns)) else doc, columns)
  }

  ghost predicate GoodNonces(nonces: Nonces) {
    forall k :: |nonces(k)| == NONCE_SIZE
  }

  lemma FieldsRoundTrip(x: Crypto, nonces: Nonces, t: Fields, columns: seq<string>)
    requires Lawful(x) && x.available && x.key.Some? && GoodNonces(nonces) && Distinct(columns)
    ensures DecryptFields(x, EncryptFields(x, nonces, t, columns), columns) == t
  {
    var sealed := EncryptFields(x, nonces, t, columns);
    var plain := DecryptFields(x, sealed, columns);
    forall k ensures Get(plain, k) == Get(t, k) {
      DecryptedFields(x, sealed, columns, k);
      if k in columns && k in t && t[k].Str? { ValueRoundTrip(x, nonces(k), t[k].s); }
    }
    SameMap(plain, t);
  }

  /** With the key at hand, decrypting a document gives back what was encrypted, flat or nested, unless
      its flag says plain text. */
  lemma DocumentRoundTrip(x: Crypto, outer: Nonces, inner: Nonces, doc: Fields, columns: seq<string>)
    requires Lawful(x) && x.available && x.key.Some? && GoodNonces(outer) && GoodNonces(inner)
    requires Distinct(columns) && FlagOf(x, EncryptDocument(x, outer, inner, doc, columns)) == Encrypted
    ensures OpenDocument(x, EncryptDocument(x, outer, inner, doc, columns), columns) == Decrypted(doc)
    ensures DecryptDocument(x, EncryptDocument(x, outer, inner, doc, columns), columns) == Decrypted(doc)
  {
    var sealed := EncryptDocument(x, outer, inner, doc, columns);
    if columns == [] { SealedNothing(x, outer, inner, doc); }
    SealedData(x, outer, inner, doc, columns);
    FieldsRoundTrip(x, outer, doc, columns);
  }

  /** The stored flag asks for decryption: it is absent, null, true or a number other than zero. */
  predicate AsksDecryption(x: Crypto, doc: Fields) {
    "encrypted_yn" in doc ==>
      var v := doc["encrypted_yn"];
      || v.Null? || (v.Bool? && v.b) || (v.Int? && v.n != 0) || (v.Float? && (v.x <= -1.0 || 1.0 <= v.x))
      || (v.Str? && x.integer(v.s).Some? && x.integer(v.s).value != 0)
  }

  /** The stored flag says plain text: it is false or a number that is zero once truncated. */
  predicate SaysPlainText(x: Crypto, doc: Fields) {
    "encrypted_yn" in doc &&
    var v := doc["encrypted_yn"];
    || (v.Bool? && !v.b) || (v.Int? && v.n == 0) || (v.Float? && -1.0 < v.x < 1.0)
    || (v.Str? && x.integer(v.s) == Some(0))
  }

  /** The flag is none of the columns' strings, so that encryption leaves it alone. */
  predicate FlagInClear(doc: Fields, columns: seq<string>) {
    "encrypted_yn" in doc && doc["encrypted_yn"].Str? ==> "encrypted_yn" !in columns
  }

  lemma FlagReads(x: Crypto, doc: Fields)
    ensures FlagOf(x, doc) == Encrypted <==> AsksDecryption(x, doc)
    ensures FlagOf(x, doc) == PlainText <==> SaysPlainText(x, doc)
  {
  }

  lemma FlagSurvives(x: Crypto, outer: Nonces, inner: Nonces, doc: Fields, columns: seq<string>)
    requires x.key.Some? && FlagInClear(doc, columns)
    ensures Get(EncryptDocument(x, outer, inner, doc, columns), "encrypted_yn") == Get(doc, "encrypted_yn")
  {
    assert |"encrypted_yn"| != |"data"|;
  }

  /** Round trip, by the document's own flag: asked for, decryption gives back what was encrypted. */
  lemma FlaggedRoundTrip(x: Crypto, outer: Nonces, inner: Nonces, doc: Fields, columns: seq<string>)
    requires Lawful(x) && x.available && x.key.Some? && GoodNonces(outer) && GoodNonces(inner)
    requires Distinct(columns) && FlagInClear(doc, columns) && AsksDecryption(x, doc)
    ensures DecryptDocument(x, EncryptDocument(x, outer, inner, doc, columns), columns) == Decrypted(doc)
  {
    FlagSurvives(x, outer, inner, doc, columns);
    FlagReads(x, EncryptDocument(x, outer, inner, doc, columns));
    DocumentRoundTrip(x, outer, inner, doc, columns);
  }

  /** A document flagged as plain text is returned as it is, whatever the columns and the key. */
  lemma PlainTextKept(x: Crypto, doc: Fields, columns: seq<string>)
    requires SaysPlainText(x, doc)
    ensures DecryptDocument(x, doc, columns) == Decrypted(doc) && OpenDocument(x, doc, columns) == Decrypted(doc)
  {
    FlagReads(x, doc);
  }

  /** A value that is no ciphertext stays as it is: not Base64, too short, or with a tag that does not verify. */
  lemma ForeignValueKept(x: Crypto, s: string)
    requires x.key.Some? || x.unBase64(s).None? || |x.unBase64(s).value| < 28
    requires x.unBase64(s).Some? && |x.unBase64(s).value| >= 28 ==>
      x.unseal(x.key.value, x.unBase64(s).value[..12], x.unBase64(s).value[12..]).None?
    ensures DecryptValue(x, s) == Some(s)
  {
  }

  lemma SealedNothing(x: Crypto, outer: Nonces, inner: Nonces, doc: Fields)
    requires x.key.Some?
    ensures EncryptDocument(x, outer, inner, doc, []) == doc
  {
    if IsNested(doc) { assert EncryptFields(x, inner, doc["data"].fields, []) == doc["data"].fields; }
  }

  /** Opening the nested part leaves the outer part sealed. */
  lemma SealedData(x: Crypto, outer: Nonces, inner: Nonces, doc: Fields, columns: seq<string>)
    requires Lawful(x) && x.available && x.key.Some? && GoodNonces(inner) && Distinct(columns)
    ensures var sealed := EncryptDocument(x, outer, inner, doc, columns);
      EncryptFields(x, outer, doc, columns)
      == if IsNested(sealed) then WithData(sealed, DecryptFields(x, sealed["data"].fields, columns)) else sealed
  {
    if IsNested(doc) { FieldsRoundTrip(x, inner, doc["data"].fields, columns); }
  }

  /** Fields outside the columns keep their value, whatever the document and the columns. */
  lemma {:induction false} OthersKept(x: Crypto, t: Fields, columns: seq<string>, k: string)
    requires k !in columns
    ensures Get(DecryptFields(x, t, columns), k) == Get(t, k)
  {
    if columns != [] { OthersKept(x, t, columns[..|columns| - 1], k); }
  }

  lemma DocumentOthersKept(x: Crypto, doc: Fields, columns: seq<string>, k: string)
    requires OpenDocument(x, doc, columns).Decrypted? && k !in columns
    ensures var r := OpenDocument(x, doc, columns).doc;
      && (k != "data" ==> Get(r, k) == Get(doc, k))
      && (IsNested(doc) && "data" !in columns ==> IsNested(r) && Get(r["data"].fields, k) == Get(doc["data"].fields, k))
  {
    var result := if IsNested(doc) then WithData(doc, DecryptFields(x, doc["data"].fields, columns)) else doc;
    OthersKept(x, result, columns, k);
    if "data" !in columns { OthersKept(x, result, columns, "data"); }
    if IsNested(doc) { OthersKept(x, doc["data"].fields, columns, k); }
  }

  /** Long enough Base64 to be a ciphertext. */
  predicate LooksEncrypted(x: Crypto, j: Json) {
    IsText(j) && x.unBase64(j.s).Some? && |x.unBase64(j.s).value| >= NONCE_SIZE + TAG_SIZE
  }

  /** Without a key exactly the columns that look encrypted disappear. */
  lemma KeyMissing(x: Crypto, t: Fields, columns: seq<string>)
    requires x.available && x.key.None? && Distinct(columns)
    ensures DecryptFields(x, t, columns) == map k | k in t && !(k in columns && LooksEncrypted(x, t[k])) :: t[k]
  {
    var r := DecryptFields(x, t, columns);
    var kept := map k | k in t && !(k in columns && LooksEncrypted(x, t[k])) :: t[k];
    forall k ensures Get(r, k) == Get(kept, k) { DecryptedFields(x, t, columns, k); }
    SameMap(r, kept);
  }
}
