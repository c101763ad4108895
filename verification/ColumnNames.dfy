// apply_column_mapping: wraps mapped columns as {ko, value}, in flat and nested documents.
module ColumnNames {
  import opened Values
  import opened Documents

  predicate IsNamed(mapping: Fields, key: string) {
    key in mapping && Truthy(mapping[key])
  }

  function Wrapper(ko: Json, value: Json): Json {
    Obj(map["ko" := ko, "value" := value])
  }

  /** Named columns are wrapped, unless they already hold an object. */
  function RemapField(mapping: Fields, key: string, value: Json): Json {
    if IsNamed(mapping, key) && !value.Obj? then Wrapper(mapping[key], value) else value
  }

  function Remap(mapping: Fields, t: Fields): Fields {
    map k | k in t :: RemapField(mapping, k, t[k])
  }

  /** Rebuilds a dictionary entry by entry. */
  method RemapEntries(mapping: Fields, target: Fields) returns (result: Fields)
    ensures result == Remap(mapping, target)
  {
    result := map[];
    var todo := target.Keys;
    while todo != {}
      invariant todo <= target.Keys && result.Keys == target.Keys - todo
      invariant forall k :: k in result ==> result[k] == RemapField(mapping, k, target[k])
    {
      var key :| key in todo;
      var value := target[key];
      if IsNamed(mapping, key) && !value.Obj? {
        result := result[key := Wrapper(mapping[key], value)];
      } else {
        result := result[key := value];
      }
      todo := todo - {key};
    }
  }

  /** apply_column_mapping.  "data" is never named itself, and is dropped when it is not an object. */
  function ApplyMapping(doc: Fields, mapping: Fields): Fields {
    if mapping == map[] then doc
    else Remap(mapping, doc - {"data"}) + if IsNested(doc) then map["data" := Obj(Remap(mapping, doc["data"].fields))]
        else map[]
  }

  method ApplyInPlace(doc: Fields, mapping: Fields) returns (result: Fields)
    ensures result == ApplyMapping(doc, mapping)
  {
    if mapping == map[] { return doc; }
    result := RemapEntries(mapping, doc - {"data"});
    if "data" in doc && doc["data"].Obj? {
      var data := RemapEntries(mapping, doc["data"].fields);
      result := result["data" := Obj(data)];
    }
  }

  /** The mapping has a name for the column, and the column's value can be named. */
  predicate Nameable(mapping: Fields, t: Fields, k: string) {
    k in t && k in mapping && Truthy(mapping[k]) && !t[k].Obj?
  }

  /** v holds a name and the original value, and nothing else. */
  predicate IsNamedValue(v: Json, ko: Json, original: Json) {
    && v.Obj? && v.fields.Keys == {"ko", "value"} && v.fields["ko"] == ko && v.fields["value"] == original
  }

  /** Every nameable column carries its name and its original value; every other column is as it was. */
  ghost predicate Names(mapping: Fields, t: Fields, r: Fields) {
    && r.Keys == t.Keys
    && forall k :: k in t ==>
         if Nameable(mapping, t, k) then IsNamedValue(r[k], mapping[k], t[k]) else r[k] == t[k]
  }

  lemma RemapNames(mapping: Fields, t: Fields)
    ensures Names(mapping, t, Remap(mapping, t))
  {
    assert |"ko"| != |"value"|;
  }

  /** What the mapping is for: outside `data` and inside a nested `data`, exactly the nameable columns get
      their names. */
  lemma MappingNames(doc: Fields, mapping: Fields)
    requires mapping != map[]
    ensures var r := ApplyMapping(doc, mapping);
      && Names(mapping, doc - {"data"}, r - {"data"})
      && ("data" in r <==> IsNested(doc))
      && (IsNested(doc) ==> IsNested(r) && Names(mapping, doc["data"].fields, r["data"].fields))
  {
    var r, rest := ApplyMapping(doc, mapping), doc - {"data"};
    RemapNames(mapping, rest);
    assert "data" !in rest;
    assert r - {"data"} == Remap(mapping, rest);
    if IsNested(doc) { RemapNames(mapping, doc["data"].fields); }
  }

  /** A nameable column changes the document. */
  lemma MappingChanges(doc: Fields, mapping: Fields, k: string)
    requires || (k != "data" && Nameable(mapping, doc, k))
             || (IsNested(doc) && Nameable(mapping, doc["data"].fields, k))
    ensures ApplyMapping(doc, mapping) != doc
  {
    var r := ApplyMapping(doc, mapping);
    MappingNames(doc, mapping);
    if k != "data" && Nameable(mapping, doc, k) {
      assert k in doc - {"data"} && (r - {"data"})[k] == r[k];
    }
  }

  lemma MappedAt(doc: Fields, mapping: Fields, k: string)
    requires mapping != map[]
    ensures Get(ApplyMapping(doc, mapping), k) ==
      if k !in doc then None
      else if k != "data" then Some(RemapField(mapping, k, doc[k]))
      else if IsNested(doc) then Some(Obj(Remap(mapping, doc["data"].fields))) else None
  {
  }

  /** Mapping twice is mapping once, on every document. */
  lemma MappingIdempotent(doc: Fields, mapping: Fields)
    ensures ApplyMapping(ApplyMapping(doc, mapping), mapping) == ApplyMapping(doc, mapping)
  {
    var once := ApplyMapping(doc, mapping);
    if mapping != map[] {
      forall k ensures Get(ApplyMapping(once, mapping), k) == Get(once, k) {
        MappedAt(doc, mapping, k);
        MappedAt(once, mapping, k);
        if k == "data" && IsNested(doc) { RemapTwice(mapping, doc["data"].fields); }
      }
      SameMap(ApplyMapping(once, mapping), once);
    }
  }

  lemma RemapTwice(mapping: Fields, t: Fields)
    ensures Remap(mapping, Remap(mapping, t)) == Remap(mapping, t)
  {
  }

  /** The value inside a wrapper that the mapping could have made. */
  function EraseField(mapping: Fields, key: string, value: Json): Json {
    if IsNamed(mapping, key) && value.Obj? && "value" in value.fields then value.fields["value"] else value
  }

  function EraseFields(mapping: Fields, t: Fields): Fields {
    map k | k in t :: EraseField(mapping, k, t[k])
  }

  function Erase(doc: Fields, mapping: Fields): Fields {
    map k | k in doc :: if k != "data" then EraseField(mapping, k, doc[k])
      else if doc[k].Obj? then Obj(EraseFields(mapping, doc[k].fields)) else doc[k]
  }

  /** No named column holds an object. */
  predicate FlatLeaves(mapping: Fields, t: Fields) {
    forall k :: k in t && IsNamed(mapping, k) ==> !t[k].Obj?
  }

  lemma EraseRemap(mapping: Fields, t: Fields)
    requires FlatLeaves(mapping, t)
    ensures EraseFields(mapping, Remap(mapping, t)) == t
  {
    forall k | k in t ensures EraseField(mapping, k, RemapField(mapping, k, t[k])) == t[k] {
      WrapperHolds(mapping, k, t[k]);
    }
  }

  lemma WrapperHolds(mapping: Fields, k: string, v: Json)
    requires IsNamed(mapping, k) ==> !v.Obj?
    ensures EraseField(mapping, k, RemapField(mapping, k, v)) == v
  {
    assert |"ko"| != |"value"|;
  }

  /** Erasing the wrappers gives the document back exactly when `data`, if present, is an object. */
  lemma MappingErases(doc: Fields, mapping: Fields)
    requires mapping != map[] && FlatLeaves(mapping, doc - {"data"})
    requires IsNested(doc) ==> FlatLeaves(mapping, doc["data"].fields)
    ensures Erase(ApplyMapping(doc, mapping), mapping) == doc <==> ("data" in doc ==> doc["data"].Obj?)
  {
    var mapped := ApplyMapping(doc, mapping);
    MappedAt(doc, mapping, "data");
    if "data" in doc ==> doc["data"].Obj? {
      forall k ensures Get(Erase(mapped, mapping), k) == Get(doc, k) {
        MappedAt(doc, mapping, k);
        if k in doc && k != "data" {
          assert k in doc - {"data"};
          WrapperHolds(mapping, k, doc[k]);
        }
        if IsNested(doc) { EraseRemap(mapping, doc["data"].fields); }
      }
      SameMap(Erase(mapped, mapping), doc);
    } else {
      assert "data" !in Erase(mapped, mapping);
    }
  }
}
