/** The generated client's `TextClassificationRecordsBulk`: a bulk-upload
    payload with a dataset name, a list of records, optional tags and
    metadata (unset when absent), and an open map of additional properties.

    The nested models (the record, the tags and the metadata) are not part of
    this model: each is given by its own to_dict/from_dict pair, a `Codec`. */
module RecordsBulk {
  import opened Values

  /** The to_dict/from_dict pair of a nested generated model. `fromDict`
      answers None where the nested from_dict would raise. */
  datatype Codec<!T> = Codec(toDict: T -> Dict, fromDict: Json -> Option<T>)

  /** The nested model reads back what it writes. */
  ghost predicate RoundTrips<T(!new)>(c: Codec<T>) {
    forall t :: c.fromDict(JObj(c.toDict(t))) == Some(t)
  }

  /** The three nested models the payload is built from. */
  datatype Models<!R, !T, !M> = Models(record: Codec<R>, tags: Codec<T>, metadata: Codec<M>)

  ghost predicate ModelsRoundTrip<R(!new), T(!new), M(!new)>(m: Models<R, T, M>) {
    RoundTrips(m.record) && RoundTrips(m.tags) && RoundTrips(m.metadata)
  }

  /** The state of one payload. `None` stands for the `UNSET` sentinel. The
      name is annotated `str` but never checked, so it is any value here. */
  datatype Bulk<R, T, M> = Bulk(
    name: Json,
    records: seq<R>,
    tags: Option<T>,
    metadata: Option<M>,
    additionalProperties: Dict)

  /** The keys to_dict writes from the fixed fields and from_dict pops. */
  const Reserved: set<string> := {"name", "records", "tags", "metadata"}

  /** The exceptions from_dict and `__getitem__` raise. */
  datatype BulkError =
    | MissingKey(key: string)     // KeyError
    | NotIterable(key: string)    // TypeError: the value cannot be iterated
    | InvalidNested(key: string)  // a nested from_dict raised

  // ---------------------------------------------------------------------
  // to_dict

  /** The `records` list of to_dict: one nested dict per record, in order. */
  function EncodeRecords<R>(c: Codec<R>, rs: seq<R>): (js: seq<Json>)
    ensures |js| == |rs|
    ensures forall i :: 0 <= i < |rs| ==> js[i] == JObj(c.toDict(rs[i]))
  {
    if rs == [] then [] else [JObj(c.toDict(rs[0]))] + EncodeRecords(c, rs[1..])
  }

  /** What to_dict returns for payload `x`. The additional properties are
      written first, so the fixed fields override them. */
  function Encode<R, T, M>(m: Models<R, T, M>, x: Bulk<R, T, M>): (d: Dict)
    ensures forall k :: k in d <==>
      k in x.additionalProperties || k == "name" || k == "records"
      || (k == "tags" && x.tags.Some?) || (k == "metadata" && x.metadata.Some?)
    ensures d["name"] == x.name
    ensures d["records"].JList? && |d["records"].items| == |x.records|
    ensures forall i :: 0 <= i < |x.records| ==>
      d["records"].items[i] == JObj(m.record.toDict(x.records[i]))
    ensures x.tags.Some? ==> d["tags"] == JObj(m.tags.toDict(x.tags.value))
    ensures x.tags.None? && "tags" in x.additionalProperties ==>
      d["tags"] == x.additionalProperties["tags"]
    ensures x.metadata.Some? ==> d["metadata"] == JObj(m.metadata.toDict(x.metadata.value))
    ensures x.metadata.None? && "metadata" in x.additionalProperties ==>
      d["metadata"] == x.additionalProperties["metadata"]
    ensures forall k :: k in x.additionalProperties && k !in Reserved ==>
      d[k] == x.additionalProperties[k]
  {
    var fixed := x.additionalProperties
      + map["name" := x.name, "records" := JList(EncodeRecords(m.record, x.records))];
    var withTags :=
      if x.tags.Some? then fixed["tags" := JObj(m.tags.toDict(x.tags.value))] else fixed;
    if x.metadata.Some? then withTags["metadata" := JObj(m.metadata.toDict(x.metadata.value))]
    else withTags
  }

  // ---------------------------------------------------------------------
  // from_dict

  /** The records loop of from_dict: the first record that fails to decode
      aborts the whole decode. */
  function DecodeRecords<R>(c: Codec<R>, items: seq<Json>): (r: Option<seq<R>>)
    ensures r.Some? <==> forall i :: 0 <= i < |items| ==> c.fromDict(items[i]).Some?
    ensures r.Some? ==> |r.value| == |items|
    ensures r.Some? ==> forall i :: 0 <= i < |items| ==> c.fromDict(items[i]) == Some(r.value[i])
  {
    if items == [] then Some([])
    else
      match c.fromDict(items[0])
      case None => None
      case Some(x) =>
        match DecodeRecords(c, items[1..])
        case None => None
        case Some(xs) => Some([x] + xs)
  }

  /** `d.pop(key, UNSET)` followed by the nested from_dict unless the value
      is absent or None. */
  function DecodeOptional<T>(c: Codec<T>, src: Dict, key: string): (r: Result<Option<T>, BulkError>)
    ensures key !in src || src[key] == JNull ==> r == Ok(None)
    ensures key in src && src[key] != JNull ==> (r.Err? <==> c.fromDict(src[key]).None?)
    ensures r.Err? ==> r.error == InvalidNested(key)
    ensures r.Ok? && r.value.Some? ==> key in src && c.fromDict(src[key]) == Some(r.value.value)
  {
    if key !in src || src[key] == JNull then Ok(None)
    else
      match c.fromDict(src[key])
      case None => Err(InvalidNested(key))
      case Some(t) => Ok(Some(t))
  }

  /** What from_dict returns (or raises) for `src`. */
  function Decode<R, T, M>(m: Models<R, T, M>, src: Dict): (r: Result<Bulk<R, T, M>, BulkError>)
    ensures "name" !in src ==> r == Err(MissingKey("name"))
    ensures "name" in src && "records" !in src ==> r == Err(MissingKey("records"))
    ensures r.Ok? <==>
      && "name" in src && "records" in src && src["records"].JList?
      && (forall i :: 0 <= i < |src["records"].items| ==> m.record.fromDict(src["records"].items[i]).Some?)
      && ("tags" in src && src["tags"] != JNull ==> m.tags.fromDict(src["tags"]).Some?)
      && ("metadata" in src && src["metadata"] != JNull ==> m.metadata.fromDict(src["metadata"]).Some?)
    ensures r.Ok? ==> r.value.name == src["name"]
    ensures r.Ok? ==> |r.value.records| == |src["records"].items|
    ensures r.Ok? ==> forall i :: 0 <= i < |r.value.records| ==>
      m.record.fromDict(src["records"].items[i]) == Some(r.value.records[i])
    ensures r.Ok? ==> (r.value.tags.None? <==> "tags" !in src || src["tags"] == JNull)
    ensures r.Ok? && r.value.tags.Some? ==> m.tags.fromDict(src["tags"]) == r.value.tags
    ensures r.Ok? ==> (r.value.metadata.None? <==> "metadata" !in src || src["metadata"] == JNull)
    ensures r.Ok? && r.value.metadata.Some? ==> m.metadata.fromDict(src["metadata"]) == r.value.metadata
    ensures r.Ok? ==> forall k :: k in r.value.additionalProperties <==> k in src && k !in Reserved
    ensures r.Ok? ==> forall k :: k in r.value.additionalProperties ==>
      r.value.additionalProperties[k] == src[k]
  {
    if "name" !in src then Err(MissingKey("name"))
    else if "records" !in src then Err(MissingKey("records"))
    else if !src["records"].JList? then Err(NotIterable("records"))
    else
      match DecodeRecords(m.record, src["records"].items)
      case None => Err(InvalidNested("records"))
      case Some(records) =>
        match DecodeOptional(m.tags, src, "tags")
        case Err(e) => Err(e)
        case Ok(tags) =>
          match DecodeOptional(m.metadata, src, "metadata")
          case Err(e) => Err(e)
          case Ok(metadata) => Ok(Bulk(src["name"], records, tags, metadata, src - Reserved))
  }

  // ---------------------------------------------------------------------
  // Round trip

  lemma {:induction false} DecodeEncodeRecords<R(!new)>(c: Codec<R>, rs: seq<R>)
    requires RoundTrips(c)
    ensures DecodeRecords(c, EncodeRecords(c, rs)) == Some(rs)
  {
    if rs != [] {
      DecodeEncodeRecords(c, rs[1..]);
      assert c.fromDict(JObj(c.toDict(rs[0]))) == Some(rs[0]);
      assert EncodeRecords(c, rs)[1..] == EncodeRecords(c, rs[1..]);
      assert [rs[0]] + rs[1..] == rs;
    }
  }

  lemma DecodeEncodeDisjoint<R(!new), T(!new), M(!new)>(m: Models<R, T, M>, x: Bulk<R, T, M>)
    requires ModelsRoundTrip(m)
    requires x.additionalProperties.Keys !! Reserved
    ensures Decode(m, Encode(m, x)) == Ok(x)
  {
    var d := Encode(m, x);
    DecodeEncodeRecords(m.record, x.records);
    assert d["records"] == JList(EncodeRecords(m.record, x.records));
    if x.tags.Some? {
      assert m.tags.fromDict(JObj(m.tags.toDict(x.tags.value))) == Some(x.tags.value);
    }
    assert DecodeOptional(m.tags, d, "tags") == Ok(x.tags);
    if x.metadata.Some? {
      assert m.metadata.fromDict(JObj(m.metadata.toDict(x.metadata.value))) == Some(x.metadata.value);
    }
    assert DecodeOptional(m.metadata, d, "metadata") == Ok(x.metadata);
    assert d - Reserved == x.additionalProperties;
  }

  /** from_dict(to_dict(x)) gives back x exactly when no additional property
      uses one of the four reserved keys (given nested models that round-trip). */
  lemma RoundTrip<R(!new), T(!new), M(!new)>(m: Models<R, T, M>, x: Bulk<R, T, M>)
    requires ModelsRoundTrip(m)
    ensures Decode(m, Encode(m, x)) == Ok(x) <==> x.additionalProperties.Keys !! Reserved
  {
    if x.additionalProperties.Keys !! Reserved {
      DecodeEncodeDisjoint(m, x);
    } else {
      var k :| k in x.additionalProperties.Keys && k in Reserved;
      var r := Decode(m, Encode(m, x));
      if r.Ok? {
        assert k !in r.value.additionalProperties;
      }
    }
  }

  // ---------------------------------------------------------------------
  // The payload object

  class TextClassificationRecordsBulk<R, T, M> {
    var name: Json
    var records: seq<R>
    var tags: Option<T>
    var metadata: Option<M>
    var additionalProperties: Dict

    /** The payload's state as a value. */
    function Value(): Bulk<R, T, M>
      reads this
    {
      Bulk(name, records, tags, metadata, additionalProperties)
    }

    /** The attrs-generated initialiser: additional properties start empty. */
    constructor (name: Json, records: seq<R>, tags: Option<T>, metadata: Option<M>)
      ensures Value() == Bulk(name, records, tags, metadata, map[])
    {
      this.name := name;
      this.records := records;
      this.tags := tags;
      this.metadata := metadata;
      this.additionalProperties := map[];
    }

    method ToDict(m: Models<R, T, M>) returns (d: Dict)
      ensures d == Encode(m, Value())
    {
      var recs: seq<Json> := [];
      for i := 0 to |records|
        invariant |recs| == i
        invariant forall j :: 0 <= j < i ==> recs[j] == JObj(m.record.toDict(records[j]))
      {
        recs := recs + [JObj(m.record.toDict(records[i]))];
      }
      var tagsDict: Option<Dict> := None;
      if tags.Some? {
        tagsDict := Some(m.tags.toDict(tags.value));
      }
      var metadataDict: Option<Dict> := None;
      if metadata.Some? {
        metadataDict := Some(m.metadata.toDict(metadata.value));
      }
      assert recs == EncodeRecords(m.record, records);
      d := map[];
      d := d + additionalProperties;
      assert d == additionalProperties;
      d := d + map["name" := name, "records" := JList(recs)];
      if tagsDict.Some? {
        d := d["tags" := JObj(tagsDict.value)];
      }
      if metadataDict.Some? {
        d := d["metadata" := JObj(metadataDict.value)];
      }
    }

    /** from_dict: works on a copy of `src`, popping the known keys; what is
        left becomes the additional properties. */
    static method FromDict(m: Models<R, T, M>, src: Dict)
      returns (r: Result<TextClassificationRecordsBulk<R, T, M>, BulkError>)
      ensures Decode(m, src).Err? ==> r == Err(Decode(m, src).error)
      ensures Decode(m, src).Ok? ==>
        r.Ok? && fresh(r.value) && r.value.Value() == Decode(m, src).value
    {
      var d := src;
      if "name" !in d {
        return Err(MissingKey("name"));
      }
      var name := d["name"];
      d := d - {"name"};
      if "records" !in d {
        return Err(MissingKey("records"));
      }
      var recordsData := d["records"];
      d := d - {"records"};
      if !recordsData.JList? {
        return Err(NotIterable("records"));
      }
      var records: seq<R> := [];
      for i := 0 to |recordsData.items|
        invariant |records| == i
        invariant forall j :: 0 <= j < i ==> m.record.fromDict(recordsData.items[j]) == Some(records[j])
      {
        var item := m.record.fromDict(recordsData.items[i]);
        if item.None? {
          return Err(InvalidNested("records"));
        }
        records := records + [item.value];
      }
      ghost var decoded := DecodeRecords(m.record, recordsData.items);
      assert decoded.Some?;
      assert |decoded.value| == |records|;
      assert forall j :: 0 <= j < |records| ==> decoded.value[j] == records[j];
      assert decoded.value == records;

      var tags: Option<T> := None;
      var tagsData: Option<Json> := if "tags" in d then Some(d["tags"]) else None;
      d := d - {"tags"};
      if tagsData.Some? && tagsData.value != JNull {
        var t := m.tags.fromDict(tagsData.value);
        if t.None? {
          return Err(InvalidNested("tags"));
        }
        tags := t;
      }

      var metadata: Option<M> := None;
      var metadataData: Option<Json> := if "metadata" in d then Some(d["metadata"]) else None;
      d := d - {"metadata"};
      if metadataData.Some? && metadataData.value != JNull {
        var md := m.metadata.fromDict(metadataData.value);
        if md.None? {
          return Err(InvalidNested("metadata"));
        }
        metadata := md;
      }

      var bulk := new TextClassificationRecordsBulk(name, records, tags, metadata);
      bulk.additionalProperties := d;
      assert d == src - Reserved;
      return Ok(bulk);
    }

    /** `additional_keys`: every additional property key, once each. */
    method AdditionalKeys() returns (keys: seq<string>)
      ensures forall k :: k in keys <==> k in additionalProperties
      ensures forall i, j :: 0 <= i < j < |keys| ==> keys[i] != keys[j]
    {
      keys := [];
      var rest := additionalProperties.Keys;
      while rest != {}
        invariant rest <= additionalProperties.Keys
        invariant forall k :: k in keys <==> k in additionalProperties && k !in rest
        invariant forall i, j :: 0 <= i < j < |keys| ==> keys[i] != keys[j]
        decreases rest
      {
        var k :| k in rest;
        keys := keys + [k];
        rest := rest - {k};
      }
    }

    /** `__getitem__`: the additional property, or KeyError. */
    function GetItem(key: string): (r: Result<Json, BulkError>)
      reads this
      ensures r.Ok? <==> key in additionalProperties
      ensures r.Ok? ==> r.value == additionalProperties[key]
      ensures r.Err? ==> r.error == MissingKey(key)
    {
      if key in additionalProperties then Ok(additionalProperties[key]) else Err(MissingKey(key))
    }

    /** `__contains__`: exactly the keys `__getitem__` answers for. */
    predicate Contains(key: string)
      reads this
      ensures Contains(key) <==> GetItem(key).Ok?
    {
      key in additionalProperties
    }

    /** `__setitem__`. */
    method SetItem(key: string, value: Json)
      modifies this
      ensures additionalProperties == old(additionalProperties)[key := value]
      ensures name == old(name) && records == old(records)
      ensures tags == old(tags) && metadata == old(metadata)
      ensures Contains(key) && GetItem(key) == Ok(value)
    {
      additionalProperties := additionalProperties[key := value];
    }

    /** `__delitem__`: raises KeyError (and changes nothing) when the key is absent. */
    method DelItem(key: string) returns (r: Result<(), BulkError>)
      modifies this
      ensures r.Ok? <==> key in old(additionalProperties)
      ensures r.Err? ==> r.error == MissingKey(key)
      ensures additionalProperties == old(additionalProperties) - {key}
      ensures name == old(name) && records == old(records)
      ensures tags == old(tags) && metadata == old(metadata)
      ensures !Contains(key)
    {
      if key !in additionalProperties {
        return Err(MissingKey(key));
      }
      additionalProperties := additionalProperties - {key};
      return Ok(());
    }
  }
}
