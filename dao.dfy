/** The dataset records DAO of the Rubrix server: the index-template
    extension registry, the template merge done at start-up, the documents and
    metadata built when records are added, the nested-metadata mappings, the
    search query built for a page of records and the conversion of a search hit
    back into a record.

    Elasticsearch is not part of this model. Every call the DAO makes on it is
    appended to a ghost log, `requests`, and whatever Elasticsearch answers is
    a parameter of the method that receives it. */
module Dao {
  import opened Values

  /** The exceptions the modelled code raises. */
  datatype DaoError =
    | IndexError                // `v[0]` on an empty list
    | KeyError(key: string)     // a missing dict key
    | TypeError(key: string)    // `**` applied to a value that is not a dict

  // ---------------------------------------------------------------------
  // dict.update

  /** `m` after `m.update(u)` for each `u` of `ups`, in order. */
  function UpdateAll(m: Dict, ups: seq<Dict>): (r: Dict)
    ensures forall k :: k in r <==> k in m || exists i :: 0 <= i < |ups| && k in ups[i]
  {
    if ups == [] then m else UpdateAll(m, ups[..|ups| - 1]) + ups[|ups| - 1]
  }

  lemma UpdateAllPrefix(m: Dict, ups: seq<Dict>, i: int)
    requires 0 <= i < |ups|
    ensures UpdateAll(m, ups[..i + 1]) == UpdateAll(m, ups[..i]) + ups[i]
  {
    assert ups[..i + 1][..i] == ups[..i];
  }

  /** The index of the last map of `ups` that has key `k`, or -1. */
  function LastWith(ups: seq<Dict>, k: string): (i: int)
    ensures -1 <= i < |ups|
    ensures i >= 0 ==> k in ups[i]
    ensures forall j :: i < j < |ups| ==> k !in ups[j]
  {
    if ups == [] then -1
    else if k in ups[|ups| - 1] then |ups| - 1
    else LastWith(ups[..|ups| - 1], k)
  }

  /** After a run of updates, a key holds the value of the last update that
      mentions it, and a key no update mentions keeps its first value. */
  lemma {:induction false} UpdateAllAt(m: Dict, ups: seq<Dict>, k: string)
    ensures k in UpdateAll(m, ups) <==> k in m || LastWith(ups, k) >= 0
    ensures LastWith(ups, k) >= 0 ==> UpdateAll(m, ups)[k] == ups[LastWith(ups, k)][k]
    ensures LastWith(ups, k) < 0 && k in m ==> UpdateAll(m, ups)[k] == m[k]
  {
    if ups != [] {
      var init := ups[..|ups| - 1];
      UpdateAllAt(m, init, k);
      if k !in ups[|ups| - 1] {
        assert LastWith(ups, k) == LastWith(init, k);
        if LastWith(init, k) >= 0 {
          assert init[LastWith(init, k)] == ups[LastWith(init, k)];
        }
      }
    }
  }

  /** Applying the same run of updates twice gives what applying it once
      gives. */
  lemma UpdateAllIdempotent(m: Dict, ups: seq<Dict>)
    ensures UpdateAll(UpdateAll(m, ups), ups) == UpdateAll(m, ups)
  {
    var once := UpdateAll(m, ups);
    var twice := UpdateAll(once, ups);
    forall k | k in twice
      ensures k in once && twice[k] == once[k]
    {
      UpdateAllAt(m, ups, k);
      UpdateAllAt(once, ups, k);
    }
    forall k | k in once
      ensures k in twice
    {
      UpdateAllAt(once, ups, k);
    }
  }

  // ---------------------------------------------------------------------
  // Index template extensions

  /** The parts of the records index template that `init` changes:
      `settings.analysis.analyzer`, `mappings.dynamic_templates` and
      `mappings.properties`. Everything else is carried in `rest`. */
  datatype IndexTemplate = IndexTemplate(
    analyzers: Dict,
    dynamicTemplates: seq<Dict>,
    properties: Dict,
    rest: Dict)

  /** The module-level `_extensions` registry. */
  class IndexTemplateExtensions {
    var analyzers: seq<Dict>
    var properties: seq<Dict>
    var dynamicTemplates: seq<Dict>

    constructor ()
      ensures analyzers == [] && properties == [] && dynamicTemplates == []
    {
      analyzers, properties, dynamicTemplates := [], [], [];
    }
  }

  /** `extends_index_properties`: registers one properties dict, after the
      earlier ones. */
  method ExtendsIndexProperties(extensions: IndexTemplateExtensions, extendedProperties: Dict)
    modifies extensions
    ensures extensions.properties == old(extensions.properties) + [extendedProperties]
    ensures extensions.analyzers == old(extensions.analyzers)
    ensures extensions.dynamicTemplates == old(extensions.dynamicTemplates)
  {
    extensions.properties := extensions.properties + [extendedProperties];
  }

  /** `extends_index_dynamic_templates`: registers the given templates, in
      argument order, after the earlier ones. */
  method ExtendsIndexDynamicTemplates(extensions: IndexTemplateExtensions, templates: seq<Dict>)
    modifies extensions
    ensures extensions.dynamicTemplates == old(extensions.dynamicTemplates) + templates
    ensures extensions.analyzers == old(extensions.analyzers)
    ensures extensions.properties == old(extensions.properties)
  {
    extensions.dynamicTemplates := extensions.dynamicTemplates + templates;
  }

  /** `extends_index_analyzers`: registers one analyzers dict, after the
      earlier ones. */
  method ExtendsIndexAnalyzers(extensions: IndexTemplateExtensions, analyzers: Dict)
    modifies extensions
    ensures extensions.analyzers == old(extensions.analyzers) + [analyzers]
    ensures extensions.properties == old(extensions.properties)
    ensures extensions.dynamicTemplates == old(extensions.dynamicTemplates)
  {
    extensions.analyzers := extensions.analyzers + [analyzers];
  }

  /** The template `init` sends: `base` with the registered analyzers and
      properties applied as dict updates and the registered dynamic templates
      appended. */
  function ExtendedTemplate(base: IndexTemplate, analyzers: seq<Dict>, dynamicTemplates: seq<Dict>,
                            properties: seq<Dict>): (t: IndexTemplate)
    ensures t.rest == base.rest
    ensures |t.dynamicTemplates| == |base.dynamicTemplates| + |dynamicTemplates|
    ensures forall k :: k in t.analyzers <==>
      k in base.analyzers || exists i :: 0 <= i < |analyzers| && k in analyzers[i]
    ensures forall k :: k in t.properties <==>
      k in base.properties || exists i :: 0 <= i < |properties| && k in properties[i]
  {
    IndexTemplate(
      UpdateAll(base.analyzers, analyzers),
      base.dynamicTemplates + dynamicTemplates,
      UpdateAll(base.properties, properties),
      base.rest)
  }

  /** A later registration wins a key clash, a key no registration mentions
      keeps the base template's value, and dynamic templates follow the base
      ones in registration order. */
  lemma ExtendedTemplateLaterWins(base: IndexTemplate, analyzers: seq<Dict>, dynamicTemplates: seq<Dict>,
                                  properties: seq<Dict>, k: string)
    ensures var t := ExtendedTemplate(base, analyzers, dynamicTemplates, properties);
      && (LastWith(analyzers, k) >= 0 ==> t.analyzers[k] == analyzers[LastWith(analyzers, k)][k])
      && (LastWith(analyzers, k) < 0 && k in base.analyzers ==> t.analyzers[k] == base.analyzers[k])
      && (LastWith(properties, k) >= 0 ==> t.properties[k] == properties[LastWith(properties, k)][k])
      && (LastWith(properties, k) < 0 && k in base.properties ==> t.properties[k] == base.properties[k])
      && t.dynamicTemplates[..|base.dynamicTemplates|] == base.dynamicTemplates
      && t.dynamicTemplates[|base.dynamicTemplates|..] == dynamicTemplates
  {
    UpdateAllAt(base.analyzers, analyzers, k);
    UpdateAllAt(base.properties, properties, k);
  }

  /** Extending a template that was already extended with the same
      registrations leaves the analyzers and properties as they were but
      appends the dynamic templates a second time. */
  lemma ExtendTwiceRepeatsDynamicTemplates(base: IndexTemplate, analyzers: seq<Dict>,
                                           dynamicTemplates: seq<Dict>, properties: seq<Dict>)
    requires dynamicTemplates != []
    ensures var once := ExtendedTemplate(base, analyzers, dynamicTemplates, properties);
      var twice := ExtendedTemplate(once, analyzers, dynamicTemplates, properties);
      && twice.analyzers == once.analyzers
      && twice.properties == once.properties
      && twice.dynamicTemplates == base.dynamicTemplates + dynamicTemplates + dynamicTemplates
      && twice != once
  {
    UpdateAllIdempotent(base.analyzers, analyzers);
    UpdateAllIdempotent(base.properties, properties);
  }

  /** One of the update loops of `init`: `m.update(u)` for each registered
      `u`, in registration order. */
  method ApplyUpdates(m: Dict, ups: seq<Dict>) returns (r: Dict)
    ensures r == UpdateAll(m, ups)
  {
    r := m;
    for i := 0 to |ups|
      invariant r == UpdateAll(m, ups[..i])
    {
      UpdateAllPrefix(m, ups, i);
      r := r + ups[i];
    }
    assert ups[..|ups|] == ups;
  }

  /** The dynamic-template loop of `init`: `append` of each registered
      template, in registration order. */
  method AppendAll(s: seq<Dict>, items: seq<Dict>) returns (r: seq<Dict>)
    ensures r == s + items
  {
    r := s;
    for i := 0 to |items|
      invariant r == s + items[..i]
    {
      assert items[..i + 1] == items[..i] + [items[i]];
      r := r + [items[i]];
    }
    assert items[..|items|] == items;
  }

  /** The module-level `DATASETS_RECORDS_INDEX_TEMPLATE` constant. The
      shallow `copy()` in `init` shares its nested analyzer dict,
      dynamic-template list and properties dict with the copy. */
  class SharedIndexTemplate {
    var value: IndexTemplate

    constructor (value: IndexTemplate)
      ensures this.value == value
    {
      this.value := value;
    }
  }

  // ---------------------------------------------------------------------
  // Elasticsearch requests

  /** The body of a records search. Keys: `_source.excludes`, `size`, `from`,
      `query`, `sort`, `aggs`. */
  datatype EsQuery = EsQuery(
    excludes: seq<string>,
    size: int,
    from: int,
    query: Dict,
    sort: seq<Json>,
    aggs: Dict)

  /** A call on the Elasticsearch wrapper. */
  datatype EsRequest =
    | CreateIndexTemplate(name: string, template: IndexTemplate, forceRecreate: bool)
    | CreateIndex(index: string)
    | CreateFieldMapping(index: string, fieldName: string, fieldType: string, includeInRoot: bool)
    | AddDocuments(index: string, documents: seq<Dict>)
    | GetFieldMapping(index: string, fieldName: string)
    | Search(index: string, query: EsQuery, size: int)

  /** The mapping `_configure_metadata_fields` requests for a nested field. */
  function NestedMapping(index: string, field: string): EsRequest {
    CreateFieldMapping(index, "metadata." + field, "nested", true)
  }

  lemma NestedMappingInjective(index: string, f: string, g: string)
    requires NestedMapping(index, f) == NestedMapping(index, g)
    ensures f == g
  {
    assert ("metadata." + f)[9..] == f;
    assert ("metadata." + g)[9..] == g;
  }

  // ---------------------------------------------------------------------
  // Records: documents, metadata, nested fields

  /** What add_records reads of a record: its metadata. The rest of the record
      is only passed to the record class. */
  datatype BaseRecord = BaseRecord(metadata: Option<Dict>, data: Dict)

  /** The target record class: whether its schema has a `last_updated`
      property, and `parse_obj` followed by `.dict(exclude_none=False)`. */
  datatype RecordClass = RecordClass(hasLastUpdated: bool, toDocument: BaseRecord -> Dict)

  /** `r.metadata or {}`. */
  function RecordMetadata(r: BaseRecord): Dict {
    r.metadata.GetOr(map[])
  }

  function MetadataList(rs: seq<BaseRecord>): (ms: seq<Dict>)
    ensures |ms| == |rs|
    ensures forall i :: 0 <= i < |rs| ==> ms[i] == RecordMetadata(rs[i])
  {
    if rs == [] then [] else MetadataList(rs[..|rs| - 1]) + [RecordMetadata(rs[|rs| - 1])]
  }

  /** The metadata values add_records collects: every record's metadata
      applied in turn as a dict update. */
  function CollectedMetadata(rs: seq<BaseRecord>): (r: Dict)
    ensures forall k :: k in r <==> exists i :: 0 <= i < |rs| && k in RecordMetadata(rs[i])
  {
    UpdateAll(map[], MetadataList(rs))
  }

  /** A collected metadata key is one some record has, and it holds the value
      of the last record that has it. */
  lemma CollectedMetadataAt(rs: seq<BaseRecord>, k: string)
    ensures k in CollectedMetadata(rs) <==> exists i :: 0 <= i < |rs| && k in RecordMetadata(rs[i])
    ensures k in CollectedMetadata(rs) ==>
      exists i :: 0 <= i < |rs| && k in RecordMetadata(rs[i])
        && CollectedMetadata(rs)[k] == RecordMetadata(rs[i])[k]
        && forall j :: i < j < |rs| ==> k !in RecordMetadata(rs[j])
  {
    var ms := MetadataList(rs);
    UpdateAllAt(map[], ms, k);
    if k in CollectedMetadata(rs) {
      var i := LastWith(ms, k);
      assert k in RecordMetadata(rs[i]);
    }
  }

  /** The document add_records indexes for one record. */
  function BuildDocument(cls: RecordClass, r: BaseRecord, now: Json): (doc: Dict)
    ensures cls.hasLastUpdated ==> "last_updated" in doc && doc["last_updated"] == now
    ensures !cls.hasLastUpdated ==> doc == cls.toDocument(r)
    ensures forall k :: k != "last_updated" ==>
      (k in doc <==> k in cls.toDocument(r)) && (k in doc ==> doc[k] == cls.toDocument(r)[k])
  {
    if cls.hasLastUpdated then cls.toDocument(r)["last_updated" := now] else cls.toDocument(r)
  }

  /** The loop of add_records: one document per record, in order, all sharing
      the one timestamp `now`, and the metadata values of all records. */
  method CollectDocuments(cls: RecordClass, records: seq<BaseRecord>, now: Json)
    returns (documents: seq<Dict>, metadataValues: Dict)
    ensures |documents| == |records|
    ensures forall i :: 0 <= i < |records| ==> documents[i] == BuildDocument(cls, records[i], now)
    ensures cls.hasLastUpdated ==>
      forall i :: 0 <= i < |documents| ==> "last_updated" in documents[i] && documents[i]["last_updated"] == now
    ensures metadataValues == CollectedMetadata(records)
  {
    documents := [];
    metadataValues := map[];
    ghost var ms := MetadataList(records);
    for i := 0 to |records|
      invariant |documents| == i
      invariant forall j :: 0 <= j < i ==> documents[j] == BuildDocument(cls, records[j], now)
      invariant metadataValues == UpdateAll(map[], ms[..i])
    {
      UpdateAllPrefix(map[], ms, i);
      metadataValues := metadataValues + RecordMetadata(records[i]);
      var document := cls.toDocument(records[i]);
      if cls.hasLastUpdated {
        document := document["last_updated" := now];
      }
      assert document == BuildDocument(cls, records[i], now);
      documents := documents + [document];
    }
    assert ms[..|records|] == ms;
  }

  /** `detect_nested_type`: a list whose first element is a dict. The empty
      list raises IndexError. */
  function DetectNestedType(v: Json): (r: Result<bool, DaoError>)
    ensures r.Err? <==> v == JList([])
    ensures r.Err? ==> r.error == IndexError
    ensures r == Ok(true) <==> v.JList? && |v.items| > 0 && v.items[0].JObj?
  {
    match v
    case JList(items) => if |items| == 0 then Err(IndexError) else Ok(items[0].JObj?)
    case _ => Ok(false)
  }

  predicate IsNested(v: Json) {
    DetectNestedType(v) == Ok(true)
  }

  /** No metadata value is the empty list, so nested detection cannot raise. */
  predicate NoEmptyList(metadataValues: Dict) {
    forall f :: f in metadataValues ==> metadataValues[f] != JList([])
  }

  /** Every request of `added` is the nested mapping of a nested field, and
      none is repeated. */
  ghost predicate OnlyNestedMappings(index: string, metadataValues: Dict, added: seq<EsRequest>) {
    && (forall q :: q in added ==>
         exists f :: f in metadataValues && IsNested(metadataValues[f]) && q == NestedMapping(index, f))
    && (forall i, j :: 0 <= i < j < |added| ==> added[i] != added[j])
  }

  /** Every nested field has its nested mapping in `added`. */
  ghost predicate AllNestedMappings(index: string, metadataValues: Dict, added: seq<EsRequest>) {
    forall f :: f in metadataValues && IsNested(metadataValues[f]) ==> NestedMapping(index, f) in added
  }

  // ---------------------------------------------------------------------
  // Search

  /** The search parameters `search_records` reads. */
  datatype RecordSearch = RecordSearch(
    query: Option<Dict>,
    sort: Option<seq<Json>>,
    aggregations: Option<Dict>,
    includeDefaultAggregations: bool)

  const MatchAll: Dict := map["match_all" := JObj(map[])]
  const IdAscending: seq<Json> := [JObj(map["_id" := JObj(map["order" := JStr("asc")])])]

  /** Python's `d or default` on an optional dict: None and `{}` fall back. */
  function DictOr(d: Option<Dict>, default: Dict): Dict {
    if d.Some? && d.value != map[] then d.value else default
  }

  /** Python's `s or default` on an optional list: None and `[]` fall back. */
  function SeqOr<X>(s: Option<seq<X>>, default: seq<X>): seq<X> {
    if s.Some? && s.value != [] then s.value else default
  }

  /** Whether `search_records` asks for the default aggregations (and so
      reads the metadata field mapping). */
  predicate NeedsDefaultAggregations(search: RecordSearch, recordFrom: int) {
    recordFrom == 0 && search.includeDefaultAggregations
  }

  /** The `aggs` of the query: only on the first page, the user's
      aggregations updated with the defaults when those are asked for. */
  function AggregationRequests(search: RecordSearch, recordFrom: int, defaults: Dict): (a: Dict)
    ensures recordFrom != 0 ==> a == map[]
    ensures recordFrom == 0 ==> forall k :: k in a <==>
      (search.aggregations.Some? && k in search.aggregations.value)
      || (search.includeDefaultAggregations && k in defaults)
    ensures NeedsDefaultAggregations(search, recordFrom) ==>
      forall k :: k in defaults ==> a[k] == defaults[k]
    ensures recordFrom == 0 && search.aggregations.Some? ==>
      forall k :: k in search.aggregations.value && !(search.includeDefaultAggregations && k in defaults) ==>
        a[k] == search.aggregations.value[k]
  {
    if recordFrom != 0 then map[]
    else if search.includeDefaultAggregations then DictOr(search.aggregations, map[]) + defaults
    else DictOr(search.aggregations, map[])
  }

  /** The query `search_records` sends. `defaults` is the union of the
      default aggregation builders' outputs. */
  function BuildQuery(search: RecordSearch, size: int, recordFrom: int, excludeFields: Option<seq<string>>,
                      defaults: Dict): (q: EsQuery)
    ensures q.size == size && q.from == recordFrom
    ensures excludeFields.None? ==> q.excludes == []
    ensures excludeFields.Some? ==> q.excludes == excludeFields.value
    ensures search.query.None? || search.query == Some(map[]) ==> q.query == MatchAll
    ensures search.query.Some? && search.query.value != map[] ==> q.query == search.query.value
    ensures search.sort.None? || search.sort == Some([]) ==> q.sort == IdAscending
    ensures search.sort.Some? && search.sort.value != [] ==> q.sort == search.sort.value
    ensures recordFrom != 0 ==> q.aggs == map[]
    ensures recordFrom == 0 ==> forall k :: k in q.aggs <==>
      (search.aggregations.Some? && k in search.aggregations.value)
      || (search.includeDefaultAggregations && k in defaults)
    ensures NeedsDefaultAggregations(search, recordFrom) ==>
      forall k :: k in defaults ==> q.aggs[k] == defaults[k]
    ensures recordFrom == 0 && search.aggregations.Some? ==>
      forall k :: k in search.aggregations.value && !(search.includeDefaultAggregations && k in defaults) ==>
        q.aggs[k] == search.aggregations.value[k]
  {
    EsQuery(
      SeqOr(excludeFields, []),
      size,
      recordFrom,
      DictOr(search.query, MatchAll),
      SeqOr(search.sort, IdAscending),
      AggregationRequests(search, recordFrom, defaults))
  }

  /** `esdoc2record`: the hit's `_source` with `id` set to the hit's `_id`. */
  function EsDocToRecord(doc: Dict): (r: Result<Dict, DaoError>)
    ensures "_source" !in doc ==> r == Err(KeyError("_source"))
    ensures "_source" in doc && !doc["_source"].JObj? ==> r == Err(TypeError("_source"))
    ensures "_source" in doc && doc["_source"].JObj? && "_id" !in doc ==> r == Err(KeyError("_id"))
    ensures r.Ok? <==> "_source" in doc && doc["_source"].JObj? && "_id" in doc
    ensures r.Ok? ==> forall k :: k in r.value <==> k == "id" || k in doc["_source"].fields
    ensures r.Ok? ==> r.value["id"] == doc["_id"]
    ensures r.Ok? ==> forall k :: k in doc["_source"].fields && k != "id" ==>
      r.value[k] == doc["_source"].fields[k]
  {
    if "_source" !in doc then Err(KeyError("_source"))
    else if !doc["_source"].JObj? then Err(TypeError("_source"))
    else if "_id" !in doc then Err(KeyError("_id"))
    else Ok(doc["_source"].fields["id" := doc["_id"]])
  }

  /** `list(map(self.esdoc2record, docs))`: the first hit that fails aborts. */
  function EsDocsToRecords(docs: seq<Dict>): (r: Result<seq<Dict>, DaoError>)
    ensures r.Ok? <==> forall i :: 0 <= i < |docs| ==> EsDocToRecord(docs[i]).Ok?
    ensures r.Ok? ==> |r.value| == |docs|
    ensures r.Ok? ==> forall i :: 0 <= i < |docs| ==> EsDocToRecord(docs[i]) == Ok(r.value[i])
    ensures r.Err? ==>
      exists i :: 0 <= i < |docs| && EsDocToRecord(docs[i]) == Err(r.error)
                  && (forall j :: 0 <= j < i ==> EsDocToRecord(docs[j]).Ok?)
  {
    if docs == [] then Ok([])
    else
      match EsDocToRecord(docs[0])
      case Err(e) => Err(e)
      case Ok(record) =>
        match EsDocsToRecords(docs[1..])
        case Err(e) =>
          assert forall j :: 0 <= j < |docs| - 1 ==> docs[1..][j] == docs[j + 1];
          Err(e)
        case Ok(records) => Ok([record] + records)
  }

  /** What Elasticsearch answered to the search: `hits.total`, `hits.hits`
      and `aggregations` (None when the key is absent). */
  datatype EsSearchResponse = EsSearchResponse(total: Json, hits: seq<Dict>, aggregations: Option<Dict>)

  /** The search result. A None field is left at the result model's default. */
  datatype RecordSearchResults = RecordSearchResults(
    total: Json,
    records: seq<Dict>,
    words: Option<Json>,
    metadata: Option<Json>,
    aggregations: Option<Dict>)

  /** The result `search_records` returns for a response. `parse` stands for
      `parse_aggregations` followed by `unflatten_dict`. */
  function SearchResults(response: EsSearchResponse, parse: Dict -> Dict): (r: Result<RecordSearchResults, DaoError>)
    ensures r.Ok? <==> EsDocsToRecords(response.hits).Ok?
    ensures r.Ok? ==> r.value.total == response.total
    ensures r.Ok? ==> |r.value.records| == |response.hits|
    ensures r.Ok? ==> forall i :: 0 <= i < |response.hits| ==>
      EsDocToRecord(response.hits[i]) == Ok(r.value.records[i])
    ensures r.Ok? ==> (r.value.aggregations.Some? <==>
      response.aggregations.Some? && response.aggregations.value != map[])
    ensures r.Ok? && r.value.aggregations.Some? ==>
      var parsed := parse(response.aggregations.value);
      && r.value.words == Some(if "words" in parsed then parsed["words"] else JObj(map[]))
      && r.value.metadata == Some(if "metadata" in parsed then parsed["metadata"] else JObj(map[]))
      && (forall k :: k in r.value.aggregations.value <==> k in parsed && k != "words" && k != "metadata")
      && (forall k :: k in r.value.aggregations.value ==> r.value.aggregations.value[k] == parsed[k])
    ensures r.Ok? && r.value.aggregations.None? ==> r.value.words.None? && r.value.metadata.None?
  {
    match EsDocsToRecords(response.hits)
    case Err(e) => Err(e)
    case Ok(records) =>
      var aggs := response.aggregations.GetOr(map[]);
      if aggs == map[] then Ok(RecordSearchResults(response.total, records, None, None, None))
      else
        var parsed := parse(aggs);
        var words := if "words" in parsed then parsed["words"] else JObj(map[]);
        var metadata := if "metadata" in parsed then parsed["metadata"] else JObj(map[]);
        Ok(RecordSearchResults(response.total, records, Some(words), Some(metadata),
                               Some(parsed - {"words", "metadata"})))
  }

  // ---------------------------------------------------------------------
  // The DAO

  class DatasetRecordsDAO {
    /** The Elasticsearch calls this DAO has made, oldest first. */
    ghost var requests: seq<EsRequest>

    /** `__init__`: runs `init` once. */
    constructor (base: IndexTemplate, extensions: IndexTemplateExtensions, templateName: string,
                 disableTemplateCreation: bool)
      ensures requests == [CreateIndexTemplate(templateName,
        ExtendedTemplate(base, extensions.analyzers, extensions.dynamicTemplates, extensions.properties),
        !disableTemplateCreation)]
    {
      requests := [];
      new;
      Init(base, extensions, templateName, disableTemplateCreation);
    }

    /** `init`, on a deep copy of the base template: the base is not changed,
        so every call sends the same template for the same registrations. */
    method Init(base: IndexTemplate, extensions: IndexTemplateExtensions, templateName: string,
                disableTemplateCreation: bool)
      modifies this
      ensures requests == old(requests) + [CreateIndexTemplate(templateName,
        ExtendedTemplate(base, extensions.analyzers, extensions.dynamicTemplates, extensions.properties),
        !disableTemplateCreation)]
    {
      var analyzers := ApplyUpdates(base.analyzers, extensions.analyzers);
      var dynamicTemplates := AppendAll(base.dynamicTemplates, extensions.dynamicTemplates);
      var properties := ApplyUpdates(base.properties, extensions.properties);
      var template := IndexTemplate(analyzers, dynamicTemplates, properties, base.rest);
      requests := requests + [CreateIndexTemplate(templateName, template, !disableTemplateCreation)];
    }

    /** `init` as written: the shallow copy shares the nested dicts and list
        of the module-level template, so the updates land in it too. */
    method InitAsWritten(shared: SharedIndexTemplate, extensions: IndexTemplateExtensions,
                         templateName: string, disableTemplateCreation: bool)
      modifies this, shared
      ensures shared.value == ExtendedTemplate(old(shared.value), extensions.analyzers,
        extensions.dynamicTemplates, extensions.properties)
      ensures requests == old(requests) + [CreateIndexTemplate(templateName, shared.value, !disableTemplateCreation)]
    {
      var analyzers := ApplyUpdates(shared.value.analyzers, extensions.analyzers);
      shared.value := shared.value.(analyzers := analyzers);
      var dynamicTemplates := AppendAll(shared.value.dynamicTemplates, extensions.dynamicTemplates);
      shared.value := shared.value.(dynamicTemplates := dynamicTemplates);
      var properties := ApplyUpdates(shared.value.properties, extensions.properties);
      shared.value := shared.value.(properties := properties);
      requests := requests + [CreateIndexTemplate(templateName, shared.value, !disableTemplateCreation)];
    }

    /** `_configure_metadata_fields`: one nested mapping request per field
        whose value is a list of dicts; a field holding `[]` raises
        IndexError. Fields are visited in an order the model leaves open.
        `added` is the requests made. */
    method ConfigureMetadataFields(index: string, metadataValues: Dict)
      returns (r: Result<(), DaoError>, ghost added: seq<EsRequest>)
      modifies this
      ensures requests == old(requests) + added
      ensures r.Ok? <==> NoEmptyList(metadataValues)
      ensures r.Err? ==> r.error == IndexError
      ensures OnlyNestedMappings(index, metadataValues, added)
      ensures r.Ok? ==> AllNestedMappings(index, metadataValues, added)
    {
      added := [];
      var rest := metadataValues.Keys;
      while rest != {}
        invariant rest <= metadataValues.Keys
        invariant requests == old(requests) + added
        invariant forall f :: f in metadataValues && f !in rest ==> metadataValues[f] != JList([])
        invariant forall q :: q in added ==>
          exists f :: f in metadataValues && f !in rest && IsNested(metadataValues[f]) && q == NestedMapping(index, f)
        invariant forall f :: f in metadataValues && f !in rest && IsNested(metadataValues[f]) ==>
          NestedMapping(index, f) in added
        invariant forall i, j :: 0 <= i < j < |added| ==> added[i] != added[j]
        decreases rest
      {
        var field :| field in rest;
        var nested := DetectNestedType(metadataValues[field]);
        if nested.Err? {
          return Err(IndexError), added;
        }
        if nested.value {
          forall q | q in added
            ensures q != NestedMapping(index, field)
          {
            var f :| f in metadataValues && f !in rest && IsNested(metadataValues[f]) && q == NestedMapping(index, f);
            if q == NestedMapping(index, field) {
              NestedMappingInjective(index, f, field);
            }
          }
          assert NestedMapping(index, field) !in added;
          added := added + [NestedMapping(index, field)];
          requests := requests + [NestedMapping(index, field)];
        }
        rest := rest - {field};
      }
      return Ok(()), added;
    }

    /** `add_records` on the records index `index`. `now` is the clock
        reading and `failed` what Elasticsearch reports for the bulk insert.
        `mappings` is the requests the metadata configuration made. */
    method AddRecords(index: string, cls: RecordClass, records: seq<BaseRecord>, now: Json, failed: int)
      returns (r: Result<int, DaoError>, ghost mappings: seq<EsRequest>)
      modifies this
      ensures r.Ok? <==> NoEmptyList(CollectedMetadata(records))
      ensures r.Err? ==> r.error == IndexError
      ensures r.Ok? ==> r.value == failed
      ensures OnlyNestedMappings(index, CollectedMetadata(records), mappings)
      ensures r.Ok? ==> AllNestedMappings(index, CollectedMetadata(records), mappings)
      ensures r.Err? ==> requests == old(requests) + [CreateIndex(index)] + mappings
      ensures r.Ok? ==>
        requests == old(requests) + [CreateIndex(index)] + mappings + [AddDocuments(index,
          seq(|records|, i requires 0 <= i < |records| => BuildDocument(cls, records[i], now)))]
    {
      var documents, metadataValues := CollectDocuments(cls, records, now);
      requests := requests + [CreateIndex(index)];
      var configured;
      configured, mappings := ConfigureMetadataFields(index, metadataValues);
      if configured.Err? {
        return Err(configured.error), mappings;
      }
      assert documents == seq(|records|, i requires 0 <= i < |records| => BuildDocument(cls, records[i], now));
      requests := requests + [AddDocuments(index, documents)];
      return Ok(failed), mappings;
    }

    /** `search_records` on the records index `index`. `defaults` is what
        the default aggregation builders give for the metadata mapping
        Elasticsearch returns, and `response` what it answers to the search. */
    method SearchRecords(index: string, search: RecordSearch, size: int, recordFrom: int,
                         excludeFields: Option<seq<string>>, defaults: Dict,
                         response: EsSearchResponse, parse: Dict -> Dict)
      returns (r: Result<RecordSearchResults, DaoError>)
      modifies this
      ensures NeedsDefaultAggregations(search, recordFrom) ==>
        requests == old(requests) + [GetFieldMapping(index, "metadata.*"),
          Search(index, BuildQuery(search, size, recordFrom, excludeFields, defaults), size)]
      ensures !NeedsDefaultAggregations(search, recordFrom) ==>
        requests == old(requests) + [Search(index, BuildQuery(search, size, recordFrom, excludeFields, defaults), size)]
      ensures r == SearchResults(response, parse)
    {
      if NeedsDefaultAggregations(search, recordFrom) {
        requests := requests + [GetFieldMapping(index, "metadata.*")];
      }
      var query := BuildQuery(search, size, recordFrom, excludeFields, defaults);
      requests := requests + [Search(index, query, size)];
      r := SearchResults(response, parse);
    }
  }

  /** `DatasetRecordsDAO._INSTANCE`, the class-level singleton slot. */
  class DaoInstance {
    var instance: DatasetRecordsDAO?

    constructor ()
      ensures instance == null
    {
      instance := null;
    }

    /** `get_instance`: builds the DAO on the first call only, and returns
        that same DAO on every call. */
    method GetInstance(base: IndexTemplate, extensions: IndexTemplateExtensions, templateName: string,
                       disableTemplateCreation: bool)
      returns (dao: DatasetRecordsDAO)
      modifies this
      ensures instance == dao
      ensures old(instance) != null ==> dao == old(instance)
      ensures old(instance) == null ==> fresh(dao) && dao.requests == [CreateIndexTemplate(templateName,
        ExtendedTemplate(base, extensions.analyzers, extensions.dynamicTemplates, extensions.properties),
        !disableTemplateCreation)]
    {
      if instance == null {
        instance := new DatasetRecordsDAO(base, extensions, templateName, disableTemplateCreation);
      }
      dao := instance;
    }
  }

  /** Two DAOs built with the corrected `init` both send the base template
      extended once: the registered dynamic templates appear once after the
      base ones, however many DAOs were built before. */
  method ReinitSendsSameTemplate(base: IndexTemplate, extensions: IndexTemplateExtensions,
                                 templateName: string, disableTemplateCreation: bool)
    returns (first: DatasetRecordsDAO, second: DatasetRecordsDAO)
    ensures var merged := ExtendedTemplate(base, extensions.analyzers, extensions.dynamicTemplates,
                                           extensions.properties);
      && first.requests == [CreateIndexTemplate(templateName, merged, !disableTemplateCreation)]
      && second.requests == first.requests
      && merged.dynamicTemplates == base.dynamicTemplates + extensions.dynamicTemplates
  {
    first := new DatasetRecordsDAO(base, extensions, templateName, disableTemplateCreation);
    second := new DatasetRecordsDAO(base, extensions, templateName, disableTemplateCreation);
  }

  /** Two runs of `init` as written, with a dynamic template registered, send
      different templates: the second repeats the dynamic templates. */
  method ReinitAsWrittenSendsGrownTemplate(dao: DatasetRecordsDAO, shared: SharedIndexTemplate,
                                           extensions: IndexTemplateExtensions,
                                           templateName: string, disableTemplateCreation: bool)
    requires extensions.dynamicTemplates != []
    modifies dao, shared
    ensures var once := ExtendedTemplate(old(shared.value), extensions.analyzers,
                                         extensions.dynamicTemplates, extensions.properties);
      var twice := ExtendedTemplate(once, extensions.analyzers, extensions.dynamicTemplates,
                                    extensions.properties);
      && dao.requests == old(dao.requests) + [CreateIndexTemplate(templateName, once, !disableTemplateCreation),
                                              CreateIndexTemplate(templateName, twice, !disableTemplateCreation)]
      && twice.dynamicTemplates == old(shared.value).dynamicTemplates + extensions.dynamicTemplates
                                   + extensions.dynamicTemplates
    ensures |dao.requests| >= 2
    ensures dao.requests[|dao.requests| - 1] != dao.requests[|dao.requests| - 2]
  {
    ghost var base := shared.value;
    dao.InitAsWritten(shared, extensions, templateName, disableTemplateCreation);
    dao.InitAsWritten(shared, extensions, templateName, disableTemplateCreation);
    ExtendTwiceRepeatsDynamicTemplates(base, extensions.analyzers, extensions.dynamicTemplates,
                                       extensions.properties);
  }
}
