# Rubrix bulk payload and dataset records DAO, in Dafny

This project models two pieces of record handling from Rubrix, a data-annotation platform.

- **`TextClassificationRecordsBulk`** (module `RecordsBulk`, `records_bulk.dfy`) is the generated Python client's bulk-upload payload. It holds a dataset name, a list of text-classification records, optional tags and metadata, and an open map of additional properties. `to_dict` and `from_dict` are modelled twice: as pure specification functions (`Encode`, `Decode`) and as the source's loops (`ToDict`, `FromDict`), each proved equal to its function. The dict-like accessors are methods and functions on the class. The nested record, tags and metadata models are abstract. Each is given by its own `to_dict`/`from_dict` pair, a `Codec`, and the round-trip theorem assumes each pair reads back what it writes.
- **`DatasetRecordsDAO`** (module `Dao`, `dao.dfy`) is the server's records DAO. It covers:
  - the index-template extension registry (`extends_*`) and the merge `init` performs;
  - the documents and metadata `add_records` builds;
  - the nested-mapping detection for metadata fields;
  - the search query built by `search_records`, and how hits become records;
  - the `get_instance` singleton.

  Elasticsearch itself is not modelled. Each call the DAO makes on its wrapper is appended to a ghost log (`requests`). Whatever Elasticsearch answers is a method parameter.

`values.dfy` holds the shared JSON-like value type (`Json`, `Dict`) and the `Option`/`Result` wrappers. `UNSET` is `None`, and a raised exception is an `Err`.

## Model

| member | source | states |
|---|---|---|
| `RecordsBulk.EncodeRecords` | observe/models/text_classification_records_bulk.py:32-36 | the `records` list has the same length and order as the records; element i is record i's `to_dict` |
| `RecordsBulk.Encode` | observe/models/text_classification_records_bulk.py:30-56 | `name` and `records` are always present and override same-named extras; `tags`/`metadata` come from the field exactly when it is set, otherwise only from the extras; every other extra is copied unchanged; no other key appears |
| `RecordsBulk.TextClassificationRecordsBulk.ToDict` | observe/models/text_classification_records_bulk.py:30-56 | the append loop and the `update` calls return exactly `Encode` of the object's state |
| `RecordsBulk.DecodeRecords` | observe/models/text_classification_records_bulk.py:63-68 | succeeds exactly when every item decodes; the result lists the decoded items in input order |
| `RecordsBulk.DecodeOptional` | observe/models/text_classification_records_bulk.py:70-78 | an absent or None `tags`/`metadata` entry gives UNSET; otherwise the nested `from_dict` decides: its failure is an error naming the key, its success is the decoded value |
| `RecordsBulk.Decode` | observe/models/text_classification_records_bulk.py:58-85 | a missing `name` (checked first), then a missing `records`, raises KeyError; success exactly when `records` is a list whose items all decode and present non-None tags/metadata decode; an absent or None `tags`/`metadata` gives UNSET; the additional properties are exactly the input keys other than the four reserved ones, with their values |
| `RecordsBulk.TextClassificationRecordsBulk.FromDict` | observe/models/text_classification_records_bulk.py:58-85 | the copy-and-pop method returns a fresh object whose state is `Decode(src)`, or raises the same error |
| `RecordsBulk.DecodeEncodeRecords` | observe/models/text_classification_records_bulk.py:32-68 | decoding the encoded records list gives back the records, when the record model round-trips |
| `RecordsBulk.RoundTrip` | observe/models/text_classification_records_bulk.py:30-85 | with nested models that round-trip, `from_dict(to_dict(x))` equals x if and only if no additional property uses `name`, `records`, `tags` or `metadata` |
| `RecordsBulk.TextClassificationRecordsBulk.constructor` | observe/models/text_classification_records_bulk.py:20-28 | the attrs initialiser sets the four fields and starts with no additional properties |
| `RecordsBulk.TextClassificationRecordsBulk.AdditionalKeys` | observe/models/text_classification_records_bulk.py:87-89 | lists every additional-property key exactly once and no other key |
| `RecordsBulk.TextClassificationRecordsBulk.GetItem` | observe/models/text_classification_records_bulk.py:91-92 | gives the additional property's value; a missing key raises KeyError |
| `RecordsBulk.TextClassificationRecordsBulk.Contains` | observe/models/text_classification_records_bulk.py:100-101 | `k in x` holds exactly when `x[k]` does not raise |
| `RecordsBulk.TextClassificationRecordsBulk.SetItem` | observe/models/text_classification_records_bulk.py:94-95 | after `x[k] = v`, `k in x` holds and `x[k] == v`; only the additional properties change, by that one entry |
| `RecordsBulk.TextClassificationRecordsBulk.DelItem` | observe/models/text_classification_records_bulk.py:97-98 | after `del x[k]`, `k in x` is false; raises KeyError exactly when k was absent; only the additional properties change |
| `Dao.UpdateAll` | src/rubrix/server/tasks/commons/dao/dao.py:128-138 | a run of `dict.update` calls leaves exactly the keys of the start dict and of every update |
| `Dao.UpdateAllAt` | src/rubrix/server/tasks/commons/dao/dao.py:128-138 | after a run of `dict.update` calls, a key holds the value of the last update that has it; a key no update has keeps its first value |
| `Dao.UpdateAllIdempotent` | src/rubrix/server/tasks/commons/dao/dao.py:128-138 | running the same updates twice gives the same dict as running them once |
| `Dao.IndexTemplateExtensions.constructor` | src/rubrix/server/tasks/commons/dao/dao.py:42-50 | the registry starts with no analyzers, properties or dynamic templates |
| `Dao.ExtendsIndexProperties` | src/rubrix/server/tasks/commons/dao/dao.py:53-65 | appends one properties dict at the end of the registry and leaves the other two lists alone |
| `Dao.ExtendsIndexDynamicTemplates` | src/rubrix/server/tasks/commons/dao/dao.py:68-79 | appends the given templates, in argument order, and leaves the other two lists alone |
| `Dao.ExtendsIndexAnalyzers` | src/rubrix/server/tasks/commons/dao/dao.py:82-93 | appends one analyzers dict at the end of the registry and leaves the other two lists alone |
| `Dao.ExtendedTemplate` | src/rubrix/server/tasks/commons/dao/dao.py:126-138 | the merged template's analyzer and property keys are the base's plus the registered ones; the rest of the template is unchanged; dynamic templates grow by the registered count |
| `Dao.ApplyUpdates` | src/rubrix/server/tasks/commons/dao/dao.py:128-130 | the analyzer (and property) loop leaves the dict equal to the registered updates applied in registration order |
| `Dao.AppendAll` | src/rubrix/server/tasks/commons/dao/dao.py:132-134 | the dynamic-template loop leaves the base list followed by the registered templates, in order |
| `Dao.ExtendedTemplateLaterWins` | src/rubrix/server/tasks/commons/dao/dao.py:126-138 | a later registration wins a key clash; unmentioned keys keep the base value; dynamic templates follow the base ones in registration order |
| `Dao.ExtendTwiceRepeatsDynamicTemplates` | src/rubrix/server/tasks/commons/dao/dao.py:126-138 | merging the registry into an already merged template keeps analyzers and properties but appends the dynamic templates again |
| `Dao.DatasetRecordsDAO.constructor` | src/rubrix/server/tasks/commons/dao/dao.py:119-121 | building a DAO runs `init` once: its only request creates the merged index template |
| `Dao.DatasetRecordsDAO.Init` | src/rubrix/server/tasks/commons/dao/dao.py:123-144 | the three loops send the merged template, force-recreated unless template creation is disabled; the base template is not changed |
| `Dao.DatasetRecordsDAO.InitAsWritten` | src/rubrix/server/tasks/commons/dao/dao.py:126-144 | as written: the module-level template itself becomes the merged template, and that is what is sent |
| `Dao.SharedIndexTemplate.constructor` | src/rubrix/server/tasks/commons/dao/dao.py:126 | the module-level template that `init`'s shallow `copy()` aliases holds the declared template until an `init` as written changes it |
| `Dao.ReinitSendsSameTemplate` | src/rubrix/server/tasks/commons/dao/dao.py:119-144 | two DAOs whose `init` works on a private copy each send exactly one request, the base template extended once, whose dynamic templates are the base ones followed by each registered one once |
| `Dao.ReinitAsWrittenSendsGrownTemplate` | src/rubrix/server/tasks/commons/dao/dao.py:126-144 | two runs of `init` as written, with a dynamic template registered, send the base extended once and then the base extended twice; the second template's dynamic templates are the base ones followed by the registered ones twice, so the two templates differ |
| `Dao.DaoInstance.constructor` | src/rubrix/server/tasks/commons/dao/dao.py:99 | the singleton slot starts empty |
| `Dao.DaoInstance.GetInstance` | src/rubrix/server/tasks/commons/dao/dao.py:101-117 | the first call creates the DAO (running `init`); every later call returns that same DAO and changes nothing |
| `Dao.CollectedMetadata` | src/rubrix/server/tasks/commons/dao/dao.py:171-177 | the merged `metadata_values` has exactly the keys some record's metadata has (missing metadata counts as `{}`) |
| `Dao.CollectedMetadataAt` | src/rubrix/server/tasks/commons/dao/dao.py:171-177 | the collected metadata has exactly the keys some record's metadata has (missing metadata counts as `{}`); each holds the value of the last record that has it |
| `Dao.BuildDocument` | src/rubrix/server/tasks/commons/dao/dao.py:178-181 | a record's document is the record class's dict; when the class has `last_updated`, that key is set to the one timestamp |
| `Dao.CollectDocuments` | src/rubrix/server/tasks/commons/dao/dao.py:169-181 | one document per record in input order, all with the same `last_updated` when the class has it; the metadata values are the collected metadata |
| `Dao.DatasetRecordsDAO.AddRecords` | src/rubrix/server/tasks/commons/dao/dao.py:146-191 | requests the index, then only nested mappings for nested collected-metadata fields (all of them on success); fails with IndexError exactly when some collected metadata value is `[]`; otherwise ends by sending one document per record in order and returns what Elasticsearch reports |
| `Dao.DetectNestedType` | src/rubrix/server/tasks/commons/dao/dao.py:314-316 | a value is nested exactly when it is a list whose first element is a dict; the empty list raises IndexError |
| `Dao.DatasetRecordsDAO.ConfigureMetadataFields` | src/rubrix/server/tasks/commons/dao/dao.py:313-325 | requests a nested mapping for `metadata.<field>` only for nested fields, each at most once; on success, for every nested field; fails exactly when some value is `[]` |
| `Dao.AggregationRequests` | src/rubrix/server/tasks/commons/dao/dao.py:224-256 | `{}` off the first page; on the first page the user's aggregations, plus the default ones when asked for, a default winning a name clash |
| `Dao.BuildQuery` | src/rubrix/server/tasks/commons/dao/dao.py:221-257 | `size`/`from` copied; query defaults to `match_all`, sort to `_id` ascending, excludes to `[]`; `aggs` is `{}` off the first page; on the first page it holds the user's aggregations, plus the defaults (winning on clashes) only when they are asked for |
| `Dao.EsDocToRecord` | src/rubrix/server/tasks/commons/dao/dao.py:310-311 | the record has every `_source` key plus `id = _id`, which overrides any `id` in `_source`; a missing `_source` or `_id` raises KeyError, a non-dict `_source` raises TypeError |
| `Dao.EsDocsToRecords` | src/rubrix/server/tasks/commons/dao/dao.py:267 | one record per hit, in order; the first hit that fails raises its error |
| `Dao.SearchResults` | src/rubrix/server/tasks/commons/dao/dao.py:258-279 | total and records come from the hits; only non-empty aggregations are parsed, giving `words`, `metadata` (each `{}` when absent) and the remaining aggregations |
| `Dao.DatasetRecordsDAO.SearchRecords` | src/rubrix/server/tasks/commons/dao/dao.py:193-279 | reads the metadata field mapping only when default aggregations are needed, then sends the built query and returns the results for the response |

## Findings

| source | as written | input that shows it | evidently intended | confidence | as-written member | corrected member |
|---|---|---|---|---|---|---|
| src/rubrix/server/tasks/commons/dao/dao.py:126-138 | `init` takes a shallow `copy()` of the module-level index template, then updates its nested analyzer dict, appends to its nested dynamic-template list and updates its nested properties dict, so the module-level template changes too | one registered dynamic template and two runs of `init` in one process (a DAO from `get_instance` plus one from the deprecated `dataset_records_dao`): the second template sent has that dynamic template twice | each `init` extends a private copy, so the module-level template stays as declared and every `init` sends the same template | medium, not executed | `Dao.DatasetRecordsDAO.InitAsWritten`, `Dao.ExtendTwiceRepeatsDynamicTemplates`, `Dao.ReinitAsWrittenSendsGrownTemplate` | `Dao.DatasetRecordsDAO.Init`, `Dao.ReinitSendsSameTemplate` |

The constructor and `GetInstance` use the corrected `Init`.

## Left out

- Elasticsearch: `create_index_template`, `create_index`, `add_documents`, `search`, `get_field_mapping` and `create_field_mapping` are network calls. They appear only as `EsRequest` entries in the DAO's ghost log. Their answers are parameters: the failure count of `add_documents`, the search response, and the default aggregations built from the field mapping.
- `scan_dataset` is a generator streaming from Elasticsearch. Its only logic is `esdoc2record`, which is modelled.
- The `aggregations.*` builders, `parse_aggregations` and `unflatten_dict` are not part of this model. The merged default aggregations (`defaults`) and the parse step (`parse`) are parameters.
- The contents of `DATASETS_RECORDS_INDEX_TEMPLATE` are not part of this model. The template is a parameter, and only the three parts `init` changes are modelled. A template lacking those paths (a KeyError) is not modelled.
- `dataset_records_index`, `DATASETS_RECORDS_INDEX_NAME` and `settings.disable_es_index_template_creation` become parameters: the index name, the template name and a flag.
- The pydantic calls `schema()`, `parse_obj` and `.dict()` are folded into `RecordClass`: a flag for `last_updated` and a function to a document. `datetime.utcnow` is the `now` parameter.
- `Dao.DatasetRecordsDAO.AddRecords`: the `doc_id` function passed to `add_documents` (each document's `id` key) is not recorded in the request.
- `Dao.DatasetRecordsDAO.SearchRecords`: `search or RecordSearch()` is not modelled, because the `RecordSearch` model is not part of this model. A search is always given. The default arguments `size=100` and `record_from=0` are passed explicitly by callers.
- `Dao.DatasetRecordsDAO.SearchRecords`: the response is taken already split into `hits.total`, `hits.hits` and `aggregations`. A response missing `hits` is not modelled.
- `Dao.SearchResults`: a result field the code does not set is `None`, standing for the result model's default, which is not part of this model.
- FastAPI `Depends`, the `es` argument of `get_instance`, and the deprecated `dataset_records_dao` global are framework wiring. The DAO's log stands for its wrapper.
- The internals of `TextClassificationRecord`, `TextClassificationRecordsBulkTags` and `TextClassificationRecordsBulkMetadata` are not part of this model. Each is an abstract `Codec`.
- `RecordsBulk.TextClassificationRecordsBulk.AdditionalKeys`: does not promise the dict's insertion order, because dicts are modelled as unordered maps. Equality of dicts is order-insensitive in Python, so the round trip is unaffected.
- `Dao.DatasetRecordsDAO.ConfigureMetadataFields`: does not fix the order of the mapping requests, which follows dict insertion order in the source. When a `[]` value raises, the requests already made are those of the fields visited before it in some order.
- `RecordsBulk.Decode`: any `records` value that is not a list is a failure (`NotIterable`). Python also iterates a string or a dict, and an empty one yields no records.
- Floating-point JSON numbers are not modelled. Numbers are unbounded integers.
