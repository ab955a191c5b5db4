# Health-record store, modelled in Dafny

The service stores typed health records and answers filtered queries over
them. There are four record variants: lab results, prescriptions,
appointment notes and self-measurements.

There are two versions of the service:

- **The Redis-backed version** (`app/routes/health_records.py` with
  `app/models/health_records.py`).
  - Each record is written as one hash, `health_record:<id>`.
  - Its id is added to three families of index sets: `patient:<patient_id>`,
    `type:<type>` and `provider:<provider>`.
  - GET intersects the sets of the filters that are given. With no filter,
    it takes the union of every patient set.
- **The older single-file version** (`main.py`). It keeps the rendered
  records in one in-memory dictionary. GET filters the dictionary's values
  in insertion order.

The project has six modules:

- **`Values`**: JSON scalars (`None`, booleans, numbers, strings), plus the
  two Python conversions the handlers apply to them:
  - truthiness, as in `if provider:`;
  - `str()`, used inside the f-strings that build the index keys.

  A number keeps the text `str()` prints for it, so the index keys and
  truthiness are exact without modelling floating point.
- **`IsoTime`**: naive `datetime` values, `isoformat()`, and
  `fromisoformat()` on the two shapes `isoformat()` produces. Proves that
  the rendered timestamp reads back as the same instant.
- **`Records`**: the record variants, `HealthRecord.__init__` and `to_dict`.
- **`Requests`**: the validation and type dispatch of a POST body. Both
  versions use the same dispatch. It has these outcomes:
  - "Missing required fields";
  - "Invalid record type";
  - a `KeyError` naming the first missing variant field;
  - a `ValueError` from `float()`;
  - a `TypeError` from `float()`, which no handler catches.
- **`Routes`**: the Redis store.
  - The store is a class with four map fields.
  - Its methods are proved against a pure specification: the state, one
    function per write, and the answer of a query.
  - Invariants:
    - **soundness**: an index set names only stored records whose field
      matches the set's key;
    - **completeness**: every stored record is in the sets it belongs in.
- **`Legacy`**: the in-memory dictionary of `main.py`, as a class whose
  key order is a sequence.

Effects of the outside world are parameters:

- `uuid4()` and `datetime.now()` are the `id` and `now` parameters.
- `float()` is `toFloat`. It returns the printed float, `ValueError` or
  `TypeError`.
- A Redis command failure is `failAt`: the position, among the request's
  writes, of the write that raises a `RedisError`. The handler then answers
  "Database error". The writes before it are done. `replyLost` says
  whether that write itself took effect: the client is created with a
  `socket_timeout` (5 seconds by default) and `retry_on_timeout` (on by
  default) (`app/services/redis_service.py:18-20`), so the server can carry out a
  command whose reply is lost on both tries. When this happens on the last
  write, the record is fully stored and indexed, yet the answer is
  "Database error".

The Redis client is created with `decode_responses=True`
(`app/services/redis_service.py:17`). So a hash stores and returns text:
the number 10.5 comes back as `"10.5"`. With redis-py 3.5 or later (which the
`mapping=` form of HSET requires), the client refuses `None` and booleans in an HSET before sending anything.
This raises `DataError`, which is a `RedisError`. The model writes these behaviours of the client out as
`Routes.Encode`. One consequence, proved in `Routes.EntryWhenEncodable`: a
POST without a `provider` renders `provider: None`, so the Redis version
always answers it with "Database error" and stores nothing.

Notes on the code's behaviour:

- **HSET merges.** Writing a record merges its fields into an existing
  hash of the same id. A fresh `uuid4()` id is a hypothesis of the lemmas
  that need it.
- **Empty filters are ignored.** A query argument that is present but
  empty is not a filter.
- **GET's answer has no order.** In the Redis version the answer is a set,
  because Redis sets have no order.
- **Deletion is not modelled.** The integration test calls
  `DELETE /health-records/<patient>` (`Tests/test_integration.py:38`). No
  handler in the source implements it.
- **The round trip holds for the stored text.** It returns the stored
  text, not the values the POST answered with.

## Model

| member | source | states |
|---|---|---|
| IsoTime.Digits | app/models/health_records.py:25 | the zero-padded field of an ISO timestamp has exactly the requested width and only decimal digits |
| IsoTime.NumberOfDigits | app/models/health_records.py:25 | a zero-padded field reads back as the number it was printed from, when the number fits the width |
| IsoTime.IsoFormat | app/models/health_records.py:25 | `isoformat()` text is 19 characters, or 26 when there are microseconds, with 'T' at index 10 and '-' and ':' at their fixed places |
| IsoTime.FromIsoFormat | app/models/health_records.py:25 | `fromisoformat()` accepts only texts of length 19 or 26 |
| IsoTime.GroupsRoundTrip | app/models/health_records.py:25 | three printed fields joined by a separator parse back to the same three numbers |
| IsoTime.IsoRoundTrip | app/models/health_records.py:25 | `fromisoformat(isoformat(t)) == t` for every valid naive datetime |
| Records.Create | app/models/health_records.py:5-11 | the record keeps the given id, patient, provider and variant fields; its timestamp is the one supplied, or else the current time |
| Records.VariantFields | app/models/health_records.py:19-77 | each variant contributes exactly its own field names, holding the values it was built with |
| Records.Render | app/models/health_records.py:19-77 | `to_dict` has exactly the five common keys plus the variant's fields. `type` is one of the four tags. id, patient, provider and variant values are echoed, and `timestamp` is the ISO text |
| Records.RenderedTimestampParses | app/models/health_records.py:25 | the rendered `timestamp` parses back to the record's own instant |
| Requests.FirstAbsent | app/routes/health_records.py:25-51 | the reported field is the first of the variant's fields, in reading order, that the body lacks; none is reported only when all are present |
| Requests.Build | app/routes/health_records.py:17-53 | each outcome holds exactly when its condition does: missing type or patient, unknown type, the first missing variant field, ValueError or TypeError from `float`. A success carries the given id, time, patient and provider, a type equal to the body's, the body's fields, and `value` as the converted float |
| Routes.AddMember | app/routes/health_records.py:63-66 | SADD adds the id to one set and leaves every other set as it was |
| Routes.EntryOf | app/routes/health_records.py:55-66 | a built record is written exactly when its rendered map can be encoded; its hash is that encoding, and it is indexed under its own patient, type and provider |
| Routes.EntryWhenEncodable | app/routes/health_records.py:22-61 | the HSET is accepted exactly when the patient, the provider and every variant field are numbers or strings, so a POST without a provider is never stored |
| Routes.Apply | app/routes/health_records.py:58-66 | HSET merges: every given field takes the new text, every other field of the old hash is kept, and no other hash or index changes. Each SADD adds the id to one set of one family, and leaves every other set of that family, the records and the other families alone |
| Routes.PutEffect | app/routes/health_records.py:58-66 | a completed POST merges the hash and adds the id to the patient set, the type set and, for a truthy provider, the provider set, and changes nothing else |
| Routes.RecordWriteKeepsSound | app/routes/health_records.py:58-61 | the HSET of a fresh id keeps the indexes sound and stores exactly the entry's hash |
| Routes.PatientWriteKeepsSound | app/routes/health_records.py:63 | the patient SADD after the HSET keeps the indexes sound |
| Routes.TypeWriteKeepsSound | app/routes/health_records.py:64 | the type SADD after the HSET keeps the indexes sound |
| Routes.ProviderWriteKeepsSound | app/routes/health_records.py:65-66 | the provider SADD, done only for a truthy provider, keeps the indexes sound |
| Routes.PrefixKeepsSound | app/routes/health_records.py:58-71 | however many of a POST's writes succeed before a Redis error, no index names a missing or mismatched record |
| Routes.PutKeepsComplete | app/routes/health_records.py:58-66 | a completed POST leaves every stored record reachable from its index sets, even when it reuses an id |
| Routes.ProviderIndexed | app/routes/health_records.py:65-66 | `if provider:` decides the provider SADD: the id joins the set of the provider's printed text exactly when the provider is truthy (or was already there), no other provider set changes, and a stored provider text that is neither empty nor a numeric zero comes only from a truthy provider |
| Routes.ZeroProviderByKind | app/routes/health_records.py:65-66 | the number 0 and the string "0" store the same provider text "0", but only the string adds the id to `provider:0`; the number leaves that set unchanged |
| Routes.PutStoresEntry | app/routes/health_records.py:58-61 | with a fresh id, a completed POST stores exactly the encoded map and leaves every other hash as it was |
| Routes.PutFresh | app/routes/health_records.py:58-66 | a completed POST of a fresh id keeps the indexes sound and complete |
| Routes.Intersection | app/routes/health_records.py:95-96 | `set.intersection(*sets)` holds exactly the ids that are in every set |
| Routes.AnswerMatches | app/routes/health_records.py:77-108 | over sound indexes, every map GET returns satisfies every given filter (AND semantics) |
| Routes.AnswerExact | app/routes/health_records.py:77-108 | over sound and complete indexes, GET returns exactly the stored maps that satisfy the given filters, and every stored map when no filter is given |
| Routes.PutThenQuery | app/routes/health_records.py:12-108 | after a completed POST of a fresh id, a GET by the record's own patient, type and provider returns the map that POST stored |
| Routes.IntersectionNotUnion | app/routes/health_records.py:88-96 | two records of one patient with different types: a GET by patient and the first record's type returns only the first |
| Routes.AnswerOfTwo | app/routes/health_records.py:77-108 | with two stored records, GET returns only the one that passes the filters |
| Routes.NumberAndStringShareKey | app/routes/health_records.py:63 | since index keys are `str()` of the body's values, a patient given as the number 123 and one given as the string "123" share `patient:123`, and a GET by "123" returns both records |
| Routes.ListedByPatient | app/routes/health_records.py:88-106 | a stored, non-empty record in the set of patient `t` is in the answer of a GET by that patient alone |
| Routes.OrphanUnreachable | app/routes/health_records.py:58-71 | a POST cut short after its HSET leaves a stored hash that no GET can reach |
| Routes.Store.constructor | app/services/redis_service.py:6-21 | a client opened on a database sees exactly the contents that database already holds |
| Routes.Store.Add | app/routes/health_records.py:12-75 | POST returns the Build error and changes nothing; or refuses an unencodable record with a store error and changes nothing; or applies its writes up to the one that raises (and that one too when only its reply was lost), answering the rendered map only if none raises. It preserves soundness for a fresh id, and completeness when it succeeds |
| Routes.Store.Persist | app/routes/health_records.py:58-66 | the writes run in order and stop at the one that raises, before it when the server refused it and after it when only its reply was lost; the new store is exactly the written prefix |
| Routes.Store.Query | app/routes/health_records.py:77-108 | GET returns exactly the specified answer: the resolved candidates of the given filters |
| Routes.Store.FilterSets | app/routes/health_records.py:86-93 | one set per given filter; an id is in all of them exactly when every given filter selects it, and there are none exactly when no filter is given |
| Routes.Store.AllPatientIds | app/routes/health_records.py:97-100 | with no filter, the ids gathered are the union of every patient set |
| Routes.CandidatesFiltered | app/routes/health_records.py:95-96 | with some filter given, the intersection equals the candidate set |
| Routes.ResolveGrow | app/routes/health_records.py:102-106 | resolving one more id adds its hash, and skips an id whose hash is empty |
| Legacy.LegacyRender | main.py:24-78 | the older `to_dict` is the newer rendering without `provider`: the four common keys and the variant's fields |
| Legacy.Keep | main.py:136-139 | a comprehension filter keeps exactly the maps whose field equals the argument, never lengthens the list, and is the identity when the argument is absent or empty |
| Legacy.KeepAppend | main.py:136-139 | filtering distributes over concatenation, so relative order is kept |
| Legacy.ValuesOf | main.py:134 | `values()` lists each key's map at that key's position in insertion order |
| Legacy.Select | main.py:129-141 | the answer holds exactly the listed maps that pass both given filters; with no filter it is every map, in order |
| Legacy.ValuesAppend | main.py:121 | storing a new id appends its map at the end of `values()` |
| Legacy.AddThenSelect | main.py:121-141 | after a new record is stored, GET returns its earlier answer followed by the new map, if the new map passes the filters |
| Legacy.NumericPatientNeverMatches | main.py:137 | a record posted with a numeric `patient_id` is never found by a patient filter, since `==` compares a number with a string |
| Legacy.Memory.constructor | main.py:9 | the dictionary starts empty |
| Legacy.Memory.Add | main.py:84-127 | POST returns the Build error (the provider is always None here) and changes nothing; otherwise it stores and returns the rendered map, appending the id to the key order only when it is new |
| Legacy.Memory.Query | main.py:129-141 | GET returns exactly the stored maps that pass the given filters |

## Left out

- HTTP routing, JSON parsing, status codes and the error message texts are left out. The model keeps the outcome kinds; the text of a `KeyError` or `ValueError` message is not modelled.
- A request body that is not a JSON object (`not data` for a null or a list) is left out. Arrays and objects as field values are left out too: only JSON scalars are modelled, and strings only as far as the `Values.Value` line below says.
- Routes.Store.Query: a Redis error during GET ("Database error", app/routes/health_records.py:110-111) is not modelled; the reads always succeed.
- Routes.Store.Query: answers a set. The route builds a list in set-iteration order, which the model does not fix.
- Requests.Build: the `TypeError` outcome of `float()` stands for any exception of `float()` that neither handler catches, such as the `OverflowError` a very large JSON integer raises. The observable effect is the same: an uncaught error, and nothing is stored.
- Routes.Encode: follows the encoder of redis-py 3.5 and later. The handler's `hset(..., mapping=...)` call needs such a client, since the `mapping` keyword first appeared in redis-py 3.5, so the model does not depend on the client version the source leaves unpinned.
- Floating-point parsing and printing stay outside the model. `float()` is a parameter, and a number is its printed text.
- Concurrency between requests, and the atomicity of the Redis commands, are not modelled. Each request runs alone.
- IsoTime.FromIsoFormat: models only the two shapes `isoformat()` produces. The other forms Python accepts (shorter fractions, UTC offsets) are left out because nothing in the service produces them.
- Routes.AnswerExact: does not cover a provider filter whose text is a numeric zero ("0", "0.0", "-0.0"). Records whose provider was the number 0 are not indexed, while the string "0" is, so the stored text cannot tell the two apart.
- Deleting a patient's records is not part of this model: no source file implements it.
- The template page (`home`), configuration loading and the Redis connection parameters (host, port, password, TLS) are left out as plumbing. The timeout settings enter the model only through `replyLost`.
- Values.Value: a string is a sequence of Unicode scalar values. A JSON string holding a lone surrogate (such as `"\ud800"`), which Python's `json` accepts, cannot be a model input. For such a string the client's strict UTF-8 encoding of the HSET mapping (app/routes/health_records.py:58-61) raises `UnicodeEncodeError`, a `ValueError`, so the handler answers 400 and stores nothing (app/routes/health_records.py:74-75). That outcome is not modelled.
