/** The indexed store behind app/routes/health_records.py. The key-value
    service holds one hash per record (`health_record:<id>`) and three
    families of id sets (`patient:<patient_id>`, `type:<type>`,
    `provider:<provider>`). Here each family is a map from the text after
    the prefix to its set, and the hashes are a map from record id. The
    client is created with `decode_responses=True`, so a hash holds and
    returns text. */
module Routes {
  import opened Values
  import opened IsoTime
  import opened Records
  import opened Requests

  /** A stored hash: field name to text. */
  type Stored = map<string, string>

  /** One family of index sets, keyed by the text after its prefix. */
  type Index = map<string, set<string>>

  /** SMEMBERS: a key that was never written reads as the empty set. */
  function Members(index: Index, key: string): set<string>
  {
    if key in index then index[key] else {}
  }

  /** SADD of one id: that set gains it, every other set is as it was. */
  function AddMember(index: Index, key: string, id: string): (r: Index)
    ensures Members(r, key) == Members(index, key) + {id}
    ensures forall k :: k != key ==> Members(r, k) == Members(index, k)
    ensures r.Keys == index.Keys + {key}
  {
    index[key := Members(index, key) + {id}]
  }

  /** HGETALL: a record that was never written reads as the empty map. */
  function Hash(records: map<string, Stored>, id: string): Stored
  {
    if id in records then records[id] else map[]
  }

  /** The union of every set of an index family (`keys("patient:*")` then
      SMEMBERS of each). */
  function Ids(index: Index): (r: set<string>)
    ensures forall id :: id in r <==> exists k :: k in index && id in index[k]
  {
    set k, id | k in index && id in index[k] :: id
  }

  /** How the client encodes one field value of an HSET: numbers and
      strings as the text `str()` gives them; None and booleans are
      refused (a `DataError`, which is a `RedisError`). */
  function Encode(v: Value): (r: Option<string>)
    ensures r.Some? <==> v.Num? || v.Str?
    ensures r.Some? ==> r.value == Text(v)
  {
    match v
    case Num(t) => Some(t)
    case Str(s) => Some(s)
    case _ => None
  }

  /** The hash an HSET with `mapping=f` writes, or None when the client
      refuses one of the values and sends nothing. */
  function EncodeFields(f: Fields): (r: Option<Stored>)
    ensures r.Some? <==> forall k :: k in f ==> Encode(f[k]).Some?
    ensures r.Some? ==> r.value.Keys == f.Keys && forall k :: k in f ==> r.value[k] == Text(f[k])
  {
    if forall k :: k in f ==> Encode(f[k]).Some? then Some(map k | k in f :: Text(f[k])) else None
  }

  /** The whole content of the backing store. */
  datatype State = State(records: map<string, Stored>, byPatient: Index,
                         byType: Index, byProvider: Index)

  const Empty := State(map[], map[], map[], map[])

  /** What a successful POST writes: the record id, the encoded map
      (`record.to_dict()` as the client sends it), and the patient, type
      and provider that name its index sets. */
  datatype Entry = Entry(id: string, fields: Stored, patientId: Value,
                         recordType: string, provider: Value)

  /** The stored map carries the same patient, type and provider text the
      entry is indexed under, and the provider is one the client can
      encode. */
  predicate Consistent(e: Entry)
  {
    && "patient_id" in e.fields && e.fields["patient_id"] == Text(e.patientId)
    && "type" in e.fields && e.fields["type"] == e.recordType
    && "provider" in e.fields && e.fields["provider"] == Text(e.provider)
    && (e.provider.Num? || e.provider.Str?)
  }

  /** The entry the handler writes for a record it built, or None when the
      client refuses the HSET. */
  function EntryOf(rec: HealthRecord): (r: Option<Entry>)
    ensures r.None? <==> EncodeFields(Render(rec)).None?
    ensures r.Some? ==> && Consistent(r.value) && r.value.id == rec.id
                        && r.value.fields == EncodeFields(Render(rec)).value
                        && r.value.patientId == rec.patientId && r.value.provider == rec.provider
                        && r.value.recordType == Tag(rec.details)
  {
    var h := EncodeFields(Render(rec));
    if h.None? then None
    else
      assert "provider" in Render(rec) && Encode(Render(rec)["provider"]).Some?;
      Some(Entry(rec.id, h.value, rec.patientId, Tag(rec.details), rec.provider))
  }

  /** The client accepts a record's HSET exactly when its patient, its
      provider and every variant field are numbers or strings. In
      particular a record without a provider (None) is never stored: the
      POST answers "Database error". */
  lemma EntryWhenEncodable(rec: HealthRecord)
    ensures EntryOf(rec).Some? <==>
              && Encode(rec.patientId).Some? && Encode(rec.provider).Some?
              && forall f :: f in FieldNames(Tag(rec.details)) ==> Encode(Render(rec)[f]).Some?
  {

  }

  /** The writes a successful POST issues, in order. */
  datatype Write = WriteRecord | IndexPatient | IndexType | IndexProvider

  /** HSET first, then SADD to the patient and type sets, then to the
      provider set only when the provider is truthy (`if provider:`). */
  function Writes(e: Entry): (ws: seq<Write>)
    ensures |ws| == if Truthy(e.provider) then 4 else 3
    ensures ws[0] == WriteRecord && ws[1] == IndexPatient && ws[2] == IndexType
    ensures |ws| == 4 ==> ws[3] == IndexProvider
  {
    [WriteRecord, IndexPatient, IndexType] + if Truthy(e.provider) then [IndexProvider] else []
  }

  /** One write of `e`. HSET with a mapping sets the given fields and keeps
      any others the hash already had; an SADD touches one set of one
      family. */
  function Apply(s: State, e: Entry, w: Write): (r: State)
    ensures w.WriteRecord? ==>
              && r.byPatient == s.byPatient && r.byType == s.byType && r.byProvider == s.byProvider
              && r.records.Keys == s.records.Keys + {e.id}
              && (forall id :: id in s.records && id != e.id ==> r.records[id] == s.records[id])
              && (forall k :: k in e.fields ==> k in r.records[e.id] && r.records[e.id][k] == e.fields[k])
              && (forall k :: k in Hash(s.records, e.id) && k !in e.fields ==>
                    k in r.records[e.id] && r.records[e.id][k] == Hash(s.records, e.id)[k])
              && r.records[e.id].Keys == Hash(s.records, e.id).Keys + e.fields.Keys
    ensures !w.WriteRecord? ==> r.records == s.records
    ensures w.IndexPatient? ==>
              && r.byType == s.byType && r.byProvider == s.byProvider
              && Members(r.byPatient, Text(e.patientId)) == Members(s.byPatient, Text(e.patientId)) + {e.id}
              && (forall k :: k != Text(e.patientId) ==> Members(r.byPatient, k) == Members(s.byPatient, k))
    ensures w.IndexType? ==>
              && r.byPatient == s.byPatient && r.byProvider == s.byProvider
              && Members(r.byType, e.recordType) == Members(s.byType, e.recordType) + {e.id}
              && (forall k :: k != e.recordType ==> Members(r.byType, k) == Members(s.byType, k))
    ensures w.IndexProvider? ==>
              && r.byPatient == s.byPatient && r.byType == s.byType
              && Members(r.byProvider, Text(e.provider)) == Members(s.byProvider, Text(e.provider)) + {e.id}
              && (forall k :: k != Text(e.provider) ==> Members(r.byProvider, k) == Members(s.byProvider, k))
  {
    match w
    case WriteRecord => s.(records := s.records[e.id := Hash(s.records, e.id) + e.fields])
    case IndexPatient => s.(byPatient := AddMember(s.byPatient, Text(e.patientId), e.id))
    case IndexType => s.(byType := AddMember(s.byType, e.recordType, e.id))
    case IndexProvider => s.(byProvider := AddMember(s.byProvider, Text(e.provider), e.id))
  }

  /** The writes `ws` of `e`, applied in order. */
  function ApplyAll(s: State, e: Entry, ws: seq<Write>): State
    decreases |ws|
  {
    if ws == [] then s else Apply(ApplyAll(s, e, ws[..|ws| - 1]), e, ws[|ws| - 1])
  }

  /** A POST whose every write succeeded. */
  function Put(s: State, e: Entry): State
  {
    ApplyAll(s, e, Writes(e))
  }

  /** Every id in a patient set has a stored record of that patient. */
  ghost predicate PatientSound(s: State)
  {
    forall p, id :: p in s.byPatient && id in s.byPatient[p] ==>
      id in s.records && "patient_id" in s.records[id] && s.records[id]["patient_id"] == p
  }

  /** Every id in a type set has a stored record of that type. */
  ghost predicate TypeSound(s: State)
  {
    forall t, id :: t in s.byType && id in s.byType[t] ==>
      id in s.records && "type" in s.records[id] && s.records[id]["type"] == t
  }

  /** Every id in a provider set has a stored record with that provider. */
  ghost predicate ProviderSound(s: State)
  {
    forall v, id :: v in s.byProvider && id in s.byProvider[v] ==>
      id in s.records && "provider" in s.records[id] && s.records[id]["provider"] == v
  }

  /** The index invariant: an index set only ever names stored records
      whose field matches the set's key. */
  ghost predicate Sound(s: State)
  {
    PatientSound(s) && TypeSound(s) && ProviderSound(s)
  }

  /** A stored provider text that only a truthy provider can have left:
      neither empty nor the text of a numeric zero. (The text "0" may come
      from the number 0, which is not indexed, or from the string "0",
      which is.) */
  predicate IndexableProvider(t: string)
  {
    t != "" && t !in ZeroTexts
  }

  /** The stored record under `id` is in every index set it belongs in. */
  ghost predicate Indexed(s: State, id: string)
    requires id in s.records
  {
    var r := s.records[id];
    && "patient_id" in r && "type" in r && "provider" in r
    && id in Members(s.byPatient, r["patient_id"])
    && id in Members(s.byType, r["type"])
    && (IndexableProvider(r["provider"]) ==> id in Members(s.byProvider, r["provider"]))
  }

  /** Every stored record is reachable from its index sets. */
  ghost predicate Complete(s: State)
  {
    forall id :: id in s.records ==> Indexed(s, id)
  }

  /** The state after all the writes of one POST, stated without the fold. */
  lemma {:induction false} PutEffect(s: State, e: Entry)
    ensures Put(s, e) == State(
              s.records[e.id := Hash(s.records, e.id) + e.fields],
              AddMember(s.byPatient, Text(e.patientId), e.id),
              AddMember(s.byType, e.recordType, e.id),
              if Truthy(e.provider) then AddMember(s.byProvider, Text(e.provider), e.id)
              else s.byProvider)
  {
    var ws := Writes(e);
    assert ws[..0] == [];
    assert ws[..1][..0] == ws[..0];
    assert ws[..2][..1] == ws[..1];
    assert ws[..3][..2] == ws[..2];
    var s1 := Apply(s, e, WriteRecord);
    assert ApplyAll(s, e, ws[..1]) == s1;
    var s2 := Apply(s1, e, IndexPatient);
    assert ApplyAll(s, e, ws[..2]) == s2;
    var s3 := Apply(s2, e, IndexType);
    assert ApplyAll(s, e, ws[..3]) == s3;
    if |ws| == 4 {
      assert ws[..4][..3] == ws[..3];
      assert ws[..4] == ws;
    } else {
      assert ws[..3] == ws;
    }
  }

  /** The HSET of a fresh id keeps the indexes sound: no set names the id yet. */
  lemma RecordWriteKeepsSound(t: State, e: Entry)
    requires Sound(t) && e.id !in t.records
    ensures Sound(Apply(t, e, WriteRecord))
    ensures Apply(t, e, WriteRecord).records == t.records[e.id := e.fields]
  {
    assert Hash(t.records, e.id) + e.fields == e.fields;
  }

  /** Adding the id to its patient set, once its record is stored. */
  lemma PatientWriteKeepsSound(t: State, e: Entry)
    requires Sound(t) && Consistent(e) && e.id in t.records && t.records[e.id] == e.fields
    ensures Sound(Apply(t, e, IndexPatient)) && Apply(t, e, IndexPatient).records == t.records
  {

  }

  /** Adding the id to its type set, once its record is stored. */
  lemma TypeWriteKeepsSound(t: State, e: Entry)
    requires Sound(t) && Consistent(e) && e.id in t.records && t.records[e.id] == e.fields
    ensures Sound(Apply(t, e, IndexType)) && Apply(t, e, IndexType).records == t.records
  {

  }

  /** Adding the id to its provider set, once its record is stored; the
      handler does so only for a truthy provider. */
  lemma ProviderWriteKeepsSound(t: State, e: Entry)
    requires Sound(t) && Consistent(e) && e.id in t.records && t.records[e.id] == e.fields
    requires Truthy(e.provider)
    ensures Sound(Apply(t, e, IndexProvider)) && Apply(t, e, IndexProvider).records == t.records
  {

  }

  /** Every prefix of a POST's writes keeps the indexes sound, provided the
      id is fresh (as `uuid4()` ids are): the record is written before any
      index names it, so a store failure part-way through never leaves an
      index pointing at a missing or mismatched record. */
  lemma {:induction false} PrefixKeepsSound(s: State, e: Entry, n: nat)
    requires Sound(s) && Consistent(e) && e.id !in s.records && n <= |Writes(e)|
    ensures Sound(ApplyAll(s, e, Writes(e)[..n]))
    ensures ApplyAll(s, e, Writes(e)[..n]).records
            == if n == 0 then s.records else s.records[e.id := e.fields]
  {
    var ws := Writes(e);
    if n == 0 {
      assert ws[..0] == [];
    } else {
      PrefixKeepsSound(s, e, n - 1);
      assert ws[..n][..n - 1] == ws[..n - 1];
      var t := ApplyAll(s, e, ws[..n - 1]);
      assert ApplyAll(s, e, ws[..n]) == Apply(t, e, ws[n - 1]);
      if n == 1 {
        assert ws[..0] == [];
        RecordWriteKeepsSound(t, e);
      } else if n == 2 {
        PatientWriteKeepsSound(t, e);
      } else if n == 3 {
        TypeWriteKeepsSound(t, e);
      } else {
        ProviderWriteKeepsSound(t, e);
      }
    }
  }

  /** A POST that completes leaves every stored record indexed, whether or
      not the id was already in use: the merged hash carries the new
      patient, type and provider, and the id is added under each. */
  lemma PutKeepsComplete(s: State, e: Entry)
    requires Complete(s) && Consistent(e)
    ensures Complete(Put(s, e))
  {
    PutEffect(s, e);
    var u := Put(s, e);
    forall id | id in u.records ensures Indexed(u, id) {
      if id != e.id {
        assert u.records[id] == s.records[id];
        assert Indexed(s, id);
      }
    }
  }

  /** The provider SADD of a completed POST (`if provider:`): the id joins
      the set of the provider's printed text exactly when the provider is
      truthy, and no other provider set changes. A stored provider text
      that is neither empty nor a zero can only come from a truthy
      provider, which is what `Complete` relies on. */
  lemma ProviderIndexed(s: State, e: Entry)
    requires Consistent(e)
    ensures e.id in Members(Put(s, e).byProvider, Text(e.provider))
            <==> Truthy(e.provider) || e.id in Members(s.byProvider, Text(e.provider))
    ensures forall k :: k != Text(e.provider) ==> Members(Put(s, e).byProvider, k) == Members(s.byProvider, k)
    ensures IndexableProvider(e.fields["provider"]) ==> Truthy(e.provider)
  {
    PutEffect(s, e);
  }

  /** The number 0 and the string "0" both print as "0", yet only the
      string is truthy: a POST with the string is added to `provider:0`,
      one with the number leaves that set as it was. */
  lemma ZeroProviderByKind(s: State, a: Entry, b: Entry)
    requires Consistent(a) && Consistent(b)
    requires a.provider == Num("0") && b.provider == Str("0")
    ensures a.fields["provider"] == b.fields["provider"] == "0"
    ensures Members(Put(s, a).byProvider, "0") == Members(s.byProvider, "0")
    ensures Members(Put(s, b).byProvider, "0") == Members(s.byProvider, "0") + {b.id}
  {
    PutEffect(s, a);
    PutEffect(s, b);
  }

  /** With a fresh id, the stored hash is exactly the map the POST returns,
      and every other stored hash is as it was. */
  lemma PutStoresEntry(s: State, e: Entry)
    requires e.id !in s.records
    ensures Put(s, e).records == s.records[e.id := e.fields]
  {
    PutEffect(s, e);
    assert Hash(s.records, e.id) + e.fields == e.fields;
  }

  /** The query arguments of GET: absent or empty means "no filter". */
  datatype Filters = Filters(patientId: Option<string>, recordType: Option<string>,
                             provider: Option<string>)

  predicate Unfiltered(q: Filters)
  {
    !Given(q.patientId) && !Given(q.recordType) && !Given(q.provider)
  }

  /** `id` lies in the set of every filter that is given. */
  predicate Selected(s: State, q: Filters, id: string)
  {
    && (Given(q.patientId) ==> id in Members(s.byPatient, q.patientId.value))
    && (Given(q.recordType) ==> id in Members(s.byType, q.recordType.value))
    && (Given(q.provider) ==> id in Members(s.byProvider, q.provider.value))
  }

  /** The ids a GET looks up: with no filter, every id of every patient
      set; otherwise the ids selected by all given filters. */
  function Candidates(s: State, q: Filters): set<string>
  {
    if Unfiltered(q) then Ids(s.byPatient)
    else set id | id in Ids(s.byPatient) + Ids(s.byType) + Ids(s.byProvider) && Selected(s, q, id)
  }

  /** The stored maps of `ids`, skipping ids with no stored hash. */
  function Resolve(s: State, ids: set<string>): set<Stored>
  {
    set id | id in ids && Hash(s.records, id) != map[] :: s.records[id]
  }

  /** What a GET returns. */
  function Answer(s: State, q: Filters): set<Stored>
  {
    Resolve(s, Candidates(s, q))
  }

  /** The stored map satisfies every given filter: its text under the
      filter's field is the filter's text. */
  predicate Matches(f: Stored, q: Filters)
  {
    && (Given(q.patientId) ==> "patient_id" in f && f["patient_id"] == q.patientId.value)
    && (Given(q.recordType) ==> "type" in f && f["type"] == q.recordType.value)
    && (Given(q.provider) ==> "provider" in f && f["provider"] == q.provider.value)
  }

  /** `id` lies in every one of `sets`. */
  predicate InAll(sets: seq<set<string>>, id: string)
  {
    forall i :: 0 <= i < |sets| ==> id in sets[i]
  }

  /** Appending a set narrows the ids in all of them to that set. */
  lemma InAllAppend(sets: seq<set<string>>, x: set<string>)
    ensures forall id :: InAll(sets + [x], id) <==> InAll(sets, id) && id in x
  {
    forall id ensures InAll(sets + [x], id) <==> InAll(sets, id) && id in x {
      if InAll(sets + [x], id) {
        assert (sets + [x])[|sets|] == x;
        forall i | 0 <= i < |sets| ensures id in sets[i] {
          assert (sets + [x])[i] == sets[i];
        }
      }
    }
  }

  /** `set.intersection(*sets)`. */
  function Intersection(sets: seq<set<string>>): (r: set<string>)
    requires |sets| > 0
    ensures forall id :: id in r <==> InAll(sets, id)
  {
    if |sets| == 1 then sets[0]
    else
      var rest := Intersection(sets[1..]);
      assert forall i :: 1 <= i < |sets| ==> sets[i] == sets[1..][i - 1];
      sets[0] * rest
  }

  /** AND semantics: over sound indexes, every map a GET returns satisfies
      every given filter. */
  lemma AnswerMatches(s: State, q: Filters)
    requires Sound(s)
    ensures forall f :: f in Answer(s, q) ==> Matches(f, q)
  {

  }

  /** Over sound and complete indexes a GET returns exactly the stored maps
      that satisfy every given filter; with no filter, every stored map.
      A provider filter that reads as a numeric zero is the exception: it
      misses records whose provider was that number, as those were never
      indexed. */
  lemma AnswerExact(s: State, q: Filters)
    requires Sound(s) && Complete(s)
    requires Given(q.provider) ==> q.provider.value !in ZeroTexts
    ensures Answer(s, q) == set id | id in s.records && Matches(s.records[id], q) :: s.records[id]
  {

  }

  /** A complete POST of a fresh id onto sound and complete indexes: they
      stay sound and complete, and the stored hash is the entry's map. */
  lemma PutFresh(s: State, e: Entry)
    requires Sound(s) && Complete(s) && Consistent(e) && e.id !in s.records
    ensures Sound(Put(s, e)) && Complete(Put(s, e))
    ensures Put(s, e).records == s.records[e.id := e.fields]
  {
    PrefixKeepsSound(s, e, |Writes(e)|);
    assert Writes(e)[..|Writes(e)|] == Writes(e);
    PutKeepsComplete(s, e);
  }

  /** The filters a client would use to find `e` again: its own patient and
      type, and its provider when it has a truthy one (only then is the id
      in a provider set). */
  function OwnFilters(e: Entry): Filters
  {
    Filters(Some(Text(e.patientId)), Some(e.recordType),
            if Truthy(e.provider) then Some(Text(e.provider)) else None)
  }

  /** Round trip: after a complete POST with a fresh id, a GET filtered by
      the record's own patient, type and provider returns the map that POST
      stored. */
  lemma PutThenQuery(s: State, e: Entry)
    requires Consistent(e) && e.id !in s.records
    ensures e.fields in Answer(Put(s, e), OwnFilters(e))
  {
    var u := Put(s, e);
    var q := OwnFilters(e);
    PutEffect(s, e);
    assert Hash(s.records, e.id) + e.fields == e.fields;
    assert u.records[e.id] == e.fields;
    assert e.id in Members(u.byPatient, Text(e.patientId));
    assert e.id in Ids(u.byPatient);
    assert Selected(u, q, e.id);
    assert e.id in Candidates(u, q);
    assert Hash(u.records, e.id) != map[];
  }

  /** Intersection, never union: of two records of one patient with
      different types, a GET by that patient and the first record's type
      returns only the first. */
  lemma IntersectionNotUnion(a: Entry, b: Entry)
    requires Consistent(a) && Consistent(b)
    requires a.id != b.id && a.patientId == b.patientId
    requires a.recordType != "" && a.recordType != b.recordType
    ensures Answer(Put(Put(Empty, a), b), Filters(Some(Text(a.patientId)), Some(a.recordType), None))
            == {a.fields}
  {
    var q := Filters(Some(Text(a.patientId)), Some(a.recordType), None);
    var s1 := Put(Empty, a);
    PutFresh(Empty, a);
    PutFresh(s1, b);
    var s2 := Put(s1, b);
    assert s2.records == map[a.id := a.fields][b.id := b.fields];
    assert s2.records[a.id] == a.fields && s2.records[b.id] == b.fields;
    assert Matches(a.fields, q);
    assert b.fields["type"] != a.recordType;
    assert s2.records.Keys == {a.id, b.id};
    AnswerOfTwo(s2, a.id, b.id, q);
  }

  /** Over sound and complete indexes holding two records, a GET returns
      just the one that satisfies the filters. */
  lemma AnswerOfTwo(s: State, x: string, y: string, q: Filters)
    requires Sound(s) && Complete(s) && x != y && s.records.Keys == {x, y}
    requires Matches(s.records[x], q) && !Matches(s.records[y], q)
    requires Given(q.provider) ==> q.provider.value !in ZeroTexts
    ensures Answer(s, q) == {s.records[x]}
  {

  }

  /** The index keys are `str()` of the body's values, so a patient given
      as the number 123 and one given as the string "123" share the set
      `patient:123`: a GET by "123" returns both records. */
  lemma NumberAndStringShareKey(s: State, a: Entry, b: Entry, t: string)
    requires Consistent(a) && Consistent(b) && a.id != b.id
    requires a.id !in s.records && b.id !in s.records
    requires a.patientId == Num(t) && b.patientId == Str(t) && t != ""
    ensures a.fields in Answer(Put(Put(s, a), b), Filters(Some(t), None, None))
    ensures b.fields in Answer(Put(Put(s, a), b), Filters(Some(t), None, None))
  {
    var s1 := Put(s, a);
    var s2 := Put(s1, b);
    PutEffect(s, a);
    PutStoresEntry(s, a);
    PutEffect(s1, b);
    PutStoresEntry(s1, b);
    ListedByPatient(s2, t, a.id);
    ListedByPatient(s2, t, b.id);
  }

  /** A stored record in the set of patient `t` is in the answer of a GET
      by that patient alone. */
  lemma ListedByPatient(s: State, t: string, id: string)
    requires t != "" && id in Members(s.byPatient, t) && id in s.records && s.records[id] != map[]
    ensures s.records[id] in Answer(s, Filters(Some(t), None, None))
  {
    assert id in Ids(s.byPatient);
  }

  /** A POST cut short right after its HSET leaves a stored record that no
      GET can reach: it is in no index set, and GET only looks up ids
      found in index sets. */
  lemma OrphanUnreachable(s: State, e: Entry, q: Filters)
    requires Sound(s) && Consistent(e) && e.id !in s.records
    ensures e.id in ApplyAll(s, e, Writes(e)[..1]).records
    ensures e.id !in Candidates(ApplyAll(s, e, Writes(e)[..1]), q)
  {

  }

  /** The backing store as the route handlers use it. */
  class Store {
    var records: map<string, Stored>
    var byPatient: Index
    var byType: Index
    var byProvider: Index

    /** A client on a database that already holds `s0`. */
    constructor (s0: State)
      ensures Snapshot() == s0
    {
      records, byPatient, byType, byProvider := s0.records, s0.byPatient, s0.byType, s0.byProvider;
    }

    function Snapshot(): State
      reads this
    {
      State(records, byPatient, byType, byProvider)
    }

    /** POST /health-records. `id` and `now` stand for `uuid4()` and
        `datetime.now()`, `toFloat` for `float`; `failAt` is the position,
        among this request's writes, of the one that raises a `RedisError`
        (none when it is at least the number of writes). `replyLost` says
        that the server carried that write out but its reply never arrived
        (a timeout on the first try and on the retry), so the client raises
        after the write took effect. */
    method Add(body: Fields, id: string, now: Timestamp, toFloat: Value -> Conversion,
               failAt: nat, replyLost: bool)
      returns (r: Result<Fields, Error>)
      modifies this
      ensures var built := Build(body, Get(body, "provider"), id, now, toFloat);
              if built.Err? then r == Err(built.error) && Snapshot() == old(Snapshot())
              else if EntryOf(built.value).None? then r == Err(StoreError) && Snapshot() == old(Snapshot())
              else
                var e := EntryOf(built.value).value;
                var ws := Writes(e);
                var done := if failAt >= |ws| then |ws| else if replyLost then failAt + 1 else failAt;
                && Snapshot() == ApplyAll(old(Snapshot()), e, ws[..done])
                && r == if failAt < |ws| then Err(StoreError) else Ok(Render(built.value))
      ensures Sound(old(Snapshot())) && id !in old(records) ==> Sound(Snapshot())
      ensures Complete(old(Snapshot())) && r.Ok? ==> Complete(Snapshot())
    {
      var built := Build(body, Get(body, "provider"), id, now, toFloat);
      if built.Err? {
        return Err(built.error);
      }
      var record := built.value;
      var recordDict := Render(record);
      var entry := EntryOf(record);
      if entry.None? {
        return Err(StoreError);
      }
      ghost var s0 := Snapshot();
      ghost var ws := Writes(entry.value);
      ghost var done := if failAt >= |ws| then |ws| else if replyLost then failAt + 1 else failAt;
      var stored := Persist(entry.value, failAt, replyLost);
      if Sound(s0) && id !in s0.records {
        PrefixKeepsSound(s0, entry.value, done);
      }
      if stored && Complete(s0) {
        PutKeepsComplete(s0, entry.value);
        assert ws[..done] == ws;
      }
      r := if stored then Ok(recordDict) else Err(StoreError);
    }

    /** The writes of one POST, in the handler's order, stopping at the one
        that raises: before it when the server refused it, after it when
        only its reply was lost. True when no write raised. The handler
        indexes under the body's `patient_id`, `type` and `provider`, which
        are the record's own. */
    method Persist(e: Entry, failAt: nat, replyLost: bool) returns (stored: bool)
      modifies this
      ensures var ws := Writes(e);
              var done := if failAt >= |ws| then |ws| else if replyLost then failAt + 1 else failAt;
              Snapshot() == ApplyAll(old(Snapshot()), e, ws[..done]) && stored == (failAt >= |ws|)
    {
      ghost var s0 := Snapshot();
      var ws := Writes(e);
      var limit := if failAt < |ws| && replyLost then failAt + 1 else failAt;
      stored := failAt >= |ws|;
      assert ws[..0] == [];
      if limit == 0 {
        return;
      }
      records := records[e.id := Hash(records, e.id) + e.fields];
      assert ws[..1][..0] == ws[..0];
      assert Snapshot() == ApplyAll(s0, e, ws[..1]);
      if limit == 1 {
        return;
      }
      byPatient := AddMember(byPatient, Text(e.patientId), e.id);
      assert ws[..2][..1] == ws[..1];
      assert Snapshot() == ApplyAll(s0, e, ws[..2]);
      if limit == 2 {
        return;
      }
      byType := AddMember(byType, e.recordType, e.id);
      assert ws[..3][..2] == ws[..2];
      assert Snapshot() == ApplyAll(s0, e, ws[..3]);
      if Truthy(e.provider) {
        if limit == 3 {
          return;
        }
        byProvider := AddMember(byProvider, Text(e.provider), e.id);
        assert ws[..4][..3] == ws[..3];
        assert Snapshot() == ApplyAll(s0, e, ws[..4]);
        assert ws[..4] == ws;
      } else {
        assert ws[..3] == ws;
      }
    }

    /** GET /health-records: one set per given filter, their intersection
        (or, with no filter, the union of all patient sets), then each id
        resolved to its stored map. Redis sets have no order, so neither
        does the answer. */
    method Query(q: Filters) returns (found: set<Stored>)
      ensures found == Answer(Snapshot(), q)
    {
      var filterSets := FilterSets(q);
      var ids: set<string>;
      if filterSets != [] {
        ids := if |filterSets| > 1 then Intersection(filterSets) else filterSets[0];
        CandidatesFiltered(Snapshot(), q, ids);
      } else {
        ids := AllPatientIds();
      }
      found := {};
      var pending := ids;
      while pending != {}
        invariant pending <= ids
        invariant found == Resolve(Snapshot(), ids - pending)
        decreases pending
      {
        var id :| id in pending;
        var data := Hash(records, id);
        ResolveGrow(Snapshot(), ids - pending, id);
        if data != map[] {
          found := found + {data};
        }
        pending := pending - {id};
      }
      assert ids - {} == ids;
    }

    /** One index set per given filter, in the order patient, type,
        provider. */
    method FilterSets(q: Filters) returns (sets: seq<set<string>>)
      ensures sets == [] <==> Unfiltered(q)
      ensures forall id :: InAll(sets, id) <==> Selected(Snapshot(), q, id)
    {
      sets := [];
      if Given(q.patientId) {
        InAllAppend(sets, Members(byPatient, q.patientId.value));
        sets := sets + [Members(byPatient, q.patientId.value)];
      }
      assert forall id :: InAll(sets, id)
                          <==> (Given(q.patientId) ==> id in Members(byPatient, q.patientId.value));
      if Given(q.recordType) {
        InAllAppend(sets, Members(byType, q.recordType.value));
        sets := sets + [Members(byType, q.recordType.value)];
      }
      assert forall id :: InAll(sets, id)
                          <==> (Given(q.patientId) ==> id in Members(byPatient, q.patientId.value))
                               && (Given(q.recordType) ==> id in Members(byType, q.recordType.value));
      if Given(q.provider) {
        InAllAppend(sets, Members(byProvider, q.provider.value));
        sets := sets + [Members(byProvider, q.provider.value)];
      }
    }

    /** With no filter: every key of the patient family, and the union of
        their sets. */
    method AllPatientIds() returns (ids: set<string>)
      ensures ids == Ids(byPatient)
    {
      ids := {};
      var keys := byPatient.Keys;
      while keys != {}
        invariant keys <= byPatient.Keys
        invariant ids == Ids(byPatient - keys)
        decreases keys
      {
        var key :| key in keys;
        IdsGrow(byPatient, keys, key);
        ids := ids + byPatient[key];
        keys := keys - {key};
      }
      assert byPatient - {} == byPatient;
    }
  }

  /** With some filter given, the ids in every given filter's set are the
      candidates. */
  lemma CandidatesFiltered(s: State, q: Filters, ids: set<string>)
    requires !Unfiltered(q)
    requires forall id :: id in ids <==> Selected(s, q, id)
    ensures ids == Candidates(s, q)
  {

  }

  /** Taking one more key of an index family adds that key's set. */
  lemma IdsGrow(index: Index, pending: set<string>, key: string)
    requires key in pending && pending <= index.Keys
    ensures Ids(index - (pending - {key})) == Ids(index - pending) + index[key]
  {
    var before := index - pending;
    var after := index - (pending - {key});
    forall id | id in Ids(after) ensures id in Ids(before) + index[key] {
      var k :| k in after && id in after[k];
      if k != key {
        assert k in before;
      }
    }
    forall id | id in Ids(before) + index[key] ensures id in Ids(after) {
      if id in index[key] {
        assert key in after;
      } else {
        var k :| k in before && id in before[k];
        assert k in after;
      }
    }
  }

  /** Resolving one more id adds its stored map, if it has one. */
  lemma ResolveGrow(s: State, done: set<string>, id: string)
    ensures Resolve(s, done + {id})
            == Resolve(s, done) + if Hash(s.records, id) != map[] then {s.records[id]} else {}
  {
  }
}
