/** The older single-file server, main.py: the same record variants and
    request handling, without a provider, kept in one in-memory dictionary
    from record id to rendered map. GET lists the dictionary's values in
    insertion order and filters them by patient and by type. */
module Legacy {
  import opened Values
  import opened IsoTime
  import opened Records
  import opened Requests

  /** `to_dict` of main.py's four classes: the newer rendering without its
      `provider` entry. */
  function LegacyRender(rec: HealthRecord): (r: Fields)
    ensures r == Render(rec) - {"provider"}
    ensures forall k :: k in r <==> k in CommonKeys - {"provider"} || k in FieldNames(Tag(rec.details))
  {
    var own := VariantFields(rec.details);
    assert "id" !in own && "type" !in own && "patient_id" !in own;
    assert "provider" !in own && "timestamp" !in own;
    map["id" := Str(rec.id), "type" := Str(Tag(rec.details)),
        "patient_id" := rec.patientId,
        "timestamp" := Str(IsoFormat(rec.timestamp))] + own
  }

  /** `r[key] == value` on a stored map: Python equality, so the stored
      value must be that very string (the number 123 is not "123"). */
  predicate Equals(f: Fields, key: string, value: string)
  {
    key in f && f[key] == Str(value)
  }

  /** Both list comprehensions of GET: a filter applies only when its
      argument is present and non-empty. */
  predicate LegacyMatches(f: Fields, patientId: Option<string>, recordType: Option<string>)
  {
    && (Given(patientId) ==> Equals(f, "patient_id", patientId.value))
    && (Given(recordType) ==> Equals(f, "type", recordType.value))
  }

  /** `[r for r in rs if r[key] == arg]` when `arg` is given, else `rs`. */
  function Keep(rs: seq<Fields>, key: string, arg: Option<string>): (r: seq<Fields>)
    ensures |r| <= |rs|
    ensures forall f :: f in r <==> f in rs && (Given(arg) ==> Equals(f, key, arg.value))
    ensures !Given(arg) ==> r == rs
  {
    if !Given(arg) || rs == [] then rs
    else
      var rest := Keep(rs[1..], key, arg);
      assert forall f :: f in rs <==> f == rs[0] || f in rs[1..];
      if Equals(rs[0], key, arg.value) then [rs[0]] + rest else rest
  }

  /** Filtering keeps the relative order: it distributes over `+`. */
  lemma {:induction false} KeepAppend(a: seq<Fields>, b: seq<Fields>, key: string, arg: Option<string>)
    ensures Keep(a + b, key, arg) == Keep(a, key, arg) + Keep(b, key, arg)
  {
    if a == [] {
      assert a + b == b;
    } else if Given(arg) {
      var c := a + b;
      assert c[0] == a[0] && c[1..] == a[1..] + b;
      KeepAppend(a[1..], b, key, arg);
      var head := if Equals(a[0], key, arg.value) then [a[0]] else [];
      assert Keep(c, key, arg) == head + Keep(a[1..] + b, key, arg);
      assert Keep(a, key, arg) == head + Keep(a[1..], key, arg);
    }
  }

  /** `list(health_records.values())`: the stored maps in insertion order. */
  function ValuesOf(order: seq<string>, records: map<string, Fields>): (r: seq<Fields>)
    requires forall i :: 0 <= i < |order| ==> order[i] in records
    ensures |r| == |order| && forall i :: 0 <= i < |order| ==> r[i] == records[order[i]]
  {
    if order == [] then []
    else ValuesOf(order[..|order| - 1], records) + [records[order[|order| - 1]]]
  }

  /** The answer of GET over the listed values. */
  function Select(values: seq<Fields>, patientId: Option<string>, recordType: Option<string>)
    : (r: seq<Fields>)
    ensures forall f :: f in r <==> f in values && LegacyMatches(f, patientId, recordType)
    ensures !Given(patientId) && !Given(recordType) ==> r == values
  {
    Keep(Keep(values, "patient_id", patientId), "type", recordType)
  }

  /** Storing a new id appends its map to the listed values; the maps
      already there keep their places. */
  lemma ValuesAppend(order: seq<string>, records: map<string, Fields>, id: string, f: Fields)
    requires forall i :: 0 <= i < |order| ==> order[i] in records
    requires id !in order
    ensures ValuesOf(order + [id], records[id := f]) == ValuesOf(order, records) + [f]
  {

  }

  /** After a new record is stored, GET answers what it answered before,
      followed by the new map when it passes the filters. */
  lemma AddThenSelect(order: seq<string>, records: map<string, Fields>, id: string, f: Fields,
                      patientId: Option<string>, recordType: Option<string>)
    requires forall i :: 0 <= i < |order| ==> order[i] in records
    requires id !in order
    ensures Select(ValuesOf(order + [id], records[id := f]), patientId, recordType)
            == Select(ValuesOf(order, records), patientId, recordType)
               + if LegacyMatches(f, patientId, recordType) then [f] else []
  {
    var vs := ValuesOf(order, records);
    ValuesAppend(order, records, id, f);
    KeepAppend(vs, [f], "patient_id", patientId);
    var byPatient := Keep(vs, "patient_id", patientId);
    var tail := Keep([f], "patient_id", patientId);
    KeepAppend(byPatient, tail, "type", recordType);
    assert tail == if Given(patientId) && !Equals(f, "patient_id", patientId.value) then [] else [f];
  }

  /** A record posted with a numeric `patient_id` is never found by a
      patient filter: the query argument is a string and the stored value
      a number. */
  lemma NumericPatientNeverMatches(rec: HealthRecord, patientId: Option<string>,
                                   recordType: Option<string>)
    requires rec.patientId.Num? && Given(patientId)
    ensures !LegacyMatches(LegacyRender(rec), patientId, recordType)
  {

  }

  /** The module-level dictionary of main.py. `order` is its key order,
      which is the order `values()` lists them in. */
  class Memory {
    var order: seq<string>
    var records: map<string, Fields>

    /** Every key is listed exactly once. */
    predicate Valid()
      reads this
    {
      && (forall i, j :: 0 <= i < j < |order| ==> order[i] != order[j])
      && (forall i :: 0 <= i < |order| ==> order[i] in records)
      && (forall id :: id in records ==> id in order)
    }

    constructor ()
      ensures Valid() && order == [] && records == map[]
    {
      order, records := [], map[];
    }

    /** POST /health-records. `id` and `now` stand for `uuid4()` and
        `datetime.now()`, `toFloat` for `float`. Assigning to an existing
        key replaces its map and keeps its place. */
    method Add(body: Fields, id: string, now: Timestamp, toFloat: Value -> Conversion)
      returns (r: Result<Fields, Error>)
      requires Valid()
      modifies this
      ensures Valid()
      ensures var built := Build(body, Null, id, now, toFloat);
              if built.Err? then
                r == Err(built.error) && order == old(order) && records == old(records)
              else
                && r == Ok(LegacyRender(built.value))
                && records == old(records)[id := LegacyRender(built.value)]
                && order == if id in old(records) then old(order) else old(order) + [id]
    {
      var built := Build(body, Null, id, now, toFloat);
      if built.Err? {
        return Err(built.error);
      }
      var record := built.value;
      if record.id !in records {
        order := order + [record.id];
      }
      records := records[record.id := LegacyRender(record)];
      r := Ok(LegacyRender(record));
    }

    /** GET /health-records: the stored maps, in insertion order, that
        pass the given filters. */
    function Query(patientId: Option<string>, recordType: Option<string>): (r: seq<Fields>)
      requires Valid()
      reads this
      ensures forall f :: f in r <==>
                exists id :: id in records && records[id] == f && LegacyMatches(f, patientId, recordType)
    {
      var vs := ValuesOf(order, records);
      assert forall f :: f in vs <==> exists id :: id in records && records[id] == f by {
        forall f | f in vs ensures exists id :: id in records && records[id] == f {
          var i :| 0 <= i < |vs| && vs[i] == f;
          assert records[order[i]] == f;
        }
        forall f | (exists id :: id in records && records[id] == f) ensures f in vs {
          var id :| id in records && records[id] == f;
          var i :| 0 <= i < |order| && order[i] == id;
          assert vs[i] == f;
        }
      }
      Select(vs, patientId, recordType)
    }
  }
}
