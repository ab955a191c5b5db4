/** Validation and type dispatch of a POST body, shared by both handlers
    (app/routes/health_records.py and the older main.py): the record is
    fully built, or the request fails, before anything is stored. */
module Requests {
  import opened Values
  import opened IsoTime
  import opened Records

  /** The outcomes a handler reports instead of a record. */
  datatype Error =
    | MissingRequired          // 400 "Missing required fields"
    | InvalidType              // 400 "Invalid record type"
    | MissingField(name: string)  // 400 KeyError: "Missing required field: '<name>'"
    | BadValue                 // 400 ValueError raised by float(...)
    | Unhandled                // float(...) raised an exception no handler catches (TypeError, OverflowError): a 500
    | StoreError               // 500 "Database error" (RedisError)

  /** Python's `float(x)`: the text of the float it returns, or the
      exception it raises. `ValueError` is the one the handlers catch;
      `TypeError` stands for every exception they do not catch (a
      `TypeError` on a null, an `OverflowError` on a huge integer). Which
      strings parse is left to the caller. */
  datatype Conversion = Converted(text: string) | ValueError | TypeError

  /** The request names one of the four variants. */
  predicate KnownTag(v: Value)
  {
    v.Str? && v.s in VariantTags
  }

  /** Variants whose `value` goes through `float(...)`. */
  predicate Numeric(tag: string)
  {
    tag == "lab_result" || tag == "self_measurement"
  }

  /** The first of `names` that `body` lacks. */
  function FirstAbsent(names: seq<string>, body: Fields): (r: Option<string>)
    ensures r.None? <==> forall i :: 0 <= i < |names| ==> names[i] in body
    ensures r.Some? ==> exists i :: 0 <= i < |names| && names[i] == r.value && r.value !in body
                          && forall j :: 0 <= j < i ==> names[j] in body
  {
    if names == [] then None
    else if names[0] !in body then Some(names[0])
    else
      var rest := FirstAbsent(names[1..], body);
      if rest.Some? then
        ghost var i :| 0 <= i < |names| - 1 && names[1..][i] == rest.value && rest.value !in body
                       && forall j :: 0 <= j < i ==> names[1..][j] in body;
        assert names[i + 1] == rest.value;
        rest
      else
        assert forall i :: 1 <= i < |names| ==> names[i] == names[1..][i - 1];
        rest
  }

  /** The required-field check and the type dispatch of both POST
      handlers: check the two required keys, dispatch on the type tag, and
      build the record. The
      handlers read `value` (and convert it) before `description`, and
      `dose` before `drug`. `id` and `now` stand for `uuid4()` and
      `datetime.now()`; `toFloat` for Python's `float`. */
  function Build(body: Fields, provider: Value, id: string, now: Timestamp,
                 toFloat: Value -> Conversion): (r: Result<HealthRecord, Error>)
    ensures r == Err(MissingRequired) <==> "type" !in body || "patient_id" !in body
    ensures r == Err(InvalidType) <==>
              "type" in body && "patient_id" in body && !KnownTag(body["type"])
    ensures r == Err(BadValue) <==>
              "type" in body && "patient_id" in body && KnownTag(body["type"])
              && Numeric(body["type"].s) && "value" in body && toFloat(body["value"]).ValueError?
    ensures r == Err(Unhandled) <==>
              "type" in body && "patient_id" in body && KnownTag(body["type"])
              && Numeric(body["type"].s) && "value" in body && toFloat(body["value"]).TypeError?
    ensures r.Err? && r.error.MissingField? ==>
              "type" in body && KnownTag(body["type"])
              && FirstAbsent(FieldNames(body["type"].s), body) == Some(r.error.name)
    ensures r.Err? ==> !r.error.StoreError?
    ensures r.Ok? <==>
              "type" in body && "patient_id" in body && KnownTag(body["type"])
              && (forall f :: f in FieldNames(body["type"].s) ==> f in body)
              && (Numeric(body["type"].s) ==> toFloat(body["value"]).Converted?)
    ensures r.Ok? ==>
              && r.value.id == id && r.value.timestamp == now
              && r.value.patientId == body["patient_id"] && r.value.provider == provider
              && Str(Tag(r.value.details)) == body["type"]
    ensures r.Ok? ==> forall f :: f in FieldNames(Tag(r.value.details)) && f != "value" ==>
                        f in body && Render(r.value)[f] == body[f]
    ensures r.Ok? && Numeric(Tag(r.value.details)) ==>
              Render(r.value)["value"] == Num(toFloat(body["value"]).text)
  {
    if "type" !in body || "patient_id" !in body then Err(MissingRequired)
    else
      var tag := body["type"];
      var patientId := body["patient_id"];
      if tag == Str("lab_result") || tag == Str("self_measurement") then
        if "value" !in body then Err(MissingField("value"))
        else match toFloat(body["value"])
          case ValueError => Err(BadValue)
          case TypeError => Err(Unhandled)
          case Converted(x) =>
            if "description" !in body then Err(MissingField("description"))
            else
              var details := if tag == Str("lab_result")
                             then LabResult(Num(x), body["description"])
                             else SelfMeasurement(Num(x), body["description"]);
              Ok(Create(id, now, patientId, provider, None, details))
      else if tag == Str("prescription") then
        if "dose" !in body then Err(MissingField("dose"))
        else if "drug" !in body then Err(MissingField("drug"))
        else Ok(Create(id, now, patientId, provider, None, Prescription(body["dose"], body["drug"])))
      else if tag == Str("appointment_note") then
        if "note" !in body then Err(MissingField("note"))
        else Ok(Create(id, now, patientId, provider, None, AppointmentNote(body["note"])))
      else Err(InvalidType)
  }
}
