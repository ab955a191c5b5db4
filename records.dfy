/** The record model of app/models/health_records.py: one closed union over
    the four record variants and the flat field map each one renders to. */
module Records {
  import opened Values
  import opened IsoTime

  /** The variant-specific part of a record. The fields hold whatever the
      caller passed; the handlers pass a parsed float as `value`. */
  datatype Details =
    | LabResult(value: Value, description: Value)
    | Prescription(dose: Value, drug: Value)
    | AppointmentNote(note: Value)
    | SelfMeasurement(value: Value, description: Value)

  /** A record. Every field is set once when the record is built; the
      record type is the tag of `details`. */
  datatype HealthRecord = HealthRecord(id: string, patientId: Value, provider: Value,
                                       timestamp: Timestamp, details: Details)

  /** The type tag a variant's constructor hands to the base class. */
  function Tag(d: Details): string
  {
    match d
    case LabResult(_, _) => "lab_result"
    case Prescription(_, _) => "prescription"
    case AppointmentNote(_) => "appointment_note"
    case SelfMeasurement(_, _) => "self_measurement"
  }

  const VariantTags: set<string> := {"lab_result", "prescription", "appointment_note", "self_measurement"}

  /** The variant's own fields, in the order a handler reads them from a request. */
  function FieldNames(tag: string): seq<string>
  {
    if tag == "lab_result" || tag == "self_measurement" then ["value", "description"]
    else if tag == "prescription" then ["dose", "drug"]
    else if tag == "appointment_note" then ["note"]
    else []
  }

  /** Keys every rendered record carries, whatever its variant. */
  const CommonKeys: set<string> := {"id", "type", "patient_id", "provider", "timestamp"}

  /** `HealthRecord.__init__`: `provider` defaults to None at the call sites,
      and the timestamp is the one supplied, else the current time `now`. */
  function Create(id: string, now: Timestamp, patientId: Value, provider: Value,
                  timestamp: Option<Timestamp>, details: Details): (r: HealthRecord)
    ensures r.id == id && r.patientId == patientId && r.provider == provider
    ensures r.details == details
    ensures timestamp.Some? ==> r.timestamp == timestamp.value
    ensures timestamp.None? ==> r.timestamp == now
  {
    HealthRecord(id, patientId, provider,
                 match timestamp case Some(t) => t case None => now,
                 details)
  }

  /** The variant's own entries of `to_dict`. */
  function VariantFields(d: Details): (r: Fields)
    ensures forall k :: k in r <==> k in FieldNames(Tag(d))
    ensures (d.LabResult? || d.SelfMeasurement?) ==>
              "value" in r && "description" in r && r["value"] == d.value && r["description"] == d.description
    ensures d.Prescription? ==> "dose" in r && "drug" in r && r["dose"] == d.dose && r["drug"] == d.drug
    ensures d.AppointmentNote? ==> "note" in r && r["note"] == d.note
  {
    match d
    case LabResult(v, desc) => map["value" := v, "description" := desc]
    case Prescription(dose, drug) => map["dose" := dose, "drug" := drug]
    case AppointmentNote(note) => map["note" := note]
    case SelfMeasurement(v, desc) => map["value" := v, "description" := desc]
  }

  /** `to_dict` of the four subclasses. */
  function Render(rec: HealthRecord): (r: Fields)
    ensures forall k :: k in r <==> k in CommonKeys || k in FieldNames(Tag(rec.details))
    ensures r["type"] == Str(Tag(rec.details)) && Tag(rec.details) in VariantTags
    ensures r["id"] == Str(rec.id)
    ensures r["patient_id"] == rec.patientId && r["provider"] == rec.provider
    ensures r["timestamp"] == Str(IsoFormat(rec.timestamp))
    ensures (rec.details.LabResult? || rec.details.SelfMeasurement?) ==>
              "value" in r && "description" in r
              && r["value"] == rec.details.value && r["description"] == rec.details.description
    ensures rec.details.Prescription? ==>
              "dose" in r && "drug" in r && r["dose"] == rec.details.dose && r["drug"] == rec.details.drug
    ensures rec.details.AppointmentNote? ==> "note" in r && r["note"] == rec.details.note
  {
    var own := VariantFields(rec.details);
    assert "id" !in own && "type" !in own && "patient_id" !in own;
    assert "provider" !in own && "timestamp" !in own;
    var r := map["id" := Str(rec.id), "type" := Str(Tag(rec.details)),
                 "patient_id" := rec.patientId, "provider" := rec.provider,
                 "timestamp" := Str(IsoFormat(rec.timestamp))] + own;
    assert r["id"] == Str(rec.id) && r["type"] == Str(Tag(rec.details));
    assert r["patient_id"] == rec.patientId && r["provider"] == rec.provider;
    assert r["timestamp"] == Str(IsoFormat(rec.timestamp));
    r
  }

  /** The rendered `timestamp` is text `fromisoformat` reads back as the
      record's own instant. */
  lemma RenderedTimestampParses(rec: HealthRecord)
    ensures Render(rec)["timestamp"].Str?
    ensures FromIsoFormat(Render(rec)["timestamp"].s) == Some(rec.timestamp)
  {
    IsoRoundTrip(rec.timestamp);
  }
}
