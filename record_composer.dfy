/** Building the flat record that Add appends: twelve display strings copied
    from the four resolved entities, with "Unknown" for an absent entity. */
module RecordComposer {
  import opened Wrappers
  import opened ApiTypes
  import opened NumberFormat
  import opened Selection

  const UNKNOWN: string := "Unknown"

  /** `entity?.field ?? 'Unknown'`: a present entity's field is shown as it
      is, and the text reads "Unknown" exactly when the entity is absent or
      that field itself is the text "Unknown". */
  function FieldOr<T>(entity: Option<T>, field: T -> string): (r: string)
    ensures entity.Some? ==> r == field(entity.value)
    ensures r == UNKNOWN <==> entity.None? || field(entity.value) == UNKNOWN
  {
    match entity
    case Some(e) => field(e)
    case None => UNKNOWN
  }

  /** The record for the four resolved details (properties below). */
  function Compose(
    location: Option<Location>, centre: Option<Centre>,
    patient: Option<Patient>, slot: Option<VaccinationSlot>): (r: AddedRecord)
  {
    AddedRecord(
      location := FieldOr(location, (l: Location) => l.city),
      locationState := FieldOr(location, (l: Location) => l.state),
      locationCountry := FieldOr(location, (l: Location) => l.country),
      centre := FieldOr(centre, (c: Centre) => c.name),
      centreAddress := FieldOr(centre, (c: Centre) => c.address),
      patient := FieldOr(patient, (p: Patient) => p.patient_name),
      patientAge := FieldOr(patient, (p: Patient) => NumberToString(p.age)),
      patientContact := FieldOr(patient, (p: Patient) => p.gender),
      slot := FieldOr(slot, (s: VaccinationSlot) => s.kind),
      slotDate := FieldOr(slot, (s: VaccinationSlot) => s.date),
      slotTime := FieldOr(slot, (s: VaccinationSlot) => s.time),
      availableSlots := FieldOr(slot, (s: VaccinationSlot) => NumberToString(s.available_slots)))
  }

  /** A present entity is copied field by field, an empty string included;
      an absent one yields "Unknown" in each of its fields. */
  lemma ComposeCopiesFields(
    location: Option<Location>, centre: Option<Centre>,
    patient: Option<Patient>, slot: Option<VaccinationSlot>)
    ensures var r := Compose(location, centre, patient, slot);
      && (location.Some? ==>
            r.location == location.value.city && r.locationState == location.value.state &&
            r.locationCountry == location.value.country)
      && (location.None? ==> r.location == r.locationState == r.locationCountry == UNKNOWN)
      && (centre.Some? ==> r.centre == centre.value.name && r.centreAddress == centre.value.address)
      && (centre.None? ==> r.centre == r.centreAddress == UNKNOWN)
      && (patient.Some? ==> r.patient == patient.value.patient_name && r.patientContact == patient.value.gender)
      && (patient.None? ==> r.patient == r.patientAge == r.patientContact == UNKNOWN)
      && (slot.Some? ==> r.slot == slot.value.kind && r.slotDate == slot.value.date && r.slotTime == slot.value.time)
      && (slot.None? ==> r.slot == r.slotDate == r.slotTime == r.availableSlots == UNKNOWN)
  {
  }

  /** The two numeric fields read back as the entity's numbers when it is
      present, and as no number at all when it fell back to "Unknown". */
  lemma ComposedNumbersReadBack(
    location: Option<Location>, centre: Option<Centre>,
    patient: Option<Patient>, slot: Option<VaccinationSlot>)
    ensures var r := Compose(location, centre, patient, slot);
      && ParseDecimal(r.patientAge) == (if patient.Some? then Some(patient.value.age) else None)
      && ParseDecimal(r.availableSlots) == (if slot.Some? then Some(slot.value.available_slots) else None)
  {
    ComposeCopiesFields(location, centre, patient, slot);
    UnknownIsNotANumber();
    if patient.Some? { NumberRoundTrip(patient.value.age); }
    if slot.Some? { NumberRoundTrip(slot.value.available_slots); }
  }

  /** A field reads "Unknown" only when its entity is absent or that very
      field of the entity is the text "Unknown"; text fields are otherwise
      copied unchanged, and the numeric ones are never "Unknown" for a present entity. */
  lemma FallbackOnlyWhenAbsent(
    location: Option<Location>, centre: Option<Centre>,
    patient: Option<Patient>, slot: Option<VaccinationSlot>)
    ensures var r := Compose(location, centre, patient, slot);
      && (r.patientAge == UNKNOWN <==> patient.None?)
      && (r.availableSlots == UNKNOWN <==> slot.None?)
      && (r.location == UNKNOWN <==> location.None? || location.value.city == UNKNOWN)
      && (r.locationState == UNKNOWN <==> location.None? || location.value.state == UNKNOWN)
      && (r.locationCountry == UNKNOWN <==> location.None? || location.value.country == UNKNOWN)
      && (r.centre == UNKNOWN <==> centre.None? || centre.value.name == UNKNOWN)
      && (r.centreAddress == UNKNOWN <==> centre.None? || centre.value.address == UNKNOWN)
      && (r.patient == UNKNOWN <==> patient.None? || patient.value.patient_name == UNKNOWN)
      && (r.patientContact == UNKNOWN <==> patient.None? || patient.value.gender == UNKNOWN)
      && (r.slot == UNKNOWN <==> slot.None? || slot.value.kind == UNKNOWN)
      && (r.slotDate == UNKNOWN <==> slot.None? || slot.value.date == UNKNOWN)
      && (r.slotTime == UNKNOWN <==> slot.None? || slot.value.time == UNKNOWN)
  {
    ComposeCopiesFields(location, centre, patient, slot);
    ComposedNumbersReadBack(location, centre, patient, slot);
  }

  /** Add composes only when all four selections are truthy. */
  predicate AllSelected(l: Choice, c: Choice, p: Choice, s: Choice) {
    IsTruthy(l) && IsTruthy(c) && IsTruthy(p) && IsTruthy(s)
  }
}
