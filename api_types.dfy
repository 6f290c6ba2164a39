/** The records exchanged with the vaccination REST API (src/types/api.ts). */
module ApiTypes {

  /** A location; `centres` is the nested list the API type declares. */
  datatype Location = Location(
    id: int,
    country: string,
    state: string,
    city: string,
    centres: seq<Centre>)

  /** A vaccination centre, owned by the location `location_id`. */
  datatype Centre = Centre(
    id: int,
    name: string,
    address: string,
    location_id: int,
    patients: seq<Patient>)

  /** A patient, registered at the centre `centre`. */
  datatype Patient = Patient(
    id: int,
    patient_name: string,
    age: int,
    gender: string,
    centre: int)

  /** A bookable slot, belonging to the patient `patient`. */
  datatype VaccinationSlot = VaccinationSlot(
    id: int,
    kind: string,
    date: string,
    time: string,
    available_slots: int,
    patient: int)

  /** The flat, display-only snapshot of one full chain of selections. */
  datatype AddedRecord = AddedRecord(
    location: string,
    locationState: string,
    locationCountry: string,
    centre: string,
    centreAddress: string,
    patient: string,
    patientAge: string,
    patientContact: string,
    slot: string,
    slotDate: string,
    slotTime: string,
    availableSlots: string)

  /** The outcome of one GET request for a list: the decoded list, or a
      failure (network error, bad status, undecodable body). */
  datatype Response<T> = Fetched(items: seq<T>) | FetchFailed
}
