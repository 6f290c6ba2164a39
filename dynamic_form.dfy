/** The cascading selection controller of the vaccination form
    (src/components/DynamicForm.tsx). Each piece of component state is a
    field; each effect and handler is a method that completes atomically,
    with the outcome of its GET request passed in as a `Response`. */
module DynamicForm {
  import opened Wrappers
  import opened ApiTypes
  import opened Selection
  import opened RecordComposer
  import opened NumberFormat

  class FormController {
    var locations: seq<Location>
    var centres: seq<Centre>
    var patients: seq<Patient>
    var slots: seq<VaccinationSlot>
    var selectedLocation: Choice
    var selectedCentre: Choice
    var selectedPatient: Choice
    var selectedSlot: Choice
    var addedRecords: seq<AddedRecord>

    /** Every collection empty, every selection `''`, no records. */
    constructor ()
      ensures locations == [] && centres == [] && patients == [] && slots == []
      ensures selectedLocation == None && selectedCentre == None
      ensures selectedPatient == None && selectedSlot == None
      ensures addedRecords == []
    {
      locations, centres, patients, slots := [], [], [], [];
      selectedLocation, selectedCentre, selectedPatient, selectedSlot := None, None, None, None;
      addedRecords := [];
    }

    // The detail views, derived from a selection and the collection it indexes.

    function LocationDetails(): (r: Option<Location>) reads this {
      ResolveLocation(locations, selectedLocation)
    }

    function CentreDetails(): (r: Option<Centre>) reads this {
      ResolveCentre(centres, selectedCentre)
    }

    function PatientDetails(): (r: Option<Patient>) reads this {
      ResolvePatient(patients, selectedPatient)
    }

    function SlotDetails(): (r: Option<VaccinationSlot>) reads this {
      ResolveSlot(slots, selectedSlot)
    }

    /** The record Add would append now. */
    function PendingRecord(): (r: AddedRecord) reads this {
      Compose(LocationDetails(), CentreDetails(), PatientDetails(), SlotDetails())
    }

    /** Add's guard: all four selections truthy. */
    predicate Complete() reads this {
      AllSelected(selectedLocation, selectedCentre, selectedPatient, selectedSlot)
    }

    /** The one-time load of all locations; a failure leaves them as they were. */
    method LoadLocations(response: Response<Location>)
      modifies this`locations
      ensures response.Fetched? ==> locations == response.items
      ensures response.FetchFailed? ==> locations == old(locations)
    {
      if response.Fetched? {
        locations := response.items;
      }
    }

    // A user's pick in one dropdown (`''` or an id). Nothing downstream is
    // cleared: the other selections keep their values.

    method ChooseLocation(value: Choice)
      modifies this`selectedLocation
      ensures selectedLocation == value
    {
      selectedLocation := value;
    }

    method ChooseCentre(value: Choice)
      modifies this`selectedCentre
      ensures selectedCentre == value
    {
      selectedCentre := value;
    }

    method ChoosePatient(value: Choice)
      modifies this`selectedPatient
      ensures selectedPatient == value
    {
      selectedPatient := value;
    }

    method ChooseSlot(value: Choice)
      modifies this`selectedSlot
      ensures selectedSlot == value
    {
      selectedSlot := value;
    }

    /** The effect run after the location selection changes. With no location
        it empties the centres without a request; otherwise it requests the
        centres of that location (returned as `request`) and takes the
        response, or an empty list when the request failed. */
    method RefreshCentres(response: Response<Centre>) returns (request: Option<int>)
      modifies this`centres
      ensures request == selectedLocation
      ensures request.None? ==> centres == []
      ensures request.Some? && response.Fetched? ==> centres == response.items
      ensures request.Some? && response.FetchFailed? ==> centres == []
    {
      if selectedLocation.Some? {
        request := selectedLocation;
        if response.Fetched? {
          centres := response.items;
        } else {
          centres := [];
        }
      } else {
        request := None;
        centres := [];
      }
    }

    /** The effect run after the centre selection changes. With no centre it
        empties the patients without a request; otherwise it requests every
        patient and keeps those of the selected centre, in server order. A
        failed request leaves the patients as they were. */
    method RefreshPatients(response: Response<Patient>) returns (requested: bool)
      modifies this`patients
      ensures requested == IsChosen(selectedCentre)
      ensures !requested ==> patients == []
      ensures requested && response.Fetched? ==>
        patients == PatientsAtCentre(response.items, selectedCentre.value)
      ensures requested && response.FetchFailed? ==> patients == old(patients)
    {
      requested := selectedCentre.Some?;
      if selectedCentre.Some? {
        if response.Fetched? {
          patients := PatientsAtCentre(response.items, selectedCentre.value);
        }
      } else {
        patients := [];
      }
    }

    /** The effect run after the patient selection changes; as RefreshPatients,
        one level down. */
    method RefreshSlots(response: Response<VaccinationSlot>) returns (requested: bool)
      modifies this`slots
      ensures requested == IsChosen(selectedPatient)
      ensures !requested ==> slots == []
      ensures requested && response.Fetched? ==>
        slots == SlotsOfPatient(response.items, selectedPatient.value)
      ensures requested && response.FetchFailed? ==> slots == old(slots)
    {
      requested := selectedPatient.Some?;
      if selectedPatient.Some? {
        if response.Fetched? {
          slots := SlotsOfPatient(response.items, selectedPatient.value);
        }
      } else {
        slots := [];
      }
    }

    /** Add: with all four selections truthy, appends the composed record
        after the earlier ones and clears the four selections; otherwise
        changes nothing. */
    method Add()
      modifies this`addedRecords, this`selectedLocation, this`selectedCentre
      modifies this`selectedPatient, this`selectedSlot
      ensures old(Complete()) ==>
        && addedRecords == old(addedRecords) + [old(PendingRecord())]
        && selectedLocation == None && selectedCentre == None
        && selectedPatient == None && selectedSlot == None
      ensures !old(Complete()) ==>
        && addedRecords == old(addedRecords)
        && selectedLocation == old(selectedLocation) && selectedCentre == old(selectedCentre)
        && selectedPatient == old(selectedPatient) && selectedSlot == old(selectedSlot)
    {
      if Complete() {
        var record := PendingRecord();
        addedRecords := addedRecords + [record];
        selectedLocation, selectedCentre, selectedPatient, selectedSlot := None, None, None, None;
      }
    }

    /** Discard: clears the four selections; collections and records stay. */
    method Discard()
      modifies this`selectedLocation, this`selectedCentre, this`selectedPatient, this`selectedSlot
      ensures selectedLocation == None && selectedCentre == None
      ensures selectedPatient == None && selectedSlot == None
    {
      selectedLocation, selectedCentre, selectedPatient, selectedSlot := None, None, None, None;
    }
  }

  // The worked example: two locations, Delhi's one centre, a patient there
  // (and one of another centre), a slot of that patient.
  const Delhi := Location(1, "IN", "DL", "Delhi", [])
  const Mumbai := Location(2, "IN", "MH", "Mumbai", [])
  const C1 := Centre(10, "C1", "Addr1", 1, [])
  const Amit := Patient(100, "Amit", 30, "M", 10)
  const Bina := Patient(101, "Bina", 41, "F", 11)
  const Dose1 := VaccinationSlot(1000, "Dose1", "2024-01-01", "09:00", 5, 100)
  const DelhiRecord := AddedRecord("Delhi", "DL", "IN", "C1", "Addr1", "Amit", "30", "M",
                                   "Dose1", "2024-01-01", "09:00", "5")

  /** The worked example's four entities compose to the expected record. */
  lemma DelhiComposes()
    ensures Compose(Some(Delhi), Some(C1), Some(Amit), Some(Dose1)) == DelhiRecord
  {
    ComposeCopiesFields(Some(Delhi), Some(C1), Some(Amit), Some(Dose1));
    TwoDigitText(30);
    OneDigitText(5);
  }

  /** Of the two patients, only Amit is registered at C1. */
  lemma OnlyAmitAtC1()
    ensures PatientsAtCentre([Bina, Amit], 10) == [Amit]
  {
    var r := PatientsAtCentre([Bina, Amit], 10);
    PatientsAtCentreMembers([Bina, Amit], 10);
    assert Amit in r && Bina !in r;
  }

  /** The first half of the worked example's cascade on a fresh form: load
      Delhi and Mumbai, pick Delhi, load its centres, pick C1. */
  method PickDelhiAndC1() returns (form: FormController)
    ensures fresh(form)
    ensures form.locations == [Delhi, Mumbai] && form.centres == [C1]
    ensures form.selectedLocation == Some(1) && form.selectedCentre == Some(10)
    ensures form.addedRecords == []
  {
    form := new FormController();
    form.LoadLocations(Fetched([Delhi, Mumbai]));
    form.ChooseLocation(Some(1));
    var _ := form.RefreshCentres(Fetched([C1]));
    form.ChooseCentre(Some(10));
  }

  /** The second half: load all patients (Amit of C1 and Bina of another
      centre), pick Amit, load the slots, pick Dose1. */
  method PickAmitAndDose1(form: FormController)
    requires form.selectedCentre == Some(10)
    modifies form
    ensures form.patients == [Amit] && form.slots == [Dose1]
    ensures form.selectedPatient == Some(100) && form.selectedSlot == Some(1000)
    ensures form.locations == old(form.locations) && form.centres == old(form.centres)
    ensures form.selectedLocation == old(form.selectedLocation)
    ensures form.selectedCentre == old(form.selectedCentre)
    ensures form.addedRecords == old(form.addedRecords)
  {
    var _ := form.RefreshPatients(Fetched([Bina, Amit]));
    OnlyAmitAtC1();
    form.ChoosePatient(Some(100));
    var _ := form.RefreshSlots(Fetched([Dose1]));
    assert form.slots == [Dose1] by {
      SlotsOfPatientMembers([Dose1], 100);
    }
    form.ChooseSlot(Some(1000));
  }

  /** The whole cascade of the worked example on a fresh form. */
  method SelectDelhiChain() returns (form: FormController)
    ensures fresh(form)
    ensures form.locations == [Delhi, Mumbai] && form.centres == [C1]
    ensures form.patients == [Amit] && form.slots == [Dose1]
    ensures form.selectedLocation == Some(1) && form.selectedCentre == Some(10)
    ensures form.selectedPatient == Some(100) && form.selectedSlot == Some(1000)
    ensures form.addedRecords == []
  {
    form := PickDelhiAndC1();
    PickAmitAndDose1(form);
  }

  /** The worked example end to end: after the cascade, Add appends exactly
      the record of Delhi, C1, Amit and Dose1. */
  method DelhiScenario() returns (record: AddedRecord)
    ensures record == DelhiRecord
  {
    var form := SelectDelhiChain();
    assert form.LocationDetails() == Some(Delhi) by { ResolveFirst([Delhi, Mumbai], LocationId, Some(1)); }
    assert form.CentreDetails() == Some(C1) by { ResolveFirst([C1], CentreId, Some(10)); }
    assert form.PatientDetails() == Some(Amit) by { ResolveFirst([Amit], PatientId, Some(100)); }
    assert form.SlotDetails() == Some(Dose1) by { ResolveFirst([Dose1], SlotId, Some(1000)); }
    assert form.PendingRecord() == DelhiRecord by { DelhiComposes(); }
    form.Add();
    record := form.addedRecords[0];
  }

  /** Changing the location does not clear anything downstream: the centre
      list is replaced by Mumbai's (none), but the centre, patient and slot
      selections keep their values and the patient list is not reloaded (its
      effect does not run, since the centre selection did not change). The
      stale centre id then resolves to nothing, and Add still appends a
      record: Mumbai's fields, "Unknown" for the centre fields, and the stale
      patient's and slot's fields. */
  method StaleCentreScenario() returns (centre: Choice, details: Option<Centre>, record: AddedRecord)
    ensures centre == Some(10) && details == None
    ensures record.location == "Mumbai" && record.locationState == "MH"
    ensures record.centre == UNKNOWN && record.centreAddress == UNKNOWN
    ensures record.patient == "Amit" && record.slot == "Dose1"
  {
    var form := SelectDelhiChain();
    form.ChooseLocation(Some(2));
    var _ := form.RefreshCentres(Fetched([]));
    assert form.locations == [Delhi, Mumbai] && form.centres == [] && form.addedRecords == [];
    assert form.patients == [Amit] && form.slots == [Dose1];
    centre, details := form.selectedCentre, form.CentreDetails();
    assert form.LocationDetails() == Some(Mumbai) by { ResolveSecond([Delhi, Mumbai], LocationId, Some(2)); }
    assert form.PatientDetails() == Some(Amit) by { ResolveFirst([Amit], PatientId, Some(100)); }
    assert form.SlotDetails() == Some(Dose1) by { ResolveFirst([Dose1], SlotId, Some(1000)); }
    assert form.Complete();
    ghost var expected := Compose(Some(Mumbai), None, Some(Amit), Some(Dose1));
    assert form.PendingRecord() == expected;
    ComposeCopiesFields(Some(Mumbai), None, Some(Amit), Some(Dose1));
    form.Add();
    record := form.addedRecords[0];
  }

  /** The id 0 passes the load effects' test but not the truthiness test: a
      location with id 0 has its centres requested, yet it resolves to no
      detail, and even with C1, Amit and Dose1 loaded and picked below it
      Add refuses the selection, appending nothing. */
  method ZeroIdScenario() returns (request: Option<int>, details: Option<Location>, records: seq<AddedRecord>)
    ensures request == Some(0) && details == None && records == []
  {
    var zero := Location(0, "IN", "KA", "Bengaluru", []);
    var form := new FormController();
    form.LoadLocations(Fetched([zero]));
    form.ChooseLocation(Some(0));
    request := form.RefreshCentres(Fetched([C1]));
    details := form.LocationDetails();
    assert form.addedRecords == [];
    form.ChooseCentre(Some(10));
    var _ := form.RefreshPatients(Fetched([Amit]));
    form.ChoosePatient(Some(100));
    var _ := form.RefreshSlots(Fetched([Dose1]));
    form.ChooseSlot(Some(1000));
    assert form.selectedLocation == Some(0) && form.addedRecords == [];
    form.Add();
    records := form.addedRecords;
  }

  /** Discard after a full selection clears the four selections; the load
      effects that then run issue no request and empty the three dependent
      lists, and the records and locations are kept. */
  method DiscardScenario() returns (requests: nat, form: FormController)
    ensures requests == 0
    ensures form.centres == [] && form.patients == [] && form.slots == []
    ensures form.locations == [Delhi, Mumbai] && form.addedRecords == []
  {
    form := SelectDelhiChain();
    form.Discard();
    var centreRequest := form.RefreshCentres(FetchFailed);
    var patientRequest := form.RefreshPatients(FetchFailed);
    var slotRequest := form.RefreshSlots(FetchFailed);
    requests := (if centreRequest.Some? then 1 else 0) + (if patientRequest then 1 else 0) + (if slotRequest then 1 else 0);
  }
}
