# Vaccination appointment form: the cascading selection controller

This project models the part of the vaccination appointment app that has behaviour of its own. That part is the `DynamicForm` component's selection controller. The user picks a location, then one of its centres, then a patient of that centre, then one of the patient's vaccination slots. The form then composes a flat record of the four choices and appends it to the records shown in the table. It is verified in Dafny.

The model is laid out as follows:

- `api_types.dfy` (`ApiTypes`) holds the five records of the API: `Location`, `Centre`, `Patient`, `VaccinationSlot` and `AddedRecord`. It also holds `Response`, the outcome of one GET request: the decoded list, or a failure.
- `array_ops.dfy` (`ArrayOps`) holds `Find` and `Filter`. These are JavaScript's `Array.prototype.find` and `filter`, proved to return the first match and the exact, order-preserving sublist.
- `number_format.dfy` (`NumberFormat`) holds the decimal text that `toString()` gives an integer below 10^21 in magnitude, and a reader of decimal text. The text of every integer is proved to read back as that integer.
- `selection.dfy` (`Selection`) covers the selections. A dropdown's value is `''` or an id, modelled as `Option<int>`. The module has the two tests the component applies to a selection, the client-side narrowing of patients and slots, and the detail resolver.
- `record_composer.dfy` (`RecordComposer`) holds `Compose`. It builds the twelve display strings, with the `"Unknown"` fallback.
- `dynamic_form.dfy` (`DynamicForm`) holds the class `FormController`. Its fields are the component's state: four collections, four selections and the added records. Each effect and handler is one method that completes atomically. A request's outcome is passed in as a `Response`, and the request itself is reported back: the location whose centres are asked for, or whether all patients or slots are fetched. The module ends with worked examples: the full Delhi pass, a stale centre, the id 0, and Discard.

Two tests decide whether a selection is made, and they differ:

- The load effects test that the value is not `''` (`IsChosen`).
- The detail effects and Add test truthiness (`IsTruthy`).

So the id `0` triggers a request, but it never resolves to a detail and Add refuses it. Changing an upstream selection clears nothing downstream. Only the collection directly below it is reloaded, and a stale downstream id then resolves to nothing.

The detail views are modelled as functions of the current state (`LocationDetails()` and the others). This stands for the component's detail state variables, which an effect recomputes after every change. It assumes that the effects have settled before a handler runs. Under that assumption, the two lookups Add mixes agree: a direct `find` on a collection, and the stored detail. So `Compose` reads the four resolved details.

The API field `type` of a vaccination slot is called `kind` here, because `type` is a Dafny keyword.

Four behaviours of the component shape the model:

- Changing an upstream selection clears nothing downstream. The change handler only calls the one setter (src/components/DynamicForm.tsx:137-140), and the load effects reset only their own list (src/components/DynamicForm.tsx:38-95).
- A failed patient or slot load leaves the list as it was. The handler only logs the error (src/components/DynamicForm.tsx:68-70 and 86-88). A failed centre load empties the centres (src/components/DynamicForm.tsx:49-51).
- Add only appends the record locally (src/components/DynamicForm.tsx:159). The component sends nothing to the server.
- A missing detail is `null`, which is `None` here (src/components/DynamicForm.tsx:99-102).

## Model

| member | source | states |
|---|---|---|
| `DynamicForm.FormController.constructor` | src/components/DynamicForm.tsx:9-22 | every collection is empty, every selection is `''` and there are no records |
| `DynamicForm.FormController.LocationDetails` | src/components/DynamicForm.tsx:97-104 | the `selectedDetails` state once its effect has settled: the location resolved from the selection; see `ResolveSpec` |
| `DynamicForm.FormController.CentreDetails` | src/components/DynamicForm.tsx:106-113 | the `selectedCentreDetails` state once settled; see `ResolveSpec` |
| `DynamicForm.FormController.PatientDetails` | src/components/DynamicForm.tsx:115-122 | the `selectedPatientDetails` state once settled; see `ResolveSpec` and `ResolvedPatientIsAtCentre` |
| `DynamicForm.FormController.SlotDetails` | src/components/DynamicForm.tsx:124-131 | the `selectedSlotDetails` state once settled; see `ResolveSpec` and `ResolvedSlotIsOfPatient` |
| `DynamicForm.FormController.PendingRecord` | src/components/DynamicForm.tsx:144-157 | the record Add would build from the current details; `Add` appends exactly this record |
| `DynamicForm.FormController.Complete` | src/components/DynamicForm.tsx:143-143 | Add's guard on the current selections; `Add` appends when it holds and changes nothing otherwise |
| `DynamicForm.FormController.LoadLocations` | src/components/DynamicForm.tsx:25-36 | a fetched list replaces the locations; a failure leaves them unchanged; nothing else changes |
| `DynamicForm.FormController.ChooseLocation` | src/components/DynamicForm.tsx:137-140 | sets the location selection and touches no other field, so downstream selections are not cleared |
| `DynamicForm.FormController.ChooseCentre` | src/components/DynamicForm.tsx:137-140 | sets the centre selection only |
| `DynamicForm.FormController.ChoosePatient` | src/components/DynamicForm.tsx:137-140 | sets the patient selection only |
| `DynamicForm.FormController.ChooseSlot` | src/components/DynamicForm.tsx:137-140 | sets the slot selection only |
| `DynamicForm.FormController.RefreshCentres` | src/components/DynamicForm.tsx:38-59 | with no location there is no request and the centres become empty; otherwise the centres of that location are requested and the response replaces the centres, or a failure empties them; only `centres` changes |
| `DynamicForm.FormController.RefreshPatients` | src/components/DynamicForm.tsx:61-77 | with no centre there is no request and the patients become empty; otherwise all patients are requested and the patients become exactly those of the selected centre, in server order; a failure leaves them unchanged |
| `DynamicForm.FormController.RefreshSlots` | src/components/DynamicForm.tsx:79-95 | the same one level down: the slots become exactly those of the selected patient, in server order; no patient gives no request and empty slots; a failure leaves them unchanged |
| `DynamicForm.FormController.Add` | src/components/DynamicForm.tsx:142-169 | with all four selections truthy it appends exactly one record, the composition of the four details, after the unchanged earlier records, and clears the four selections; otherwise it changes nothing; the collections are never touched |
| `DynamicForm.FormController.Discard` | src/components/DynamicForm.tsx:172-177 | clears the four selections and leaves the collections and records as they were |
| `Selection.IsChosen` | src/components/DynamicForm.tsx:38-95 | the load effects' test that a value is not `''`; how it differs from truthiness is stated by `ChosenButFalsy` |
| `Selection.IsTruthy` | src/components/DynamicForm.tsx:97-143 | the truthiness test of the detail effects and of Add; a truthy selection is also chosen |
| `Selection.ChosenButFalsy` | src/components/DynamicForm.tsx:97-104 | the load effects' test (not `''`) and the truthiness test differ exactly on the id 0 |
| `Selection.ResolveSpec` | src/components/DynamicForm.tsx:97-131 | a detail is found if and only if the selection is truthy and some item has that id; a found detail is the first item with that id |
| `Selection.Resolve` | src/components/DynamicForm.tsx:97-131 | a `find` by id behind the truthiness test, with `null` when nothing is found: a found detail has the selected id and its selection is truthy; the full characterisation is `ResolveSpec` |
| `Selection.ResolveLocation` | src/components/DynamicForm.tsx:99-99 | the location detail lookup by id; see `ResolveSpec` |
| `Selection.ResolveCentre` | src/components/DynamicForm.tsx:108-108 | the centre detail lookup by id; see `ResolveSpec` |
| `Selection.ResolvePatient` | src/components/DynamicForm.tsx:117-117 | the patient detail lookup by id; see `ResolveSpec` and `ResolvedPatientIsAtCentre` |
| `Selection.ResolveSlot` | src/components/DynamicForm.tsx:126-126 | the slot detail lookup by id; see `ResolveSpec` and `ResolvedSlotIsOfPatient` |
| `Selection.ResolveSecond` | src/components/DynamicForm.tsx:97-131 | a truthy selection that misses the first item and matches the second resolves to the second item |
| `Selection.ResolveFirst` | src/components/DynamicForm.tsx:97-131 | a truthy selection that matches the first item resolves to that item |
| `Selection.PatientsAtCentre` | src/components/DynamicForm.tsx:65-67 | every kept patient is at the centre, and the list never grows |
| `Selection.PatientsAtCentreMembers` | src/components/DynamicForm.tsx:65-67 | a fetched patient is kept exactly when it is at the centre, and nothing that was not fetched is kept |
| `Selection.SlotsOfPatient` | src/components/DynamicForm.tsx:83-85 | every kept slot is the patient's, and the list never grows |
| `Selection.SlotsOfPatientMembers` | src/components/DynamicForm.tsx:83-85 | a fetched slot is kept exactly when it is that patient's, and nothing that was not fetched is kept |
| `Selection.PatientsAtCentreConcat` | src/components/DynamicForm.tsx:65-67 | narrowing keeps the server's order: a list in two parts narrows to the two narrowed parts, in sequence |
| `Selection.SlotsOfPatientConcat` | src/components/DynamicForm.tsx:83-85 | the same for slots |
| `Selection.ResolvedPatientIsAtCentre` | src/components/DynamicForm.tsx:115-122 | a patient detail resolved from the narrowed list is at the narrowing centre, was fetched, and has the selected id |
| `Selection.ResolvedSlotIsOfPatient` | src/components/DynamicForm.tsx:124-131 | a slot detail resolved from the narrowed list belongs to the narrowing patient, was fetched, and has the selected id |
| `ArrayOps.Find` | src/components/DynamicForm.tsx:106-113 | `find` yields nothing exactly when no element matches; otherwise it yields the first matching element |
| `ArrayOps.Filter` | src/components/DynamicForm.tsx:66-66 | every element `filter` keeps satisfies the predicate, and the result is no longer than the input |
| `ArrayOps.FilterMembers` | src/components/DynamicForm.tsx:66-66 | an element of the input is kept exactly when it satisfies the predicate, and every kept element comes from the input |
| `ArrayOps.FilterConcat` | src/components/DynamicForm.tsx:66-66 | filtering distributes over concatenation, so the original order is kept |
| `ArrayOps.FilterSingleton` | src/components/DynamicForm.tsx:84-84 | a single element is kept exactly when it satisfies the predicate |
| `ArrayOps.FilterMultiplicity` | src/components/DynamicForm.tsx:84-84 | each value is kept as often as it occurs when it satisfies the predicate, and is dropped otherwise |
| `ArrayOps.FilterKeepsAll` | src/components/DynamicForm.tsx:66-66 | a list whose every element satisfies the predicate is returned unchanged |
| `NumberFormat.NumberToString` | src/components/DynamicForm.tsx:151-151 | the text of an integer is non-empty and starts with `-` exactly when the integer is negative |
| `NumberFormat.DigitsRoundTrip` | src/components/DynamicForm.tsx:151-151 | the digits written for a natural number read back as that number |
| `NumberFormat.ParseDigits` | src/components/DynamicForm.tsx:151-151 | a non-empty run of digits reads back as the number it spells |
| `NumberFormat.ParseNegative` | src/components/DynamicForm.tsx:156-156 | a minus sign before a non-empty run of digits reads back as the negated number |
| `NumberFormat.NonNegativeRoundTrip` | src/components/DynamicForm.tsx:151-151 | the text of a non-negative integer reads back as that integer |
| `NumberFormat.NegativeText` | src/components/DynamicForm.tsx:156-156 | the text of a negative integer reads back as the negation of its magnitude's digits |
| `NumberFormat.NegativeRoundTrip` | src/components/DynamicForm.tsx:156-156 | the text of a negative integer reads back as that integer |
| `NumberFormat.NumberRoundTrip` | src/components/DynamicForm.tsx:156-156 | the text of any integer, negative ones included, reads back as that integer |
| `NumberFormat.UnknownIsNotANumber` | src/components/DynamicForm.tsx:151-151 | the fallback text is not the text of any integer |
| `NumberFormat.OneDigitText` | src/components/DynamicForm.tsx:156-156 | a number below ten is written as its single digit |
| `NumberFormat.TwoDigitText` | src/components/DynamicForm.tsx:151-151 | a two-digit number is written as its tens digit followed by its units digit |
| `RecordComposer.Compose` | src/components/DynamicForm.tsx:144-157 | the record literal of Add; its properties are stated by `ComposeCopiesFields`, `ComposedNumbersReadBack` and `FallbackOnlyWhenAbsent` |
| `RecordComposer.AllSelected` | src/components/DynamicForm.tsx:143-143 | Add's guard: all four selections truthy; Add's contract states what it guards |
| `RecordComposer.FieldOr` | src/components/DynamicForm.tsx:146-149 | `entity?.field ?? 'Unknown'`: a present entity's field is shown unchanged, and the text is "Unknown" exactly when the entity is absent or that field is itself "Unknown" |
| `RecordComposer.ComposeCopiesFields` | src/components/DynamicForm.tsx:144-157 | each text field equals the matching field of its entity when the entity is present, an empty string included; every field of an absent entity is "Unknown" |
| `RecordComposer.ComposedNumbersReadBack` | src/components/DynamicForm.tsx:151-156 | the age and available-slots fields read back as the entity's numbers when the entity is present, and as no number when it is absent |
| `RecordComposer.FallbackOnlyWhenAbsent` | src/components/DynamicForm.tsx:144-157 | a field reads "Unknown" only when its entity is absent, or when that field of the entity is itself the text "Unknown"; the numeric fields are "Unknown" exactly when the entity is absent |
| `DynamicForm.DelhiComposes` | src/components/DynamicForm.tsx:144-157 | Delhi/DL/IN, C1/Addr1, Amit aged 30 (M) and a Dose1 slot on 2024-01-01 at 09:00 with 5 available compose to the expected twelve strings |
| `DynamicForm.OnlyAmitAtC1` | src/components/DynamicForm.tsx:65-67 | of Bina (centre 11) and Amit (centre 10), only Amit is kept for centre 10 |
| `DynamicForm.PickDelhiAndC1` | src/components/DynamicForm.tsx:25-59 | on a fresh form, loading Delhi and Mumbai and choosing Delhi, then loading and choosing its centre C1, leaves those two locations and C1 loaded, Delhi and C1 selected, and no records |
| `DynamicForm.PickAmitAndDose1` | src/components/DynamicForm.tsx:61-95 | with centre 10 selected, loading Bina and Amit keeps only Amit, and loading Dose1 keeps it for Amit; both are selected and the locations, centres, upstream selections and records are unchanged |
| `DynamicForm.SelectDelhiChain` | src/components/DynamicForm.tsx:38-95 | the full cascade on a fresh form leaves both locations loaded, exactly one centre, patient and slot, and the four ids selected |
| `DynamicForm.DelhiScenario` | src/components/DynamicForm.tsx:142-169 | after the cascade, Add appends exactly the expected Delhi record |
| `DynamicForm.StaleCentreScenario` | src/components/DynamicForm.tsx:38-59 | after the location changes from Delhi to Mumbai, the centre id is kept but resolves to nothing; Add still appends, with Mumbai's fields, "Unknown" for the centre fields, and the stale patient and slot |
| `DynamicForm.ZeroIdScenario` | src/components/DynamicForm.tsx:97-104 | the location id 0 triggers a centre request, yet it resolves to no detail and Add appends nothing |
| `DynamicForm.DiscardScenario` | src/components/DynamicForm.tsx:172-177 | Discard after a full selection, followed by the load effects, issues no request, empties the three dependent lists, and keeps the locations and records |

## Left out

- The rendered form is not modelled, because it has no behaviour to verify. This covers the drawer and `handleDrawerToggle`, the dropdowns, the read-only text fields, the records table, and the disabling of a dropdown whose upstream value is `''`.
- The HTTP layer (`src/utils/axios.ts`) is not modelled: the axios instance, the bearer-token and 401 interceptors, and the GET/POST wrappers. Each request's outcome enters the model as a `Response` parameter.
- The login page, the index and app pages, and the route constants are not part of this model. They hold a network login, a visibility toggle, theming and URL strings.
- Asynchrony is not modelled. Each effect runs to completion in one step, in the order the caller chooses. The caller is expected to run a load effect after its upstream selection changes. The race in which an older response overwrites a newer one is therefore not represented.
- `console` logging is not modelled. Nor is the `Number()`/`isNaN` coercion of a selection, because selections are already numbers.
- The server-side persistence of records (`postRecord`/`fetchRecords`) is not modelled, because this component never calls it.
- The nested `centres` list of a location and `patients` list of a centre are carried in the datatypes, but nothing reads them.
- NumberFormat.NumberToString: models integers only, and matches `toString` only below 10^21 in magnitude. JavaScript numbers may also be fractional or `NaN`. Numbers of 10^21 or more are written in exponent form, and above 2^53 a number cannot hold every integer exactly. Ages and slot counts are small whole numbers.
