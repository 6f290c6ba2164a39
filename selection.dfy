/** The form's selections and what is derived from them: which selections
    count as made, the client-side filters that narrow patients and slots,
    and the detail resolver that looks a selected id up in its collection. */
module Selection {
  import opened Wrappers
  import opened ApiTypes
  import opened ArrayOps

  /** A dropdown's value: `''` (None) or the id of the chosen entity. */
  type Choice = Option<int>

  /** The test the load effects use: the value is not `''`. */
  predicate IsChosen(c: Choice) {
    c.Some?
  }

  /** The test the detail effects and Add use: the value is truthy, so
      neither `''` nor the id 0. */
  predicate IsTruthy(c: Choice)
    ensures IsTruthy(c) ==> IsChosen(c)
  {
    c.Some? && c.value != 0
  }

  /** The two tests differ exactly on the id 0. */
  lemma ChosenButFalsy(c: Choice)
    ensures IsChosen(c) && !IsTruthy(c) <==> c == Some(0)
  {
  }

  function LocationId(l: Location): int { l.id }
  function CentreId(c: Centre): int { c.id }
  function PatientId(p: Patient): int { p.id }
  function SlotId(s: VaccinationSlot): int { s.id }

  /** The detail of the selected entity (see ResolveSpec). */
  function Resolve<T>(items: seq<T>, id: T -> int, sel: Choice): (r: Option<T>)
    ensures r.Some? ==> IsTruthy(sel) && id(r.value) == sel.value
  {
    if IsTruthy(sel) then
      var k := sel.value;
      Find(items, x => id(x) == k)
    else None
  }

  /** A detail is found exactly when the selection is truthy and some item
      has the selected id; the detail found is the first such item. */
  lemma ResolveSpec<T>(items: seq<T>, id: T -> int, sel: Choice)
    ensures var r := Resolve(items, id, sel);
      && (r.Some? <==> IsTruthy(sel) && exists i | 0 <= i < |items| :: id(items[i]) == sel.value)
      && (r.Some? ==>
            exists i | 0 <= i < |items| ::
              items[i] == r.value && id(items[i]) == sel.value &&
              forall j | 0 <= j < i :: id(items[j]) != sel.value)
  {
  }

  /** A truthy selection matching the first item resolves to that item. */
  lemma ResolveFirst<T>(items: seq<T>, id: T -> int, sel: Choice)
    requires IsTruthy(sel) && |items| > 0 && id(items[0]) == sel.value
    ensures Resolve(items, id, sel) == Some(items[0])
  {
  }

  /** A truthy selection that misses the first item and matches the second
      resolves to the second. */
  lemma ResolveSecond<T>(items: seq<T>, id: T -> int, sel: Choice)
    requires IsTruthy(sel) && |items| > 1
    requires id(items[0]) != sel.value && id(items[1]) == sel.value
    ensures Resolve(items, id, sel) == Some(items[1])
  {
    assert items[1..][0] == items[1];
  }

  function ResolveLocation(locations: seq<Location>, sel: Choice): (r: Option<Location>) {
    Resolve(locations, LocationId, sel)
  }

  function ResolveCentre(centres: seq<Centre>, sel: Choice): (r: Option<Centre>) {
    Resolve(centres, CentreId, sel)
  }

  function ResolvePatient(patients: seq<Patient>, sel: Choice): (r: Option<Patient>) {
    Resolve(patients, PatientId, sel)
  }

  function ResolveSlot(slots: seq<VaccinationSlot>, sel: Choice): (r: Option<VaccinationSlot>) {
    Resolve(slots, SlotId, sel)
  }

  predicate AtCentre(c: int, p: Patient) { p.centre == c }
  predicate OfPatient(p: int, s: VaccinationSlot) { s.patient == p }

  /** The patients of centre `c`, in the order the server sent them. */
  function PatientsAtCentre(all: seq<Patient>, c: int): (r: seq<Patient>)
    ensures |r| <= |all|
    ensures forall i | 0 <= i < |r| :: r[i].centre == c
  {
    Filter(all, p => AtCentre(c, p))
  }

  /** The slots of patient `p`, in the order the server sent them. */
  function SlotsOfPatient(all: seq<VaccinationSlot>, p: int): (r: seq<VaccinationSlot>)
    ensures |r| <= |all|
    ensures forall i | 0 <= i < |r| :: r[i].patient == p
  {
    Filter(all, s => OfPatient(p, s))
  }

  /** Narrowing is exact: a fetched patient is kept exactly when it is at
      the centre, and nothing else is kept. */
  lemma PatientsAtCentreMembers(all: seq<Patient>, c: int)
    ensures forall p | p in all :: p in PatientsAtCentre(all, c) <==> p.centre == c
    ensures forall p | p in PatientsAtCentre(all, c) :: p in all
  {
    FilterMembers(all, p => AtCentre(c, p));
  }

  /** Narrowing is exact: a fetched slot is kept exactly when it is the
      patient's, and nothing else is kept. */
  lemma SlotsOfPatientMembers(all: seq<VaccinationSlot>, p: int)
    ensures forall s | s in all :: s in SlotsOfPatient(all, p) <==> s.patient == p
    ensures forall s | s in SlotsOfPatient(all, p) :: s in all
  {
    FilterMembers(all, s => OfPatient(p, s));
  }

  /** Narrowing keeps the server's order: a batch fetched in
      two parts narrows to the narrowed parts, one after the other. */
  lemma PatientsAtCentreConcat(a: seq<Patient>, b: seq<Patient>, c: int)
    ensures PatientsAtCentre(a + b, c) == PatientsAtCentre(a, c) + PatientsAtCentre(b, c)
  {
    FilterConcat(a, b, p => AtCentre(c, p));
  }

  lemma SlotsOfPatientConcat(a: seq<VaccinationSlot>, b: seq<VaccinationSlot>, p: int)
    ensures SlotsOfPatient(a + b, p) == SlotsOfPatient(a, p) + SlotsOfPatient(b, p)
  {
    FilterConcat(a, b, s => OfPatient(p, s));
  }

  /** A patient resolved from a narrowed list belongs to the narrowing centre. */
  lemma ResolvedPatientIsAtCentre(all: seq<Patient>, c: int, sel: Choice)
    ensures ResolvePatient(PatientsAtCentre(all, c), sel).Some? ==>
      var p := ResolvePatient(PatientsAtCentre(all, c), sel).value;
      p.centre == c && p in all && p.id == sel.value
  {
    ResolveSpec(PatientsAtCentre(all, c), PatientId, sel);
    PatientsAtCentreMembers(all, c);
  }

  /** A slot resolved from a narrowed list belongs to the narrowing patient. */
  lemma ResolvedSlotIsOfPatient(all: seq<VaccinationSlot>, p: int, sel: Choice)
    ensures ResolveSlot(SlotsOfPatient(all, p), sel).Some? ==>
      var s := ResolveSlot(SlotsOfPatient(all, p), sel).value;
      s.patient == p && s in all && s.id == sel.value
  {
    ResolveSpec(SlotsOfPatient(all, p), SlotId, sel);
    SlotsOfPatientMembers(all, p);
  }
}
