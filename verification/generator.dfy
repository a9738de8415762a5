/** The mock-record generator: patients built from archetypes, a batch of
    resources per patient with weighted processing states, and derived
    clinical facts. Every random draw (Faker's choices, time offsets, the
    state-selection number, `hash(patient_id)`) is an explicit input. */
module Generator {
  import opened Common
  import opened Records

  // ---------------------------------------------------------------------
  // Draws
  // ---------------------------------------------------------------------

  const TRIAL_PHASES: seq<string> := ["Phase I", "Phase II", "Phase III"]
  const TRIAL_TYPES: seq<string> := ["drug", "observational", "behavioral"]
  const MED_DOSES: seq<string> := ["5mg", "10mg", "20mg"]

  /** The draws behind one patient: the archetype and city picked, the
      travel flag, the samples of trial phases and trial types (as indices
      into their lists), Faker's name and e-mail, and the creation time. */
  datatype PatientDraw = PatientDraw(
    archetypeIndex: nat,
    name: string,
    email: string,
    cityIndex: nat,
    willingToTravel: bool,
    phaseSample: seq<nat>,
    trialTypeSample: seq<nat>,
    createdAt: int)

  /** `random_sample(xs, length=random_int(1, 2))` on a three-element list:
      one or two distinct positions. */
  predicate SampleOfThree(sample: seq<nat>)
  {
    && 1 <= |sample| <= 2
    && (forall j :: 0 <= j < |sample| ==> sample[j] < 3)
    && (forall j, k :: 0 <= j < k < |sample| ==> sample[j] != sample[k])
  }

  predicate ValidPatientDraw(d: PatientDraw)
  {
    && d.archetypeIndex < |ARCHETYPES|
    && d.cityIndex < |MID_TIER_CITIES|
    && SampleOfThree(d.phaseSample)
    && SampleOfThree(d.trialTypeSample)
  }

  /** The draws behind one resource: its type, creation time, the two
      delays (ms), the prose of a templated document, the dose and dates of
      a medication list, the state-selection number, the FHIR version and
      the AI-summary pick. */
  datatype ResourceDraw = ResourceDraw(
    typeIndex: nat,
    createdTime: int,
    fetchDelay: int,
    processDelay: int,
    templateText: string,
    doseIndex: nat,
    listDate: string,
    refillDate: string,
    stateDraw: real,
    r4b: bool,
    summaryIndex: nat)

  /** What Faker can produce: `random_element` picks an index in range,
      `random_int(a, b)` a value in `[a, b]`, `random.random()` a value in
      `[0, 1)`. */
  predicate ValidResourceDraw(d: ResourceDraw)
  {
    && d.typeIndex < |RESOURCE_TYPES|
    && 1000 <= d.fetchDelay <= 10000
    && 5000 <= d.processDelay <= 60000
    && d.doseIndex < |MED_DOSES|
    && 0.0 <= d.stateDraw < 1.0
    && d.summaryIndex < |AiSummaryPool(RESOURCE_TYPES[d.typeIndex])|
  }

  /** The draws for one patient's resources: `hash(patient_id)`, the count
      `random_int(min, max)`, and one draw per iteration of
      `range(count)` (none when the count is negative). */
  datatype PatientResourceDraw = PatientResourceDraw(hashValue: int, count: int, resources: seq<ResourceDraw>)

  /** How many iterations `range(n)` makes. */
  function RangeLength(n: int): nat
  {
    if n < 0 then 0 else n
  }

  /** The draws behind one patient's derived facts. */
  datatype FactsDraw = FactsDraw(
    age: int,
    a1c: real,
    egfr: int,
    ldl: int,
    sbp: int,
    dbp: int,
    exclusion: Option<nat>,
    location: string,
    extractedAt: int)

  predicate ValidFactsDraw(a: Archetype, d: FactsDraw)
  {
    && a.ageLow <= d.age <= a.ageHigh
    && a.a1cLow <= d.a1c <= a.a1cHigh
    && 75 <= d.egfr <= 105
    && 100 <= d.ldl <= 150
    && 135 <= d.sbp <= 155
    && 85 <= d.dbp <= 95
    && (d.exclusion.Some? ==> d.exclusion.value < |EXCLUSION_VOCABULARY|)
  }

  // ---------------------------------------------------------------------
  // Patients
  // ---------------------------------------------------------------------

  function Picks(xs: seq<string>, sample: seq<nat>): (r: seq<string>)
    requires forall j :: 0 <= j < |sample| ==> sample[j] < |xs|
    ensures |r| == |sample| && forall j :: 0 <= j < |r| ==> r[j] == xs[sample[j]]
  {
    seq(|sample|, j requires 0 <= j < |sample| => xs[sample[j]])
  }

  /** The patient built for loop index `i` (so the id is `P{i+1:03d}`). */
  function MakePatient(i: nat, d: PatientDraw): Patient
    requires ValidPatientDraw(d)
  {
    var archetype := ARCHETYPES[d.archetypeIndex];
    Patient(
      PatientIdFor(i + 1),
      d.name,
      d.email,
      true,
      Some(Preferences(
        Some(MID_TIER_CITIES[d.cityIndex]),
        d.willingToTravel,
        archetype.conditionFocus,
        Picks(TRIAL_PHASES, d.phaseSample),
        Picks(TRIAL_TYPES, d.trialTypeSample))),
      d.createdAt,
      Some(archetype))
  }

  function PatientsFrom(draws: seq<PatientDraw>): seq<Patient>
    requires forall i :: 0 <= i < |draws| ==> ValidPatientDraw(draws[i])
  {
    seq(|draws|, i requires 0 <= i < |draws| => MakePatient(i, draws[i]))
  }

  /** `generate_patients(n)`: `n` patients with ids P001, P002, ... in
      order, all pairwise distinct, all consenting, each carrying one of the
      archetypes and the archetype's condition focus. */
  lemma PatientsFromFacts(draws: seq<PatientDraw>)
    requires forall i :: 0 <= i < |draws| ==> ValidPatientDraw(draws[i])
    ensures var ps := PatientsFrom(draws);
            && |ps| == |draws|
            && (forall i :: 0 <= i < |ps| ==> ps[i].id == PatientIdFor(i + 1) && ps[i].consentGiven)
            && (forall i :: 0 <= i < |ps| ==> ps[i].archetype.Some? && ps[i].archetype.value in ARCHETYPES)
            && (forall i :: 0 <= i < |ps| ==>
                  ps[i].preferences.Some? && ps[i].preferences.value.conditionFocus == ps[i].archetype.value.conditionFocus)
            && DistinctIds(ps)
  {
    var ps := PatientsFrom(draws);
    forall i, j | 0 <= i < j < |ps| ensures ps[i].id != ps[j].id {
      if ps[i].id == ps[j].id {
        PatientIdInjective(i + 1, j + 1);
      }
    }
  }

  predicate DistinctIds(ps: seq<Patient>)
  {
    forall i, j :: 0 <= i < j < |ps| ==> ps[i].id != ps[j].id
  }

  /** A patient from the generator, still carrying its archetype. */
  predicate Generated(p: Patient)
  {
    p.archetype.Some? && p.archetype.value in ARCHETYPES
  }

  lemma ArchetypesHaveTwoMedications(a: Archetype)
    requires a in ARCHETYPES
    ensures |a.medications| >= 2
    ensures a.ageLow <= a.ageHigh && a.a1cLow <= a.a1cHigh
  {
  }

  // ---------------------------------------------------------------------
  // Resources
  // ---------------------------------------------------------------------

  /** The weights of the state selection, in the order they are tried. */
  const STATE_WEIGHTS: seq<(ProcessingState, real)> :=
    [(Completed, 0.7), (Processing, 0.15), (Failed, 0.1), (NotStarted, 0.05)]

  /** The sum of the first `k` weights. */
  function CumulativeWeight(k: nat): real
    requires k <= |STATE_WEIGHTS|
  {
    if k == 0 then 0.0 else CumulativeWeight(k - 1) + STATE_WEIGHTS[k - 1].1
  }

  /** The state a draw selects: the first state whose cumulative weight
      reaches the draw, COMPLETED by default. */
  function StateForDraw(u: real): ProcessingState
  {
    if u <= 0.7 then Completed
    else if u <= 0.85 then Processing
    else if u <= 0.95 then Failed
    else if u <= 1.0 then NotStarted
    else Completed
  }

  /** The weights add up to one, and each threshold of `StateForDraw` is a
      cumulative weight: so the selection never yields UNSPECIFIED and the
      default is never needed for a draw in `[0, 1)`. */
  lemma StateSelectionFacts(u: real)
    ensures CumulativeWeight(1) == 0.7 && CumulativeWeight(2) == 0.85
    ensures CumulativeWeight(3) == 0.95 && CumulativeWeight(4) == 1.0
    ensures StateForDraw(u) != Unspecified
    ensures 0.0 <= u < 1.0 ==> exists k :: 1 <= k <= |STATE_WEIGHTS| && u <= CumulativeWeight(k)
  {
    assert CumulativeWeight(1) == 0.7;
    assert CumulativeWeight(2) == 0.85;
    assert CumulativeWeight(3) == 0.95;
    assert CumulativeWeight(4) == 1.0;
  }

  /** The weighted state selection loop. */
  method SelectState(randVal: real) returns (state: ProcessingState)
    ensures state == StateForDraw(randVal)
    ensures state != Unspecified
  {
    StateSelectionFacts(randVal);
    var cumulative := 0.0;
    state := Completed;
    var i := 0;
    while i < |STATE_WEIGHTS|
      invariant 0 <= i <= |STATE_WEIGHTS|
      invariant cumulative == CumulativeWeight(i)
      invariant forall j :: 1 <= j <= i ==> randVal > CumulativeWeight(j)
      invariant state == Completed
    {
      var (s, weight) := STATE_WEIGHTS[i];
      cumulative := cumulative + weight;
      if randVal <= cumulative {
        state := s;
        break;
      }
      i := i + 1;
    }
  }

  const LAB_REPORT_SUMMARIES: seq<string> := [
    "Poor glycemic control indicated by elevated A1C; lipid management needed.",
    "Diabetes well-controlled; renal function stable for continued metformin use.",
    "Suboptimal glucose control; consider medication intensification."]

  const CLINICAL_NOTE_SUMMARIES: seq<string> := [
    "Diabetes and hypertension with elevated BP; lifestyle counseling reinforced.",
    "Stable chronic conditions; medication adherence good; routine follow-up planned.",
    "Multiple comorbidities requiring ongoing management and monitoring."]

  const DISCHARGE_SUMMARY_SUMMARIES: seq<string> := [
    "Hypoglycemia episode resolved; patient education provided on prevention.",
    "Brief hospitalization for diabetes-related complication; stable at discharge.",
    "Routine discharge after successful management of acute episode."]

  const MEDICATION_LIST_SUMMARIES: seq<string> := [
    "Standard diabetes and hypertension regimen; adherence generally acceptable.",
    "Current medications appropriate for comorbidities; no immediate changes needed.",
    "Multi-drug regimen for diabetes management; monitoring for drug interactions."]

  /** The candidate summaries for a resource type. */
  function AiSummaryPool(resourceType: string): (pool: seq<string>)
    ensures |pool| >= 1
  {
    if resourceType == "LabReport" then LAB_REPORT_SUMMARIES
    else if resourceType == "ClinicalNote" then CLINICAL_NOTE_SUMMARIES
    else if resourceType == "DischargeSummary" then DISCHARGE_SUMMARY_SUMMARIES
    else if resourceType == "MedicationList" then MEDICATION_LIST_SUMMARIES
    else [GENERIC_SUMMARY]
  }

  const GENERIC_SUMMARY: string := "Standard clinical documentation reviewed."

  predicate HasSummaryPool(resourceType: string)
  {
    resourceType in {"LabReport", "ClinicalNote", "DischargeSummary", "MedicationList"}
  }

  /** `generate_ai_summary`: the pick-th member of the type's pool. */
  function GenerateAiSummary(resourceType: string, pick: nat): (summary: string)
    requires pick < |AiSummaryPool(resourceType)|
    ensures summary in AiSummaryPool(resourceType)
  {
    AiSummaryPool(resourceType)[pick]
  }

  /** The four document types with their own pool get one of three
      distinct summaries, never the generic line; every other type gets
      only the generic line. */
  lemma AiSummaryPools(resourceType: string, pick: nat)
    requires pick < |AiSummaryPool(resourceType)|
    ensures HasSummaryPool(resourceType) ==>
              |AiSummaryPool(resourceType)| == 3 && GenerateAiSummary(resourceType, pick) != GENERIC_SUMMARY
    ensures !HasSummaryPool(resourceType) ==> GenerateAiSummary(resourceType, pick) == GENERIC_SUMMARY
  {
  }

  const METFORMIN_LINE: string := "1. Metformin 1000 mg PO BID - for diabetes"
  const HYPERTENSION_SUFFIX: string := " PO daily - for hypertension"
  const HYPERLIPIDEMIA_SUFFIX: string := " 20 mg PO QHS - for hyperlipidemia"
  const MEDICATION_LIST_HEADER: string := "Current Medication List - Updated "
  const ACTIVE_MEDICATIONS: string := "\n\nActive Medications:\n"
  const MEDICATION_LIST_FOOTER: string :=
    "\n\nAllergies: NKDA (No Known Drug Allergies)\n\n"
    + "Adherence: Patient reports good adherence, occasionally misses evening doses\n"
    + "Last pharmacy refill: "

  /** The numbered lines of `generate_medication_list`. */
  function MedicationLines(a: Archetype, doseIndex: nat): (lines: seq<string>)
    requires |a.medications| >= 2 && doseIndex < |MED_DOSES|
    ensures |lines| == if |a.medications| > 2 then 3 else 2
    ensures forall k :: 0 <= k < |lines| ==> [DigitChar(k + 1)] + ". " <= lines[k]
  {
    [METFORMIN_LINE, "2. " + a.medications[1] + " " + MED_DOSES[doseIndex] + HYPERTENSION_SUFFIX]
    + (if |a.medications| > 2 then ["3. " + a.medications[2] + HYPERLIPIDEMIA_SUFFIX] else [])
  }

  /** `"\n".join(lines)`. */
  function JoinLines(lines: seq<string>): string
  {
    if lines == [] then ""
    else if |lines| == 1 then lines[0]
    else lines[0] + "\n" + JoinLines(lines[1..])
  }

  function MedicationListText(a: Archetype, d: ResourceDraw): string
    requires |a.medications| >= 2 && d.doseIndex < |MED_DOSES|
  {
    MEDICATION_LIST_HEADER + d.listDate + ACTIVE_MEDICATIONS
    + JoinLines(MedicationLines(a, d.doseIndex))
    + MEDICATION_LIST_FOOTER + d.refillDate
  }

  /** A resource's text: the prose template for a lab report, clinical note
      or discharge summary, the medication list, or a one-line stub. */
  function ContentFor(resourceType: string, patientId: string, a: Archetype, d: ResourceDraw): string
    requires |a.medications| >= 2 && d.doseIndex < |MED_DOSES|
  {
    if resourceType == "LabReport" || resourceType == "ClinicalNote" || resourceType == "DischargeSummary" then
      d.templateText
    else if resourceType == "MedicationList" then
      MedicationListText(a, d)
    else
      resourceType + " document for patient " + patientId
  }

  /** The identifier of a patient's `i`-th generated resource (0-based):
      `res_{pid}_{i+1:04d}` and `{hash(pid) % 10000 + i + 1:04d}`. */
  function GeneratedIdentifier(patientId: string, hashValue: int, i: nat): Identifier
  {
    Identifier(ResourceKey(patientId, i + 1), UidFor(hashValue % 10000 + i + 1), patientId)
  }

  /** The key reads back as the patient and the position; the uid as the
      hash plus the position. Within one patient, distinct positions give
      distinct keys and distinct uids. */
  lemma GeneratedIdentifierFacts(patientId: string, hashValue: int, i: nat)
    ensures ParseKey(GeneratedIdentifier(patientId, hashValue, i).key) == Some(KeyParts(patientId, i + 1))
    ensures DigitsValue(GeneratedIdentifier(patientId, hashValue, i).uid) == hashValue % 10000 + i + 1
  {
    KeyRoundTrip(patientId, i + 1);
    ZeroPadRoundTrip(hashValue % 10000 + i + 1, 4);
  }

  /** The `i`-th resource (0-based) generated for patient `p`. */
  function MakeResource(p: Patient, hashValue: int, i: nat, d: ResourceDraw): Resource
    requires Generated(p) && ValidResourceDraw(d)
  {
    ArchetypesHaveTwoMedications(p.archetype.value);
    var resourceType := RESOURCE_TYPES[d.typeIndex];
    var state := StateForDraw(d.stateDraw);
    var fetchTime := d.createdTime + d.fetchDelay;
    var processingTime := fetchTime + d.processDelay;
    Resource(
      Metadata(
        state.Code(),
        d.createdTime,
        fetchTime,
        if state == Completed then Some(processingTime) else None,
        GeneratedIdentifier(p.id, hashValue, i),
        resourceType,
        if d.r4b then FHIR_R4B else FHIR_R4),
      ContentFor(resourceType, p.id, p.archetype.value, d),
      if state == Completed then Some(GenerateAiSummary(resourceType, d.summaryIndex)) else None)
  }

  /** Every generated resource keeps the metadata invariants, fetches
      1-10 s after creation and is processed 5-60 s after fetching, and its
      key and uid read back as the patient, its position and the patient's
      hash. */
  lemma MakeResourceFacts(p: Patient, hashValue: int, i: nat, d: ResourceDraw)
    requires Generated(p) && ValidResourceDraw(d)
    ensures var r := MakeResource(p, hashValue, i, d);
            && WellFormed(r)
            && r.PatientId() == p.id
            && r.metadata.createdTime + 1000 <= r.metadata.fetchTime <= r.metadata.createdTime + 10000
            && (r.metadata.processedTime.Some? ==>
                  r.metadata.fetchTime + 5000 <= r.metadata.processedTime.value <= r.metadata.fetchTime + 60000)
            && r.metadata.identifier == GeneratedIdentifier(p.id, hashValue, i)
  {
    StateSelectionFacts(d.stateDraw);
  }

  predicate ResourceDrawsFit(p: Patient, minResources: int, maxResources: int, d: PatientResourceDraw)
  {
    && Generated(p)
    && minResources <= d.count <= maxResources
    && |d.resources| == RangeLength(d.count)
    && forall i :: 0 <= i < |d.resources| ==> ValidResourceDraw(d.resources[i])
  }

  predicate BatchDrawsFit(ps: seq<Patient>, minResources: int, maxResources: int, ds: seq<PatientResourceDraw>)
  {
    |ps| == |ds| && forall k :: 0 <= k < |ps| ==> ResourceDrawsFit(ps[k], minResources, maxResources, ds[k])
  }

  /** The resources generated for one patient, in order. */
  function Block(p: Patient, d: PatientResourceDraw): (rs: seq<Resource>)
    requires Generated(p) && forall i :: 0 <= i < |d.resources| ==> ValidResourceDraw(d.resources[i])
    ensures |rs| == |d.resources|
  {
    seq(|d.resources|, i requires 0 <= i < |d.resources| => MakeResource(p, d.hashValue, i, d.resources[i]))
  }

  /** All patients' resources, patient after patient. */
  function Batch(ps: seq<Patient>, minResources: int, maxResources: int, ds: seq<PatientResourceDraw>): seq<Resource>
    requires BatchDrawsFit(ps, minResources, maxResources, ds)
    decreases |ps|
  {
    if ps == [] then []
    else
      Batch(ps[..|ps| - 1], minResources, maxResources, ds[..|ds| - 1])
      + Block(ps[|ps| - 1], ds[|ds| - 1])
  }

  /** Each patient gets between `min` and `max` resources (none for a
      negative count), so the batch size lies in `[n*min, n*max]` with
      negative bounds read as 0. */
  lemma {:induction false} BatchSize(ps: seq<Patient>, minResources: int, maxResources: int, ds: seq<PatientResourceDraw>)
    requires BatchDrawsFit(ps, minResources, maxResources, ds)
    ensures |ps| * RangeLength(minResources) <= |Batch(ps, minResources, maxResources, ds)|
                                              <= |ps| * RangeLength(maxResources)
    decreases |ps|
  {
    if ps != [] {
      var n := |ps| - 1;
      BatchSize(ps[..n], minResources, maxResources, ds[..n]);
      assert |Batch(ps, minResources, maxResources, ds)|
             == |Batch(ps[..n], minResources, maxResources, ds[..n])| + |ds[n].resources|;
      MultiplySucc(n, RangeLength(minResources));
      MultiplySucc(n, RangeLength(maxResources));
    }
  }

  lemma MultiplySucc(n: nat, m: int)
    ensures (n + 1) * m == n * m + m
  {
  }

  /** Where a batch entry comes from: patient `k`'s `i`-th resource, with
      `i` no larger than the entry's position. */
  lemma {:induction false} BatchOrigin(ps: seq<Patient>, minResources: int, maxResources: int,
                                       ds: seq<PatientResourceDraw>, j: nat)
    returns (k: nat, i: nat)
    requires BatchDrawsFit(ps, minResources, maxResources, ds)
    requires j < |Batch(ps, minResources, maxResources, ds)|
    ensures k < |ps| && i < |ds[k].resources| && i <= j
    ensures Batch(ps, minResources, maxResources, ds)[j] == MakeResource(ps[k], ds[k].hashValue, i, ds[k].resources[i])
    decreases |ps|
  {
    var n := |ps| - 1;
    var prefix := Batch(ps[..n], minResources, maxResources, ds[..n]);
    var b := Batch(ps, minResources, maxResources, ds);
    assert b == prefix + Block(ps[n], ds[n]);
    if j < |prefix| {
      k, i := BatchOrigin(ps[..n], minResources, maxResources, ds[..n], j);
      assert b[j] == prefix[j];
    } else {
      k, i := n, j - |prefix|;
      assert b[j] == Block(ps[n], ds[n])[i];
    }
  }

  /** Every resource in the batch keeps the metadata invariants, belongs to
      one of the patients, and has a key that reads back as its own patient
      and a number no larger than its position plus one. */
  lemma BatchWellFormed(ps: seq<Patient>, minResources: int, maxResources: int, ds: seq<PatientResourceDraw>)
    requires BatchDrawsFit(ps, minResources, maxResources, ds)
    ensures var b := Batch(ps, minResources, maxResources, ds);
            && (forall j :: 0 <= j < |b| ==> WellFormed(b[j]))
            && (forall j :: 0 <= j < |b| ==> exists k :: 0 <= k < |ps| && b[j].PatientId() == ps[k].id)
            && KeysNumbered(b)
  {
    var b := Batch(ps, minResources, maxResources, ds);
    forall j | 0 <= j < |b|
      ensures WellFormed(b[j])
      ensures exists k :: 0 <= k < |ps| && b[j].PatientId() == ps[k].id
      ensures var parts := ParseKey(b[j].Key());
              parts.Some? && parts.value.patientId == b[j].PatientId() && 1 <= parts.value.number <= j + 1
    {
      var k, i := BatchOrigin(ps, minResources, maxResources, ds, j);
      MakeResourceFacts(ps[k], ds[k].hashValue, i, ds[k].resources[i]);
      GeneratedIdentifierFacts(ps[k].id, ds[k].hashValue, i);
    }
  }

  /** The identifiers of one patient's block, by position. */
  lemma BlockIdentifier(p: Patient, d: PatientResourceDraw, i: nat)
    requires Generated(p) && forall i :: 0 <= i < |d.resources| ==> ValidResourceDraw(d.resources[i])
    requires i < |d.resources|
    ensures Block(p, d)[i].metadata.identifier == GeneratedIdentifier(p.id, d.hashValue, i)
  {
    MakeResourceFacts(p, d.hashValue, i, d.resources[i]);
  }

  /** Two resources of different patients differ in key and patient id;
      two of the same patient at different positions differ in key and uid. */
  lemma IdentifiersDiffer(p: string, h: int, i: nat, q: string, g: int, l: nat)
    requires p != q || (h == g && i != l)
    ensures GeneratedIdentifier(p, h, i).key != GeneratedIdentifier(q, g, l).key
    ensures GeneratedIdentifier(p, h, i).patientId != GeneratedIdentifier(q, g, l).patientId
            || GeneratedIdentifier(p, h, i).uid != GeneratedIdentifier(q, g, l).uid
  {
    GeneratedIdentifierFacts(p, h, i);
    GeneratedIdentifierFacts(q, g, l);
  }

  /** Keys are pairwise distinct across the whole batch when the patient
      ids are, and within a patient so are the uids; hence the pair
      (patient id, uid) identifies a resource of the batch. */
  lemma BatchIdentifiersUnique(ps: seq<Patient>, minResources: int, maxResources: int,
                                ds: seq<PatientResourceDraw>)
    requires BatchDrawsFit(ps, minResources, maxResources, ds)
    requires DistinctIds(ps)
    ensures var b := Batch(ps, minResources, maxResources, ds);
            && KeysUnique(b)
            && forall j, l :: 0 <= j < l < |b| ==> b[j].PatientId() != b[l].PatientId() || b[j].Uid() != b[l].Uid()
  {
    var b := Batch(ps, minResources, maxResources, ds);
    var ids := BatchIds(ps, ds);
    BatchIdsMatch(ps, minResources, maxResources, ds);
    BatchIdsApart(ps, ds);
    assert PairwiseApart(ids);
    forall j, l | 0 <= j < l < |b|
      ensures b[j].Key() != b[l].Key()
      ensures b[j].PatientId() != b[l].PatientId() || b[j].Uid() != b[l].Uid()
    {
      assert b[j].metadata.identifier == ids[j] && b[l].metadata.identifier == ids[l];
      assert IdsApart(ids[j], ids[l]);
    }
  }

  /** The identifiers the batch's resources carry, patient after patient. */
  function BatchIds(ps: seq<Patient>, ds: seq<PatientResourceDraw>): seq<Identifier>
    requires |ps| == |ds|
    decreases |ps|
  {
    if ps == [] then []
    else BatchIds(ps[..|ps| - 1], ds[..|ds| - 1]) + BlockIds(ps[|ps| - 1].id, ds[|ds| - 1])
  }

  function BlockIds(patientId: string, d: PatientResourceDraw): (ids: seq<Identifier>)
    ensures |ids| == |d.resources|
  {
    seq(|d.resources|, i requires 0 <= i < |d.resources| => GeneratedIdentifier(patientId, d.hashValue, i))
  }

  function IdsOf(ps: seq<Patient>): set<string>
  {
    set k | 0 <= k < |ps| :: ps[k].id
  }

  /** No field of the two identifiers lets one be taken for the other. */
  predicate IdsApart(x: Identifier, y: Identifier)
  {
    x.key != y.key && (x.patientId != y.patientId || x.uid != y.uid)
  }

  predicate PairwiseApart(ids: seq<Identifier>)
  {
    forall j, l :: 0 <= j < l < |ids| ==> IdsApart(ids[j], ids[l])
  }

  /** Every identifier keys its own patient, one of `owners`. */
  predicate AllOwned(ids: seq<Identifier>, owners: set<string>)
  {
    forall j :: 0 <= j < |ids| ==> OwnKey(ids[j]) && ids[j].patientId in owners
  }

  /** The key names the identifier's own patient. */
  predicate OwnKey(x: Identifier)
  {
    var parts := ParseKey(x.key);
    parts.Some? && parts.value.patientId == x.patientId
  }

  /** Each resource of the batch carries the matching identifier. */
  lemma {:induction false} BatchIdsMatch(ps: seq<Patient>, minResources: int, maxResources: int,
                                         ds: seq<PatientResourceDraw>)
    requires BatchDrawsFit(ps, minResources, maxResources, ds)
    ensures var b := Batch(ps, minResources, maxResources, ds);
            var ids := BatchIds(ps, ds);
            |ids| == |b| && forall j :: 0 <= j < |b| ==> b[j].metadata.identifier == ids[j]
    decreases |ps|
  {
    if ps != [] {
      var n := |ps| - 1;
      var prefix := Batch(ps[..n], minResources, maxResources, ds[..n]);
      var block := Block(ps[n], ds[n]);
      var b := Batch(ps, minResources, maxResources, ds);
      var prefixIds := BatchIds(ps[..n], ds[..n]);
      var blockIds := BlockIds(ps[n].id, ds[n]);
      var ids := BatchIds(ps, ds);
      assert b == prefix + block && ids == prefixIds + blockIds;
      BatchIdsMatch(ps[..n], minResources, maxResources, ds[..n]);
      forall j | 0 <= j < |b| ensures b[j].metadata.identifier == ids[j] {
        if j < |prefix| {
          assert b[j] == prefix[j] && ids[j] == prefixIds[j];
        } else {
          assert b[j] == block[j - |prefix|] && ids[j] == blockIds[j - |prefix|];
          BlockIdentifier(ps[n], ds[n], j - |prefix|);
        }
      }
    }
  }

  /** Every identifier of the batch keys its own patient, one of the batch's. */
  lemma {:induction false} BatchIdsOwned(ps: seq<Patient>, ds: seq<PatientResourceDraw>)
    requires |ps| == |ds|
    ensures AllOwned(BatchIds(ps, ds), IdsOf(ps))
    decreases |ps|
  {
    if ps != [] {
      var n := |ps| - 1;
      var prefixIds := BatchIds(ps[..n], ds[..n]);
      var blockIds := BlockIds(ps[n].id, ds[n]);
      var ids := BatchIds(ps, ds);
      assert ids == prefixIds + blockIds;
      BatchIdsOwned(ps[..n], ds[..n]);
      assert IdsOf(ps[..n]) <= IdsOf(ps) by {
        forall x | x in IdsOf(ps[..n]) ensures x in IdsOf(ps) {
          var k :| 0 <= k < n && ps[..n][k].id == x;
          assert ps[k].id == x;
        }
      }
      assert ps[n].id in IdsOf(ps);
      assert AllOwned(prefixIds, IdsOf(ps[..n]));
      forall j | 0 <= j < |ids| ensures OwnKey(ids[j]) && ids[j].patientId in IdsOf(ps) {
        if j < |prefixIds| {
          assert ids[j] == prefixIds[j];
          assert prefixIds[j].patientId in IdsOf(ps[..n]);
        } else {
          assert ids[j] == blockIds[j - |prefixIds|];
          GeneratedIdentifierFacts(ps[n].id, ds[n].hashValue, j - |prefixIds|);
        }
      }
    }
  }

  /** With distinct patient ids, any two identifiers of the batch are apart. */
  lemma {:induction false} BatchIdsApart(ps: seq<Patient>, ds: seq<PatientResourceDraw>)
    requires |ps| == |ds|
    requires DistinctIds(ps)
    ensures PairwiseApart(BatchIds(ps, ds))
    decreases |ps|
  {
    if ps != [] {
      var n := |ps| - 1;
      var prefixIds := BatchIds(ps[..n], ds[..n]);
      var blockIds := BlockIds(ps[n].id, ds[n]);
      var ids := BatchIds(ps, ds);
      assert ids == prefixIds + blockIds;
      BatchIdsApart(ps[..n], ds[..n]);
      BatchIdsOwned(ps[..n], ds[..n]);
      assert ps[n].id !in IdsOf(ps[..n]) by {
        forall k | 0 <= k < n ensures ps[..n][k].id != ps[n].id {
          assert ps[..n][k] == ps[k];
        }
      }
      OwnedApartFromBlock(prefixIds, IdsOf(ps[..n]), ps[n].id, ds[n]);
      BlockIdsApart(ps[n].id, ds[n]);
      AppendApart(prefixIds, blockIds);
    }
  }

  /** Every identifier of `a` is apart from every identifier of `b`. */
  predicate CrossApart(a: seq<Identifier>, b: seq<Identifier>)
  {
    forall j, l :: 0 <= j < |a| && 0 <= l < |b| ==> IdsApart(a[j], b[l])
  }

  lemma AppendApart(a: seq<Identifier>, b: seq<Identifier>)
    requires PairwiseApart(a) && PairwiseApart(b) && CrossApart(a, b)
    ensures PairwiseApart(a + b)
  {
    var c := a + b;
    forall j, l | 0 <= j < l < |c| ensures IdsApart(c[j], c[l]) {
      if l < |a| {
        assert c[j] == a[j] && c[l] == a[l];
      } else if j < |a| {
        assert c[j] == a[j] && c[l] == b[l - |a|];
      } else {
        assert c[j] == b[j - |a|] && c[l] == b[l - |a|];
      }
    }
  }

  /** The identifiers of one patient's block are pairwise apart. */
  lemma BlockIdsApart(patientId: string, d: PatientResourceDraw)
    ensures PairwiseApart(BlockIds(patientId, d))
  {
    var ids := BlockIds(patientId, d);
    forall j, l | 0 <= j < l < |ids| ensures IdsApart(ids[j], ids[l]) {
      IdentifiersDiffer(patientId, d.hashValue, j, patientId, d.hashValue, l);
    }
  }

  /** Identifiers owned by other patients are apart from a new patient's block. */
  lemma OwnedApartFromBlock(a: seq<Identifier>, owners: set<string>, patientId: string, d: PatientResourceDraw)
    requires AllOwned(a, owners) && patientId !in owners
    ensures CrossApart(a, BlockIds(patientId, d))
  {
    var ids := BlockIds(patientId, d);
    forall j, l | 0 <= j < |a| && 0 <= l < |ids| ensures IdsApart(a[j], ids[l]) {
      assert a[j].patientId in owners;
      GeneratedIdentifierFacts(patientId, d.hashValue, l);
      OwnersApart(a[j], ids[l]);
    }
  }

  /** Identifiers keying their own, different patients are apart. */
  lemma OwnersApart(x: Identifier, y: Identifier)
    requires OwnKey(x) && OwnKey(y) && x.patientId != y.patientId
    ensures IdsApart(x, y)
  {
    if x.key == y.key {
      assert false;
    }
  }


  /** Uids are not unique across patients: two patients whose hashes lie
      one apart modulo 10000 share a uid. */
  lemma UidsCollideAcrossPatients(p: Patient, q: Patient, h: int, d: ResourceDraw, e: ResourceDraw)
    requires Generated(p) && Generated(q) && ValidResourceDraw(d) && ValidResourceDraw(e)
    requires h % 10000 < 9999
    ensures MakeResource(p, h, 1, d).Uid() == MakeResource(q, h + 1, 0, e).Uid()
  {
    assert (h + 1) % 10000 == h % 10000 + 1;
    MakeResourceFacts(p, h, 1, d);
    MakeResourceFacts(q, h + 1, 0, e);
  }

  /** One iteration of the inner loop of `generate_ehr_resources`: the
      `i`-th resource of a patient, from its draws. */
  method NewResource(patient: Patient, hashValue: int, i: nat, rd: ResourceDraw) returns (resource: Resource)
    requires Generated(patient) && ValidResourceDraw(rd)
    ensures resource == MakeResource(patient, hashValue, i, rd)
    ensures WellFormed(resource) && resource.metadata.identifier == GeneratedIdentifier(patient.id, hashValue, i)
  {
    var resourceType := RESOURCE_TYPES[rd.typeIndex];
    var fetchTime := rd.createdTime + rd.fetchDelay;
    var processingTime := fetchTime + rd.processDelay;
    ArchetypesHaveTwoMedications(patient.archetype.value);
    var content := ContentFor(resourceType, patient.id, patient.archetype.value, rd);
    var state := SelectState(rd.stateDraw);
    resource := Resource(
      Metadata(
        state.Code(),
        rd.createdTime,
        fetchTime,
        if state == Completed then Some(processingTime) else None,
        GeneratedIdentifier(patient.id, hashValue, i),
        resourceType,
        if rd.r4b then FHIR_R4B else FHIR_R4),
      content,
      if state == Completed then Some(GenerateAiSummary(resourceType, rd.summaryIndex)) else None);
    MakeResourceFacts(patient, hashValue, i, rd);
  }

  /** The inner loop of `generate_ehr_resources` for one patient. */
  method GenerateBlock(patient: Patient, d: PatientResourceDraw) returns (block: seq<Resource>)
    requires Generated(patient) && forall i :: 0 <= i < |d.resources| ==> ValidResourceDraw(d.resources[i])
    ensures block == Block(patient, d)
  {
    ghost var all := Block(patient, d);
    block := [];
    var i := 0;
    while i < |d.resources|
      invariant 0 <= i <= |d.resources|
      invariant block == all[..i]
    {
      var resource := NewResource(patient, d.hashValue, i, d.resources[i]);
      assert all[i] == resource;
      assert all[..i + 1] == all[..i] + [resource];
      block := block + [resource];
      i := i + 1;
    }
    assert all[..i] == all;
  }

  // ---------------------------------------------------------------------
  // Derived facts
  // ---------------------------------------------------------------------

  function MakeFacts(p: Patient, d: FactsDraw): DerivedFacts
    requires Generated(p)
    requires d.exclusion.Some? ==> d.exclusion.value < |EXCLUSION_VOCABULARY|
  {
    var a := p.archetype.value;
    DerivedFacts(
      p.id, d.age, a.sex, a.diagnoses, a.medications,
      KeyLabs(d.a1c, d.egfr, d.ldl, d.sbp, d.dbp),
      if d.exclusion.Some? then [EXCLUSION_VOCABULARY[d.exclusion.value]] else [],
      d.location,
      d.extractedAt)
  }

  predicate FactsDrawsFit(ps: seq<Patient>, ds: seq<FactsDraw>)
  {
    |ps| == |ds| && forall k :: 0 <= k < |ps| ==> Generated(ps[k]) && ValidFactsDraw(ps[k].archetype.value, ds[k])
  }

  function FactsFor(ps: seq<Patient>, ds: seq<FactsDraw>): seq<DerivedFacts>
    requires FactsDrawsFit(ps, ds)
  {
    seq(|ps|, k requires 0 <= k < |ps| => MakeFacts(ps[k], ds[k]))
  }

  /** One facts entry per patient, in the patients' order, copying the
      archetype's sex, diagnoses and medications, with an age inside the
      archetype's range and at most one exclusion from the vocabulary. */
  lemma FactsAlign(ps: seq<Patient>, ds: seq<FactsDraw>)
    requires FactsDrawsFit(ps, ds)
    ensures var fs := FactsFor(ps, ds);
            && |fs| == |ps|
            && forall k :: 0 <= k < |fs| ==>
                 && fs[k].patientId == ps[k].id
                 && fs[k].sex == ps[k].archetype.value.sex
                 && fs[k].diagnoses == ps[k].archetype.value.diagnoses
                 && fs[k].medications == ps[k].archetype.value.medications
                 && ps[k].archetype.value.ageLow <= fs[k].ageYears <= ps[k].archetype.value.ageHigh
                 && |fs[k].exclusions| <= 1
                 && (forall x :: x in fs[k].exclusions ==> x in EXCLUSION_VOCABULARY)
  {
  }

  // ---------------------------------------------------------------------
  // The complete dataset
  // ---------------------------------------------------------------------

  datatype Dataset = Dataset(patients: seq<Patient>, resources: seq<Resource>, derivedFacts: seq<DerivedFacts>)

  /** `generate_complete_dataset` either returns a dataset or raises, when
      some patient's resource count must be drawn from an empty range. */
  datatype GenerateResult = Dataset_(dataset: Dataset) | EmptyResourceRange

  function Strip(ps: seq<Patient>): (r: seq<Patient>)
    ensures |r| == |ps|
  {
    seq(|ps|, k requires 0 <= k < |ps| => ps[k].(archetype := None))
  }

  predicate DatasetDrawsFit(patientDraws: seq<PatientDraw>, minResources: int, maxResources: int,
                            resourceDraws: seq<PatientResourceDraw>, factsDraws: seq<FactsDraw>)
  {
    && (forall i :: 0 <= i < |patientDraws| ==> ValidPatientDraw(patientDraws[i]))
    && ((|patientDraws| > 0 && minResources > maxResources)
        || (&& BatchDrawsFit(PatientsFrom(patientDraws), minResources, maxResources, resourceDraws)
            && FactsDrawsFit(PatientsFrom(patientDraws), factsDraws)))
  }

  function CompleteDataset(patientDraws: seq<PatientDraw>, minResources: int, maxResources: int,
                           resourceDraws: seq<PatientResourceDraw>, factsDraws: seq<FactsDraw>): GenerateResult
    requires DatasetDrawsFit(patientDraws, minResources, maxResources, resourceDraws, factsDraws)
  {
    var ps := PatientsFrom(patientDraws);
    if |ps| > 0 && minResources > maxResources then EmptyResourceRange
    else Dataset_(Dataset(
      Strip(ps),
      Batch(ps, minResources, maxResources, resourceDraws),
      FactsFor(ps, factsDraws)))
  }

  /** Stripping the archetypes keeps every patient's id and drops only
      the archetype. */
  lemma StripKeepsIds(ps: seq<Patient>)
    ensures forall k :: 0 <= k < |ps| ==> Strip(ps)[k].id == ps[k].id && Strip(ps)[k].archetype.None?
    ensures DistinctIds(ps) ==> DistinctIds(Strip(ps))
  {
  }

  /** What a generated dataset guarantees for `n` patients: patients P001..
      with distinct ids and no archetype left; every resource well-formed
      and belonging to one of them; keys unique and numbered; (patient id,
      uid) pairs unique; the resource count within `[n*min, n*max]`; one
      facts entry per patient in order. */
  predicate DatasetInvariant(n: nat, minResources: int, maxResources: int, ds: Dataset)
  {
    && |ds.patients| == n
    && (forall k :: 0 <= k < |ds.patients| ==> ds.patients[k].id == PatientIdFor(k + 1) && ds.patients[k].archetype.None?)
    && DistinctIds(ds.patients)
    && (forall j :: 0 <= j < |ds.resources| ==> WellFormed(ds.resources[j]))
    && (forall j :: 0 <= j < |ds.resources| ==>
          exists k :: 0 <= k < |ds.patients| && ds.resources[j].PatientId() == ds.patients[k].id)
    && KeysUnique(ds.resources) && KeysNumbered(ds.resources)
    && (forall j, l :: 0 <= j < l < |ds.resources| ==>
          ds.resources[j].PatientId() != ds.resources[l].PatientId() || ds.resources[j].Uid() != ds.resources[l].Uid())
    && n * RangeLength(minResources) <= |ds.resources| <= n * RangeLength(maxResources)
    && |ds.derivedFacts| == n
    && (forall k :: 0 <= k < |ds.derivedFacts| ==> ds.derivedFacts[k].patientId == ds.patients[k].id)
  }

  /** `generate_complete_dataset` fails exactly when there is a patient and
      `min > max`; otherwise its dataset keeps the dataset invariant. */
  lemma CompleteDatasetFacts(patientDraws: seq<PatientDraw>, minResources: int, maxResources: int,
                             resourceDraws: seq<PatientResourceDraw>, factsDraws: seq<FactsDraw>)
    requires DatasetDrawsFit(patientDraws, minResources, maxResources, resourceDraws, factsDraws)
    ensures var result := CompleteDataset(patientDraws, minResources, maxResources, resourceDraws, factsDraws);
            && (result.EmptyResourceRange? <==> |patientDraws| > 0 && minResources > maxResources)
            && (result.Dataset_? ==> DatasetInvariant(|patientDraws|, minResources, maxResources, result.dataset))
  {
    var ps := PatientsFrom(patientDraws);
    if !(|ps| > 0 && minResources > maxResources) {
      PatientsFromFacts(patientDraws);
      assert CompleteDataset(patientDraws, minResources, maxResources, resourceDraws, factsDraws).dataset
          == Dataset(Strip(ps), Batch(ps, minResources, maxResources, resourceDraws), FactsFor(ps, factsDraws));
      GeneratedDatasetInvariant(ps, minResources, maxResources, resourceDraws, factsDraws);
    }
  }

  /** Stripping, batching and deriving facts for numbered patients with
      distinct ids gives a dataset that keeps the dataset invariant. */
  lemma GeneratedDatasetInvariant(ps: seq<Patient>, minResources: int, maxResources: int,
                                  resourceDraws: seq<PatientResourceDraw>, factsDraws: seq<FactsDraw>)
    requires BatchDrawsFit(ps, minResources, maxResources, resourceDraws) && FactsDrawsFit(ps, factsDraws)
    requires forall k :: 0 <= k < |ps| ==> ps[k].id == PatientIdFor(k + 1)
    requires DistinctIds(ps)
    ensures DatasetInvariant(|ps|, minResources, maxResources,
              Dataset(Strip(ps), Batch(ps, minResources, maxResources, resourceDraws), FactsFor(ps, factsDraws)))
  {
    var sp := Strip(ps);
    var b := Batch(ps, minResources, maxResources, resourceDraws);
    var fs := FactsFor(ps, factsDraws);
    StripKeepsIds(ps);
    BatchWellFormed(ps, minResources, maxResources, resourceDraws);
    BatchIdentifiersUnique(ps, minResources, maxResources, resourceDraws);
    BatchSize(ps, minResources, maxResources, resourceDraws);
    FactsAlign(ps, factsDraws);
    forall j | 0 <= j < |b|
      ensures exists k :: 0 <= k < |sp| && b[j].PatientId() == sp[k].id
    {
      var k :| 0 <= k < |ps| && b[j].PatientId() == ps[k].id;
      assert sp[k].id == ps[k].id;
    }
    assert DatasetInvariant(|ps|, minResources, maxResources, Dataset(sp, b, fs));
  }

  /** The clean-up loop of `generate_complete_dataset`: every patient
      loses its `_archetype` entry. */
  method StripArchetypes(ps: seq<Patient>) returns (stripped: seq<Patient>)
    ensures stripped == Strip(ps)
  {
    stripped := [];
    var k := 0;
    while k < |ps|
      invariant 0 <= k <= |ps|
      invariant stripped == Strip(ps[..k])
    {
      stripped := stripped + [ps[k].(archetype := None)];
      k := k + 1;
    }
    assert ps[..k] == ps;
  }

  // ---------------------------------------------------------------------
  // The generator object
  // ---------------------------------------------------------------------

  /** `EHRDataGenerator`: remembers the last patients, resources and facts
      it generated. */
  class EHRDataGenerator {
    var patients: seq<Patient>
    var resources: seq<Resource>
    var derivedFacts: seq<DerivedFacts>

    constructor ()
      ensures patients == [] && resources == [] && derivedFacts == []
    {
      patients := [];
      resources := [];
      derivedFacts := [];
    }

    method GeneratePatients(draws: seq<PatientDraw>) returns (ps: seq<Patient>)
      requires forall i :: 0 <= i < |draws| ==> ValidPatientDraw(draws[i])
      modifies this
      ensures ps == PatientsFrom(draws)
      ensures patients == ps && resources == old(resources) && derivedFacts == old(derivedFacts)
    {
      ps := [];
      var i := 0;
      while i < |draws|
        invariant 0 <= i <= |draws|
        invariant ps == PatientsFrom(draws[..i])
      {
        ps := ps + [MakePatient(i, draws[i])];
        i := i + 1;
      }
      assert draws[..i] == draws;
      patients := ps;
    }

    method GenerateEhrResources(ps: seq<Patient>, minResources: int, maxResources: int,
                                draws: seq<PatientResourceDraw>)
      returns (rs: seq<Resource>)
      requires BatchDrawsFit(ps, minResources, maxResources, draws)
      modifies this
      ensures rs == Batch(ps, minResources, maxResources, draws)
      ensures resources == rs && patients == old(patients) && derivedFacts == old(derivedFacts)
    {
      rs := [];
      var k := 0;
      while k < |ps|
        invariant 0 <= k <= |ps|
        invariant rs == Batch(ps[..k], minResources, maxResources, draws[..k])
        invariant patients == old(patients) && derivedFacts == old(derivedFacts)
      {
        var block := GenerateBlock(ps[k], draws[k]);
        assert ps[..k + 1][..k] == ps[..k] && draws[..k + 1][..k] == draws[..k];
        rs := rs + block;
        k := k + 1;
      }
      assert ps[..k] == ps && draws[..k] == draws;
      resources := rs;
    }

    method GenerateDerivedFacts(ps: seq<Patient>, draws: seq<FactsDraw>) returns (fs: seq<DerivedFacts>)
      requires FactsDrawsFit(ps, draws)
      modifies this
      ensures fs == FactsFor(ps, draws)
      ensures derivedFacts == fs && patients == old(patients) && resources == old(resources)
    {
      fs := [];
      var k := 0;
      while k < |ps|
        invariant 0 <= k <= |ps|
        invariant fs == FactsFor(ps[..k], draws[..k])
      {
        fs := fs + [MakeFacts(ps[k], draws[k])];
        k := k + 1;
      }
      assert ps[..k] == ps && draws[..k] == draws;
      derivedFacts := fs;
    }

    /** `generate_complete_dataset`. The archetypes are deleted from the
        patient records the generator itself holds as well, since the
        returned list is the same objects. When a resource count must be
        drawn from an empty range the patients are already replaced but the
        resources and facts are not. */
    method GenerateCompleteDataset(patientDraws: seq<PatientDraw>, minResources: int, maxResources: int,
                                   resourceDraws: seq<PatientResourceDraw>, factsDraws: seq<FactsDraw>)
      returns (result: GenerateResult)
      requires DatasetDrawsFit(patientDraws, minResources, maxResources, resourceDraws, factsDraws)
      modifies this
      ensures result == CompleteDataset(patientDraws, minResources, maxResources, resourceDraws, factsDraws)
      ensures result.Dataset_? ==>
                && patients == result.dataset.patients
                && resources == result.dataset.resources
                && derivedFacts == result.dataset.derivedFacts
      ensures result.EmptyResourceRange? ==>
                && patients == PatientsFrom(patientDraws)
                && resources == old(resources)
                && derivedFacts == old(derivedFacts)
    {
      var ps := GeneratePatients(patientDraws);
      if |ps| > 0 && minResources > maxResources {
        return EmptyResourceRange;
      }
      var rs := GenerateEhrResources(ps, minResources, maxResources, resourceDraws);
      var fs := GenerateDerivedFacts(ps, factsDraws);
      var stripped := StripArchetypes(ps);
      patients := stripped;
      result := Dataset_(Dataset(stripped, rs, fs));
      assert CompleteDataset(patientDraws, minResources, maxResources, resourceDraws, factsDraws)
             == Dataset_(Dataset(Strip(ps), rs, fs));
    }
  }
}
