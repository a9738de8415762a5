/** The records the backend stores and serves, and their fixed tables:
    processing states, FHIR versions, patient archetypes, resource types,
    patients, resources, derived clinical facts, and the text formats of
    resource keys, uids and patient ids. */
module Records {
  import opened Common

  // ---------------------------------------------------------------------
  // Enumerations
  // ---------------------------------------------------------------------

  /** `ProcessingState`; a resource stores the integer `Code()`. */
  datatype ProcessingState = Unspecified | NotStarted | Processing | Completed | Failed
  {
    function Code(): (c: int)
      ensures 0 <= c <= 4
      ensures c == 3 <==> this == Completed
      ensures c == 0 <==> this == Unspecified
    {
      match this
      case Unspecified => 0
      case NotStarted => 1
      case Processing => 2
      case Completed => 3
      case Failed => 4
    }
  }

  const COMPLETED: int := 3

  /** `FHIRVersion.FHIR_VERSION_R4.value` and `FHIR_VERSION_R4B.value`. */
  const FHIR_R4: int := 1
  const FHIR_R4B: int := 2

  // ---------------------------------------------------------------------
  // Archetypes
  // ---------------------------------------------------------------------

  datatype Diagnosis = Diagnosis(code: string, text: string, since: string)

  /** A fixed clinical profile that parameterises generation. */
  datatype Archetype = Archetype(
    ageLow: int, ageHigh: int,
    sex: string,
    diagnoses: seq<Diagnosis>,
    medications: seq<string>,
    a1cLow: real, a1cHigh: real,
    conditionFocus: seq<string>)

  const ARCHETYPES: seq<Archetype> := [
    Archetype(45, 65, "female",
      [Diagnosis("E11.9", "Type 2 Diabetes without complications", "2017"),
       Diagnosis("I10", "Essential Hypertension", "2019")],
      ["metformin", "lisinopril"], 7.8, 9.2,
      ["type 2 diabetes", "hypertension"]),
    Archetype(50, 70, "male",
      [Diagnosis("E11.9", "Type 2 Diabetes without complications", "2015"),
       Diagnosis("I10", "Essential Hypertension", "2018"),
       Diagnosis("E78.5", "Hyperlipidemia", "2020")],
      ["metformin", "amlodipine", "atorvastatin"], 8.0, 10.1,
      ["type 2 diabetes", "cardiovascular disease"]),
    Archetype(40, 60, "female",
      [Diagnosis("E11.9", "Type 2 Diabetes without complications", "2020")],
      ["metformin", "glipizide"], 7.2, 8.5,
      ["type 2 diabetes"]),
    Archetype(55, 75, "male",
      [Diagnosis("E11.9", "Type 2 Diabetes without complications", "2014"),
       Diagnosis("I10", "Essential Hypertension", "2016"),
       Diagnosis("N18.3", "Chronic kidney disease stage 3", "2021")],
      ["metformin", "losartan", "furosemide"], 8.5, 10.8,
      ["type 2 diabetes", "chronic kidney disease"]),
    Archetype(35, 55, "female",
      [Diagnosis("E11.9", "Type 2 Diabetes without complications", "2019"),
       Diagnosis("E66.9", "Obesity, unspecified", "2018")],
      ["metformin", "semaglutide"], 6.8, 8.0,
      ["type 2 diabetes", "obesity", "weight management"])
  ]

  const RESOURCE_TYPES: seq<string> := [
    "LabReport", "ClinicalNote", "DischargeSummary", "MedicationList",
    "VitalSigns", "RadiologyReport", "ReferralNote"
  ]

  const MID_TIER_CITIES: seq<string> := [
    "Springfield, IL", "Madison, WI", "Fort Wayne, IN", "Grand Rapids, MI",
    "Chattanooga, TN", "Spokane, WA", "Boise, ID", "Reno, NV",
    "Lansing, MI", "Peoria, IL", "Cedar Rapids, IA", "Green Bay, WI",
    "Evansville, IN", "Dayton, OH", "Rockford, IL", "Springfield, MO",
    "Fargo, ND", "Sioux Falls, SD", "Burlington, VT", "Manchester, NH"
  ]

  const EXCLUSION_VOCABULARY: seq<string> := ["pregnancy", "type1_diabetes", "severe_renal_disease"]

  // ---------------------------------------------------------------------
  // Stored records
  // ---------------------------------------------------------------------

  datatype Preferences = Preferences(
    preferredLocation: Option<string>,
    willingToTravel: bool,
    conditionFocus: seq<string>,
    trialPhasePreference: seq<string>,
    trialType: seq<string>)

  /** A patient profile; `archetype` is the internal `_archetype` entry,
      present only until the dataset is assembled. Timestamps are
      milliseconds. */
  datatype Patient = Patient(
    id: string,
    name: string,
    email: string,
    consentGiven: bool,
    preferences: Option<Preferences>,
    createdAt: int,
    archetype: Option<Archetype>)

  datatype Identifier = Identifier(key: string, uid: string, patientId: string)

  datatype Metadata = Metadata(
    state: int,
    createdTime: int,
    fetchTime: int,
    processedTime: Option<int>,
    identifier: Identifier,
    resourceType: string,
    version: int)

  /** One served clinical document with its processing metadata. */
  datatype Resource = Resource(metadata: Metadata, humanReadableStr: string, aiSummary: Option<string>)
  {
    function PatientId(): string { metadata.identifier.patientId }
    function Key(): string { metadata.identifier.key }
    function Uid(): string { metadata.identifier.uid }
  }

  datatype KeyLabs = KeyLabs(a1c: real, egfr: int, ldl: int, sbp: int, dbp: int)

  datatype DerivedFacts = DerivedFacts(
    patientId: string,
    ageYears: int,
    sex: string,
    diagnoses: seq<Diagnosis>,
    medications: seq<string>,
    keyLabs: KeyLabs,
    exclusions: seq<string>,
    location: string,
    extractedAt: int)

  /** The metadata invariants every resource the backend creates keeps:
      `processedTime` and `aiSummary` are present exactly when the state is
      COMPLETED, fetching does not precede creation, processing does not
      precede fetching, and the state is one of the four real states. */
  predicate WellFormed(r: Resource)
  {
    && (r.metadata.processedTime.Some? <==> r.metadata.state == COMPLETED)
    && (r.aiSummary.Some? <==> r.metadata.state == COMPLETED)
    && r.metadata.createdTime <= r.metadata.fetchTime
    && (r.metadata.processedTime.Some? ==> r.metadata.fetchTime <= r.metadata.processedTime.value)
    && 1 <= r.metadata.state <= 4
    && (r.metadata.version == FHIR_R4 || r.metadata.version == FHIR_R4B)
  }

  // ---------------------------------------------------------------------
  // Identifier formats
  // ---------------------------------------------------------------------

  /** `f"P{n:03d}"`. */
  function PatientIdFor(n: nat): string
  {
    "P" + ZeroPad(n, 3)
  }

  /** `f"{n:04d}"`. */
  function UidFor(n: nat): string
  {
    ZeroPad(n, 4)
  }

  /** `f"res_{patientId}_{n:04d}"`. */
  function ResourceKey(patientId: string, n: nat): string
  {
    "res_" + patientId + "_" + ZeroPad(n, 4)
  }

  datatype KeyParts = KeyParts(patientId: string, number: nat)

  /** Reads a resource key back into the patient id and the number it was
      built from; the patient id is everything up to the last underscore. */
  function ParseKey(key: string): Option<KeyParts>
  {
    if |key| < 4 || key[..4] != "res_" then None
    else
      var rest := key[4..];
      match LastIndexOf(rest, '_')
      case None => None
      case Some(j) =>
        var digits := rest[j + 1..];
        if digits != [] && AllDigits(digits) then Some(KeyParts(rest[..j], DigitsValue(digits)))
        else None
  }

  /** The key format loses nothing: whatever the patient id (underscores
      included) and whatever the number, the key reads back as both. */
  lemma KeyRoundTrip(patientId: string, n: nat)
    ensures ParseKey(ResourceKey(patientId, n)) == Some(KeyParts(patientId, n))
  {
    var digits := ZeroPad(n, 4);
    assert |digits| >= 4;
    ParseKeyOf(patientId, digits);
    ZeroPadRoundTrip(n, 4);
  }

  /** A key with a non-empty digit suffix reads back as its parts. */
  lemma ParseKeyOf(id: string, digits: string)
    requires digits != [] && AllDigits(digits)
    ensures ParseKey("res_" + id + "_" + digits) == Some(KeyParts(id, DigitsValue(digits)))
  {
    var key := "res_" + id + "_" + digits;
    var rest := id + "_" + digits;
    assert key[..4] == "res_" && key[4..] == rest;
    LastUnderscoreBeforeDigits(id, digits);
    assert rest[|id| + 1..] == digits && rest[..|id|] == id;
  }

  /** In `id + "_" + digits` the last underscore is the one added. */
  lemma LastUnderscoreBeforeDigits(id: string, digits: string)
    requires AllDigits(digits)
    ensures LastIndexOf(id + "_" + digits, '_') == Some(|id|)
  {
    forall k | 0 <= k < |digits| ensures digits[k] != '_' {
      assert IsDigit(digits[k]);
    }
    assert id + "_" + digits == id + ['_'] + digits;
    LastIndexOfBefore(id, '_', digits);
  }

  /** Two keys are equal only when built from the same patient id and the
      same number. */
  lemma KeyInjective(p: string, n: nat, q: string, m: nat)
    requires ResourceKey(p, n) == ResourceKey(q, m)
    ensures p == q && n == m
  {
    KeyRoundTrip(p, n);
    KeyRoundTrip(q, m);
  }

  /** Distinct patient numbers give distinct patient ids. */
  lemma PatientIdInjective(n: nat, m: nat)
    requires PatientIdFor(n) == PatientIdFor(m)
    ensures n == m
  {
    assert PatientIdFor(n)[1..] == ZeroPad(n, 3);
    assert PatientIdFor(m)[1..] == ZeroPad(m, 3);
    ZeroPadInjective(n, m, 3);
  }

  /** Distinct numbers give distinct uids. */
  lemma UidInjective(n: nat, m: nat)
    requires UidFor(n) == UidFor(m)
    ensures n == m
  {
    ZeroPadInjective(n, m, 4);
  }

  /** Every stored resource whose key was built by the backend: it reads
      back as the resource's own patient id and a number at most one more
      than the resource's position in storage. */
  predicate KeysNumbered(rs: seq<Resource>)
  {
    forall j :: 0 <= j < |rs| ==>
      var parts := ParseKey(rs[j].Key());
      parts.Some? && parts.value.patientId == rs[j].PatientId() && 1 <= parts.value.number <= j + 1
  }

  predicate KeysUnique(rs: seq<Resource>)
  {
    forall j, k :: 0 <= j < k < |rs| ==> rs[j].Key() != rs[k].Key()
  }
}
