/** The Bronze -> Silver -> Gold transformer: extracted clinical entities
    are aggregated into a patient profile whose trial-eligibility factors
    come from fixed clinical threshold bands, and every transformation is
    recorded in a log that the pipeline statistics summarise. */
module Medallion {
  import opened Common
  import opened Seqs

  // ---------------------------------------------------------------------
  // Layers
  // ---------------------------------------------------------------------

  /** A raw document as ingested (Bronze). */
  datatype BronzeDocument = BronzeDocument(
    documentId: string,
    patientId: string,
    sourceSystem: string,
    documentType: string,
    rawContent: string,
    ingestionTimestamp: int)

  /** One extracted clinical entity (Silver). */
  datatype SilverClinicalEntity = SilverClinicalEntity(
    entityType: string,
    entityValue: string,
    confidenceScore: real,
    extractedFrom: string,
    normalizedCode: Option<string>)

  /** The three entity lists the pattern extractors return for a document:
      medications, diagnoses and lab values. */
  datatype Extraction = Extraction(
    medications: seq<SilverClinicalEntity>,
    diagnoses: seq<SilverClinicalEntity>,
    labValues: seq<SilverClinicalEntity>)

  /** Each extractor tags its entities with its own type. */
  predicate ExtractorTyped(x: Extraction)
  {
    && (forall i :: 0 <= i < |x.medications| ==> x.medications[i].entityType == "medication")
    && (forall i :: 0 <= i < |x.diagnoses| ==> x.diagnoses[i].entityType == "diagnosis")
    && (forall i :: 0 <= i < |x.labValues| ==> x.labValues[i].entityType == "lab_value")
  }

  /** Demographics handed to the Gold step; a missing entry is `None`. */
  datatype Demographics = Demographics(age: Option<int>, sex: Option<string>, location: Option<string>)

  datatype DiabetesControl = WellControlled | ModeratelyControlled | PoorlyControlled | ControlUnknown
  {
    function Label(): string
    {
      match this
      case WellControlled => "well_controlled"
      case ModeratelyControlled => "moderately_controlled"
      case PoorlyControlled => "poorly_controlled"
      case ControlUnknown => "unknown"
    }
  }

  datatype RenalFunction = RenalNormal | MildImpairment | ModerateImpairment | SevereImpairment | RenalUnknown
  {
    function Label(): string
    {
      match this
      case RenalNormal => "normal"
      case MildImpairment => "mild_impairment"
      case ModerateImpairment => "moderate_impairment"
      case SevereImpairment => "severe_impairment"
      case RenalUnknown => "unknown"
    }
  }

  datatype CardiacRisk = HighRisk | ModerateRisk | LowRisk | MinimalRisk
  {
    function Label(): string
    {
      match this
      case HighRisk => "high"
      case ModerateRisk => "moderate"
      case LowRisk => "low"
      case MinimalRisk => "minimal"
    }
  }

  datatype EligibilityFactors = EligibilityFactors(
    diabetesControlled: DiabetesControl,
    renalFunction: RenalFunction,
    cardiacRisk: CardiacRisk)

  /** A trial-matching-ready patient profile (Gold). */
  datatype GoldPatientProfile = GoldPatientProfile(
    patientId: string,
    ageYears: int,
    sex: string,
    primaryConditions: seq<string>,
    comorbidities: seq<string>,
    currentMedications: seq<string>,
    contraindications: seq<string>,
    geographicLocation: string,
    trialEligibilityFactors: EligibilityFactors)

  // ---------------------------------------------------------------------
  // Gold profile derivation
  // ---------------------------------------------------------------------

  /** `[e.entity_value for e in entities if e.entity_type == t]`. */
  function ValuesOfType(entities: seq<SilverClinicalEntity>, t: string): (r: seq<string>)
    ensures |r| <= |entities|
    decreases |entities|
  {
    if entities == [] then []
    else (if entities[0].entityType == t then [entities[0].entityValue] else [])
         + ValuesOfType(entities[1..], t)
  }

  function Values(entities: seq<SilverClinicalEntity>): (r: seq<string>)
    ensures |r| == |entities|
  {
    seq(|entities|, i requires 0 <= i < |entities| => entities[i].entityValue)
  }

  /** The projection is the values of exactly the entities of that type, in
      their original order: it is the value list of the filtered entities. */
  lemma {:induction false} ValuesOfTypeIsFilter(entities: seq<SilverClinicalEntity>, t: string)
    ensures ValuesOfType(entities, t) == Values(Filter(entities, (e: SilverClinicalEntity) => e.entityType == t))
    decreases |entities|
  {
    if entities != [] {
      ValuesOfTypeIsFilter(entities[1..], t);
    }
  }

  lemma {:induction false} ValuesOfTypeAppend(a: seq<SilverClinicalEntity>, b: seq<SilverClinicalEntity>, t: string)
    ensures ValuesOfType(a + b, t) == ValuesOfType(a, t) + ValuesOfType(b, t)
    decreases |a|
  {
    if a == [] {
      assert a + b == b;
    } else {
      var head := if a[0].entityType == t then [a[0].entityValue] else [];
      assert (a + b)[0] == a[0];
      assert (a + b)[1..] == a[1..] + b;
      assert ValuesOfType(a + b, t) == head + ValuesOfType(a[1..] + b, t);
      ValuesOfTypeAppend(a[1..], b, t);
      assert ValuesOfType(a, t) == head + ValuesOfType(a[1..], t);
    }
  }

  /** A list whose entities all have type `t` projects to all its values;
      one where none has type `t` projects to nothing. */
  lemma {:induction false} ValuesOfUniformType(entities: seq<SilverClinicalEntity>, t: string)
    ensures (forall i :: 0 <= i < |entities| ==> entities[i].entityType == t) ==>
              ValuesOfType(entities, t) == Values(entities)
    ensures (forall i :: 0 <= i < |entities| ==> entities[i].entityType != t) ==>
              ValuesOfType(entities, t) == []
    decreases |entities|
  {
    if entities != [] {
      ValuesOfUniformType(entities[1..], t);
      assert Values(entities) == [entities[0].entityValue] + Values(entities[1..]);
    }
  }

  function GetOr<T>(o: Option<T>, default: T): T
  {
    match o
    case Some(v) => v
    case None => default
  }

  /** `silver_to_gold_patient` without its log entry. The A1C reading uses
      the corrected parse (see AssessDiabetesControl). */
  function GoldProfileOf(patientId: string, entities: seq<SilverClinicalEntity>, demographics: Demographics): GoldPatientProfile
  {
    var diagnoses := ValuesOfType(entities, "diagnosis");
    GoldPatientProfile(
      patientId,
      GetOr(demographics.age, 0),
      GetOr(demographics.sex, "unknown"),
      PySlice(diagnoses, 0, 3),
      PySlice(diagnoses, 3, |diagnoses|),
      ValuesOfType(entities, "medication"),
      ValuesOfType(entities, "contraindication"),
      GetOr(demographics.location, "unknown"),
      EligibilityFactors(
        AssessDiabetesControl(entities),
        AssessRenalFunction(entities),
        AssessCardiacRisk(entities)))
  }

  /** The profile partitions the diagnoses, in entity order, into the first
      (at most) three primary conditions and the comorbidities after them;
      medications and contraindications are exactly the values of the
      entities of that type; missing demographics take their defaults. */
  lemma GoldProfileShape(patientId: string, entities: seq<SilverClinicalEntity>, demographics: Demographics)
    ensures var g := GoldProfileOf(patientId, entities, demographics);
            var diagnoses := Values(Filter(entities, (e: SilverClinicalEntity) => e.entityType == "diagnosis"));
            && g.patientId == patientId
            && g.primaryConditions + g.comorbidities == diagnoses
            && |g.primaryConditions| == (if |diagnoses| < 3 then |diagnoses| else 3)
            && g.currentMedications == Values(Filter(entities, (e: SilverClinicalEntity) => e.entityType == "medication"))
            && g.contraindications == Values(Filter(entities, (e: SilverClinicalEntity) => e.entityType == "contraindication"))
            && g.ageYears == (if demographics.age.Some? then demographics.age.value else 0)
            && g.sex == (if demographics.sex.Some? then demographics.sex.value else "unknown")
            && g.geographicLocation == (if demographics.location.Some? then demographics.location.value else "unknown")
  {
    ValuesOfTypeIsFilter(entities, "diagnosis");
    ValuesOfTypeIsFilter(entities, "medication");
    ValuesOfTypeIsFilter(entities, "contraindication");
    PrimarySplit(ValuesOfType(entities, "diagnosis"));
  }

  /** `d[:3]` and `d[3:]` split `d` without losing or reordering anything. */
  lemma PrimarySplit(d: seq<string>)
    ensures PySlice(d, 0, 3) + PySlice(d, 3, |d|) == d
    ensures |PySlice(d, 0, 3)| == if |d| < 3 then |d| else 3
  {
    if |d| <= 3 {
      assert PySlice(d, 0, 3) == d;
    } else {
      assert PySlice(d, 0, 3) + PySlice(d, 3, |d|) == d[..3] + d[3..];
    }
  }

  // ---------------------------------------------------------------------
  // Reading numbers the way `re.search` does
  // ---------------------------------------------------------------------

  /** Drops everything before the first digit. */
  function SkipNonDigits(s: string): (r: string)
    ensures |r| <= |s| && r == s[|s| - |r|..]
    ensures r != [] ==> IsDigit(r[0])
    ensures r == [] ==> forall i :: 0 <= i < |s| ==> !IsDigit(s[i])
    decreases |s|
  {
    if s == [] || IsDigit(s[0]) then s else SkipNonDigits(s[1..])
  }

  /** The longest prefix made of digits (the greedy `\d*`). */
  function DigitRun(s: string): (r: string)
    ensures AllDigits(r) && r <= s
    ensures |r| < |s| ==> !IsDigit(s[|r|])
    decreases |s|
  {
    if s == [] || !IsDigit(s[0]) then [] else [s[0]] + DigitRun(s[1..])
  }

  function Pow10(k: nat): (p: nat)
    ensures p >= 1
  {
    if k == 0 then 1 else 10 * Pow10(k - 1)
  }

  /** The value of the digits after a decimal point. */
  function FractionValue(digits: string): real
    requires AllDigits(digits)
  {
    DigitsValue(digits) as real / Pow10(|digits|) as real
  }

  /** `int(re.search(r"(\d+)", s).group(1))`, or `None` when `s` holds no
      digit (where the source's `.group` raises). */
  function FirstInteger(s: string): Option<nat>
  {
    var t := SkipNonDigits(s);
    if t == [] then None else Some(DigitsValue(DigitRun(t)))
  }

  /** The text `re.search(r"(\d+\.?\d*)", s).group(1)` matches: the
      leftmost digit run, then, when a point follows it, the digit run after
      the point (possibly empty). */
  datatype Numeral = Numeral(whole: string, fraction: Option<string>)

  predicate ValidNumeral(n: Numeral)
  {
    n.whole != [] && AllDigits(n.whole) && (n.fraction.Some? ==> AllDigits(n.fraction.value))
  }

  /** `float(...)` of a matched numeral. */
  function NumeralValue(n: Numeral): real
    requires ValidNumeral(n)
  {
    DigitsValue(n.whole) as real + (if n.fraction.Some? then FractionValue(n.fraction.value) else 0.0)
  }

  /** The numeral `\d+\.?\d*` matches first in `s`; `None` when `s` holds
      no digit. */
  function FirstNumeral(s: string): (r: Option<Numeral>)
    ensures r.Some? ==> ValidNumeral(r.value)
    ensures r.None? <==> NoDigits(s)
  {
    var t := SkipNonDigits(s);
    if t == [] then None
    else
      var whole := DigitRun(t);
      var rest := t[|whole|..];
      if rest != [] && rest[0] == '.' then Some(Numeral(whole, Some(DigitRun(rest[1..]))))
      else Some(Numeral(whole, None))
  }

  /** `float(re.search(r"(\d+\.?\d*)", s).group(1))`, or `None` when `s`
      holds no digit (where the source's `.group` raises). */
  function FirstDecimal(s: string): Option<real>
  {
    match FirstNumeral(s)
    case None => None
    case Some(n) => Some(NumeralValue(n))
  }

  predicate NoDigits(s: string) { forall i :: 0 <= i < |s| ==> !IsDigit(s[i]) }

  lemma {:induction false} SkipNonDigitsPrefix(p: string, s: string)
    requires NoDigits(p)
    ensures SkipNonDigits(p + s) == SkipNonDigits(s)
    decreases |p|
  {
    if p == [] {
      assert p + s == s;
    } else {
      assert (p + s)[1..] == p[1..] + s;
      SkipNonDigitsPrefix(p[1..], s);
    }
  }

  lemma {:induction false} DigitRunOf(d: string, s: string)
    requires AllDigits(d)
    requires s == [] || !IsDigit(s[0])
    ensures DigitRun(d + s) == d
    decreases |d|
  {
    if d == [] {
      assert d + s == s;
    } else {
      assert (d + s)[1..] == d[1..] + s;
      DigitRunOf(d[1..], s);
    }
  }

  /** The text of a numeral after its whole part. */
  function DecimalTail(fraction: Option<string>): string
  {
    if fraction.Some? then "." + fraction.value else ""
  }

  /** How a text whose first digit starts the digit run `whole`, followed by
      something that is not a digit, is matched. */
  lemma FirstNumeralOfRun(s: string, whole: string, rest: string)
    requires whole != [] && AllDigits(whole)
    requires SkipNonDigits(s) == whole + rest
    requires rest == [] || !IsDigit(rest[0])
    ensures FirstNumeral(s) ==
              Some(Numeral(whole, if rest != [] && rest[0] == '.' then Some(DigitRun(rest[1..])) else None))
  {
    DigitRunOf(whole, rest);
    assert (whole + rest)[|whole|..] == rest;
  }

  lemma SkipToNumeral(lead: string, whole: string, tail: string)
    requires NoDigits(lead)
    requires whole != [] && AllDigits(whole)
    ensures SkipNonDigits(lead + (whole + tail)) == whole + tail
  {
    SkipNonDigitsPrefix(lead, whole + tail);
    assert (whole + tail)[0] == whole[0];
  }

  lemma FractionOfTail(fraction: Option<string>)
    requires fraction.Some? ==> AllDigits(fraction.value)
    ensures var tail := DecimalTail(fraction);
            && (tail == [] || !IsDigit(tail[0]))
            && (if tail != [] && tail[0] == '.' then Some(DigitRun(tail[1..])) else None) == fraction
  {
    var tail := DecimalTail(fraction);
    if fraction.Some? {
      assert tail[1..] == fraction.value + "";
      DigitRunOf(fraction.value, "");
    }
  }

  /** A value written as a lead without digits, then a numeral, matches
      that numeral exactly. */
  lemma NumeralAfterLead(lead: string, whole: string, fraction: Option<string>)
    requires NoDigits(lead)
    requires ValidNumeral(Numeral(whole, fraction))
    ensures FirstNumeral(lead + whole + DecimalTail(fraction)) == Some(Numeral(whole, fraction))
  {
    var tail := DecimalTail(fraction);
    var t := lead + (whole + tail);
    assert lead + whole + tail == t;
    SkipToNumeral(lead, whole, tail);
    FractionOfTail(fraction);
    FirstNumeralOfRun(t, whole, tail);
  }

  // ---------------------------------------------------------------------
  // Clinical assessments
  // ---------------------------------------------------------------------

  const A1C_LABEL: string := "hemoglobin_a1c"

  predicate MentionsA1c(e: SilverClinicalEntity) { Contains(e.entityValue, A1C_LABEL) }

  predicate MentionsEgfr(e: SilverClinicalEntity) { Contains(e.entityValue, "egfr") }

  /** The diabetes-control band of an A1C percentage. */
  function A1cBand(a1c: real): DiabetesControl
  {
    if a1c < 7.0 then WellControlled
    else if a1c < 8.0 then ModeratelyControlled
    else PoorlyControlled
  }

  /** `_assess_diabetes_control` as written: the number read from the first
      entity mentioning "hemoglobin_a1c" is the first digit run of its whole
      value, which is the "1" of "a1c" itself. */
  function AssessDiabetesControlAsWritten(entities: seq<SilverClinicalEntity>): DiabetesControl
  {
    var a1c := Filter(entities, MentionsA1c);
    if a1c == [] then ControlUnknown
    else match FirstDecimal(a1c[0].entityValue)
      case None => ControlUnknown
      case Some(v) => A1cBand(v)
  }

  /** The A1C reading of an entity value: the first number after the
      "hemoglobin_a1c" label. */
  function A1cReading(value: string): Option<real>
  {
    match IndexOf(value, A1C_LABEL)
    case None => None
    case Some(i) => FirstDecimal(value[i + |A1C_LABEL|..])
  }

  /** `_assess_diabetes_control` as intended: the band of the A1C value of
      the first entity mentioning "hemoglobin_a1c"; "unknown" when there is
      none or it carries no number. */
  function AssessDiabetesControl(entities: seq<SilverClinicalEntity>): (r: DiabetesControl)
    ensures var a1c := Filter(entities, MentionsA1c);
            r == ControlUnknown <==> a1c == [] || A1cReading(a1c[0].entityValue).None?
  {
    var a1c := Filter(entities, MentionsA1c);
    if a1c == [] then ControlUnknown
    else match A1cReading(a1c[0].entityValue)
      case None => ControlUnknown
      case Some(v) => A1cBand(v)
  }

  /** The value the lab extractor gives an A1C match: `"hemoglobin_a1c: "`
      followed by the matched `\d+\.?\d*`. */
  function A1cEntityValue(whole: string, fraction: Option<string>): string
  {
    A1C_LABEL + (": " + whole + DecimalTail(fraction))
  }

  /** An entity whose value starts with the label, after entities none of
      which mentions it, is the first A1C entity of the list. */
  lemma FirstA1cEntity(pre: seq<SilverClinicalEntity>, e: SilverClinicalEntity, rest: seq<SilverClinicalEntity>)
    requires forall i :: 0 <= i < |pre| ==> !MentionsA1c(pre[i])
    requires A1C_LABEL <= e.entityValue
    ensures Filter(pre + ([e] + rest), MentionsA1c) != []
    ensures Filter(pre + ([e] + rest), MentionsA1c)[0] == e
  {
    assert MentionsA1c(e);
    assert ([e] + rest)[0] == e;
    FilterAppend(pre, [e] + rest, MentionsA1c);
    FilterNone(pre, MentionsA1c);
  }

  /** As written, the numeral read from an extractor-format A1C value is
      the "1" of "a1c" itself. */
  lemma AsWrittenA1cNumeral(whole: string, fraction: Option<string>)
    ensures FirstNumeral(A1cEntityValue(whole, fraction)) == Some(Numeral("1", None))
  {
    var tail := "c" + (": " + whole + DecimalTail(fraction));
    LabelDigit(": " + whole + DecimalTail(fraction));
    SkipToNumeral("hemoglobin_a", "1", tail);
    FirstNumeralOfRun("hemoglobin_a" + ("1" + tail), "1", tail);
  }

  /** The label's only digit is the "1" of "a1c". */
  lemma LabelDigit(after: string)
    ensures A1C_LABEL + after == "hemoglobin_a" + ("1" + ("c" + after))
  {
    assert A1C_LABEL == "hemoglobin_a" + "1" + "c";
  }

  lemma ValueOfOne()
    ensures NumeralValue(Numeral("1", None)) == 1.0
  {
    assert DigitsValue("1") == 1 by { assert "1"[..0] == []; }
  }

  /** As written, every A1C entity in the extractor's format is read as
      A1C 1.0, so when it is the first A1C entity of the list, wherever it
      stands, the band is "well_controlled" whatever the lab value. */
  lemma DiabetesControlAsWrittenIgnoresValue(pre: seq<SilverClinicalEntity>,
    e: SilverClinicalEntity, rest: seq<SilverClinicalEntity>, whole: string, fraction: Option<string>)
    requires forall i :: 0 <= i < |pre| ==> !MentionsA1c(pre[i])
    requires e.entityValue == A1cEntityValue(whole, fraction)
    ensures FirstDecimal(e.entityValue) == Some(1.0)
    ensures AssessDiabetesControlAsWritten(pre + ([e] + rest)) == WellControlled
  {
    ReadingAfterLabel(": " + whole + DecimalTail(fraction));
    FirstA1cEntity(pre, e, rest);
    AsWrittenA1cNumeral(whole, fraction);
    ValueOfOne();
  }

  /** The corrected reading gives the extractor's value back, so the band
      is the band of the first A1C entity's lab value, wherever that entity
      stands in the list. */
  lemma DiabetesControlOfExtracted(pre: seq<SilverClinicalEntity>,
    e: SilverClinicalEntity, rest: seq<SilverClinicalEntity>, whole: string, fraction: Option<string>)
    requires forall i :: 0 <= i < |pre| ==> !MentionsA1c(pre[i])
    requires ValidNumeral(Numeral(whole, fraction))
    requires e.entityValue == A1cEntityValue(whole, fraction)
    ensures A1cReading(e.entityValue) == Some(NumeralValue(Numeral(whole, fraction)))
    ensures AssessDiabetesControl(pre + ([e] + rest)) == A1cBand(NumeralValue(Numeral(whole, fraction)))
  {
    A1cReadingOfExtracted(whole, fraction);
    FirstA1cEntity(pre, e, rest);
  }

  /** The corrected reading of an extracted A1C value is that value. */
  lemma A1cReadingOfExtracted(whole: string, fraction: Option<string>)
    requires ValidNumeral(Numeral(whole, fraction))
    ensures A1C_LABEL <= A1cEntityValue(whole, fraction)
    ensures A1cReading(A1cEntityValue(whole, fraction)) == Some(NumeralValue(Numeral(whole, fraction)))
  {
    ReadingAfterLabel(": " + whole + DecimalTail(fraction));
    DecimalAfterColon(whole, fraction);
  }

  /** The text after the label reads as the extracted value. */
  lemma DecimalAfterColon(whole: string, fraction: Option<string>)
    requires ValidNumeral(Numeral(whole, fraction))
    ensures FirstDecimal(": " + whole + DecimalTail(fraction)) == Some(NumeralValue(Numeral(whole, fraction)))
  {
    assert NoDigits(": ");
    NumeralAfterLead(": ", whole, fraction);
  }

  /** A value that starts with the label is read from the text after it. */
  lemma ReadingAfterLabel(after: string)
    ensures A1C_LABEL <= A1C_LABEL + after
    ensures A1cReading(A1C_LABEL + after) == FirstDecimal(after)
  {
    var v := A1C_LABEL + after;
    assert v[..|A1C_LABEL|] == A1C_LABEL;
    assert IndexOf(v, A1C_LABEL) == Some(0);
    assert v[|A1C_LABEL|..] == after;
  }

  lemma ValueOfNinePointFive()
    ensures ValidNumeral(Numeral("9", Some("5")))
    ensures NumeralValue(Numeral("9", Some("5"))) == 9.5
  {
    assert DigitsValue("9") == 9 by { assert "9"[..0] == []; }
    assert DigitsValue("5") == 5 by { assert "5"[..0] == []; }
  }

  /** The concrete case: a lab value of "hemoglobin_a1c: 9.5" is
      "poorly_controlled" as intended, and "well_controlled" as written. */
  lemma DiabetesControlCounterexample(e: SilverClinicalEntity)
    requires e.entityValue == "hemoglobin_a1c: 9.5"
    ensures AssessDiabetesControlAsWritten([e]) == WellControlled
    ensures AssessDiabetesControl([e]) == PoorlyControlled
  {
    assert e.entityValue == A1cEntityValue("9", Some("5"));
    assert [] + ([e] + []) == [e];
    ValueOfNinePointFive();
    DiabetesControlAsWrittenIgnoresValue([], e, [], "9", Some("5"));
    DiabetesControlOfExtracted([], e, [], "9", Some("5"));
  }

  /** The kidney-function band of an eGFR value. */
  function EgfrBand(egfr: nat): RenalFunction
  {
    if egfr >= 90 then RenalNormal
    else if egfr >= 60 then MildImpairment
    else if egfr >= 30 then ModerateImpairment
    else SevereImpairment
  }

  /** `_assess_renal_function`: the band of the first digit run of the first
      entity whose value mentions "egfr"; "unknown" when there is none or it
      holds no digit. */
  function AssessRenalFunction(entities: seq<SilverClinicalEntity>): RenalFunction
  {
    var egfr := Filter(entities, MentionsEgfr);
    if egfr == [] then RenalUnknown else RenalOfValue(egfr[0].entityValue)
  }

  /** The band read from one eGFR entity's value: its first digit run, or
      "unknown" when it has none. */
  function RenalOfValue(value: string): RenalFunction
  {
    match FirstInteger(value)
    case None => RenalUnknown
    case Some(v) => EgfrBand(v)
  }

  /** An eGFR entity in the extractor's format (`"egfr: " + digits`),
      after entities none of which mentions eGFR, is banded by its own
      value. */
  lemma RenalFunctionOfExtracted(pre: seq<SilverClinicalEntity>,
    e: SilverClinicalEntity, rest: seq<SilverClinicalEntity>, digits: string)
    requires forall i :: 0 <= i < |pre| ==> !MentionsEgfr(pre[i])
    requires digits != [] && AllDigits(digits)
    requires e.entityValue == "egfr: " + digits
    ensures FirstInteger(e.entityValue) == Some(DigitsValue(digits))
    ensures AssessRenalFunction(pre + ([e] + rest)) == EgfrBand(DigitsValue(digits))
  {
    assert MentionsEgfr(e) by {
      assert e.entityValue[..4] == "egfr";
    }
    assert ([e] + rest)[0] == e;
    FilterAppend(pre, [e] + rest, MentionsEgfr);
    FilterNone(pre, MentionsEgfr);
    IntegerAfterLead("egfr: ", digits);
  }

  /** A lead without digits followed by a digit run reads as that run. */
  lemma IntegerAfterLead(lead: string, digits: string)
    requires NoDigits(lead)
    requires digits != [] && AllDigits(digits)
    ensures FirstInteger(lead + digits) == Some(DigitsValue(digits))
  {
    assert lead + digits == lead + (digits + "");
    SkipToNumeral(lead, digits, "");
    DigitRunOf(digits, "");
  }

  /** Only the first eGFR entity counts: entities after it change nothing. */
  lemma RenalFunctionFirstWins(a: seq<SilverClinicalEntity>, b: seq<SilverClinicalEntity>)
    requires exists i :: 0 <= i < |a| && MentionsEgfr(a[i])
    ensures AssessRenalFunction(a + b) == AssessRenalFunction(a)
  {
    FilterAppend(a, b, MentionsEgfr);
    var i :| 0 <= i < |a| && MentionsEgfr(a[i]);
    FilterMembership(a, MentionsEgfr, a[i]);
  }

  /** Renal function is "unknown" exactly when no entity mentions "egfr" or
      the first one that does holds no digit. */
  lemma RenalUnknownIff(entities: seq<SilverClinicalEntity>)
    ensures AssessRenalFunction(entities) == RenalUnknown <==>
              var egfr := Filter(entities, MentionsEgfr);
              egfr == [] || NoDigits(egfr[0].entityValue)
  {
    var egfr := Filter(entities, MentionsEgfr);
    if egfr != [] {
      RenalOfValueUnknown(egfr[0].entityValue);
    }
  }

  /** One eGFR value bands as "unknown" exactly when it holds no digit. */
  lemma RenalOfValueUnknown(value: string)
    ensures RenalOfValue(value) == RenalUnknown <==> NoDigits(value)
  {
    FirstIntegerNone(value);
  }

  /** `FirstInteger` finds nothing exactly when the text holds no digit. */
  lemma FirstIntegerNone(s: string)
    ensures FirstInteger(s).None? <==> NoDigits(s)
  {
    assert FirstInteger(s).None? <==> FirstNumeral(s).None?;
  }

  /** Whether some diagnosis entity mentions `word`, ignoring case. */
  predicate DiagnosisMentions(entities: seq<SilverClinicalEntity>, word: string)
  {
    exists i :: 0 <= i < |entities| && entities[i].entityType == "diagnosis"
                && Contains(Lower(entities[i].entityValue), word)
  }

  /** The list `risk_factors` built by `_assess_cardiac_risk`. */
  function RiskFactors(entities: seq<SilverClinicalEntity>): (r: seq<string>)
    ensures |r| <= 3
    ensures forall w :: w in r <==> w in RISK_CATEGORIES && DiagnosisMentions(entities, w)
    ensures forall i, j :: 0 <= i < j < |r| ==> r[i] != r[j]
  {
    (if DiagnosisMentions(entities, "hypertension") then ["hypertension"] else [])
    + (if DiagnosisMentions(entities, "hyperlipidemia") then ["hyperlipidemia"] else [])
    + (if DiagnosisMentions(entities, "diabetes") then ["diabetes"] else [])
  }

  const RISK_CATEGORIES: set<string> := {"hypertension", "hyperlipidemia", "diabetes"}

  function RiskBand(count: nat): CardiacRisk
  {
    if count >= 3 then HighRisk
    else if count >= 2 then ModerateRisk
    else if count >= 1 then LowRisk
    else MinimalRisk
  }

  /** `_assess_cardiac_risk`: the band of how many of the three categories
      some diagnosis entity mentions. */
  function AssessCardiacRisk(entities: seq<SilverClinicalEntity>): (r: CardiacRisk)
    ensures r == HighRisk <==> DiagnosisMentions(entities, "hypertension")
                               && DiagnosisMentions(entities, "hyperlipidemia")
                               && DiagnosisMentions(entities, "diabetes")
    ensures r == MinimalRisk <==> !DiagnosisMentions(entities, "hypertension")
                                  && !DiagnosisMentions(entities, "hyperlipidemia")
                                  && !DiagnosisMentions(entities, "diabetes")
    ensures r == ModerateRisk <==> |RiskFactors(entities)| == 2
    ensures r == LowRisk <==> |RiskFactors(entities)| == 1
  {
    RiskBand(|RiskFactors(entities)|)
  }

  predicate IsDiagnosis(e: SilverClinicalEntity) { e.entityType == "diagnosis" }

  lemma DiagnosisMentionsFiltered(entities: seq<SilverClinicalEntity>, word: string)
    ensures DiagnosisMentions(Filter(entities, IsDiagnosis), word) == DiagnosisMentions(entities, word)
  {
    var f := Filter(entities, IsDiagnosis);
    if DiagnosisMentions(entities, word) {
      var i :| 0 <= i < |entities| && entities[i].entityType == "diagnosis"
                && Contains(Lower(entities[i].entityValue), word);
      FilterMembership(entities, IsDiagnosis, entities[i]);
      var j :| 0 <= j < |f| && f[j] == entities[i];
      assert f[j].entityType == "diagnosis";
    }
    if DiagnosisMentions(f, word) {
      var j :| 0 <= j < |f| && f[j].entityType == "diagnosis" && Contains(Lower(f[j].entityValue), word);
      assert f[j] in entities;
      var i :| 0 <= i < |entities| && entities[i] == f[j];
    }
  }

  /** Only diagnosis entities count towards cardiac risk: dropping every
      other entity changes nothing. */
  lemma CardiacRiskOnlyDiagnoses(entities: seq<SilverClinicalEntity>)
    ensures AssessCardiacRisk(Filter(entities, IsDiagnosis)) == AssessCardiacRisk(entities)
  {
    DiagnosisMentionsFiltered(entities, "hypertension");
    DiagnosisMentionsFiltered(entities, "hyperlipidemia");
    DiagnosisMentionsFiltered(entities, "diabetes");
  }

  lemma DiagnosisMentionsAppend(a: seq<SilverClinicalEntity>, b: seq<SilverClinicalEntity>, word: string)
    ensures DiagnosisMentions(a + b, word) == (DiagnosisMentions(a, word) || DiagnosisMentions(b, word))
  {
    var ab := a + b;
    if DiagnosisMentions(ab, word) {
      var i :| 0 <= i < |ab| && ab[i].entityType == "diagnosis" && Contains(Lower(ab[i].entityValue), word);
      if i < |a| { assert ab[i] == a[i]; } else { assert ab[i] == b[i - |a|]; }
    }
    if DiagnosisMentions(a, word) {
      var i :| 0 <= i < |a| && a[i].entityType == "diagnosis" && Contains(Lower(a[i].entityValue), word);
      assert ab[i] == a[i];
    }
    if DiagnosisMentions(b, word) {
      var i :| 0 <= i < |b| && b[i].entityType == "diagnosis" && Contains(Lower(b[i].entityValue), word);
      assert ab[|a| + i] == b[i];
    }
  }

  /** Cardiac risk does not depend on the order of the entities. */
  lemma CardiacRiskOrderIndependent(a: seq<SilverClinicalEntity>, b: seq<SilverClinicalEntity>)
    ensures AssessCardiacRisk(a + b) == AssessCardiacRisk(b + a)
  {
    DiagnosisMentionsAppend(a, b, "hypertension");
    DiagnosisMentionsAppend(a, b, "hyperlipidemia");
    DiagnosisMentionsAppend(a, b, "diabetes");
    DiagnosisMentionsAppend(b, a, "hypertension");
    DiagnosisMentionsAppend(b, a, "hyperlipidemia");
    DiagnosisMentionsAppend(b, a, "diabetes");
  }

  // ---------------------------------------------------------------------
  // Code lookups
  // ---------------------------------------------------------------------

  const RXNORM_CODES: map<string, string> :=
    map["metformin" := "6809", "lisinopril" := "29046", "atorvastatin" := "83367", "amlodipine" := "17767"]

  const LOINC_CODES: map<string, string> :=
    map["hemoglobin_a1c" := "4548-4", "glucose" := "2345-7", "creatinine" := "2160-0", "egfr" := "33914-3"]

  /** `_get_rxnorm_code`: looked up after lower-casing. */
  function RxNormCode(medication: string): Option<string>
  {
    var k := Lower(medication);
    if k in RXNORM_CODES then Some(RXNORM_CODES[k]) else None
  }

  /** `_get_loinc_code`: looked up as given. */
  function LoincCode(labName: string): Option<string>
  {
    if labName in LOINC_CODES then Some(LOINC_CODES[labName]) else None
  }

  /** RxNorm lookup ignores case, and of the seven medication names the
      extractor recognises only four have a code. */
  lemma RxNormCoverage(medication: string)
    ensures RxNormCode(medication) == RxNormCode(Lower(medication))
    ensures RxNormCode(medication).Some? <==>
              Lower(medication) in {"metformin", "lisinopril", "atorvastatin", "amlodipine"}
    ensures RxNormCode("Metformin") == Some("6809")
    ensures RxNormCode("glipizide") == None && RxNormCode("losartan") == None
            && RxNormCode("semaglutide") == None
  {
    LowerIdempotent(medication);
    assert Lower("Metformin") == "metformin";
    assert Lower("glipizide") == "glipizide";
    assert Lower("losartan") == "losartan";
    assert Lower("semaglutide") == "semaglutide";
  }

  /** LOINC lookup is case-sensitive, and of the six lab names the extractor
      produces only four have a code. */
  lemma LoincCoverage(labName: string)
    ensures LoincCode(labName).Some? <==> labName in {"hemoglobin_a1c", "glucose", "creatinine", "egfr"}
    ensures LoincCode("ldl_cholesterol") == None && LoincCode("hdl_cholesterol") == None
    ensures LoincCode("egfr") == Some("33914-3") && LoincCode("EGFR") == None
  {
  }

  // ---------------------------------------------------------------------
  // Transformation log and statistics
  // ---------------------------------------------------------------------

  /** A log entry's metric: an entity count, or the Gold profile's
      business-value score (a float, not modelled). */
  datatype Metric = EntityCount(n: nat) | BusinessValue

  datatype LogEntry = LogEntry(timestamp: int, stage: string, entityId: string, metric: Metric)

  /** One entry of the `stages` dictionary, in insertion order. */
  datatype StageStat = StageStat(stage: string, count: nat)

  /** `get_pipeline_stats`: `stages` and `lastTransformation` are absent when
      the log is empty. */
  datatype PipelineStats = PipelineStats(
    totalTransformations: nat,
    stages: Option<seq<StageStat>>,
    lastTransformation: Option<int>)

  /** The dictionary update `stages[stage]["count"] += 1`, adding the stage
      at the end with count 0 first when it is new. */
  function Bump(stats: seq<StageStat>, stage: string): (r: seq<StageStat>)
    ensures |r| == |stats| || |r| == |stats| + 1
    decreases |stats|
  {
    if stats == [] then [StageStat(stage, 1)]
    else if stats[0].stage == stage then [StageStat(stage, stats[0].count + 1)] + stats[1..]
    else [stats[0]] + Bump(stats[1..], stage)
  }

  /** The `stages` dictionary after counting every entry of `log`. */
  function Tally(log: seq<LogEntry>): seq<StageStat>
    decreases |log|
  {
    if log == [] then [] else Bump(Tally(log[..|log| - 1]), log[|log| - 1].stage)
  }

  function SumCounts(stats: seq<StageStat>): nat
  {
    if stats == [] then 0 else stats[0].count + SumCounts(stats[1..])
  }

  /** The count recorded for `stage`, 0 when it has no entry. */
  function CountFor(stats: seq<StageStat>, stage: string): nat
  {
    if stats == [] then 0
    else if stats[0].stage == stage then stats[0].count
    else CountFor(stats[1..], stage)
  }

  /** How many log entries belong to `stage`. */
  function Occurrences(log: seq<LogEntry>, stage: string): nat
  {
    if log == [] then 0
    else Occurrences(log[..|log| - 1], stage) + (if log[|log| - 1].stage == stage then 1 else 0)
  }

  predicate DistinctStages(stats: seq<StageStat>)
  {
    forall i, j :: 0 <= i < j < |stats| ==> stats[i].stage != stats[j].stage
  }

  lemma {:induction false} BumpFacts(stats: seq<StageStat>, stage: string, other: string)
    ensures SumCounts(Bump(stats, stage)) == SumCounts(stats) + 1
    ensures CountFor(Bump(stats, stage), other) == CountFor(stats, other) + (if other == stage then 1 else 0)
    ensures DistinctStages(stats) ==> DistinctStages(Bump(stats, stage))
    ensures forall i :: 0 <= i < |Bump(stats, stage)| ==>
              Bump(stats, stage)[i].stage == stage || Bump(stats, stage)[i].stage in StagesOf(stats)
    decreases |stats|
  {
    if stats != [] && stats[0].stage != stage {
      BumpFacts(stats[1..], stage, other);
      var r := Bump(stats, stage);
      assert r == [stats[0]] + Bump(stats[1..], stage);
      if DistinctStages(stats) {
        assert DistinctStages(stats[1..]);
        forall i | 1 <= i < |r| ensures r[i].stage != stats[0].stage {
          assert r[i] == Bump(stats[1..], stage)[i - 1];
          if r[i].stage != stage {
            assert r[i].stage in StagesOf(stats[1..]);
            var k :| 0 <= k < |stats[1..]| && stats[1..][k].stage == r[i].stage;
            assert stats[k + 1].stage == r[i].stage;
          }
        }
      }
      forall i | 0 <= i < |r| ensures r[i].stage == stage || r[i].stage in StagesOf(stats) {
        if i > 0 {
          assert r[i] == Bump(stats[1..], stage)[i - 1];
          if r[i].stage != stage {
            var k :| 0 <= k < |stats[1..]| && stats[1..][k].stage == r[i].stage;
            assert stats[k + 1].stage == r[i].stage;
          }
        }
      }
    } else if stats != [] {
      var r := Bump(stats, stage);
      assert r[1..] == stats[1..];
      assert DistinctStages(stats) ==> DistinctStages(r) by {
        if DistinctStages(stats) {
          forall i, j | 0 <= i < j < |r| ensures r[i].stage != r[j].stage {
            assert r[j] == stats[j];
            if i > 0 { assert r[i] == stats[i]; }
          }
        }
      }
      forall i | 0 <= i < |r| ensures r[i].stage == stage || r[i].stage in StagesOf(stats) {
        if i > 0 { assert r[i] == stats[i]; }
      }
    }
  }

  function StagesOf(stats: seq<StageStat>): set<string>
  {
    set i | 0 <= i < |stats| :: stats[i].stage
  }

  /** What the statistics say about the log: the counts add up to the
      number of entries, each stage's count is the number of entries of
      that stage, and no stage is listed twice. */
  lemma {:induction false} TallyFacts(log: seq<LogEntry>, stage: string)
    ensures SumCounts(Tally(log)) == |log|
    ensures CountFor(Tally(log), stage) == Occurrences(log, stage)
    ensures DistinctStages(Tally(log))
    decreases |log|
  {
    if log != [] {
      TallyFacts(log[..|log| - 1], stage);
      BumpFacts(Tally(log[..|log| - 1]), log[|log| - 1].stage, stage);
    }
  }

  /** Every stage that occurs in the log has an entry, with a positive count. */
  lemma {:induction false} TallyListsEveryStage(log: seq<LogEntry>, k: nat)
    requires k < |log|
    ensures CountFor(Tally(log), log[k].stage) >= 1
  {
    TallyFacts(log, log[k].stage);
    OccurrencesPositive(log, k);
  }

  lemma {:induction false} OccurrencesPositive(log: seq<LogEntry>, k: nat)
    requires k < |log|
    ensures Occurrences(log, log[k].stage) >= 1
    decreases |log|
  {
    if k < |log| - 1 {
      OccurrencesPositive(log[..|log| - 1], k);
    }
  }

  /** The transformer; its only state is the transformation log. Clock
      readings are passed in as `now` (milliseconds). */
  class MedallionTransformer {
    var transformationLog: seq<LogEntry>

    constructor ()
      ensures transformationLog == []
    {
      transformationLog := [];
    }

    method LogTransformation(stage: string, entityId: string, metric: Metric, now: int)
      modifies this
      ensures transformationLog == old(transformationLog) + [LogEntry(now, stage, entityId, metric)]
    {
      transformationLog := transformationLog + [LogEntry(now, stage, entityId, metric)];
    }

    /** `bronze_to_silver_document`: the extractors' medications, then
        diagnoses, then lab values, and one log entry with their number. */
    method BronzeToSilverDocument(doc: BronzeDocument, extraction: Extraction, now: int)
      returns (entities: seq<SilverClinicalEntity>)
      modifies this
      ensures entities == extraction.medications + extraction.diagnoses + extraction.labValues
      ensures transformationLog == old(transformationLog)
                + [LogEntry(now, "bronze_to_silver", doc.documentId, EntityCount(|entities|))]
    {
      entities := [];
      entities := entities + extraction.medications;
      entities := entities + extraction.diagnoses;
      entities := entities + extraction.labValues;
      LogTransformation("bronze_to_silver", doc.documentId, EntityCount(|entities|), now);
    }

    /** `silver_to_gold_patient`: the Gold profile and one log entry. */
    method SilverToGoldPatient(patientId: string, entities: seq<SilverClinicalEntity>,
                               demographics: Demographics, now: int)
      returns (profile: GoldPatientProfile)
      modifies this
      ensures profile == GoldProfileOf(patientId, entities, demographics)
      ensures transformationLog == old(transformationLog)
                + [LogEntry(now, "silver_to_gold", patientId, BusinessValue)]
    {
      profile := GoldProfileOf(patientId, entities, demographics);
      LogTransformation("silver_to_gold", patientId, BusinessValue, now);
    }

    /** `get_pipeline_stats`: counts the log entries per stage in one pass. */
    method GetPipelineStats() returns (stats: PipelineStats)
      ensures stats.totalTransformations == |transformationLog|
      ensures transformationLog == [] <==> stats.stages.None?
      ensures transformationLog == [] ==> stats.lastTransformation.None?
      ensures transformationLog != [] ==>
                && stats.stages == Some(Tally(transformationLog))
                && stats.lastTransformation == Some(transformationLog[|transformationLog| - 1].timestamp)
                && SumCounts(stats.stages.value) == |transformationLog|
                && DistinctStages(stats.stages.value)
    {
      if transformationLog == [] {
        return PipelineStats(0, None, None);
      }
      var stages: seq<StageStat> := [];
      var i := 0;
      while i < |transformationLog|
        invariant 0 <= i <= |transformationLog|
        invariant stages == Tally(transformationLog[..i])
      {
        assert transformationLog[..i + 1][..i] == transformationLog[..i];
        stages := Bump(stages, transformationLog[i].stage);
        i := i + 1;
      }
      assert transformationLog[..i] == transformationLog;
      TallyFacts(transformationLog, "");
      stats := PipelineStats(|transformationLog|, Some(stages),
                             Some(transformationLog[|transformationLog| - 1].timestamp));
    }
  }

  /** A document's extraction run straight into the Gold step: medications
      are the extracted medications, diagnoses split into primary conditions
      and comorbidities in extraction order, and there are never any
      contraindications, since no extractor produces that type. */
  lemma GoldFromExtraction(patientId: string, x: Extraction, demographics: Demographics)
    requires ExtractorTyped(x)
    ensures var g := GoldProfileOf(patientId, x.medications + x.diagnoses + x.labValues, demographics);
            && g.currentMedications == Values(x.medications)
            && g.primaryConditions + g.comorbidities == Values(x.diagnoses)
            && g.contraindications == []
  {
    var all := x.medications + x.diagnoses + x.labValues;
    ExtractionProjections(x);
    PrimarySplit(ValuesOfType(all, "diagnosis"));
  }

  /** Projecting an extraction by type gives back the extractor's lists. */
  lemma ExtractionProjections(x: Extraction)
    requires ExtractorTyped(x)
    ensures var all := x.medications + x.diagnoses + x.labValues;
            && ValuesOfType(all, "medication") == Values(x.medications)
            && ValuesOfType(all, "diagnosis") == Values(x.diagnoses)
            && ValuesOfType(all, "contraindication") == []
  {
    ProjectionOfTyped(x, "medication");
    ProjectionOfTyped(x, "diagnosis");
    ProjectionOfTyped(x, "contraindication");
  }

  /** Projecting an extraction by one type keeps the extractor's list of
      that type and drops the other two. */
  lemma ProjectionOfTyped(x: Extraction, t: string)
    requires ExtractorTyped(x)
    ensures ValuesOfType(x.medications + x.diagnoses + x.labValues, t) ==
              (if t == "medication" then Values(x.medications) else [])
              + (if t == "diagnosis" then Values(x.diagnoses) else [])
              + (if t == "lab_value" then Values(x.labValues) else [])
  {
    ProjectionOfExtraction(x, t);
    ValuesOfUniformType(x.medications, t);
    ValuesOfUniformType(x.diagnoses, t);
    ValuesOfUniformType(x.labValues, t);
  }

  lemma ProjectionOfExtraction(x: Extraction, t: string)
    ensures ValuesOfType(x.medications + x.diagnoses + x.labValues, t)
            == ValuesOfType(x.medications, t) + ValuesOfType(x.diagnoses, t) + ValuesOfType(x.labValues, t)
  {
    ValuesOfTypeAppend(x.medications + x.diagnoses, x.labValues, t);
    ValuesOfTypeAppend(x.medications, x.diagnoses, t);
  }
}
