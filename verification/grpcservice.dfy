/** The gRPC service: the same store and the same kinds of query as the
    REST application, with the RPC's own conventions (an empty string, a
    zero state or a non-positive limit means "not set"), its own mock
    summary for processed documents, and storage replacement on data
    generation. Status codes are returned as values. */
module GrpcService {
  import opened Common
  import opened Seqs
  import opened Records
  import opened Store
  import opened Generator
  import RestApi

  // ---------------------------------------------------------------------
  // Listing
  // ---------------------------------------------------------------------

  /** `GetResources`' filters: an empty patient id or resource type, or a
      zero (UNSPECIFIED) state, switches that filter off. */
  function GrpcCriteria(patientId: string, stateFilter: int, resourceTypeFilter: string): Criteria
  {
    Criteria(
      if patientId != "" then Some(patientId) else None,
      if stateFilter != 0 then Some(stateFilter) else None,
      if resourceTypeFilter != "" then Some(resourceTypeFilter) else None)
  }

  /** `GetResources`' pagination: the end index is `offset + limit` for a
      positive limit and the list's end otherwise. */
  function GrpcPage(filtered: seq<Resource>, limit: int, offset: int): Page
  {
    var end := if limit > 0 then offset + limit else |filtered|;
    Page(PySlice(filtered, offset, end), |filtered|, end < |filtered|)
  }

  /** `GetResources` before conversion. */
  function GrpcResources(rs: seq<Resource>, patientId: string, stateFilter: int, resourceTypeFilter: string,
                         limit: int, offset: int): Page
  {
    GrpcPage(Select(rs, GrpcCriteria(patientId, stateFilter, resourceTypeFilter)), limit, offset)
  }

  /** A non-positive limit means "to the end": the page is everything from
      the offset on and there is never more. A positive limit with a
      non-negative offset gives at most `limit` entries, more exactly when
      `offset + limit` falls short of the total, and a full page then. */
  lemma GrpcPageFacts(filtered: seq<Resource>, limit: int, offset: int)
    ensures GrpcPage(filtered, limit, offset).totalCount == |filtered|
    ensures limit <= 0 ==>
              && !GrpcPage(filtered, limit, offset).hasMore
              && (0 <= offset <= |filtered| ==> GrpcPage(filtered, limit, offset).resources == filtered[offset..])
    ensures limit > 0 && offset >= 0 ==>
              var page := GrpcPage(filtered, limit, offset);
              && |page.resources| <= limit
              && (page.hasMore <==> offset + limit < |filtered|)
              && (page.hasMore ==> |page.resources| == limit)
  {
    if offset >= 0 {
      NonNegativeSlice(filtered, offset, if limit > 0 then offset + limit else |filtered|);
    }
  }

  /** Every resource `GetResources` returns is stored and satisfies each
      filter that is set. */
  lemma GrpcResourcesSound(rs: seq<Resource>, patientId: string, stateFilter: int, resourceTypeFilter: string,
                           limit: int, offset: int)
    ensures forall r :: r in GrpcResources(rs, patientId, stateFilter, resourceTypeFilter, limit, offset).resources ==>
              && r in rs
              && (patientId != "" ==> r.PatientId() == patientId)
              && (stateFilter != 0 ==> r.metadata.state == stateFilter)
              && (resourceTypeFilter != "" ==> r.metadata.resourceType == resourceTypeFilter)
  {
    var c := GrpcCriteria(patientId, stateFilter, resourceTypeFilter);
    forall r | r in GrpcResources(rs, patientId, stateFilter, resourceTypeFilter, limit, offset).resources
      ensures r in rs && Matches(r, c)
    {
      SelectSoundAndComplete(rs, c, r);
    }
  }

  /** Where both servers accept the request and the state is set, they
      list the same page: same entries, same count, same `hasMore`. */
  lemma GrpcAgreesWithRest(rs: seq<Resource>, patientId: string, stateFilter: int, resourceTypeFilter: string,
                           limit: int, offset: int)
    requires RestApi.ValidPaging(limit, offset)
    requires stateFilter != 0
    ensures GrpcResources(rs, patientId, stateFilter, resourceTypeFilter, limit, offset)
            == RestApi.AllResources(rs, Some(patientId), Some(stateFilter), Some(resourceTypeFilter), limit, offset)
  {
  }

  /** Where they differ on the state: 0 lists nothing over REST, since no
      stored resource is UNSPECIFIED, while over gRPC it lists as if no
      state were given. */
  lemma StateZeroDiffers(rs: seq<Resource>, patientId: string, resourceTypeFilter: string, limit: int, offset: int)
    requires StoreInvariant(rs)
    requires RestApi.ValidPaging(limit, offset)
    ensures RestApi.AllResources(rs, Some(patientId), Some(0), Some(resourceTypeFilter), limit, offset) == Page([], 0, false)
    ensures GrpcResources(rs, patientId, 0, resourceTypeFilter, limit, offset)
            == RestApi.AllResources(rs, Some(patientId), None, Some(resourceTypeFilter), limit, offset)
  {
    var c := RestApi.RestCriteria(Some(patientId), Some(0), Some(resourceTypeFilter));
    SelectIsFilter(rs, c);
    FilterNone(rs, (r: Resource) => Matches(r, c));
  }

  /** Where they differ on the limit: 0, which REST refuses, lists the
      whole store over gRPC. */
  lemma ZeroLimitListsAll(rs: seq<Resource>)
    ensures GrpcResources(rs, "", 0, "", 0, 0) == Page(rs, |rs|, false)
  {
    var c := Criteria(None, None, None);
    assert GrpcCriteria("", 0, "") == c;
    SelectIsFilter(rs, c);
    FilterAll(rs, (r: Resource) => Matches(r, c));
  }

  // ---------------------------------------------------------------------
  // Document processing
  // ---------------------------------------------------------------------

  const DIABETES_SUMMARY: string := "Diabetes management notes reviewed; monitoring blood glucose levels."
  const HYPERTENSION_SUMMARY: string := "Hypertension monitoring; blood pressure management ongoing."
  const LAB_SUMMARY: string := "Laboratory results show values within expected ranges for chronic conditions."
  const DEFAULT_SUMMARY: string := "Clinical documentation reviewed and processed successfully."

  /** `_generate_mock_ai_summary`: the first rule that applies, in order
      "diabetes" in the text, "hypertension" in the text, "lab" in the
      resource type (all case-insensitive), else the default line. */
  function MockAiSummary(resourceType: string, content: string): (summary: string)
    ensures summary == DIABETES_SUMMARY <==> Contains(Lower(content), "diabetes")
    ensures summary == HYPERTENSION_SUMMARY <==>
              !Contains(Lower(content), "diabetes") && Contains(Lower(content), "hypertension")
    ensures summary == LAB_SUMMARY <==>
              !Contains(Lower(content), "diabetes") && !Contains(Lower(content), "hypertension")
              && Contains(Lower(resourceType), "lab")
    ensures summary == DEFAULT_SUMMARY <==>
              !Contains(Lower(content), "diabetes") && !Contains(Lower(content), "hypertension")
              && !Contains(Lower(resourceType), "lab")
  {
    if Contains(Lower(content), "diabetes") then DIABETES_SUMMARY
    else if Contains(Lower(content), "hypertension") then HYPERTENSION_SUMMARY
    else if Contains(Lower(resourceType), "lab") then LAB_SUMMARY
    else DEFAULT_SUMMARY
  }

  /** The summary does not depend on the case of the text or the type. */
  lemma MockAiSummaryIgnoresCase(resourceType: string, content: string)
    ensures MockAiSummary(Lower(resourceType), Lower(content)) == MockAiSummary(resourceType, content)
  {
    LowerIdempotent(resourceType);
    LowerIdempotent(content);
  }

  /** The derived facts `ProcessDocument` reports (and does not store):
      a fixed age of 55 and sex "female". */
  datatype MockFacts = MockFacts(patientId: string, ageYears: int, sex: string)

  /** An RPC status: OK, NOT_FOUND or INTERNAL. */
  datatype Status = Ok | NotFound | Internal

  // ---------------------------------------------------------------------
  // The service
  // ---------------------------------------------------------------------

  /** `EHRServiceImpl` and its storage. */
  class EhrService {
    var patients: seq<Patient>
    var resources: seq<Resource>
    var derivedFacts: seq<DerivedFacts>
    const dataGenerator: EHRDataGenerator

    /** Every stored resource is well-formed and keys are numbered and
        unique. */
    predicate Valid()
      reads this
    {
      StoreInvariant(resources)
    }

    constructor ()
      ensures patients == [] && resources == [] && derivedFacts == []
      ensures fresh(dataGenerator)
      ensures Valid()
    {
      patients := [];
      resources := [];
      derivedFacts := [];
      dataGenerator := new EHRDataGenerator();
    }

    /** `GenerateEHRData`: the dataset replaces all three storage lists
        and the response lists every new resource with `has_more` false. A
        resource count drawn from an empty range is INTERNAL with an empty
        response, and storage is untouched. The request is not range
        checked: a negative number of patients makes none. */
    method GenerateEhrData(numPatients: int, minResources: int, maxResources: int,
                           patientDraws: seq<PatientDraw>, resourceDraws: seq<PatientResourceDraw>,
                           factsDraws: seq<FactsDraw>)
      returns (status: Status, response: Page)
      requires |patientDraws| == RangeLength(numPatients)
      requires DatasetDrawsFit(patientDraws, minResources, maxResources, resourceDraws, factsDraws)
      modifies this, dataGenerator
      ensures status == Internal <==> numPatients > 0 && minResources > maxResources
      ensures status == Internal ==>
                && response == Page([], 0, false)
                && patients == old(patients) && resources == old(resources) && derivedFacts == old(derivedFacts)
      ensures status == Ok ==>
                var result := CompleteDataset(patientDraws, minResources, maxResources, resourceDraws, factsDraws);
                && result.Dataset_?
                && patients == result.dataset.patients
                && resources == result.dataset.resources
                && derivedFacts == result.dataset.derivedFacts
                && response == Page(resources, |resources|, false)
                && DatasetInvariant(RangeLength(numPatients), minResources, maxResources, result.dataset)
      ensures status == Internal || status == Ok
      ensures old(Valid()) || status == Ok ==> Valid()
    {
      CompleteDatasetFacts(patientDraws, minResources, maxResources, resourceDraws, factsDraws);
      var result := dataGenerator.GenerateCompleteDataset(patientDraws, minResources, maxResources,
                                                          resourceDraws, factsDraws);
      if result.EmptyResourceRange? {
        return Internal, Page([], 0, false);
      }
      patients := result.dataset.patients;
      resources := result.dataset.resources;
      derivedFacts := result.dataset.derivedFacts;
      status, response := Ok, Page(resources, |resources|, false);
    }

    /** `GetResources`: filter, count, slice. */
    method GetResources(patientId: string, stateFilter: int, resourceTypeFilter: string, limit: int, offset: int)
      returns (response: Page)
      ensures response == GrpcResources(resources, patientId, stateFilter, resourceTypeFilter, limit, offset)
    {
      var filtered := Select(resources, GrpcCriteria(patientId, stateFilter, resourceTypeFilter));
      var totalCount := |filtered|;
      var endIdx := if limit > 0 then offset + limit else |filtered|;
      response := Page(PySlice(filtered, offset, endIdx), totalCount, endIdx < totalCount);
    }

    /** `GetPatient`: the first patient with the id, or NOT_FOUND. */
    method GetPatient(patientId: string) returns (status: Status, patient: Option<Patient>)
      ensures patient == RestApi.FindPatient(patients, patientId)
      ensures status == NotFound <==> patient.None?
      ensures status == Ok <==> patient.Some?
    {
      patient := RestApi.FindPatient(patients, patientId);
      status := if patient.None? then NotFound else Ok;
    }

    /** `GetDerivedFacts`: the first facts entry for the patient, or
        NOT_FOUND. */
    method GetDerivedFacts(patientId: string) returns (status: Status, facts: Option<DerivedFacts>)
      ensures facts == RestApi.FindDerivedFacts(derivedFacts, patientId)
      ensures status == NotFound <==> facts.None?
      ensures status == Ok <==> facts.Some?
    {
      facts := RestApi.FindDerivedFacts(derivedFacts, patientId);
      status := if facts.None? then NotFound else Ok;
    }

    /** `ProcessDocument`: appends exactly one COMPLETED FHIR R4 resource
        numbered after the store, with the mock summary, and reports it
        with the mock facts. Nothing else in storage changes. */
    method ProcessDocument(patientId: string, resourceType: string, documentContent: string, now: int)
      returns (processed: Resource, facts: MockFacts)
      modifies this
      ensures processed == IngestedResource(patientId, resourceType, documentContent, |old(resources)| + 1, now,
                                            MockAiSummary(resourceType, documentContent))
      ensures resources == old(resources) + [processed]
      ensures facts == MockFacts(patientId, 55, "female")
      ensures patients == old(patients) && derivedFacts == old(derivedFacts)
      ensures old(Valid()) ==> Valid()
    {
      var resourceId := |resources| + 1;
      var aiSummary := MockAiSummary(resourceType, documentContent);
      processed := IngestedResource(patientId, resourceType, documentContent, resourceId, now, aiSummary);
      if StoreInvariant(resources) {
        IngestKeepsInvariant(resources, patientId, resourceType, documentContent, now, aiSummary);
      }
      resources := resources + [processed];
      facts := MockFacts(patientId, 55, "female");
    }
  }

  /** The two servers store a processed document identically except for
      the summary: REST draws it from the type's pool, gRPC derives it from
      the text. */
  lemma ServersIngestAlike(rs: seq<Resource>, patientId: string, resourceType: string, content: string,
                           now: int, pick: nat)
    requires pick < |AiSummaryPool(resourceType)|
    ensures var rest := IngestedResource(patientId, resourceType, content, |rs| + 1, now,
                                         GenerateAiSummary(resourceType, pick));
            var grpc := IngestedResource(patientId, resourceType, content, |rs| + 1, now,
                                         MockAiSummary(resourceType, content));
            rest.metadata == grpc.metadata && rest.humanReadableStr == grpc.humanReadableStr
  {
  }
}
