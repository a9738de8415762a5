/** The REST application: the resource listings with their filters and
    pagination, the patient and derived-facts lookups, data generation into
    the shared store, and document processing through the Medallion
    pipeline with its Gold-profile upsert. The store is the application's
    state; routing and HTTP are not modelled. */
module RestApi {
  import opened Common
  import opened Seqs
  import opened Records
  import opened Store
  import opened Medallion
  import opened Generator

  // ---------------------------------------------------------------------
  // Listing
  // ---------------------------------------------------------------------

  /** The query parameters of `GET /api/resources`: an empty patient id or
      resource type switches that filter off; any given state, 0 included,
      filters. */
  function RestCriteria(patientId: Option<string>, stateFilter: Option<int>, resourceTypeFilter: Option<string>): Criteria
  {
    Criteria(
      if patientId.Some? && patientId.value != "" then patientId else None,
      stateFilter,
      if resourceTypeFilter.Some? && resourceTypeFilter.value != "" then resourceTypeFilter else None)
  }

  /** The range the query validation admits: `1 <= limit <= 100`,
      `offset >= 0`. */
  predicate ValidPaging(limit: int, offset: int)
  {
    1 <= limit <= 100 && 0 <= offset
  }

  /** `filtered[offset:offset + limit]`, the pre-slice count, and whether
      `offset + limit` falls short of it. */
  function RestPage(filtered: seq<Resource>, limit: int, offset: int): Page
    requires ValidPaging(limit, offset)
  {
    Page(PySlice(filtered, offset, offset + limit), |filtered|, offset + limit < |filtered|)
  }

  /** The page is the window of `limit` entries from `offset`, cut at the
      end of the list: at most `limit` entries and at most `total - offset`;
      there is more exactly when `offset + limit < total`, and then the page
      is full. */
  lemma RestPageFacts(filtered: seq<Resource>, limit: int, offset: int)
    requires ValidPaging(limit, offset)
    ensures var page := RestPage(filtered, limit, offset);
            && page.totalCount == |filtered|
            && |page.resources| <= limit
            && |page.resources| == (if offset >= |filtered| then 0
                                    else if offset + limit <= |filtered| then limit
                                    else |filtered| - offset)
            && (offset < |filtered| ==> page.resources == filtered[offset..offset + |page.resources|])
            && (page.hasMore <==> offset + limit < |filtered|)
            && (page.hasMore ==> |page.resources| == limit)
  {
    NonNegativeSlice(filtered, offset, offset + limit);
  }

  /** `get_all_resources` before formatting. */
  function AllResources(rs: seq<Resource>, patientId: Option<string>, stateFilter: Option<int>,
                        resourceTypeFilter: Option<string>, limit: int, offset: int): Page
    requires ValidPaging(limit, offset)
  {
    RestPage(Select(rs, RestCriteria(patientId, stateFilter, resourceTypeFilter)), limit, offset)
  }

  /** `get_patient_resources` before formatting: the path's patient id
      always filters, even when empty. */
  function PatientResources(rs: seq<Resource>, patientId: string, stateFilter: Option<int>,
                            resourceTypeFilter: Option<string>, limit: int, offset: int): Page
    requires ValidPaging(limit, offset)
  {
    var c := RestCriteria(None, stateFilter, resourceTypeFilter);
    RestPage(Select(rs, c.(patientId := Some(patientId))), limit, offset)
  }

  /** Every listed resource is stored and satisfies each supplied filter:
      the patient id when non-empty, the state when given, the resource
      type when non-empty; the page is a window of the order-preserving
      filter of storage, and the count is that filter's length. */
  lemma AllResourcesSound(rs: seq<Resource>, patientId: Option<string>, stateFilter: Option<int>,
                          resourceTypeFilter: Option<string>, limit: int, offset: int)
    requires ValidPaging(limit, offset)
    ensures var page := AllResources(rs, patientId, stateFilter, resourceTypeFilter, limit, offset);
            var matching := Filter(rs, (r: Resource) => Matches(r, RestCriteria(patientId, stateFilter, resourceTypeFilter)));
            && page.totalCount == |matching|
            && (offset < |matching| ==> page.resources == matching[offset..offset + |page.resources|])
            && forall r :: r in page.resources ==>
                 && r in rs
                 && (patientId.Some? && patientId.value != "" ==> r.PatientId() == patientId.value)
                 && (stateFilter.Some? ==> r.metadata.state == stateFilter.value)
                 && (resourceTypeFilter.Some? && resourceTypeFilter.value != "" ==>
                       r.metadata.resourceType == resourceTypeFilter.value)
  {
    var c := RestCriteria(patientId, stateFilter, resourceTypeFilter);
    var filtered := Select(rs, c);
    SelectIsFilter(rs, c);
    RestPageFacts(filtered, limit, offset);
    forall r | r in AllResources(rs, patientId, stateFilter, resourceTypeFilter, limit, offset).resources
      ensures r in rs && Matches(r, c)
    {
      SelectSoundAndComplete(rs, c, r);
    }
  }

  /** `get_patient_resources` lists only the path patient's resources, and
      for a non-empty id it is `get_all_resources` with that id. */
  lemma PatientResourcesOnlyPatient(rs: seq<Resource>, patientId: string, stateFilter: Option<int>,
                                    resourceTypeFilter: Option<string>, limit: int, offset: int)
    requires ValidPaging(limit, offset)
    ensures forall r :: r in PatientResources(rs, patientId, stateFilter, resourceTypeFilter, limit, offset).resources ==>
              r in rs && r.PatientId() == patientId
    ensures patientId != "" ==>
              PatientResources(rs, patientId, stateFilter, resourceTypeFilter, limit, offset)
              == AllResources(rs, Some(patientId), stateFilter, resourceTypeFilter, limit, offset)
  {
    var c := RestCriteria(None, stateFilter, resourceTypeFilter).(patientId := Some(patientId));
    var filtered := Select(rs, c);
    RestPageFacts(filtered, limit, offset);
    forall r | r in PatientResources(rs, patientId, stateFilter, resourceTypeFilter, limit, offset).resources
      ensures r in rs && r.PatientId() == patientId
    {
      SelectSoundAndComplete(rs, c, r);
    }
  }

  /** The body of a listing response. */
  datatype ResourcesResponse = ResourcesResponse(resources: seq<ResourceJson>, totalCount: nat, hasMore: bool)

  function Respond(page: Page): ResourcesResponse
  {
    ResourcesResponse(AllToJson(page.resources), page.totalCount, page.hasMore)
  }

  // ---------------------------------------------------------------------
  // Gold-profile upsert
  // ---------------------------------------------------------------------

  /** `list.remove` of the first profile with this patient id. */
  function RemoveFirstProfile(gs: seq<GoldPatientProfile>, patientId: string): seq<GoldPatientProfile>
  {
    if gs == [] then []
    else if gs[0].patientId == patientId then gs[1..]
    else [gs[0]] + RemoveFirstProfile(gs[1..], patientId)
  }

  /** Remove the patient's first profile, if any, then append the new one. */
  function UpsertProfile(gs: seq<GoldPatientProfile>, profile: GoldPatientProfile): seq<GoldPatientProfile>
  {
    RemoveFirstProfile(gs, profile.patientId) + [profile]
  }

  function ProfileCount(gs: seq<GoldPatientProfile>, patientId: string): nat
  {
    if gs == [] then 0 else (if gs[0].patientId == patientId then 1 else 0) + ProfileCount(gs[1..], patientId)
  }

  /** The profiles of patients other than `patientId`, in order. */
  function OtherProfiles(gs: seq<GoldPatientProfile>, patientId: string): seq<GoldPatientProfile>
  {
    Filter(gs, (g: GoldPatientProfile) => g.patientId != patientId)
  }

  /** Removing the first match drops one of the patient's profiles, when
      there is one, and keeps every other patient's profiles in order. */
  lemma {:induction false} RemoveFirstProfileFacts(gs: seq<GoldPatientProfile>, patientId: string)
    ensures ProfileCount(RemoveFirstProfile(gs, patientId), patientId)
            == if ProfileCount(gs, patientId) == 0 then 0 else ProfileCount(gs, patientId) - 1
    ensures OtherProfiles(RemoveFirstProfile(gs, patientId), patientId) == OtherProfiles(gs, patientId)
    decreases |gs|
  {
    if gs != [] && gs[0].patientId != patientId {
      var rest := RemoveFirstProfile(gs[1..], patientId);
      RemoveFirstProfileFacts(gs[1..], patientId);
      assert ([gs[0]] + rest)[1..] == rest;
    }
  }

  lemma {:induction false} ProfileCountAppend(gs: seq<GoldPatientProfile>, g: GoldPatientProfile, patientId: string)
    ensures ProfileCount(gs + [g], patientId) == ProfileCount(gs, patientId) + (if g.patientId == patientId then 1 else 0)
    decreases |gs|
  {
    if gs != [] {
      assert (gs + [g])[1..] == gs[1..] + [g];
      ProfileCountAppend(gs[1..], g, patientId);
    } else {
      assert [g][1..] == [];
    }
  }

  /** After the upsert the new profile is the last one; the patient has
      exactly as many profiles as before, or one when there were none, so
      exactly one when there was at most one; every other patient's
      profiles are unchanged and in order. */
  lemma UpsertProfileFacts(gs: seq<GoldPatientProfile>, profile: GoldPatientProfile)
    ensures var after := UpsertProfile(gs, profile);
            && after[|after| - 1] == profile
            && ProfileCount(after, profile.patientId)
               == (if ProfileCount(gs, profile.patientId) == 0 then 1 else ProfileCount(gs, profile.patientId))
            && (ProfileCount(gs, profile.patientId) <= 1 ==> ProfileCount(after, profile.patientId) == 1)
            && OtherProfiles(after, profile.patientId) == OtherProfiles(gs, profile.patientId)
  {
    var removed := RemoveFirstProfile(gs, profile.patientId);
    RemoveFirstProfileFacts(gs, profile.patientId);
    ProfileCountAppend(removed, profile, profile.patientId);
    FilterAppend(removed, [profile], (g: GoldPatientProfile) => g.patientId != profile.patientId);
  }

  // ---------------------------------------------------------------------
  // Document processing
  // ---------------------------------------------------------------------

  /** `f"doc_{patient_id}_{n}"`. */
  function DocumentId(patientId: string, n: nat): string
  {
    "doc_" + patientId + "_" + NatToString(n)
  }

  /** `patient.get("preferences", {}).get("preferred_location", "unknown")`. */
  function PreferredLocation(p: Patient): string
  {
    if p.preferences.Some? && p.preferences.value.preferredLocation.Some? then p.preferences.value.preferredLocation.value
    else "unknown"
  }

  /** The demographics `process_document` hands to the Gold step: a fixed
      age of 52 and sex "female", and the patient's preferred location. */
  function PatientDemographics(p: Patient): Demographics
  {
    Demographics(Some(52), Some("female"), Some(PreferredLocation(p)))
  }

  function Entities(x: Extraction): seq<SilverClinicalEntity>
  {
    x.medications + x.diagnoses + x.labValues
  }

  /** The first stored patient with this id. */
  function FindPatient(ps: seq<Patient>, patientId: string): Option<Patient>
  {
    FirstWhere(ps, (p: Patient) => p.id == patientId)
  }

  /** The first stored facts entry for this patient. */
  function FindDerivedFacts(fs: seq<DerivedFacts>, patientId: string): Option<DerivedFacts>
  {
    FirstWhere(fs, (f: DerivedFacts) => f.patientId == patientId)
  }

  /** A lookup finds a patient exactly when one is stored with that id, and
      then returns the first such; "not found" exactly when none is. */
  lemma FindPatientFacts(ps: seq<Patient>, patientId: string)
    ensures var found := FindPatient(ps, patientId);
            && (found.None? <==> forall k :: 0 <= k < |ps| ==> ps[k].id != patientId)
            && (found.Some? ==> exists k :: 0 <= k < |ps| && ps[k] == found.value && found.value.id == patientId
                                          && forall j :: 0 <= j < k ==> ps[j].id != patientId)
  {
  }

  /** The same for derived facts. */
  lemma FindDerivedFactsFacts(fs: seq<DerivedFacts>, patientId: string)
    ensures var found := FindDerivedFacts(fs, patientId);
            && (found.None? <==> forall k :: 0 <= k < |fs| ==> fs[k].patientId != patientId)
            && (found.Some? ==> exists k :: 0 <= k < |fs| && fs[k] == found.value && found.value.patientId == patientId
                                          && forall j :: 0 <= j < k ==> fs[j].patientId != patientId)
  {
  }

  /** What `process_document` reports (the float business value aside). */
  datatype ProcessResult = ProcessResult(
    bronzeDocumentId: string,
    silverEntitiesExtracted: nat,
    goldProfileUpdated: bool,
    silverEntities: seq<SilverClinicalEntity>,
    goldProfile: Option<GoldPatientProfile>)

  /** What `generate_data` reports, or its failure. */
  datatype GenerateOutcome = DataGenerated(patientsCount: nat, resourcesCount: nat, derivedFactsCount: nat)
                           | GenerationFailed

  // ---------------------------------------------------------------------
  // The application and its store
  // ---------------------------------------------------------------------

  class RestApp {
    var patients: seq<Patient>
    var resources: seq<Resource>
    var derivedFacts: seq<DerivedFacts>
    var bronzeDocuments: seq<BronzeDocument>
    var silverEntities: seq<SilverClinicalEntity>
    var goldProfiles: seq<GoldPatientProfile>
    const pipeline: MedallionTransformer
    const dataGenerator: EHRDataGenerator

    /** Every stored resource is well-formed and keys are numbered and
        unique. */
    predicate Valid()
      reads this
    {
      StoreInvariant(resources)
    }

    constructor ()
      ensures patients == [] && resources == [] && derivedFacts == []
      ensures bronzeDocuments == [] && silverEntities == [] && goldProfiles == []
      ensures fresh(pipeline) && fresh(dataGenerator) && pipeline.transformationLog == []
      ensures Valid()
    {
      patients := [];
      resources := [];
      derivedFacts := [];
      bronzeDocuments := [];
      silverEntities := [];
      goldProfiles := [];
      pipeline := new MedallionTransformer();
      dataGenerator := new EHRDataGenerator();
    }

    /** `generate_data`: a dataset replaces the patients, resources and
        derived facts (the Medallion lists stay); a failure (some patient's
        resource count drawn from an empty range, i.e. min > max) leaves
        the store as it was. */
    method GenerateData(numPatients: int, minResources: int, maxResources: int,
                        patientDraws: seq<PatientDraw>, resourceDraws: seq<PatientResourceDraw>,
                        factsDraws: seq<FactsDraw>)
      returns (outcome: GenerateOutcome)
      requires 1 <= numPatients <= 10 && 1 <= minResources <= 10 && 1 <= maxResources <= 15
      requires |patientDraws| == numPatients
      requires DatasetDrawsFit(patientDraws, minResources, maxResources, resourceDraws, factsDraws)
      modifies this, dataGenerator
      ensures outcome.GenerationFailed? <==> minResources > maxResources
      ensures outcome.GenerationFailed? ==>
                patients == old(patients) && resources == old(resources) && derivedFacts == old(derivedFacts)
      ensures outcome.DataGenerated? ==>
                var result := CompleteDataset(patientDraws, minResources, maxResources, resourceDraws, factsDraws);
                && result.Dataset_?
                && patients == result.dataset.patients
                && resources == result.dataset.resources
                && derivedFacts == result.dataset.derivedFacts
                && outcome == DataGenerated(|patients|, |resources|, |derivedFacts|)
                && DatasetInvariant(numPatients, minResources, maxResources, result.dataset)
      ensures bronzeDocuments == old(bronzeDocuments) && silverEntities == old(silverEntities)
      ensures goldProfiles == old(goldProfiles)
      ensures old(Valid()) || outcome.DataGenerated? ==> Valid()
    {
      CompleteDatasetFacts(patientDraws, minResources, maxResources, resourceDraws, factsDraws);
      var result := dataGenerator.GenerateCompleteDataset(patientDraws, minResources, maxResources,
                                                          resourceDraws, factsDraws);
      if result.EmptyResourceRange? {
        return GenerationFailed;
      }
      patients := result.dataset.patients;
      resources := result.dataset.resources;
      derivedFacts := result.dataset.derivedFacts;
      outcome := DataGenerated(|patients|, |resources|, |derivedFacts|);
    }

    /** `startup_event`: the store is replaced by a complete dataset of five
        patients with four to eight resources each; the pipeline's lists are
        left as they were. */
    method Startup(patientDraws: seq<PatientDraw>, resourceDraws: seq<PatientResourceDraw>, factsDraws: seq<FactsDraw>)
      requires |patientDraws| == 5
      requires DatasetDrawsFit(patientDraws, 4, 8, resourceDraws, factsDraws)
      modifies this, dataGenerator
      ensures var result := CompleteDataset(patientDraws, 4, 8, resourceDraws, factsDraws);
              && result.Dataset_?
              && patients == result.dataset.patients
              && resources == result.dataset.resources
              && derivedFacts == result.dataset.derivedFacts
      ensures |patients| == 5 && |derivedFacts| == 5 && 20 <= |resources| <= 40
      ensures bronzeDocuments == old(bronzeDocuments) && silverEntities == old(silverEntities)
      ensures goldProfiles == old(goldProfiles)
      ensures Valid()
    {
      var outcome := GenerateData(5, 4, 8, patientDraws, resourceDraws, factsDraws);
      assert RangeLength(4) == 4 && RangeLength(8) == 8;
    }

    /** `get_all_resources`: filter, count, slice, format. */
    method GetAllResources(patientId: Option<string>, stateFilter: Option<int>, resourceTypeFilter: Option<string>,
                           limit: int, offset: int)
      returns (response: ResourcesResponse)
      requires ValidPaging(limit, offset)
      ensures response == Respond(AllResources(resources, patientId, stateFilter, resourceTypeFilter, limit, offset))
    {
      var filtered := Select(resources, RestCriteria(patientId, stateFilter, resourceTypeFilter));
      var totalCount := |filtered|;
      var page := PySlice(filtered, offset, offset + limit);
      var formatted := FormatPage(page);
      response := ResourcesResponse(formatted, totalCount, offset + limit < totalCount);
    }

    /** `get_patient_resources`: the same with the path's patient id. */
    method GetPatientResources(patientId: string, stateFilter: Option<int>, resourceTypeFilter: Option<string>,
                               limit: int, offset: int)
      returns (response: ResourcesResponse)
      requires ValidPaging(limit, offset)
      ensures response == Respond(PatientResources(resources, patientId, stateFilter, resourceTypeFilter, limit, offset))
    {
      var c := RestCriteria(None, stateFilter, resourceTypeFilter);
      var filtered := Select(resources, c.(patientId := Some(patientId)));
      var totalCount := |filtered|;
      var page := PySlice(filtered, offset, offset + limit);
      var formatted := FormatPage(page);
      response := ResourcesResponse(formatted, totalCount, offset + limit < totalCount);
    }

    /** `get_patient`: the first patient with the id, `None` for 404. */
    method GetPatient(patientId: string) returns (patient: Option<Patient>)
      ensures patient == FindPatient(patients, patientId)
    {
      patient := FindPatient(patients, patientId);
    }

    /** `get_derived_facts`: the first facts entry for the patient, `None`
        for 404. */
    method GetDerivedFacts(patientId: string) returns (facts: Option<DerivedFacts>)
      ensures facts == FindDerivedFacts(derivedFacts, patientId)
    {
      facts := FindDerivedFacts(derivedFacts, patientId);
    }

    /** `process_document`. Bronze: the raw document is appended. Silver:
        the extracted entities (given, since extraction is pattern matching
        on the text) are appended. Gold: only when the patient is stored,
        its profile is rebuilt and upserted. Finally exactly one COMPLETED
        resource numbered after the store is appended, with a summary drawn
        from its type's pool. */
    method ProcessDocument(patientId: string, resourceType: string, documentContent: string,
                           extraction: Extraction, now: int, summaryPick: nat)
      returns (result: ProcessResult)
      requires summaryPick < |AiSummaryPool(resourceType)|
      modifies this, pipeline
      ensures var doc := BronzeDocument(DocumentId(patientId, |old(bronzeDocuments)| + 1), patientId,
                                        "API_Upload", resourceType, documentContent, now);
              && bronzeDocuments == old(bronzeDocuments) + [doc]
              && silverEntities == old(silverEntities) + Entities(extraction)
              && result.bronzeDocumentId == doc.documentId
              && pipeline.transformationLog
                 == old(pipeline.transformationLog)
                    + [LogEntry(now, "bronze_to_silver", doc.documentId, EntityCount(|Entities(extraction)|))]
                    + (if FindPatient(old(patients), patientId).Some?
                       then [LogEntry(now, "silver_to_gold", patientId, BusinessValue)] else [])
      ensures result.silverEntities == Entities(extraction)
      ensures result.silverEntitiesExtracted == |Entities(extraction)|
      ensures var found := FindPatient(old(patients), patientId);
              && (found.Some? ==>
                    var profile := GoldProfileOf(patientId, Entities(extraction), PatientDemographics(found.value));
                    && goldProfiles == UpsertProfile(old(goldProfiles), profile)
                    && result.goldProfile == Some(profile))
              && (found.None? ==>
                    && goldProfiles == old(goldProfiles)
                    && result.goldProfile.None?)
              && (result.goldProfileUpdated <==> found.Some?)
      ensures resources == old(resources)
                + [IngestedResource(patientId, resourceType, documentContent, |old(resources)| + 1, now,
                                    GenerateAiSummary(resourceType, summaryPick))]
      ensures patients == old(patients) && derivedFacts == old(derivedFacts)
      ensures old(Valid()) ==> Valid()
    {
      var doc := IngestBronze(patientId, resourceType, documentContent, now);
      var entities := IngestSilver(doc, extraction, now);
      var goldProfile := IngestGold(patientId, entities, now);
      StoreIngested(patientId, resourceType, documentContent, now, GenerateAiSummary(resourceType, summaryPick));
      result := ProcessResult(doc.documentId, |entities|, goldProfile.Some?, entities, goldProfile);
    }

    /** Bronze: the raw upload, numbered after the documents already held. */
    method IngestBronze(patientId: string, resourceType: string, documentContent: string, now: int)
      returns (doc: BronzeDocument)
      modifies this
      ensures doc == BronzeDocument(DocumentId(patientId, |old(bronzeDocuments)| + 1), patientId,
                                    "API_Upload", resourceType, documentContent, now)
      ensures bronzeDocuments == old(bronzeDocuments) + [doc]
      ensures silverEntities == old(silverEntities) && goldProfiles == old(goldProfiles)
      ensures resources == old(resources) && patients == old(patients) && derivedFacts == old(derivedFacts)
    {
      doc := BronzeDocument(DocumentId(patientId, |bronzeDocuments| + 1), patientId,
                            "API_Upload", resourceType, documentContent, now);
      bronzeDocuments := bronzeDocuments + [doc];
    }

    /** Silver: the document's extracted entities are appended and the
        transformation logged. */
    method IngestSilver(doc: BronzeDocument, extraction: Extraction, now: int)
      returns (entities: seq<SilverClinicalEntity>)
      modifies this, pipeline
      ensures entities == Entities(extraction)
      ensures silverEntities == old(silverEntities) + entities
      ensures pipeline.transformationLog == old(pipeline.transformationLog)
                + [LogEntry(now, "bronze_to_silver", doc.documentId, EntityCount(|entities|))]
      ensures bronzeDocuments == old(bronzeDocuments) && goldProfiles == old(goldProfiles)
      ensures resources == old(resources) && patients == old(patients) && derivedFacts == old(derivedFacts)
    {
      entities := pipeline.BronzeToSilverDocument(doc, extraction, now);
      silverEntities := silverEntities + entities;
    }

    /** Gold: only a stored patient's profile is rebuilt and upserted. */
    method IngestGold(patientId: string, entities: seq<SilverClinicalEntity>, now: int)
      returns (goldProfile: Option<GoldPatientProfile>)
      modifies this, pipeline
      ensures var found := FindPatient(patients, patientId);
              && (found.Some? ==>
                    var profile := GoldProfileOf(patientId, entities, PatientDemographics(found.value));
                    && goldProfiles == UpsertProfile(old(goldProfiles), profile)
                    && goldProfile == Some(profile)
                    && pipeline.transformationLog
                       == old(pipeline.transformationLog) + [LogEntry(now, "silver_to_gold", patientId, BusinessValue)])
              && (found.None? ==>
                    && goldProfiles == old(goldProfiles)
                    && goldProfile.None?
                    && pipeline.transformationLog == old(pipeline.transformationLog))
      ensures bronzeDocuments == old(bronzeDocuments) && silverEntities == old(silverEntities)
      ensures resources == old(resources) && patients == old(patients) && derivedFacts == old(derivedFacts)
    {
      var patient := FindPatient(patients, patientId);
      goldProfile := None;
      if patient.Some? {
        var profile := pipeline.SilverToGoldPatient(patientId, entities, PatientDemographics(patient.value), now);
        goldProfiles := UpsertProfile(goldProfiles, profile);
        goldProfile := Some(profile);
      }
    }

    /** The resource `process_document` stores: COMPLETED, numbered after the
        store, appended at the end. */
    method StoreIngested(patientId: string, resourceType: string, documentContent: string, now: int, summary: string)
      modifies this
      ensures resources == old(resources)
                + [IngestedResource(patientId, resourceType, documentContent, |old(resources)| + 1, now, summary)]
      ensures patients == old(patients) && derivedFacts == old(derivedFacts)
      ensures bronzeDocuments == old(bronzeDocuments) && silverEntities == old(silverEntities)
      ensures goldProfiles == old(goldProfiles)
      ensures old(Valid()) ==> Valid()
    {
      var resource := IngestedResource(patientId, resourceType, documentContent, |resources| + 1, now, summary);
      if StoreInvariant(resources) {
        IngestKeepsInvariant(resources, patientId, resourceType, documentContent, now, summary);
      }
      resources := resources + [resource];
    }
  }

  /** Processing a document for a stored patient leaves that patient with
      exactly one Gold profile when it had at most one, whose medications
      and conditions are the document's extracted ones, and changes no
      other patient's profiles. */
  lemma ProcessedGoldProfile(gs: seq<GoldPatientProfile>, patient: Patient, x: Extraction)
    requires ExtractorTyped(x)
    requires ProfileCount(gs, patient.id) <= 1
    ensures var after := UpsertProfile(gs, GoldProfileOf(patient.id, Entities(x), PatientDemographics(patient)));
            && ProfileCount(after, patient.id) == 1
            && OtherProfiles(after, patient.id) == OtherProfiles(gs, patient.id)
            && after[|after| - 1].currentMedications == Values(x.medications)
            && after[|after| - 1].primaryConditions + after[|after| - 1].comorbidities == Values(x.diagnoses)
            && after[|after| - 1].ageYears == 52 && after[|after| - 1].sex == "female"
            && after[|after| - 1].geographicLocation == PreferredLocation(patient)
  {
    var profile := GoldProfileOf(patient.id, Entities(x), PatientDemographics(patient));
    UpsertProfileFacts(gs, profile);
    GoldFromExtraction(patient.id, x, PatientDemographics(patient));
    GoldProfileShape(patient.id, Entities(x), PatientDemographics(patient));
  }
}
