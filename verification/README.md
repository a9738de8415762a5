# EHR backend: resource store, Medallion pipeline and mock-record generator

This project is a Dafny model of the core of a small EHR (electronic health
record) backend. The backend serves mock clinical documents ("resources")
to a trial-matching front end in two ways: a REST application
(`backend/app/main.py`) and a gRPC service (`backend/app/grpc_server.py`).
Both keep the same kind of in-memory store of patients, resources and
derived clinical facts. The store is filled by a Faker-driven generator
(`backend/app/data_generator.py`). The REST application also runs each
uploaded document through a Bronze -> Silver -> Gold "Medallion" pipeline
(`backend/app/medallion_pipeline.py`):
- Bronze keeps the raw document.
- Silver holds the clinical entities extracted from it.
- Gold is a per-patient profile with trial-eligibility factors from fixed
  clinical threshold bands.

The model is split into modules:

- `Common`: digit strings and zero padding (`f"{n:04d}"`), ASCII
  lower-casing, substring search.
- `Seqs`: Python's list comprehension with a condition, slicing and
  `next(...)` lookups.
- `Records`: the stored records, the fixed tables (archetypes, resource
  types, cities), the key/uid/patient-id formats, and the per-resource
  metadata invariant `WellFormed`.
- `Generator`: the generator. Every random draw (Faker's choices, time
  offsets, the state-selection number, `hash(patient_id)`) is an explicit
  input. `EHRDataGenerator` is a class with loops that are proved against
  the functions `PatientsFrom`, `Batch`, `FactsFor` and `CompleteDataset`.
- `Medallion`: the Bronze/Silver/Gold records, the Gold profile, the three
  clinical assessments, the code lookups, and the transformer class with
  its transformation log and the statistics loop.
- `Store`: the listing filters, the response shape, the resource a
  processed document becomes, and the store invariant (every resource
  well-formed, keys numbered and unique).
- `RestApi`: the REST application as a class over the store.
- `GrpcService`: the gRPC service as a class over its own store, with the
  differences from the REST application stated as lemmas.

Timestamps are integers (milliseconds). A clock reading is a `now`
parameter.

## Model

| member | source | states |
|---|---|---|
| Records.ProcessingState.Code | backend/app/data_generator.py:16-21 | the five states carry codes 0..4; 3 is exactly COMPLETED and 0 exactly UNSPECIFIED |
| Records.KeyRoundTrip | backend/app/data_generator.py:340 | a key `res_{patient}_{n:04d}` reads back as the patient id (underscores included) and the number `n` |
| Records.KeyInjective | backend/app/data_generator.py:340 | two keys are equal only when built from the same patient id and number |
| Records.PatientIdInjective | backend/app/data_generator.py:130 | distinct loop indices give distinct ids `P{n:03d}` |
| Records.UidInjective | backend/app/main.py:450 | distinct resource numbers give distinct uids `{n:04d}` |
| Common.ZeroPadRoundTrip | backend/app/data_generator.py:340-341 | `{n:0wd}` reads back as `n`, for any width and any number (wider than the width included) |
| Common.NatToStringRoundTrip | backend/app/main.py:401 | the counter written into a document id reads back as that counter |
| Seqs.PySlice | backend/app/main.py:275-276 | `s[start:stop]` with Python's clamping of bounds: length and elements of the slice in terms of the clamped bounds |
| Seqs.FirstWhere | backend/app/main.py:340 | `next(..., None)` finds something exactly when some element matches, and then returns the first matching element |
| Seqs.FirstWhereAppend | backend/app/main.py:417 | the first match in a list is unchanged by appending to the list |
| Seqs.FilterMembership | backend/app/main.py:265-272 | an element survives a comprehension exactly when it is in the list and satisfies the condition |
| Generator.PatientsFromFacts | backend/app/data_generator.py:123-151 | `n` patients P001, P002, ... in order, pairwise distinct, consenting, each carrying an archetype and its condition focus |
| Generator.EHRDataGenerator.GeneratePatients | backend/app/data_generator.py:123-151 | the loop builds exactly `PatientsFrom(draws)` and stores it in the generator, leaving the other lists unchanged |
| Generator.StateSelectionFacts | backend/app/data_generator.py:318-331 | the weights add up to 1, each threshold is a cumulative weight, selection never yields UNSPECIFIED |
| Generator.SelectState | backend/app/data_generator.py:324-331 | the weighted selection loop returns the first state whose cumulative weight reaches the draw, never UNSPECIFIED |
| Generator.GenerateAiSummary | backend/app/data_generator.py:255-280 | the summary is a member of the resource type's pool |
| Generator.AiSummaryPools | backend/app/data_generator.py:257-280 | the four typed documents get one of three summaries of their own, never the generic line; other types get only the generic line |
| Generator.MedicationLines | backend/app/data_generator.py:237-243 | two numbered lines, three when the archetype has a third medication, each starting with its number |
| Generator.ArchetypesHaveTwoMedications | backend/app/data_generator.py:38-95 | every archetype has at least two medications (so `medications[1]` exists) and non-empty age and A1C ranges |
| Generator.GeneratedIdentifierFacts | backend/app/data_generator.py:340-341 | a generated key reads back as the patient and position plus one; the uid as `hash % 10000` plus position plus one |
| Generator.MakeResourceFacts | backend/app/data_generator.py:296-352 | a generated resource is well-formed (processed time and summary present exactly when COMPLETED), fetched 1-10 s after creation, processed 5-60 s after fetching, and carries the generated identifier |
| Generator.NewResource | backend/app/data_generator.py:296-354 | one inner-loop iteration builds `MakeResource` of its draws, well-formed, with the generated identifier |
| Generator.GenerateBlock | backend/app/data_generator.py:295-354 | the inner loop builds the patient's block of resources in order |
| Generator.BatchSize | backend/app/data_generator.py:291-295 | with counts in `[min, max]`, the batch has between `n*min` and `n*max` resources (a negative count makes none) |
| Generator.BatchOrigin | backend/app/data_generator.py:291-354 | every batch entry is some patient's `i`-th resource, with `i` no larger than its position |
| Generator.BatchWellFormed | backend/app/data_generator.py:291-357 | every generated resource is well-formed, belongs to one of the patients, and has a key that reads back as its own patient and a number no larger than its position plus one |
| Generator.IdentifiersDiffer | backend/app/data_generator.py:340-342 | resources of different patients differ in key and patient id; resources of one patient at different positions differ in key and uid |
| Generator.BatchIdentifiersUnique | backend/app/data_generator.py:291-357 | with distinct patient ids, all keys of the batch are distinct and each (patient id, uid) pair identifies one resource |
| Generator.UidsCollideAcrossPatients | backend/app/data_generator.py:341 | uids alone are not unique: two patients whose hashes lie one apart share a uid |
| Generator.EHRDataGenerator.GenerateEhrResources | backend/app/data_generator.py:282-357 | the nested loops build exactly `Batch(...)` and store it, leaving patients and facts unchanged |
| Generator.FactsAlign | backend/app/data_generator.py:359-390 | one facts entry per patient in order, copying the archetype's sex, diagnoses and medications, with an age in the archetype's range and at most one exclusion from the vocabulary |
| Generator.EHRDataGenerator.GenerateDerivedFacts | backend/app/data_generator.py:359-390 | the loop builds exactly `FactsFor(...)` and stores it, leaving the other lists unchanged |
| Generator.StripKeepsIds | backend/app/data_generator.py:404-406 | deleting `_archetype` keeps every id and distinctness of ids |
| Generator.StripArchetypes | backend/app/data_generator.py:404-406 | the clean-up loop removes the archetype from every patient and changes nothing else |
| Generator.CompleteDatasetFacts | backend/app/data_generator.py:392-412 | generation fails exactly when there is a patient and `min > max`; otherwise the dataset keeps the dataset invariant (ids P001.., no archetype left, resources well-formed and owned by the patients, keys unique and numbered, (patient, uid) unique, size in `[n*min, n*max]`, one facts entry per patient) |
| Generator.EHRDataGenerator.GenerateCompleteDataset | backend/app/data_generator.py:392-412 | returns `CompleteDataset(...)`; on success the generator holds the returned lists; on failure its patients are already replaced and its resources and facts are not |
| Medallion.ValuesOfTypeIsFilter | backend/app/medallion_pipeline.py:270-278 | `[e.entity_value for e in entities if e.entity_type == t]` is the value list of the entities of that type, in order |
| Medallion.GoldProfileShape | backend/app/medallion_pipeline.py:263-297 | the profile splits the diagnoses in order into at most three primary conditions and the comorbidities after them; medications and contraindications are exactly the values of that type; missing demographics default to 0, "unknown", "unknown" |
| Medallion.PrimarySplit | backend/app/medallion_pipeline.py:274-275 | `d[:3] + d[3:] == d` and the first part has `min(3, len(d))` elements |
| Medallion.GoldFromExtraction | backend/app/medallion_pipeline.py:251-297 | for an extractor's output, the Gold medications are the extracted medications, the diagnoses are split in extraction order, and there are no contraindications |
| Medallion.FirstNumeral | backend/app/medallion_pipeline.py:398 | `re.search(r"(\d+\.?\d*)", s)` finds a valid numeral exactly when `s` holds a digit |
| Medallion.DiabetesControlAsWrittenIgnoresValue | backend/app/medallion_pipeline.py:389-407 | as written, when the first entity mentioning "hemoglobin_a1c" is an A1C lab value in the extractor's format (whatever entities not mentioning it come before it and whatever follows), it reads as 1.0 and the control is "well_controlled" whatever its value |
| Medallion.DiabetesControlOfExtracted | backend/app/medallion_pipeline.py:389-407 | with the reading taken after the label, when the first entity mentioning "hemoglobin_a1c" (after any entities not mentioning it) is an A1C lab value in the extractor's format, the band is the band of its value (below 7, below 8, otherwise poor) |
| Medallion.DiabetesControlCounterexample | backend/app/medallion_pipeline.py:398 | "hemoglobin_a1c: 9.5" is "well_controlled" as written and "poorly_controlled" as intended |
| Medallion.AssessDiabetesControl | backend/app/medallion_pipeline.py:389-407 | "unknown" exactly when no entity mentions "hemoglobin_a1c" or the first one that does has no number after the label |
| Medallion.RenalFunctionOfExtracted | backend/app/medallion_pipeline.py:409-428 | when the first entity mentioning "egfr" (after any entities not mentioning it) is an eGFR lab value in the extractor's format, the renal function is the band of its value (90, 60, 30 thresholds), whatever follows |
| Medallion.RenalFunctionFirstWins | backend/app/medallion_pipeline.py:411-417 | only the first eGFR entity counts: entities after it change nothing |
| Medallion.RenalUnknownIff | backend/app/medallion_pipeline.py:409-428 | renal function is "unknown" exactly when no entity mentions "egfr" or the first one has no digit |
| Medallion.AssessCardiacRisk | backend/app/medallion_pipeline.py:430-453 | "high" exactly when diagnoses mention all three of hypertension, hyperlipidemia and diabetes (any case); "moderate" exactly when they mention two, "low" exactly when one, "minimal" exactly when none |
| Medallion.CardiacRiskOnlyDiagnoses | backend/app/medallion_pipeline.py:435-444 | only diagnosis entities count: dropping every other entity changes nothing |
| Medallion.CardiacRiskOrderIndependent | backend/app/medallion_pipeline.py:430-453 | the risk does not depend on the order of the entities |
| Medallion.RxNormCoverage | backend/app/medallion_pipeline.py:457-465 | the lookup ignores case; exactly four medication names have a code; glipizide, losartan and semaglutide have none |
| Medallion.LoincCoverage | backend/app/medallion_pipeline.py:467-475 | the lookup is case-sensitive; exactly four lab names have a code; ldl and hdl cholesterol have none |
| Medallion.MedallionTransformer.LogTransformation | backend/app/medallion_pipeline.py:477-486 | appends exactly one entry with the stage, entity id, metric and time |
| Medallion.MedallionTransformer.BronzeToSilverDocument | backend/app/medallion_pipeline.py:251-261 | the entities are medications, then diagnoses, then lab values, and one "bronze_to_silver" entry logs their number |
| Medallion.MedallionTransformer.SilverToGoldPatient | backend/app/medallion_pipeline.py:263-300 | returns the Gold profile of the entities and demographics and logs one "silver_to_gold" entry |
| Medallion.BumpFacts | backend/app/medallion_pipeline.py:494-498 | one dictionary update adds one to the total and to the stage's count only, and keeps the stages distinct |
| Medallion.TallyFacts | backend/app/medallion_pipeline.py:493-498 | the counts add up to the number of log entries, each stage's count is its number of entries, and no stage is listed twice |
| Medallion.TallyListsEveryStage | backend/app/medallion_pipeline.py:493-498 | every stage that occurs in the log has a positive count |
| Medallion.MedallionTransformer.GetPipelineStats | backend/app/medallion_pipeline.py:488-504 | an empty log gives only a total of 0; otherwise the total is the log length, the stages are the per-stage tally (summing to the total, no duplicates), and the last timestamp is the last entry's |
| Store.SelectIsFilter | backend/app/main.py:265-272 | the three comprehensions applied in turn are one order-preserving filter by the conjunction of the filters that are on |
| Store.SelectSoundAndComplete | backend/app/main.py:265-272 | a stored resource is listed exactly when it passes every filter that is on |
| Store.SelectAppend | backend/app/main.py:265-272 | listing a grown store lists the old matches first, then the new ones |
| Store.JsonRoundTrip | backend/app/main.py:281-297 | the response entry and the stored resource read back into each other: formatting loses and changes nothing |
| Store.AllToJsonFaithful | backend/app/main.py:279-298 | every response entry reads back as its resource; `processedTime` and `aiSummary` are null exactly when absent in storage |
| Store.FormatPage | backend/app/main.py:279-298 | the formatting loop produces one entry per resource, in page order |
| Store.IngestedResourceFacts | backend/app/main.py:439-458 | a processed document is stored well-formed and COMPLETED, FHIR R4, with all three timestamps equal, its key and uid reading back as the patient and the number, and its text the first 500 characters of the document |
| Store.IngestKeepsInvariant | backend/app/main.py:439-459 | appending a processed document numbered after the store keeps every resource well-formed and every key numbered and unique |
| Store.AppendNumberedKeepsInvariant | backend/app/main.py:449-459 | appending any well-formed resource whose key's number is the store's length plus one keeps the store invariant |
| RestApi.RestPageFacts | backend/app/main.py:275-303 | the page has at most `limit` entries, exactly `min(limit, total - offset)` from `offset` on; `totalCount` is the pre-slice count; `hasMore` exactly when `offset + limit < total`, and then the page is full |
| RestApi.AllResourcesSound | backend/app/main.py:252-304 | every listed resource is stored and satisfies the non-empty patient id, the given state and the non-empty type; the page is a window of the filtered store; the count is the filter's length |
| RestApi.PatientResourcesOnlyPatient | backend/app/main.py:194-246 | lists only the path patient's resources; for a non-empty id it equals the general listing with that id |
| RestApi.RemoveFirstProfileFacts | backend/app/main.py:431-434 | removing the first profile of the patient drops one of its profiles when there is one and keeps every other patient's profiles in order |
| RestApi.UpsertProfileFacts | backend/app/main.py:430-435 | after the upsert the new profile is last, the patient has one profile when it had at most one, and other patients' profiles are unchanged and in order |
| RestApi.FindPatientFacts | backend/app/main.py:335-361 | the lookup finds a patient exactly when one with the id is stored, and then the first one |
| RestApi.FindDerivedFactsFacts | backend/app/main.py:363-392 | the lookup finds facts exactly when some are stored for the patient, and then the first entry |
| RestApi.ProcessedGoldProfile | backend/app/main.py:415-435 | processing a document for a stored patient leaves it with one Gold profile whose medications and conditions are the extracted ones, aged 52, "female", at the patient's preferred location, and no other patient's profile changes |
| RestApi.RestApp.GenerateData | backend/app/main.py:164-192 | fails exactly when `min > max`, leaving the store unchanged; otherwise replaces patients, resources and facts by the generated dataset, reports their counts, keeps the dataset invariant and the Medallion lists |
| RestApi.RestApp.Startup | backend/app/main.py:135-148 | the store's patients, resources and facts are those of the complete dataset for five patients with 4..8 resources each (so five patients, five facts entries, 20..40 resources); the Bronze, Silver and Gold lists are unchanged; the store invariant holds |
| RestApi.RestApp.GetAllResources | backend/app/main.py:252-304 | the response is the formatted page of `AllResources` over the store |
| RestApi.RestApp.GetPatientResources | backend/app/main.py:194-246 | the response is the formatted page of `PatientResources` over the store |
| RestApi.RestApp.GetPatient | backend/app/main.py:335-361 | the first stored patient with the id, none for 404 |
| RestApi.RestApp.GetDerivedFacts | backend/app/main.py:363-392 | the first stored facts entry for the patient, none for 404 |
| RestApi.RestApp.ProcessDocument | backend/app/main.py:394-490 | appends the Bronze document `doc_{patient}_{n}` and its Silver entities; logs "bronze_to_silver" and, only for a stored patient, "silver_to_gold"; upserts the Gold profile only for a stored patient; appends exactly one COMPLETED resource numbered after the store; patients and facts unchanged; the store invariant is kept |
| GrpcService.GrpcPageFacts | backend/app/grpc_server.py:96-111 | a non-positive limit lists from the offset to the end with no more; a positive limit lists at most `limit`, with more exactly when `offset + limit` falls short of the total |
| GrpcService.GrpcResourcesSound | backend/app/grpc_server.py:86-100 | every listed resource is stored and satisfies each filter that is set (non-empty id or type, non-zero state) |
| GrpcService.GrpcAgreesWithRest | backend/app/grpc_server.py:81-121 | with the paging REST admits and a non-zero state, the gRPC listing equals the REST listing |
| GrpcService.StateZeroDiffers | backend/app/grpc_server.py:90-91 | state 0 lists nothing over REST (no stored resource is UNSPECIFIED) but lists as if unset over gRPC |
| GrpcService.ZeroLimitListsAll | backend/app/grpc_server.py:99 | a zero limit, which REST refuses, lists the whole store over gRPC |
| GrpcService.MockAiSummary | backend/app/grpc_server.py:311-320 | the diabetes line exactly when the text mentions diabetes; hypertension next; the lab line exactly when neither and the type mentions "lab"; else the default line (all case-insensitive) |
| GrpcService.MockAiSummaryIgnoresCase | backend/app/grpc_server.py:311-320 | lower-casing the text and the type does not change the summary |
| GrpcService.EhrService.GenerateEhrData | backend/app/grpc_server.py:45-79 | INTERNAL exactly when there is a patient and `min > max`, with an empty response and storage untouched; otherwise storage is the generated dataset, the response lists all its resources with `has_more` false, and the dataset invariant holds |
| GrpcService.EhrService.GetResources | backend/app/grpc_server.py:81-121 | the response is `GrpcResources` over the stored resources |
| GrpcService.EhrService.GetPatient | backend/app/grpc_server.py:123-162 | the first stored patient with the id; NOT_FOUND exactly when there is none |
| GrpcService.EhrService.GetDerivedFacts | backend/app/grpc_server.py:164-212 | the first stored facts entry for the patient; NOT_FOUND exactly when there is none |
| GrpcService.EhrService.ProcessDocument | backend/app/grpc_server.py:214-266 | appends exactly one COMPLETED FHIR R4 resource numbered after the store with the mock summary, reports it with facts aged 55 and "female", changes nothing else, and keeps the store invariant |
| GrpcService.ServersIngestAlike | backend/app/grpc_server.py:226-251 | both servers store a processed document with the same metadata and text; only the summary differs |

## Left out

- The regex extractors (`_extract_medications`, `_extract_diagnoses`, `_extract_lab_values`, medallion_pipeline.py:304-385) are not modelled as pattern matching. Their output is an input `Extraction`, with one shape property (`ExtractorTyped`). The only format the model relies on is the lab value `"{lab}: {value}"`.
- Floating-point scores are not modelled: quality scores, the Gold and clinical-summary business values, the `business_value` fields of responses, and `avg_metric` (always 0). A log entry's metric for the Gold step is the constant `BusinessValue`.
- The layer decorators (`bronze_layer`, `silver_layer`, `gold_layer`) are left out. So are `BronzePatientRecord`, the `Silver*` subtypes and `GoldClinicalSummary`, which no core path uses. So are the `demo_medallion_pipeline` and `create_medallion_pipeline` helpers.
- HTTP routing, CORS, Pydantic parsing, logging, threading and the gRPC server loop are left out. Errors are returned as values: `GenerationFailed`, `Status`, `None` for 404.
- Protobuf conversion (`_dict_to_ehr_resource`, `_dict_to_derived_facts`) is left out. The gRPC responses are the stored records.
- `datetime.now()`, Faker and `hash()` are inputs. Timestamps are integer milliseconds rather than ISO strings. Prose templates of lab reports, clinical notes and discharge summaries are an input text. Faker's picks are indices.
- The read-only endpoints `root`, `get_patients`, `get_gold_profiles`, `get_silver_entities` and the pipeline-stats endpoint only reshape stored lists. They are not modelled as endpoints. Their data (`goldProfiles`, `silverEntities`, `GetPipelineStats`) is.
- Patient-profile response formatting is left out.
- `RestApi.PreferredLocation`: an absent `preferences` or `preferred_location` key (`None` in the model) gives "unknown". A key present with value null is not modelled. In main.py:424 a null `preferences` raises AttributeError, so the request fails with HTTP 500 after the Bronze and Silver appends. A null `preferred_location` gives a null location.
- `Common.IsDigit` accepts only the ASCII digits 0-9. Python's `\d`, `int()` and `float()` also accept other Unicode decimal digits. So an entity value such as "egfr: ٤٥" is "moderate_impairment" in medallion_pipeline.py:415-420 but "unknown" in `Medallion.AssessRenalFunction`. The same holds for the A1C reading and the key and number parsing.
- Each operation takes one `now` for all its clock reads. The source reads `datetime.now()` separately: for the Bronze timestamp (medallion_pipeline.py:97), for each transformation log entry (medallion_pipeline.py:480) and for the resource's processed time (main.py:440). The model does not capture these readings differing from one another.
- gRPC's 32-bit integer request fields are read as unbounded integers.
- BronzeDocument's `file_metadata` and its `ingestion_timestamp` default are not modelled. The timestamp is the `now` of processing.
- The random trial-phase and trial-type samples are given as index lists. Their size (1 or 2, distinct) is a precondition on the draw.
- `Medallion.AssessDiabetesControl`: the model's Gold profile uses the corrected A1C reading (see Findings), not the code as written. The as-written function is kept beside it.

## Findings

| source | as written | input that shows it | evidently intended | confidence | as-written member | corrected member |
|---|---|---|---|---|---|---|
| backend/app/medallion_pipeline.py:398 | the A1C value is read with `re.search(r"(\d+\.?\d*)", a1c_text)` over the whole entity value, whose first digit is the "1" in the label "hemoglobin_a1c", so every A1C lab value reads as 1.0 and is "well_controlled" | an entity with value "hemoglobin_a1c: 9.5" | read the number after the label, giving 9.5 and "poorly_controlled" | high, not executed | Medallion.AssessDiabetesControlAsWritten | Medallion.AssessDiabetesControl |

Other differences between the code and its own description that the model follows as code:
- Generated uids are `hash(patient_id) % 10000 + i + 1`, so they are unique only within one patient (`Generator.UidsCollideAcrossPatients`). Keys are unique across the store.
- A processed document's uid is the store length plus one, and it may coincide with a generated uid.
- The REST listing filters on a state of 0, which matches nothing. gRPC treats 0 as unset.
