/** The in-memory resource store both servers keep: the three optional
    criteria a listing filters it by, the field-for-field response shape a
    stored resource is served in, and the resource a processed document is
    stored as, together with the key invariant that storage keeps. */
module Store {
  import opened Common
  import opened Seqs
  import opened Records

  // ---------------------------------------------------------------------
  // Listing criteria
  // ---------------------------------------------------------------------

  /** The filters a listing applies; `None` means "do not filter". Each
      server decides when a request value switches a filter off. */
  datatype Criteria = Criteria(patientId: Option<string>, state: Option<int>, resourceType: Option<string>)

  predicate MatchesPatient(r: Resource, c: Criteria) { c.patientId.None? || r.PatientId() == c.patientId.value }
  predicate MatchesState(r: Resource, c: Criteria) { c.state.None? || r.metadata.state == c.state.value }
  predicate MatchesType(r: Resource, c: Criteria) { c.resourceType.None? || r.metadata.resourceType == c.resourceType.value }

  /** A resource passes every filter that is switched on. */
  predicate Matches(r: Resource, c: Criteria)
  {
    MatchesPatient(r, c) && MatchesState(r, c) && MatchesType(r, c)
  }

  /** The patient comprehension, applied only when that filter is on. */
  function ByPatient(rs: seq<Resource>, c: Criteria): seq<Resource>
  {
    if c.patientId.Some? then Filter(rs, (r: Resource) => r.PatientId() == c.patientId.value) else rs
  }

  /** The state comprehension, applied only when that filter is on. */
  function ByState(rs: seq<Resource>, c: Criteria): seq<Resource>
  {
    if c.state.Some? then Filter(rs, (r: Resource) => r.metadata.state == c.state.value) else rs
  }

  /** The resource-type comprehension, applied only when that filter is on. */
  function ByType(rs: seq<Resource>, c: Criteria): seq<Resource>
  {
    if c.resourceType.Some? then Filter(rs, (r: Resource) => r.metadata.resourceType == c.resourceType.value) else rs
  }

  /** The three comprehensions in the servers' order: patient, then state,
      then resource type. */
  function Select(rs: seq<Resource>, c: Criteria): seq<Resource>
  {
    ByType(ByState(ByPatient(rs, c), c), c)
  }

  lemma ByPatientIsFilter(rs: seq<Resource>, c: Criteria)
    ensures ByPatient(rs, c) == Filter(rs, (r: Resource) => MatchesPatient(r, c))
  {
    if c.patientId.Some? {
      FilterSameCondition(rs, (r: Resource) => r.PatientId() == c.patientId.value, (r: Resource) => MatchesPatient(r, c));
    } else {
      FilterAll(rs, (r: Resource) => MatchesPatient(r, c));
    }
  }

  lemma ByStateIsFilter(rs: seq<Resource>, c: Criteria)
    ensures ByState(rs, c) == Filter(rs, (r: Resource) => MatchesState(r, c))
  {
    if c.state.Some? {
      FilterSameCondition(rs, (r: Resource) => r.metadata.state == c.state.value, (r: Resource) => MatchesState(r, c));
    } else {
      FilterAll(rs, (r: Resource) => MatchesState(r, c));
    }
  }

  lemma ByTypeIsFilter(rs: seq<Resource>, c: Criteria)
    ensures ByType(rs, c) == Filter(rs, (r: Resource) => MatchesType(r, c))
  {
    if c.resourceType.Some? {
      FilterSameCondition(rs, (r: Resource) => r.metadata.resourceType == c.resourceType.value,
                          (r: Resource) => MatchesType(r, c));
    } else {
      FilterAll(rs, (r: Resource) => MatchesType(r, c));
    }
  }

  /** Applying the filters one after the other is one order-preserving
      filter by the conjunction of the criteria. */
  lemma SelectIsFilter(rs: seq<Resource>, c: Criteria)
    ensures Select(rs, c) == Filter(rs, (r: Resource) => Matches(r, c))
  {
    ByPatientIsFilter(rs, c);
    ByStateIsFilter(ByPatient(rs, c), c);
    ByTypeIsFilter(ByState(ByPatient(rs, c), c), c);
    FilterThrice(rs, (r: Resource) => MatchesPatient(r, c), (r: Resource) => MatchesState(r, c),
                 (r: Resource) => MatchesType(r, c), (r: Resource) => Matches(r, c));
  }

  /** A stored resource is listed exactly when it passes every filter that
      is on. */
  lemma SelectSoundAndComplete(rs: seq<Resource>, c: Criteria, r: Resource)
    ensures r in Select(rs, c) <==> r in rs && Matches(r, c)
  {
    SelectIsFilter(rs, c);
    FilterMembership(rs, (x: Resource) => Matches(x, c), r);
  }

  /** Listing a store that grew by `more` lists the old store's matches
      first, then the new ones: filtering preserves storage order. */
  lemma SelectAppend(rs: seq<Resource>, more: seq<Resource>, c: Criteria)
    ensures Select(rs + more, c) == Select(rs, c) + Select(more, c)
  {
    SelectIsFilter(rs + more, c);
    SelectIsFilter(rs, c);
    SelectIsFilter(more, c);
    FilterAppend(rs, more, (x: Resource) => Matches(x, c));
  }

  // ---------------------------------------------------------------------
  // Response shape
  // ---------------------------------------------------------------------

  /** The response shape of one resource: the stored fields under their
      response names, `processedTime` and `aiSummary` null when absent. */
  datatype ResourceJson = ResourceJson(
    state: int,
    createdTime: int,
    fetchTime: int,
    processedTime: Option<int>,
    key: string,
    uid: string,
    patientId: string,
    resourceType: string,
    version: int,
    humanReadableStr: string,
    aiSummary: Option<string>)

  /** The formatting loop's body: copies every stored field. */
  function ToJson(r: Resource): ResourceJson
  {
    ResourceJson(
      r.metadata.state, r.metadata.createdTime, r.metadata.fetchTime, r.metadata.processedTime,
      r.metadata.identifier.key, r.metadata.identifier.uid, r.metadata.identifier.patientId,
      r.metadata.resourceType, r.metadata.version,
      r.humanReadableStr, r.aiSummary)
  }

  /** Reading a response back into a stored resource. */
  function FromJson(j: ResourceJson): Resource
  {
    Resource(
      Metadata(j.state, j.createdTime, j.fetchTime, j.processedTime,
        Identifier(j.key, j.uid, j.patientId), j.resourceType, j.version),
      j.humanReadableStr, j.aiSummary)
  }

  /** Formatting loses and changes nothing: the stored resource reads back
      from its response, and the response reads back from the resource. */
  lemma JsonRoundTrip(r: Resource, j: ResourceJson)
    ensures FromJson(ToJson(r)) == r
    ensures ToJson(FromJson(j)) == j
  {
  }

  /** The formatted page, in order. */
  function AllToJson(rs: seq<Resource>): (js: seq<ResourceJson>)
    ensures |js| == |rs|
  {
    seq(|rs|, i requires 0 <= i < |rs| => ToJson(rs[i]))
  }

  /** Each response entry is its resource's fields: it reads back as the
      resource, and `processedTime` and `aiSummary` are null exactly when
      they are absent in storage. */
  lemma AllToJsonFaithful(rs: seq<Resource>)
    ensures forall i :: 0 <= i < |rs| ==> FromJson(AllToJson(rs)[i]) == rs[i]
    ensures forall i :: 0 <= i < |rs| ==>
              (AllToJson(rs)[i].processedTime.None? <==> rs[i].metadata.processedTime.None?)
              && (AllToJson(rs)[i].aiSummary.None? <==> rs[i].aiSummary.None?)
  {
  }

  /** The formatting loop of the listing endpoints. */
  method FormatPage(page: seq<Resource>) returns (formatted: seq<ResourceJson>)
    ensures formatted == AllToJson(page)
  {
    formatted := [];
    var i := 0;
    while i < |page|
      invariant 0 <= i <= |page|
      invariant formatted == AllToJson(page[..i])
    {
      formatted := formatted + [ToJson(page[i])];
      i := i + 1;
    }
    assert page[..i] == page;
  }

  /** A page of a listing before formatting. */
  datatype Page = Page(resources: seq<Resource>, totalCount: nat, hasMore: bool)

  // ---------------------------------------------------------------------
  // A processed document
  // ---------------------------------------------------------------------

  /** How much of a processed document is kept as its text. */
  const CONTENT_LIMIT: nat := 500

  /** The resource a processed document is stored as: COMPLETED, all three
      timestamps the processing instant, key and uid numbered `n` (the
      store's length plus one), FHIR R4, the first 500 characters of the
      document, and the given summary. */
  function IngestedResource(patientId: string, resourceType: string, content: string,
                            n: nat, now: int, summary: string): Resource
  {
    Resource(
      Metadata(COMPLETED, now, now, Some(now),
        Identifier(ResourceKey(patientId, n), UidFor(n), patientId),
        resourceType, FHIR_R4),
      Take(content, CONTENT_LIMIT),
      Some(summary))
  }

  /** The stored document is well-formed and COMPLETED with equal
      timestamps; its key reads back as the patient and `n`, its uid as
      `n`; its text is a prefix of the document, the whole document when
      that has at most 500 characters and 500 characters otherwise. */
  lemma IngestedResourceFacts(patientId: string, resourceType: string, content: string,
                              n: nat, now: int, summary: string)
    ensures var r := IngestedResource(patientId, resourceType, content, n, now, summary);
            && WellFormed(r)
            && r.metadata.state == COMPLETED && r.metadata.version == FHIR_R4
            && r.metadata.createdTime == r.metadata.fetchTime == now
            && r.metadata.processedTime == Some(now)
            && r.PatientId() == patientId && r.metadata.resourceType == resourceType
            && ParseKey(r.Key()) == Some(KeyParts(patientId, n))
            && DigitsValue(r.Uid()) == n
            && r.humanReadableStr <= content
            && |r.humanReadableStr| == (if |content| <= CONTENT_LIMIT then |content| else CONTENT_LIMIT)
            && r.aiSummary == Some(summary)
  {
    KeyRoundTrip(patientId, n);
    ZeroPadRoundTrip(n, 4);
  }

  // ---------------------------------------------------------------------
  // The store invariant
  // ---------------------------------------------------------------------

  /** What every store built from generated batches and processed
      documents keeps: every resource well-formed, every key numbered
      (so keys are unique). */
  predicate StoreInvariant(rs: seq<Resource>)
  {
    (forall j :: 0 <= j < |rs| ==> WellFormed(rs[j])) && KeysNumbered(rs) && KeysUnique(rs)
  }

  /** Appending a processed document numbered after the store keeps the
      invariant: its key's number exceeds every number already stored, so
      no key repeats. */
  lemma IngestKeepsInvariant(rs: seq<Resource>, patientId: string, resourceType: string, content: string,
                             now: int, summary: string)
    requires StoreInvariant(rs)
    ensures StoreInvariant(rs + [IngestedResource(patientId, resourceType, content, |rs| + 1, now, summary)])
  {
    var r := IngestedResource(patientId, resourceType, content, |rs| + 1, now, summary);
    IngestedResourceFacts(patientId, resourceType, content, |rs| + 1, now, summary);
    AppendNumberedKeepsInvariant(rs, r);
  }

  /** Appending a well-formed resource whose key reads back as its own
      patient and the number `|rs| + 1` keeps the invariant. */
  lemma AppendNumberedKeepsInvariant(rs: seq<Resource>, r: Resource)
    requires StoreInvariant(rs)
    requires WellFormed(r) && ParseKey(r.Key()) == Some(KeyParts(r.PatientId(), |rs| + 1))
    ensures StoreInvariant(rs + [r])
  {
    var s := rs + [r];
    assert forall j :: 0 <= j < |rs| ==> s[j] == rs[j];
    assert s[|rs|] == r;
    forall j, k | 0 <= j < k < |s| ensures s[j].Key() != s[k].Key() {
      if k == |rs| {
        var parts := ParseKey(rs[j].Key());
        assert parts.value.number <= j + 1;
      }
    }
  }
}
