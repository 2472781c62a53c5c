/** The job service: it fetches advertisements, relabels their category code,
    groups them by relation and applies the limit. The last decoded response
    body is kept on the service object between calls. */
module Service {
  import opened Records
  import opened Labels
  import opened Transform
  import opened QueryParameters

  /** The outcome of requesting the job-board API: a body that `json_decode`
      turned into a response (or into null), or an exception with its message. */
  datatype FetchOutcome = Fetched(decoded: Option<Response>) | Failed(reason: string)

  predicate WellFormedOutcome(outcome: FetchOutcome)
  {
    outcome.Fetched? ==> WellFormedBody(outcome.decoded)
  }

  /** The message logged when the request throws. */
  function FetchError(reason: string): string
  {
    "Error while fetching jobs from Bite API: " + reason
  }

  /** The relation map of a body: the labels of `custom_field1`'s options. */
  function Relations(body: Option<Response>): map<string, string>
  {
    LabelMap(OptionsOf(body, CustomField1))
  }

  /** The jobs before the limit: none without advertisements, otherwise the
      advertisements relabelled at `custom_field1` and then grouped. */
  function PreLimitJobs(body: Option<Response>): seq<Job>
    requires WellFormedBody(body)
  {
    var ads := Advertisements(body);
    if ads == [] then []
    else Grouped(MapFields(ads, CustomField1, Relations(body)), Relations(body))
  }

  /** What a fetch returns for a given limit once `body` is the response body. */
  function Pipeline(limit: nat, body: Option<Response>): seq<Job>
    requires WellFormedBody(body)
  {
    var jobs := PreLimitJobs(body);
    if limit != 0 then Slice(jobs, limit) else jobs
  }

  class BiteJobsService {
    /** The last decoded response body; null until a request succeeds. */
    var responseBody: Option<Response>
    /** The messages sent to the logger's error sink, oldest first. */
    var errorLog: seq<string>

    ghost predicate Valid()
      reads this
    {
      WellFormedBody(responseBody)
    }

    constructor ()
      ensures Valid()
      ensures responseBody == None && errorLog == []
    {
      responseBody := None;
      errorLog := [];
    }

    /** Fetches the jobs for `settings`. `request` stands for the HTTP request
        and the decoding of its body, given the query parameters. A thrown
        request is logged and leaves the previous response body in place. */
    method FetchBiteJobs(settings: Settings, request: Parameters -> FetchOutcome) returns (jobs: seq<Job>)
      requires Valid()
      requires WellFormedOutcome(request(BuildParameters(settings)))
      modifies this
      ensures Valid()
      ensures var outcome := request(BuildParameters(settings));
        && responseBody == (if outcome.Fetched? then outcome.decoded else old(responseBody))
        && errorLog == old(errorLog) + (if outcome.Failed? then [FetchError(outcome.reason)] else [])
      ensures jobs == Pipeline(settings.limit, responseBody)
    {
      var parameters := BuildParameters(settings);
      jobs := [];
      var outcome := request(parameters);
      match outcome {
        case Fetched(decoded) =>
          responseBody := decoded;
        case Failed(reason) =>
          errorLog := errorLog + [FetchError(reason)];
      }
      var advertisements := Advertisements(responseBody);
      if advertisements != [] {
        jobs := MapFieldsToJobs(advertisements, CustomField1);
        jobs := GroupByRelations(jobs);
      }
      if settings.limit != 0 {
        jobs := jobs[..Min(settings.limit, |jobs|)];
      }
    }

    /** The relation map: `custom_field1`'s option ids mapped to their labels. */
    method FindCustomJobRelations() returns (fields: map<string, string>)
      ensures fields == Relations(responseBody)
      ensures fields.Keys == Ids(OptionsOf(responseBody, CustomField1))
    {
      fields := map[];
      if responseBody.Some? && CustomField1 in responseBody.value.fields {
        var options := responseBody.value.fields[CustomField1];
        for i := 0 to |options|
          invariant fields == LabelMap(options[..i])
        {
          assert options[..i + 1][..i] == options[..i];
          fields := fields[options[i].id := options[i].text];
        }
        assert options[..|options|] == options;
      }
    }

    /** The labels of field `item`'s options, keyed by option id; empty when
        the body holds no options for `item`. */
    method FindCustomBiteFieldLabelsFromOptions(item: string) returns (fields: map<string, string>)
      ensures fields == LabelMap(OptionsOf(responseBody, item))
      ensures fields.Keys == Ids(OptionsOf(responseBody, item))
      ensures (responseBody.None? || item !in responseBody.value.fields) ==> fields == map[]
    {
      fields := map[];
      if responseBody.Some? && item in responseBody.value.fields {
        var options := responseBody.value.fields[item];
        for i := 0 to |options|
          invariant fields == LabelMap(options[..i])
        {
          assert options[..i + 1][..i] == options[..i];
          fields := fields[options[i].id := options[i].text];
        }
        assert options[..|options|] == options;
      }
    }

    /** The jobs whose `custom_field1` is a relation key, in order, each with
        `relationName` set to that key's label. */
    method GroupByRelations(jobs: seq<Job>) returns (grouped: seq<Job>)
      requires CarriesField(jobs, CustomField1)
      ensures grouped == Grouped(jobs, Relations(responseBody))
    {
      grouped := [];
      var biteRelations := FindCustomJobRelations();
      for i := 0 to |jobs|
        invariant grouped == Grouped(jobs[..i], biteRelations)
      {
        assert jobs[..i + 1][..i] == jobs[..i];
        var job := jobs[i];
        var code := jobs[i][CustomField1];
        ghost var before := grouped;
        var pending := biteRelations.Keys;
        while pending != {}
          invariant pending <= biteRelations.Keys
          invariant code in biteRelations && code !in pending ==>
            job == Tag(jobs[i], biteRelations[code]) && grouped == before + [job]
          invariant !(code in biteRelations && code !in pending) ==> job == jobs[i] && grouped == before
          decreases pending
        {
          var relationKey :| relationKey in pending;
          if relationKey == job[CustomField1] {
            job := job[RelationName := biteRelations[relationKey]];
            grouped := grouped + [job];
          }
          pending := pending - {relationKey};
        }
      }
      assert jobs[..|jobs|] == jobs;
    }

    /** The jobs, in order, with the value of `customFieldName` replaced by its
        label wherever it is an option id of that field. */
    method MapFieldsToJobs(jobs: seq<Job>, customFieldName: string) returns (grouped: seq<Job>)
      requires CarriesField(jobs, customFieldName)
      ensures grouped == MapFields(jobs, customFieldName, LabelMap(OptionsOf(responseBody, customFieldName)))
      ensures |grouped| == |jobs|
    {
      grouped := [];
      var field := FindCustomBiteFieldLabelsFromOptions(customFieldName);
      for i := 0 to |jobs|
        invariant grouped == MapFields(jobs[..i], customFieldName, field)
      {
        assert jobs[..i + 1][..i] == jobs[..i];
        var job := jobs[i];
        if job[customFieldName] in field {
          job := job[customFieldName := field[job[customFieldName]]];
        }
        grouped := grouped + [job];
      }
      assert jobs[..|jobs|] == jobs;
    }
  }
}
