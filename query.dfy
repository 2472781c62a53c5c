/** The query parameters sent to the job-board API, built from the job
    settings of the content element, as a structured (not yet URL-encoded) map. */
module QueryParameters {
  import opened Records

  /** The `jobs` settings of the content element. A `limit` of 0 stands for
      every value PHP's `empty()` accepts (absent, "", "0"). */
  datatype Settings = Settings(
    jobListingKey: string,
    language: string,
    sortBy: string,
    sortingDirection: string,
    customField1: string,
    limit: nat)

  /** A parameter value: the nested PHP array handed to `http_build_query`. */
  datatype Param =
    | Text(text: string)
    | Number(number: int)
    | Flag(flag: bool)
    | List(items: seq<Param>)
    | Record(entries: map<string, Param>)

  type Parameters = map<string, Param>

  /** The category setting that asks for every category, i.e. for no filter. */
  const AllCategories := "all"

  /** The columns requested from the API. */
  const Columns := [Text("title"), Text("description"), Text("jobSite")]

  /** `{filter: {enable: true, value: value}}`. */
  function EnabledFilter(value: string): Param
  {
    Record(map["filter" := Record(map["enable" := Flag(true), "value" := Text(value)])])
  }

  /** The value of a parameter of exactly the shape `{filter: {enable: true, value: v}}`. */
  function FilterValue(p: Param): (v: Option<string>)
    ensures v.Some? ==> p == EnabledFilter(v.value)
  {
    if p.Record? && p.entries.Keys == {"filter"} && p.entries["filter"].Record? then
      var inner := p.entries["filter"].entries;
      if inner.Keys == {"enable", "value"} && inner["enable"] == Flag(true) && inner["value"].Text? then
        assert inner == map["enable" := Flag(true), "value" := inner["value"]];
        assert p.entries == map["filter" := p.entries["filter"]];
        Some(inner["value"].text)
      else None
    else None
  }

  /** The parameter map of a job query. */
  function BuildParameters(settings: Settings): (parameters: Parameters)
    ensures parameters.Keys == {"apikey", "channel", "columns", "language", "order", "sort"}
                               + (if settings.customField1 != AllCategories then {"custom_field1"} else {})
    ensures parameters["apikey"] == Text(settings.jobListingKey)
    ensures parameters["channel"] == Number(0)
    ensures parameters["columns"] == List(Columns)
    ensures parameters["language"] == EnabledFilter(settings.language)
    ensures parameters["order"] == Text(settings.sortingDirection)
    ensures parameters["sort"] == Text(settings.sortBy)
    ensures "custom_field1" in parameters <==> settings.customField1 != AllCategories
    ensures "custom_field1" in parameters ==> parameters["custom_field1"] == EnabledFilter(settings.customField1)
  {
    var base := map[
      "apikey" := Text(settings.jobListingKey),
      "channel" := Number(0),
      "columns" := List(Columns),
      "language" := EnabledFilter(settings.language),
      "order" := Text(settings.sortingDirection),
      "sort" := Text(settings.sortBy)
    ];
    if settings.customField1 != AllCategories then
      base["custom_field1" := EnabledFilter(settings.customField1)]
    else
      base
  }

  /** The settings a parameter map asks for, read back from it; a missing
      `custom_field1` entry reads as "all". The limit is not part of the query. */
  function ReadSettings(parameters: Parameters, limit: nat): Option<Settings>
  {
    if && "apikey" in parameters && parameters["apikey"].Text?
       && "language" in parameters && FilterValue(parameters["language"]).Some?
       && "order" in parameters && parameters["order"].Text?
       && "sort" in parameters && parameters["sort"].Text?
    then
      var category :=
        if "custom_field1" in parameters then FilterValue(parameters["custom_field1"])
        else Some(AllCategories);
      if category.Some? then
        Some(Settings(
          parameters["apikey"].text,
          FilterValue(parameters["language"]).value,
          parameters["sort"].text,
          parameters["order"].text,
          category.value,
          limit))
      else None
    else None
  }

  /** A filter parameter reads back as the value it was built from. */
  lemma FilterRoundTrip(value: string)
    ensures FilterValue(EnabledFilter(value)) == Some(value)
  {
    var inner := map["enable" := Flag(true), "value" := Text(value)];
    assert inner.Keys == {"enable", "value"};
    assert EnabledFilter(value).entries.Keys == {"filter"};
  }

  /** The query carries every setting but the limit: reading it back recovers them. */
  lemma {:induction false} ParametersRoundTrip(settings: Settings)
    ensures ReadSettings(BuildParameters(settings), settings.limit) == Some(settings)
  {
    FilterRoundTrip(settings.language);
    FilterRoundTrip(settings.customField1);
  }

  /** Different settings with the same limit give different queries. */
  lemma {:induction false} ParametersInjective(s1: Settings, s2: Settings)
    requires s1.limit == s2.limit
    requires BuildParameters(s1) == BuildParameters(s2)
    ensures s1 == s2
  {
    ParametersRoundTrip(s1);
    ParametersRoundTrip(s2);
  }
}
