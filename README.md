# BiteJobsService, modelled in Dafny

`BiteJobsService` fetches job advertisements from the B-ITE job-board API
and prepares them for display. The settings of a content element go in. The
service builds a query from them and requests the API. It then replaces each
job's `custom_field1` code by the label of the matching option. Next it keeps
only the jobs whose `custom_field1` is a relation key, tagging each with
`relationName`. Last, it cuts the list to the configured limit. The decoded
response body is stored in the field `responseBody` and survives between
calls. The error logger receives one message when the request throws.

The model has six modules:

- `Records` (records.dfy): jobs (`map<string, string>`), field options, the
  decoded response, and the `Option` used for PHP's null.
- `Labels` (labels.dfy): `LabelMap`, the id-to-label map folded from an
  `options` list, with its lemmas.
- `Transform` (transform.dfy): relabelling (`Relabel`, `MapFields`), grouping
  (`Matching`, `Grouped`) and `array_slice` (`Slice`), as functions on values.
- `QueryParameters` (query.dfy): the settings record and the structured
  parameter map, with a read-back function and a round trip.
- `Service` (service.dfy): class `BiteJobsService`. It has the fields
  `responseBody` and `errorLog` (the logger's error sink). Its methods run the
  source's loops and are proved equal to the functions above. `Pipeline` is the
  specification of one fetch.
- `PipelineProperties` (pipeline.dfy): properties of the whole pipeline,
  including the cross-call reuse of a stale body.

Behaviour the model keeps exactly as the code has it:

- A request that throws leaves `responseBody` unchanged. The next grouping
  therefore works on the previous call's advertisements (`StaleBodyReused`).
- A body that `json_decode` cannot decode is not an exception. It sets
  `responseBody` to null and logs nothing, so the call returns no jobs.
- Relabelling runs before grouping, and grouping compares against the raw
  option ids. A job survives only when its label is itself an option id
  (`Survivors`). With codes A, B, A and labels Remote and Onsite, no job
  survives (`MappingBeforeGroupingExample`). Grouping the raw codes would have
  kept three (`GroupingRawCodesExample`).
- Relation keys are unique, so each input job is emitted at most once.

## Model

| member | source | states |
|---|---|---|
| `Labels.LabelMap` | Classes/Services/BiteJobsService.php:119-126 | the keys of the label map are exactly the ids of the options |
| `Labels.LabelMapLastWins` | Classes/Services/BiteJobsService.php:122-124 | an id maps to the label of the last option bearing that id |
| `Labels.LabelMapFromOptions` | Classes/Services/BiteJobsService.php:122-124 | every entry of the label map is the id and label of some option |
| `Transform.Relabel` | Classes/Services/BiteJobsService.php:160-162 | a relabelled job has the same keys and differs only at the field; the value becomes its label exactly when it is a label-map key, otherwise the job is unchanged |
| `Transform.MapFields` | Classes/Services/BiteJobsService.php:159-165 | one output job per input job, in order, the i-th being the i-th input relabelled; every output job still carries the field |
| `Transform.Matching` | Classes/Services/BiteJobsService.php:138-145 | the positions of the jobs whose `custom_field1` is a relation key: strictly increasing, all in range, and every matching position is present |
| `Transform.Grouped` | Classes/Services/BiteJobsService.php:138-145 | the grouped jobs are the matching jobs in order, the k-th being the k-th matching input tagged with the relation of its key |
| `Transform.GroupedCarriesRelation` | Classes/Services/BiteJobsService.php:139-143 | a grouped job keeps its `custom_field1`, which is a relation key, has `relationName` equal to that key's relation, and agrees with its input job on every other attribute |
| `Transform.Slice` | Classes/Services/BiteJobsService.php:91 | `array_slice(jobs, 0, n)` is the prefix of length min(n, number of jobs) |
| `QueryParameters.FilterValue` | Classes/Services/BiteJobsService.php:50-55 | a parameter read as a filter value has exactly the shape `{filter: {enable: true, value: v}}` |
| `QueryParameters.BuildParameters` | Classes/Services/BiteJobsService.php:42-67 | the parameter map holds `apikey`, `channel` 0, the three columns, the enabled language filter, `order` and `sort` from the settings; it has a `custom_field1` filter if and only if the setting is not "all", and then its value is the setting |
| `QueryParameters.FilterRoundTrip` | Classes/Services/BiteJobsService.php:61-66 | a filter parameter reads back as the value it was built from |
| `QueryParameters.ParametersRoundTrip` | Classes/Services/BiteJobsService.php:42-67 | reading the parameter map back recovers every setting except the limit, "all" included |
| `QueryParameters.ParametersInjective` | Classes/Services/BiteJobsService.php:42-67 | settings with the same limit and the same parameter map are equal |
| `Service.BiteJobsService.constructor` | Classes/Services/BiteJobsService.php:21-26 | a new service has a null response body and an empty error log |
| `Service.BiteJobsService.FetchBiteJobs` | Classes/Services/BiteJobsService.php:42-94 | the request is made with the built parameters. A decoded body (or null) replaces `responseBody`. A thrown request keeps the old body and appends exactly the message "Error while fetching jobs from Bite API: " + reason. The result is `Pipeline(limit, responseBody)` |
| `Service.BiteJobsService.FindCustomJobRelations` | Classes/Services/BiteJobsService.php:100-110 | the relation map is the label map of `custom_field1`'s options, i.e. the generic map for "custom_field1"; its keys are those option ids |
| `Service.BiteJobsService.FindCustomBiteFieldLabelsFromOptions` | Classes/Services/BiteJobsService.php:117-127 | the result is the label map of `item`'s options; its keys are the option ids; it is empty when the body holds no options for `item` |
| `Service.BiteJobsService.GroupByRelations` | Classes/Services/BiteJobsService.php:133-148 | the nested loops compute `Grouped` of the jobs and the current relation map |
| `Service.BiteJobsService.MapFieldsToJobs` | Classes/Services/BiteJobsService.php:154-168 | the loop computes `MapFields` with the current labels of the field, keeping the number of jobs |
| `PipelineProperties.NoAdvertisementsNoJobs` | Classes/Services/BiteJobsService.php:83-87 | with no or empty advertisements, including a null body, the job list is empty before and after the limit |
| `PipelineProperties.LimitKeepsPrefix` | Classes/Services/BiteJobsService.php:89-92 | a positive limit keeps the first min(limit, n) jobs; a limit of 0 returns the jobs untouched |
| `PipelineProperties.Survivors` | Classes/Services/BiteJobsService.php:83-87 | the pre-limit jobs are, in order and each once, exactly the advertisements whose code c is an option id and whose label L[c] is an option id; each comes out with `custom_field1` = L[c] and `relationName` = L[L[c]] |
| `PipelineProperties.NoMatchNoGroup` | Classes/Services/BiteJobsService.php:138-145 | when no job's `custom_field1` is a relation key, grouping returns nothing |
| `PipelineProperties.UnknownCodeDropped` | Classes/Services/BiteJobsService.php:85-86 | an advertisement whose code is not an option id never survives |
| `PipelineProperties.ExampleRelations` | Classes/Services/BiteJobsService.php:104-108 | the example options give the relation map A to Remote, B to Onsite |
| `PipelineProperties.MappingBeforeGroupingExample` | Classes/Services/BiteJobsService.php:85-86 | with codes A, B, A and labels Remote and Onsite, the pipeline returns no job |
| `PipelineProperties.GroupingRawCodesExample` | Classes/Services/BiteJobsService.php:138-145 | grouping the same raw codes instead keeps three jobs, two after a limit of 2 |
| `PipelineProperties.StaleBodyReused` | Classes/Services/BiteJobsService.php:73-82 | after a successful fetch, a fetch whose request throws logs exactly one error and returns the jobs of the first call's body |

## Left out

- TYPO3 plumbing: the request, the content-object lookup and FlexForm parsing (lines 34-40, 170-173). These are framework calls. The `jobs` settings record is an input instead.
- The HTTP transport and URL encoding (lines 71, 74). These are library calls. The query stays a structured map. The parameter `request` of `FetchBiteJobs` stands for requesting and decoding, given that map.
- `json_decode` (line 76) is abstract: a decoded `Response`, or null. JSON values that decode to something other than an object with `advertisements` and `fields` are not modelled. A field schema without `options` is a field missing from `fields`.
- Logger levels and formatting: `errorLog` holds only the message strings.
- Throwables that are not `\Exception` (PHP `Error`) would escape the `catch`. They are not modelled.
- PHP array-key coercion: a numeric-string option id becomes an integer key. That key then never matches a string code under the strict `===` of line 140. The model compares ids as strings.
- Service.BiteJobsService.MapFieldsToJobs: requires every job to carry the field. PHP would warn on a missing key and look up null instead.
- Service.BiteJobsService.GroupByRelations: requires every job to carry `custom_field1`, for the same reason. `Valid()` keeps this true of the stored body.
- Service.BiteJobsService.FetchBiteJobs: every setting is a string, and absent settings are not modelled. PHP would read null, and `http_build_query` would drop it. The limit is a natural number: 0 stands for every value `empty()` accepts. A non-numeric limit casts to 0 and gives an empty slice; a negative limit drops jobs from the end. Neither is modelled.
- Service.BiteJobsService.GroupByRelations: the inner loop visits the relation keys in an unspecified order, not PHP's insertion order. At most one key can match a job, so the result is the same.
