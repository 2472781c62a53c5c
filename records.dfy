/** The values that flow through the job service: job records as the remote
    job-board API returns them, the decoded response and its field schema. */
module Records {

  /** The usual Some/None wrapper; None stands for PHP's null. */
  datatype Option<+T> = None | Some(value: T)

  /** One advertisement: a mapping from attribute name to value.
      Values are modelled as strings compared by equality; PHP turns numeric
      string ids into integer array keys, which this model does not capture. */
  type Job = map<string, string>

  /** The custom field that jobs are grouped by. */
  const CustomField1 := "custom_field1"

  /** The attribute attached to every grouped job. */
  const RelationName := "relationName"

  /** One entry of a field's `options` list: its `id` and its `label` (`text` here,
      because `label` is a keyword of Dafny). */
  datatype FieldOption = FieldOption(id: string, text: string)

  /** The decoded response body. An absent `advertisements` key is the empty
      sequence; a field is a key of `fields` exactly when its `options` is set. */
  datatype Response = Response(advertisements: seq<Job>, fields: map<string, seq<FieldOption>>)

  /** The advertisements of a (possibly null) body; none when the body is null. */
  function Advertisements(body: Option<Response>): seq<Job>
  {
    if body.Some? then body.value.advertisements else []
  }

  /** `responseBody['fields'][item]['options']`, or nothing when it is not set. */
  function OptionsOf(body: Option<Response>, item: string): seq<FieldOption>
  {
    if body.Some? && item in body.value.fields then body.value.fields[item] else []
  }

  /** Every job carries attribute `name`. */
  predicate CarriesField(jobs: seq<Job>, name: string)
  {
    forall i :: 0 <= i < |jobs| ==> name in jobs[i]
  }

  /** A body whose advertisements all carry `custom_field1`. */
  predicate WellFormedBody(body: Option<Response>)
  {
    CarriesField(Advertisements(body), CustomField1)
  }
}
