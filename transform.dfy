/** The per-job transformations of the pipeline, as functions on values:
    relabelling a custom field, grouping by relation, and slicing. */
module Transform {
  import opened Records

  /** A job whose `name` value, when it is a key of `labels`, is replaced by its label. */
  function Relabel(job: Job, name: string, labels: map<string, string>): (r: Job)
    requires name in job
    ensures r.Keys == job.Keys
    ensures forall k :: k in job && k != name ==> r[k] == job[k]
    ensures job[name] in labels ==> r[name] == labels[job[name]]
    ensures job[name] !in labels ==> r == job
  {
    if job[name] in labels then job[name := labels[job[name]]] else job
  }

  /** The jobs, in order, each relabelled at `name`: one output job per input job. */
  function MapFields(jobs: seq<Job>, name: string, labels: map<string, string>): (r: seq<Job>)
    requires CarriesField(jobs, name)
    ensures |r| == |jobs|
    ensures forall i :: 0 <= i < |jobs| ==> r[i] == Relabel(jobs[i], name, labels)
    ensures CarriesField(r, name)
  {
    if jobs == [] then []
    else
      var n := |jobs| - 1;
      MapFields(jobs[..n], name, labels) + [Relabel(jobs[n], name, labels)]
  }

  /** A job with `relationName` attached. */
  function Tag(job: Job, relation: string): Job
  {
    job[RelationName := relation]
  }

  /** The positions, in increasing order, of the jobs whose `custom_field1` is a
      relation key: exactly those positions, each once. */
  function Matching(jobs: seq<Job>, relations: map<string, string>): (idx: seq<nat>)
    requires CarriesField(jobs, CustomField1)
    ensures forall k :: 0 <= k < |idx| ==> idx[k] < |jobs| && jobs[idx[k]][CustomField1] in relations
    ensures forall a, b :: 0 <= a < b < |idx| ==> idx[a] < idx[b]
    ensures forall i :: 0 <= i < |jobs| && jobs[i][CustomField1] in relations ==> i in idx
  {
    if jobs == [] then []
    else
      var n := |jobs| - 1;
      Matching(jobs[..n], relations) + (if jobs[n][CustomField1] in relations then [n] else [])
  }

  /** The jobs whose `custom_field1` equals a relation key, in order, each tagged
      with that key's relation: the k-th output is the k-th matching job. */
  function Grouped(jobs: seq<Job>, relations: map<string, string>): (r: seq<Job>)
    requires CarriesField(jobs, CustomField1)
    ensures var idx := Matching(jobs, relations);
      && |r| == |idx|
      && forall k :: 0 <= k < |idx| ==>
           r[k] == Tag(jobs[idx[k]], relations[jobs[idx[k]][CustomField1]])
  {
    if jobs == [] then []
    else
      var n := |jobs| - 1;
      var job := jobs[n];
      Grouped(jobs[..n], relations)
        + (if job[CustomField1] in relations then [Tag(job, relations[job[CustomField1]])] else [])
  }

  /** Every grouped job keeps its relation key in `custom_field1` and carries that
      key's relation in `relationName`; it is a matching input job in all other
      attributes. */
  lemma GroupedCarriesRelation(jobs: seq<Job>, relations: map<string, string>, k: int)
    requires CarriesField(jobs, CustomField1)
    requires 0 <= k < |Grouped(jobs, relations)|
    ensures var job := Grouped(jobs, relations)[k];
      var source := jobs[Matching(jobs, relations)[k]];
      && CustomField1 in job && job[CustomField1] == source[CustomField1]
      && job[CustomField1] in relations
      && RelationName in job && job[RelationName] == relations[job[CustomField1]]
      && job.Keys == source.Keys + {RelationName}
      && forall a :: a in source && a != RelationName ==> job[a] == source[a]
  {
  }

  /** The minimum of two naturals. */
  function Min(a: nat, b: nat): nat
  {
    if a <= b then a else b
  }

  /** `array_slice(jobs, 0, length)` for a non-negative length: the prefix of
      `jobs` holding `length` entries, or all of them when there are fewer. */
  function Slice<T>(jobs: seq<T>, length: nat): (r: seq<T>)
    ensures |r| == Min(length, |jobs|)
    ensures r == jobs[..|r|]
  {
    if length < |jobs| then jobs[..length] else jobs
  }
}
