/** Properties of the whole fetch pipeline, stated on the specification
    functions the service's methods are proved against. */
module PipelineProperties {
  import opened Records
  import opened Labels
  import opened Transform
  import opened QueryParameters
  import opened Service

  /** Without advertisements (including a null body) no job comes out, whatever the limit. */
  lemma NoAdvertisementsNoJobs(limit: nat, body: Option<Response>)
    requires WellFormedBody(body)
    requires Advertisements(body) == []
    ensures PreLimitJobs(body) == []
    ensures Pipeline(limit, body) == []
  {
  }

  /** A positive limit keeps the first min(limit, n) jobs; a limit of 0 keeps all. */
  lemma LimitKeepsPrefix(limit: nat, body: Option<Response>)
    requires WellFormedBody(body)
    ensures var jobs := PreLimitJobs(body);
      && (limit > 0 ==> Pipeline(limit, body) == jobs[..Min(limit, |jobs|)])
      && (limit == 0 ==> Pipeline(limit, body) == jobs)
  {
  }

  /** The jobs that leave the pipeline before the limit are exactly the
      advertisements whose raw code `c` is an option id of `custom_field1` and
      whose label `L[c]` is itself an option id, in their original order and
      each once; each comes out with `custom_field1` set to `L[c]` and
      `relationName` set to `L[L[c]]`. */
  lemma {:induction false} Survivors(body: Option<Response>)
    requires WellFormedBody(body)
    ensures var ads := Advertisements(body);
      var options := OptionsOf(body, CustomField1);
      var labels := LabelMap(options);
      var idx := Matching(MapFields(ads, CustomField1, labels), labels);
      var jobs := PreLimitJobs(body);
      && (forall a, b :: 0 <= a < b < |idx| ==> idx[a] < idx[b])
      && (forall i :: 0 <= i < |ads| ==>
            (i in idx <==> ads[i][CustomField1] in Ids(options) && labels[ads[i][CustomField1]] in Ids(options)))
      && |jobs| == |idx|
      && forall k :: 0 <= k < |idx| ==>
           && idx[k] < |ads|
           && var code := ads[idx[k]][CustomField1];
           && code in labels && labels[code] in labels
           && jobs[k] == ads[idx[k]][CustomField1 := labels[code]][RelationName := labels[labels[code]]]
  {
    var ads := Advertisements(body);
    var labels := LabelMap(OptionsOf(body, CustomField1));
    var mapped := MapFields(ads, CustomField1, labels);
    var idx := Matching(mapped, labels);
    assert Relations(body) == labels;
    forall i | 0 <= i < |ads|
      ensures mapped[i][CustomField1] in labels <==>
                ads[i][CustomField1] in labels && labels[ads[i][CustomField1]] in labels
    {
      assert mapped[i] == Relabel(ads[i], CustomField1, labels);
    }
    forall i | 0 <= i < |ads|
      ensures i in idx <==> mapped[i][CustomField1] in labels
    {
      if i in idx {
        var k :| 0 <= k < |idx| && idx[k] == i;
      }
    }
    if ads == [] {
      assert idx == [];
    }
  }

  /** When no job's `custom_field1` is a relation key, grouping returns nothing. */
  lemma {:induction false} NoMatchNoGroup(jobs: seq<Job>, relations: map<string, string>)
    requires CarriesField(jobs, CustomField1)
    requires forall i :: 0 <= i < |jobs| ==> jobs[i][CustomField1] !in relations
    ensures Grouped(jobs, relations) == []
  {
    if jobs != [] {
      NoMatchNoGroup(jobs[..|jobs| - 1], relations);
    }
  }

  /** A job whose raw code is not an option id never survives. */
  lemma UnknownCodeDropped(body: Option<Response>, i: int)
    requires WellFormedBody(body)
    requires 0 <= i < |Advertisements(body)|
    requires Advertisements(body)[i][CustomField1] !in Ids(OptionsOf(body, CustomField1))
    ensures var labels := LabelMap(OptionsOf(body, CustomField1));
      i !in Matching(MapFields(Advertisements(body), CustomField1, labels), labels)
  {
    Survivors(body);
  }

  /** Three advertisements coded A, B, A with options A -> Remote and B -> Onsite. */
  const ExampleAds: seq<Job> := [map[CustomField1 := "A"], map[CustomField1 := "B"], map[CustomField1 := "A"]]
  const ExampleOptions := [FieldOption("A", "Remote"), FieldOption("B", "Onsite")]
  const ExampleBody := Some(Response(ExampleAds, map[CustomField1 := ExampleOptions]))

  lemma ExampleRelations()
    ensures Relations(ExampleBody) == map["A" := "Remote", "B" := "Onsite"]
  {
    assert OptionsOf(ExampleBody, CustomField1) == ExampleOptions;
    assert ExampleOptions[..1] == [FieldOption("A", "Remote")];
    assert ExampleOptions[..1][..0] == [];
  }

  /** Relabelling first turns the codes into labels, so grouping finds no
      match and no job comes out of the example. */
  lemma MappingBeforeGroupingExample()
    ensures WellFormedBody(ExampleBody)
    ensures PreLimitJobs(ExampleBody) == []
    ensures Pipeline(2, ExampleBody) == []
  {
    ExampleRelations();
    var labels := Relations(ExampleBody);
    assert Advertisements(ExampleBody) == ExampleAds;
    var mapped := MapFields(ExampleAds, CustomField1, labels);
    forall i | 0 <= i < |mapped| ensures mapped[i][CustomField1] !in labels {
      var code := ExampleAds[i][CustomField1];
      assert code == "A" || code == "B";
      assert mapped[i][CustomField1] == labels[code];
    }
    NoMatchNoGroup(mapped, labels);
  }

  /** Grouping the raw codes instead would keep all three jobs, two after the limit. */
  lemma GroupingRawCodesExample()
    ensures |Grouped(ExampleAds, Relations(ExampleBody))| == 3
    ensures |Slice(Grouped(ExampleAds, Relations(ExampleBody)), 2)| == 2
  {
    ExampleRelations();
    var labels := Relations(ExampleBody);
    var ads1 := ExampleAds[..2][..1];
    assert ads1 == [map[CustomField1 := "A"]] && ads1[..0] == [];
    assert |Grouped(ads1, labels)| == 1;
    assert |Grouped(ExampleAds[..2], labels)| == 2;
  }

  /** Two fetches on one service: the first succeeds with `body`, the second
      request throws. The second fetch logs exactly one error and returns the
      jobs of the first call's body. */
  method StaleBodyReused(first: Settings, second: Settings, body: Response, reason: string)
    returns (jobs: seq<Job>, log: seq<string>)
    requires WellFormedBody(Some(body))
    ensures jobs == Pipeline(second.limit, Some(body))
    ensures log == [FetchError(reason)]
  {
    var service := new BiteJobsService();
    var _ := service.FetchBiteJobs(first, _ => Fetched(Some(body)));
    jobs := service.FetchBiteJobs(second, _ => Failed(reason));
    log := service.errorLog;
  }
}
