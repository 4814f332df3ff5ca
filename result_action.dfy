/** The project action `LoadResultProjectAction`: it collects the load-result ids
    of the project's builds, asks the result store for those results with an
    ids query, and writes them back as run informations for the trend chart. */
module ResultAction {
  import opened Wrappers
  import opened JavaText
  import opened JavaExceptions
  import opened Aggregation

  /** The `LoadTestdResultBuildAction` of a build, with its possibly null result id. */
  datatype LoadTestdResultBuildAction = LoadTestdResultBuildAction(loadResultId: Option<string>)

  /** A build, reduced to what `getAction(LoadTestdResultBuildAction.class)` returns. */
  datatype Build = Build(loadTestdResultBuildAction: Option<LoadTestdResultBuildAction>)

  /** A Jenkins run, kept only as a reference. */
  datatype RunRef = RunRef(handle: nat)

  /** The id a build contributes: its action's result id when the action exists
      and the id is neither null nor empty. */
  function ResultIdOf(build: Build): (r: Option<string>)
    ensures r.Some? <==> build.loadTestdResultBuildAction.Some?
                         && IsNotEmpty(build.loadTestdResultBuildAction.value.loadResultId)
    ensures r.Some? ==> r == build.loadTestdResultBuildAction.value.loadResultId
  {
    match build.loadTestdResultBuildAction
    case None => None
    case Some(action) => if IsNotEmpty(action.loadResultId) then action.loadResultId else None
  }

  /** The ids the builds contribute, in the builds' order, duplicates kept. */
  function ResultIds(builds: seq<Build>): (r: seq<string>)
    ensures |r| <= |builds|
    ensures forall k :: 0 <= k < |r| ==> r[k] != []
  {
    if builds == [] then []
    else
      var last := builds[|builds| - 1];
      ResultIds(builds[..|builds| - 1]) + (match ResultIdOf(last) case Some(id) => [id] case None => [])
  }

  /** Collecting over two runs of builds gives the two collections one after the
      other: the order of the builds is kept. */
  lemma {:induction false} ResultIdsAppend(a: seq<Build>, b: seq<Build>)
    ensures ResultIds(a + b) == ResultIds(a) + ResultIds(b)
    decreases |b|
  {
    if b == [] {
      assert a + b == a;
    } else {
      var init := b[..|b| - 1];
      assert (a + b)[..|a + b| - 1] == a + init;
      ResultIdsAppend(a, init);
    }
  }

  /** An id is collected exactly when some build contributes it. */
  lemma {:induction false} ResultIdsMembership(builds: seq<Build>, id: string)
    ensures id in ResultIds(builds) <==> exists i :: 0 <= i < |builds| && ResultIdOf(builds[i]) == Some(id)
  {
    if builds != [] {
      var init := builds[..|builds| - 1];
      ResultIdsMembership(init, id);
      if exists i :: 0 <= i < |init| && ResultIdOf(init[i]) == Some(id) {
        var i :| 0 <= i < |init| && ResultIdOf(init[i]) == Some(id);
        assert builds[i] == init[i];
      }
      if exists i :: 0 <= i < |builds| && ResultIdOf(builds[i]) == Some(id) {
        var i :| 0 <= i < |builds| && ResultIdOf(builds[i]) == Some(id);
        if i < |init| {
          assert init[i] == builds[i];
        }
      }
    }
  }

  /** Every build contributes at most one id, so no build is skipped or counted
      twice: the ids number exactly the builds that have one. */
  lemma {:induction false} ResultIdsCount(builds: seq<Build>)
    ensures |ResultIds(builds)| == |set i | 0 <= i < |builds| && ResultIdOf(builds[i]).Some?|
  {
    if builds != [] {
      var n := |builds| - 1;
      var init := builds[..n];
      ResultIdsCount(init);
      var before := set i | 0 <= i < n && ResultIdOf(init[i]).Some?;
      var now := set i | 0 <= i < |builds| && ResultIdOf(builds[i]).Some?;
      assert before == set i | 0 <= i < n && ResultIdOf(builds[i]).Some?;
      if ResultIdOf(builds[n]).Some? {
        assert now == before + {n};
      } else {
        assert now == before;
      }
    }
  }

  /** A JSON document, as the query is built before Jackson writes it. */
  datatype Json = JString(text: string) | JArray(items: seq<Json>) | JObject(members: map<string, Json>)

  function StringsToJson(ids: seq<string>): (r: seq<Json>)
    ensures |r| == |ids|
    ensures forall k :: 0 <= k < |ids| ==> r[k] == JString(ids[k])
  {
    seq(|ids|, k requires 0 <= k < |ids| => JString(ids[k]))
  }

  /** Writing a string in front of others writes its JSON string in front. */
  lemma StringsToJsonCons(first: string, rest: seq<string>)
    ensures StringsToJson([first] + rest) == [JString(first)] + StringsToJson(rest)
  {
    var lhs := StringsToJson([first] + rest);
    var rhs := [JString(first)] + StringsToJson(rest);
    assert |lhs| == |rhs|;
    forall k | 0 <= k < |lhs| ensures lhs[k] == rhs[k] {
      if k > 0 {
        assert ([first] + rest)[k] == rest[k - 1];
      }
    }
  }

  /** The strings of an array whose items are all strings. */
  function JsonToStrings(items: seq<Json>): (r: Option<seq<string>>)
    ensures r.Some? ==> StringsToJson(r.value) == items
  {
    if items == [] then Some([])
    else
      match (items[0], JsonToStrings(items[1..]))
      case (JString(first), Some(rest)) =>
        StringsToJsonCons(first, rest);
        assert items == [items[0]] + items[1..];
        Some([first] + rest)
      case _ => None
  }

  lemma {:induction false} JsonToStringsOfStrings(ids: seq<string>)
    ensures JsonToStrings(StringsToJson(ids)) == Some(ids)
  {
    if ids != [] {
      var items := StringsToJson(ids);
      assert items[1..] == StringsToJson(ids[1..]);
      JsonToStringsOfStrings(ids[1..]);
      assert items[0] == JString(ids[0]);
      assert [ids[0]] + ids[1..] == ids;
    }
  }

  /** Reads the ids back from a document of the shape
      `{"query": {"ids": {"values": [...]}}}` with exactly one member at each
      level; any other document has none. */
  function QueriedIds(doc: Json): Option<seq<string>> {
    if doc.JObject? && doc.members.Keys == {"query"} && doc.members["query"].JObject? then
      var query := doc.members["query"].members;
      if query.Keys == {"ids"} && query["ids"].JObject? then
        var ids := query["ids"].members;
        if ids.Keys == {"values"} && ids["values"].JArray? then JsonToStrings(ids["values"].items) else None
      else None
    else None
  }

  /** Two documents from which the same ids are read are the same document. */
  lemma QueriedIdsDetermineDocument(d1: Json, d2: Json)
    requires QueriedIds(d1).Some? && QueriedIds(d1) == QueriedIds(d2)
    ensures d1 == d2
  {
    var v1 := d1.members["query"].members["ids"].members["values"].items;
    var v2 := d2.members["query"].members["ids"].members["values"].items;
    assert v1 == StringsToJson(QueriedIds(d1).value) == v2;
    assert d1.members["query"].members["ids"].members == d2.members["query"].members["ids"].members;
    assert d1.members["query"].members == d2.members["query"].members;
    assert d1.members == d2.members;
  }

  /** A load result as the store's response is mapped: its uuid and its
      collector informations. */
  datatype ExtendedLoadResult = ExtendedLoadResult(uuid: string, collectorInformations: CollectorInformations)

  /** The plugin's `RunInformations` sent to the trend chart. */
  datatype RunInformations = RunInformations(id: string, collectorInformations: CollectorInformations)

  /** The stream `map`/`collect` of `doResponseTimeTrend`: one run information
      per load result, in the same order, carrying its uuid and collector
      informations. */
  function ToRunInformations(results: seq<ExtendedLoadResult>): (r: seq<RunInformations>)
    ensures |r| == |results|
    ensures forall k :: 0 <= k < |r| ==>
              r[k].id == results[k].uuid && r[k].collectorInformations == results[k].collectorInformations
  {
    if results == [] then []
    else [RunInformations(results[0].uuid, results[0].collectorInformations)] + ToRunInformations(results[1..])
  }

  /** The conversion maps concatenated result lists to concatenated lists. */
  lemma ToRunInformationsAppend(a: seq<ExtendedLoadResult>, b: seq<ExtendedLoadResult>)
    ensures ToRunInformations(a + b) == ToRunInformations(a) + ToRunInformations(b)
  {
    var lhs := ToRunInformations(a + b);
    var rhs := ToRunInformations(a) + ToRunInformations(b);
    assert |lhs| == |rhs|;
    forall k | 0 <= k < |lhs| ensures lhs[k] == rhs[k] {
      if k < |a| {
        assert (a + b)[k] == a[k];
      } else {
        assert (a + b)[k] == b[k - |a|];
      }
    }
  }

  /** The calls `doResponseTimeTrend` makes that are not modelled: sending the
      query to the store's search endpoint and mapping the response to load
      results, and writing the run informations to the HTTP response. Each may
      fail. */
  datatype TrendIo = TrendIo(
    search: Json -> Result<seq<ExtendedLoadResult>, Throwable>,
    writeResponse: seq<RunInformations> -> Option<Throwable>)

  /** How `doResponseTimeTrend` ends: the run informations written, or an
      exception logged. Either way it returns normally. */
  datatype TrendOutcome = Written(runInformations: seq<RunInformations>) | Logged(error: Throwable)

  class LoadResultProjectAction {
    const builds: seq<Build>
    const lastRun: Option<RunRef>
    const elasticHostName: Option<string>

    constructor (builds: Option<seq<Build>>, lastRun: Option<RunRef>, elasticHostName: Option<string>)
      ensures builds.None? ==> this.builds == []
      ensures builds.Some? ==> this.builds == builds.value
      ensures this.lastRun == lastRun && this.elasticHostName == elasticHostName
    {
      this.builds := if builds.None? then [] else builds.value;
      this.lastRun := lastRun;
      this.elasticHostName := elasticHostName;
    }

    /** `getUrlName()`: the constant URL segment of the action. */
    function UrlName(): (r: string)
      ensures r == "loadtestresult"
    {
      "loadtestresult"
    }

    /** `getSearchUrl()` is the URL name. */
    function SearchUrl(): (r: string)
      ensures r == UrlName() && r == "loadtestresult"
    {
      UrlName()
    }

    /** The `forEach` of `doResponseTimeTrend` that appends the result id of
        every build that has one. */
    method CollectResultIds() returns (resultIds: seq<string>)
      ensures resultIds == ResultIds(builds)
    {
      resultIds := [];
      var i := 0;
      while i < |builds|
        invariant 0 <= i <= |builds|
        invariant resultIds == ResultIds(builds[..i])
      {
        var build := builds[i];
        assert builds[..i + 1][..i] == builds[..i];
        if build.loadTestdResultBuildAction.Some?
           && IsNotEmpty(build.loadTestdResultBuildAction.value.loadResultId)
        {
          resultIds := resultIds + [build.loadTestdResultBuildAction.value.loadResultId.value];
        }
        i := i + 1;
      }
      assert builds[..i] == builds;
    }

    /** The ids query, built by three successive map insertions. */
    method BuildIdsQuery(resultIds: seq<string>) returns (query: Json)
      ensures QueriedIds(query) == Some(resultIds)
    {
      var values: map<string, Json> := map[];
      values := values["values" := JArray(StringsToJson(resultIds))];
      var ids: map<string, Json> := map[];
      ids := ids["ids" := JObject(values)];
      var top: map<string, Json> := map[];
      top := top["query" := JObject(ids)];
      query := JObject(top);
      JsonToStringsOfStrings(resultIds);
    }

    /** `doResponseTimeTrend`: collect the ids, send the ids query, convert the
        results and write them; an exception from sending, converting or writing
        is logged and not rethrown. `query` is the document sent. */
    method DoResponseTimeTrend(io: TrendIo) returns (query: Json, outcome: TrendOutcome)
      ensures QueriedIds(query) == Some(ResultIds(builds))
      ensures io.search(query).Failure? ==> outcome == Logged(io.search(query).error)
      ensures io.search(query).Success? ==>
                var infos := ToRunInformations(io.search(query).value);
                && (io.writeResponse(infos).None? ==> outcome == Written(infos))
                && (io.writeResponse(infos).Some? ==> outcome == Logged(io.writeResponse(infos).value))
    {
      var resultIds := CollectResultIds();
      query := BuildIdsQuery(resultIds);
      var sent := io.search(query);
      if sent.Failure? {
        return query, Logged(sent.error);
      }
      var runInformations := ToRunInformations(sent.value);
      var written := io.writeResponse(runInformations);
      if written.Some? {
        return query, Logged(written.value);
      }
      return query, Written(runInformations);
    }
  }
}
