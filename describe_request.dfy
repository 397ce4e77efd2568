/** The request builder of the CLB instances data source: it turns the
    configured query (id, name, tags, client_config.zone) into a
    DescribeLoadBalancers request. */
module DescribeRequest {
  import opened TfTypes

  /** A tag filter of the DescribeLoadBalancers API: a name and its values. */
  datatype Filter = Filter(name: string, values: seq<string>)

  /** The fields of a DescribeLoadBalancers request that the data source sets;
      None is a field left nil. */
  datatype Request = Request(
    loadBalancerName: Option<string>,
    loadBalancerIds: Option<seq<string>>,
    filters: Option<seq<Filter>>,
    masterZone: Option<string>)

  /** A request as NewDescribeLoadBalancersRequest creates it: nothing set. */
  const EmptyRequest := Request(None, None, None, None)

  /** The client_config block; only its zone takes part in the request
      (region and credentials select the client, which is not modelled). */
  datatype ClientConfigWithZone = ClientConfigWithZone(zone: TfValue<string>)

  /** The configured query of the data source. */
  datatype Plan = Plan(
    clientConfig: Option<ClientConfigWithZone>,
    id: TfValue<string>,
    name: TfValue<string>,
    tags: TfValue<map<string, TfValue<string>>>)

  /** Why building the request fails. */
  datatype BuildError =
    | TagConversionFailed
    | ZoneLookupFailed(message: string)

  /** types.Map.ElementsAs into a map[string]string: the plain map when every
      element is known, and a conversion error (None) when some element is
      null or unknown. */
  function ElementsAs(tags: map<string, TfValue<string>>): (r: Option<map<string, string>>)
    ensures r.Some? <==> forall k :: k in tags ==> tags[k].Known?
    ensures r.Some? ==> r.value.Keys == tags.Keys
    ensures r.Some? ==> forall k :: k in tags ==> r.value[k] == tags[k].value
  {
    if forall k :: k in tags ==> tags[k].Known? then
      Some(map k | k in tags :: tags[k].value)
    else
      None
  }

  /** The tags convert to a plain map, or are not set at all. */
  predicate TagsConvert(plan: Plan) {
    !plan.tags.IsSet() || ElementsAs(plan.tags.value).Some?
  }

  /** The namespace marker a tag filter's name starts with. */
  const TagPrefix: string := "tag:"

  /** Proof helper, with no counterpart in the data source: the tag key a
      filter selects, if its name carries the tag prefix. */
  function TagFilterKey(f: Filter): (k: Option<string>)
    ensures k.Some? ==> f.name == TagPrefix + k.value
  {
    if |f.name| >= |TagPrefix| && f.name[..|TagPrefix|] == TagPrefix then
      Some(f.name[|TagPrefix|..])
    else
      None
  }

  /** The filter for one configured tag entry: its name is the tag prefix
      followed by the key, which can be read back from it, and its only value
      is the tag's value. */
  function TagFilter(key: string, value: string): (f: Filter)
    ensures TagFilterKey(f) == Some(key)
    ensures f.values == [value]
  {
    assert (TagPrefix + key)[..|TagPrefix|] == TagPrefix;
    assert (TagPrefix + key)[|TagPrefix|..] == key;
    Filter(TagPrefix + key, [value])
  }

  /** Distinct tag entries give distinct filters. */
  lemma TagFilterInjective(k1: string, v1: string, k2: string, v2: string)
    ensures TagFilter(k1, v1) == TagFilter(k2, v2) <==> k1 == k2 && v1 == v2
  {
  }

  /** The filters for the entries of `tags` whose keys are in `keys`. */
  function TagFilters(tags: map<string, string>, keys: set<string>): set<Filter>
    requires keys <= tags.Keys
  {
    set k | k in keys :: TagFilter(k, tags[k])
  }

  /** Adding one more key adds exactly its filter, which was not there yet. */
  lemma TagFiltersAdd(tags: map<string, string>, keys: set<string>, k: string)
    requires keys <= tags.Keys && k in tags && k !in keys
    ensures TagFilter(k, tags[k]) !in TagFilters(tags, keys)
    ensures TagFilters(tags, keys + {k}) == TagFilters(tags, keys) + {TagFilter(k, tags[k])}
  {
  }

  /** There are as many tag filters as keys. */
  lemma {:induction false} TagFiltersCard(tags: map<string, string>, keys: set<string>)
    requires keys <= tags.Keys
    ensures |TagFilters(tags, keys)| == |keys|
    decreases keys
  {
    if keys != {} {
      var k :| k in keys;
      var rest := keys - {k};
      TagFiltersCard(tags, rest);
      TagFiltersAdd(tags, rest, k);
      var done, f := TagFilters(tags, rest), TagFilter(k, tags[k]);
      assert keys == rest + {k};
      assert TagFilters(tags, keys) == done + {f};
      assert |done + {f}| == |done| + 1;
    }
  }

  /** A filter list that is a permutation of the tag filters holds exactly one
      filter per tag entry, named "tag:" + key with the single value [value],
      and nothing else. */
  lemma TagFilterListExact(tags: map<string, string>, filters: seq<Filter>)
    requires multiset(filters) == multiset(TagFilters(tags, tags.Keys))
    ensures |filters| == |tags|
    ensures forall k :: k in tags ==> multiset(filters)[Filter("tag:" + k, [tags[k]])] == 1
    ensures forall f :: f in filters ==> exists k :: k in tags && f == Filter("tag:" + k, [tags[k]])
  {
    TagFiltersCard(tags, tags.Keys);
    calc {
      |filters|;
      |multiset(filters)|;
      |multiset(TagFilters(tags, tags.Keys))|;
      |TagFilters(tags, tags.Keys)|;
    }
    forall f | f in filters
      ensures exists k :: k in tags && f == Filter("tag:" + k, [tags[k]])
    {
      assert f in multiset(filters);
      assert f in TagFilters(tags, tags.Keys);
    }
  }

  /** The zone string the data source looks at: client_config.zone, where a
      missing block, a null and an unknown zone all read as "". */
  function ZoneName(plan: Plan): (zone: string)
    ensures zone != "" ==> plan.clientConfig.Some? && plan.clientConfig.value.zone == Known(zone)
    ensures plan.clientConfig.Some? && plan.clientConfig.value.zone.Known? ==>
              zone == plan.clientConfig.value.zone.value
  {
    match plan.clientConfig
    case None => ""
    case Some(config) => ValueString(config.zone)
  }

  /** `req` carries exactly the filters the plan configures, with `zoneId` as
      the master zone. Filters are compared up to order, since Go visits a
      map in no fixed order. */
  ghost predicate Describes(plan: Plan, zoneId: Option<string>, req: Request)
    requires TagsConvert(plan)
  {
    && req.loadBalancerName == (if plan.name.IsSet() then Some(plan.name.value) else None)
    && req.loadBalancerIds == (if plan.id.IsSet() then Some([plan.id.value]) else None)
    && (plan.tags.IsSet() <==> req.filters.Some?)
    && (plan.tags.IsSet() ==>
          var tags := ElementsAs(plan.tags.value).value;
          multiset(req.filters.value) == multiset(TagFilters(tags, tags.Keys)))
    && req.masterZone == zoneId
  }

  /** Builds the DescribeLoadBalancers request. Tags that do not convert to a
      plain map stop the build; so does a non-empty zone that `resolveZone`
      (getZoneId) cannot resolve. Either way no API call follows. */
  method BuildRequest(plan: Plan, resolveZone: string -> Result<string, string>)
    returns (r: Result<Request, BuildError>)
    ensures !TagsConvert(plan) ==> r == Err(TagConversionFailed)
    ensures TagsConvert(plan) && ZoneName(plan) == "" ==> r.Ok? && Describes(plan, None, r.value)
    ensures TagsConvert(plan) && ZoneName(plan) != "" && resolveZone(ZoneName(plan)).Ok? ==>
              r.Ok? && Describes(plan, Some(resolveZone(ZoneName(plan)).value), r.value)
    ensures TagsConvert(plan) && ZoneName(plan) != "" && resolveZone(ZoneName(plan)).Err? ==>
              r == Err(ZoneLookupFailed(resolveZone(ZoneName(plan)).error))
  {
    var req := EmptyRequest;

    if plan.name.IsSet() {
      req := req.(loadBalancerName := Some(plan.name.value));
    }

    if plan.id.IsSet() {
      req := req.(loadBalancerIds := Some([plan.id.value]));
    }

    if plan.tags.IsSet() {
      var converted := ElementsAs(plan.tags.value);
      if converted.None? {
        return Err(TagConversionFailed);
      }
      var inputTags := converted.value;
      var filterList: seq<Filter> := [];
      var unvisited := inputTags.Keys;
      while unvisited != {}
        invariant unvisited <= inputTags.Keys
        invariant multiset(filterList) == multiset(TagFilters(inputTags, inputTags.Keys - unvisited))
        decreases unvisited
      {
        var inputKey :| inputKey in unvisited;
        var inputValue := inputTags[inputKey];
        TagFiltersAdd(inputTags, inputTags.Keys - unvisited, inputKey);
        assert inputTags.Keys - (unvisited - {inputKey}) == inputTags.Keys - unvisited + {inputKey};
        filterList := filterList + [TagFilter(inputKey, inputValue)];
        unvisited := unvisited - {inputKey};
      }
      assert inputTags.Keys - unvisited == inputTags.Keys;
      req := req.(filters := Some(filterList));
    }

    var zone := ZoneName(plan);
    if zone != "" {
      match resolveZone(zone)
      case Err(e) =>
        return Err(ZoneLookupFailed(e));
      case Ok(zoneId) =>
        req := req.(masterZone := Some(zoneId));
    }
    r := Ok(req);
  }
}
