/** The response mapper of the CLB instances data source: how one load
    balancer record of a DescribeLoadBalancers response becomes one entry of
    the data source's `load_balancers` list. */
module DescribeResponse {
  import opened TfTypes

  /** One tag of a load balancer as the API returns it. */
  datatype TagInfo = TagInfo(tagKey: string, tagValue: string)

  /** One record of the response's LoadBalancerSet. */
  datatype LoadBalancer = LoadBalancer(
    loadBalancerId: string,
    loadBalancerName: string,
    tags: seq<TagInfo>)

  /** One entry of the data source's `load_balancers` output. */
  datatype LoadBalancerDetail = LoadBalancerDetail(
    id: TfValue<string>,
    name: TfValue<string>,
    tags: TfValue<map<string, string>>)

  /** The map that writing the tags one after another, in list order, into an
      initially empty map gives: a repeated key keeps its last value. */
  function TagMap(tags: seq<TagInfo>): map<string, string> {
    if tags == [] then map[]
    else
      var last := tags[|tags| - 1];
      TagMap(tags[..|tags| - 1])[last.tagKey := last.tagValue]
  }

  /** The keys of the tag map are exactly the keys in the tag list. */
  lemma {:induction false} TagMapKeys(tags: seq<TagInfo>)
    ensures TagMap(tags).Keys == set t | t in tags :: t.tagKey
  {
    if tags != [] {
      var init, last := tags[..|tags| - 1], tags[|tags| - 1];
      TagMapKeys(init);
      assert tags == init + [last];
    }
  }

  /** A key maps to the value of its last occurrence in the tag list. */
  lemma {:induction false} TagMapLastWins(tags: seq<TagInfo>, i: nat)
    requires i < |tags|
    requires forall j :: i < j < |tags| ==> tags[j].tagKey != tags[i].tagKey
    ensures tags[i].tagKey in TagMap(tags)
    ensures TagMap(tags)[tags[i].tagKey] == tags[i].tagValue
  {
    if i < |tags| - 1 {
      var init := tags[..|tags| - 1];
      TagMapLastWins(init, i);
    }
  }

  /** Fills the tag map with an indexed loop over the tag list. */
  method BuildTagMap(tags: seq<TagInfo>) returns (clbTagMap: map<string, string>)
    ensures clbTagMap == TagMap(tags)
  {
    clbTagMap := map[];
    var count := |tags|;
    for i := 0 to count
      invariant clbTagMap == TagMap(tags[..i])
    {
      assert tags[..i + 1][..i] == tags[..i];
      clbTagMap := clbTagMap[tags[i].tagKey := tags[i].tagValue];
    }
    assert tags[..count] == tags;
  }

  /** The output entry for one record: id and name copied verbatim; a record
      without tags gets a null tag map, any other record the map of its tags. */
  function MapRecord(lb: LoadBalancer): (d: LoadBalancerDetail)
    ensures d.id == Known(lb.loadBalancerId) && d.name == Known(lb.loadBalancerName)
    ensures d.tags.Null? <==> |lb.tags| == 0
    ensures !d.tags.Unknown?
    ensures d.tags.Known? ==> d.tags.value.Keys == set t | t in lb.tags :: t.tagKey
  {
    TagMapKeys(lb.tags);
    if |lb.tags| < 1 then
      LoadBalancerDetail(Known(lb.loadBalancerId), Known(lb.loadBalancerName), Null)
    else
      LoadBalancerDetail(Known(lb.loadBalancerId), Known(lb.loadBalancerName), Known(TagMap(lb.tags)))
  }

  /** The output list for a response: one entry per record, in record order. */
  function MapRecords(lbs: seq<LoadBalancer>): (ds: seq<LoadBalancerDetail>)
    ensures |ds| == |lbs|
    ensures forall i :: 0 <= i < |lbs| ==> ds[i] == MapRecord(lbs[i])
  {
    if lbs == [] then []
    else MapRecords(lbs[..|lbs| - 1]) + [MapRecord(lbs[|lbs| - 1])]
  }

  /** A populated output tag map holds, for every tag of the record, the value
      of that key's last occurrence. */
  lemma MapRecordTagValues(lb: LoadBalancer, i: nat)
    requires i < |lb.tags|
    requires forall j :: i < j < |lb.tags| ==> lb.tags[j].tagKey != lb.tags[i].tagKey
    ensures MapRecord(lb).tags.Known?
    ensures lb.tags[i].tagKey in MapRecord(lb).tags.value
    ensures MapRecord(lb).tags.value[lb.tags[i].tagKey] == lb.tags[i].tagValue
  {
    TagMapLastWins(lb.tags, i);
  }
}
