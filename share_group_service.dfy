/** The share-group service: group summaries sorted by id, and one group's details. */
module ShareGroupService {
  import opened AdminErrors
  import opened Domain
  import opened AdminPort
  import opened Ordering
  import opened Pipelines

  datatype ShareGroupResponse = ShareGroupResponse(
    groupId: string,
    state: string,
    memberCount: int)

  /** A summary counts the group's members. */
  function GroupResponseFrom(g: ShareGroup): (r: ShareGroupResponse)
    ensures r.groupId == g.groupId && r.state == g.state && r.memberCount == |g.members|
  {
    ShareGroupResponse(g.groupId, g.state, |g.members|)
  }

  datatype ShareGroupMemberResponse = ShareGroupMemberResponse(
    consumerId: string,
    clientId: string,
    host: string,
    assignments: seq<string>)
  {
    function ToMember(): ShareGroupMember
    {
      ShareGroupMember(consumerId, clientId, host, assignments)
    }
  }

  function MemberResponseFrom(m: ShareGroupMember): (r: ShareGroupMemberResponse)
    ensures r.ToMember() == m
  {
    ShareGroupMemberResponse(m.consumerId, m.clientId, m.host, m.assignments)
  }

  datatype ShareGroupDetailResponse = ShareGroupDetailResponse(
    groupId: string,
    state: string,
    coordinatorId: int,
    members: seq<ShareGroupMemberResponse>)
  {
    function ToGroup(): ShareGroup
    {
      ShareGroup(groupId, state, coordinatorId,
        seq(|members|, i requires 0 <= i < |members| => members[i].ToMember()))
    }
  }

  /** Every field is copied; the members keep the port's order. */
  function GroupDetailFrom(g: ShareGroup): (r: ShareGroupDetailResponse)
    ensures r.ToGroup() == g
  {
    var r := ShareGroupDetailResponse(g.groupId, g.state, g.coordinatorId, MapSeq(g.members, MemberResponseFrom));
    assert r.ToGroup().members == g.members;
    r
  }

  function GroupKey(g: ShareGroupResponse): SortKey { [Str(g.groupId)] }

  /**
   * `listShareGroups`: describes every listed id, in list order, and sorts the summaries
   * by group id. A failing description fails the whole listing.
   */
  function ListShareGroups(p: Port): (r: Result<seq<ShareGroupResponse>>)
    ensures r.Ok? <==>
      p.listShareGroupIds.Ok? &&
      forall i :: 0 <= i < |p.listShareGroupIds.value| ==> p.describeShareGroup(p.listShareGroupIds.value[i]).Ok?
    ensures p.listShareGroupIds.Err? ==> r == Err(p.listShareGroupIds.error)
    ensures p.listShareGroupIds == Ok([]) ==> r == Ok([])
    ensures r.Err? && p.listShareGroupIds.Ok? ==>
      var ids := p.listShareGroupIds.value;
      exists i :: 0 <= i < |ids| && p.describeShareGroup(ids[i]) == Err(r.error) &&
        forall j :: 0 <= j < i ==> p.describeShareGroup(ids[j]).Ok?
    ensures r.Ok? ==>
      var summaries := MapSeq(DescribeEach(p.listShareGroupIds.value, p.describeShareGroup).value, GroupResponseFrom);
      && |r.value| == |p.listShareGroupIds.value|
      && multiset(r.value) == multiset(summaries)
      && IsStableSortOf(r.value, summaries, GroupKey)
    ensures r.Ok? ==> forall i, j :: 0 <= i < j < |r.value| ==> StrLe(r.value[i].groupId, r.value[j].groupId)
  {
    var ids :- p.listShareGroupIds;
    var groups :- DescribeEach(ids, p.describeShareGroup);
    var sorted := SortByKey(MapSeq(groups, GroupResponseFrom), GroupKey);
    assert forall i, j :: 0 <= i < j < |sorted| ==> StrLe(sorted[i].groupId, sorted[j].groupId) by {
      forall i, j | 0 <= i < j < |sorted|
        ensures StrLe(sorted[i].groupId, sorted[j].groupId)
      {
        KeyLeOne(Str(sorted[i].groupId), Str(sorted[j].groupId));
      }
    }
    Ok(sorted)
  }

  /**
   * Against a port that keeps its contract, a failed listing is either the generic
   * failure or the "not found" of a listed key: a group that vanished between the listing and its description.
   */
  lemma ListedGroupFailure(p: Port)
    requires Honours(p)
    ensures var r := ListShareGroups(p);
      r.Err? ==> r.error.AdminFailure? || exists k :: k in p.listShareGroupIds.value && r.error == ShareGroupNotFound(k)
  {
  }

  /** `getShareGroup`: the port's group with every field copied. */
  function GetShareGroup(p: Port, groupId: string): (r: Result<ShareGroupDetailResponse>)
    ensures r.Ok? <==> p.describeShareGroup(groupId).Ok?
    ensures r.Ok? ==> r.value.ToGroup() == p.describeShareGroup(groupId).value
    ensures r.Err? ==> r.error == p.describeShareGroup(groupId).error
  {
    var group :- p.describeShareGroup(groupId);
    Ok(GroupDetailFrom(group))
  }
}
