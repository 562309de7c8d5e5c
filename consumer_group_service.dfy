/**
 * The consumer-group service: group summaries sorted by id, one group's details, and a
 * group's committed offsets sorted by topic and partition.
 */
module ConsumerGroupService {
  import opened AdminErrors
  import opened Domain
  import opened AdminPort
  import opened Ordering
  import opened Pipelines

  datatype ConsumerGroupResponse = ConsumerGroupResponse(
    groupId: string,
    state: string,
    memberCount: int)

  /** A summary counts the group's members. */
  function GroupResponseFrom(g: ConsumerGroup): (r: ConsumerGroupResponse)
    ensures r.groupId == g.groupId && r.state == g.state && r.memberCount == |g.members|
  {
    ConsumerGroupResponse(g.groupId, g.state, |g.members|)
  }

  datatype ConsumerGroupMemberResponse = ConsumerGroupMemberResponse(
    consumerId: string,
    clientId: string,
    host: string,
    assignments: seq<string>)
  {
    function ToMember(): ConsumerGroupMember
    {
      ConsumerGroupMember(consumerId, clientId, host, assignments)
    }
  }

  function MemberResponseFrom(m: ConsumerGroupMember): (r: ConsumerGroupMemberResponse)
    ensures r.ToMember() == m
  {
    ConsumerGroupMemberResponse(m.consumerId, m.clientId, m.host, m.assignments)
  }

  datatype ConsumerGroupDetailResponse = ConsumerGroupDetailResponse(
    groupId: string,
    state: string,
    partitionAssignor: string,
    coordinatorId: int,
    members: seq<ConsumerGroupMemberResponse>)
  {
    function ToGroup(): ConsumerGroup
    {
      ConsumerGroup(groupId, state, partitionAssignor, coordinatorId,
        seq(|members|, i requires 0 <= i < |members| => members[i].ToMember()))
    }
  }

  /** Every field is copied; the members keep the port's order. */
  function GroupDetailFrom(g: ConsumerGroup): (r: ConsumerGroupDetailResponse)
    ensures r.ToGroup() == g
  {
    var r := ConsumerGroupDetailResponse(g.groupId, g.state, g.partitionAssignor, g.coordinatorId,
      MapSeq(g.members, MemberResponseFrom));
    assert r.ToGroup().members == g.members;
    r
  }

  datatype ConsumerGroupOffsetResponse = ConsumerGroupOffsetResponse(
    topic: string,
    partition: int,
    currentOffset: int,
    endOffset: int,
    lag: int)
  {
    function ToOffset(): ConsumerGroupOffset
    {
      ConsumerGroupOffset(topic, partition, currentOffset, endOffset, lag)
    }
  }

  function OffsetResponseFrom(o: ConsumerGroupOffset): (r: ConsumerGroupOffsetResponse)
    ensures r.ToOffset() == o
  {
    ConsumerGroupOffsetResponse(o.topic, o.partition, o.currentOffset, o.endOffset, o.lag)
  }

  function GroupKey(g: ConsumerGroupResponse): SortKey { [Str(g.groupId)] }

  function OffsetKey(o: ConsumerGroupOffsetResponse): SortKey { [Str(o.topic), Num(o.partition)] }

  /**
   * `listConsumerGroups`: describes every listed id, in list order, and sorts the
   * summaries by group id. A failing description fails the whole listing.
   */
  function ListConsumerGroups(p: Port): (r: Result<seq<ConsumerGroupResponse>>)
    ensures r.Ok? <==>
      p.listConsumerGroupIds.Ok? &&
      forall i :: 0 <= i < |p.listConsumerGroupIds.value| ==> p.getConsumerGroup(p.listConsumerGroupIds.value[i]).Ok?
    ensures p.listConsumerGroupIds.Err? ==> r == Err(p.listConsumerGroupIds.error)
    ensures p.listConsumerGroupIds == Ok([]) ==> r == Ok([])
    ensures r.Err? && p.listConsumerGroupIds.Ok? ==>
      var ids := p.listConsumerGroupIds.value;
      exists i :: 0 <= i < |ids| && p.getConsumerGroup(ids[i]) == Err(r.error) &&
        forall j :: 0 <= j < i ==> p.getConsumerGroup(ids[j]).Ok?
    ensures r.Ok? ==>
      var summaries := MapSeq(DescribeEach(p.listConsumerGroupIds.value, p.getConsumerGroup).value, GroupResponseFrom);
      && |r.value| == |p.listConsumerGroupIds.value|
      && multiset(r.value) == multiset(summaries)
      && IsStableSortOf(r.value, summaries, GroupKey)
    ensures r.Ok? ==> forall i, j :: 0 <= i < j < |r.value| ==> StrLe(r.value[i].groupId, r.value[j].groupId)
  {
    var ids :- p.listConsumerGroupIds;
    var groups :- DescribeEach(ids, p.getConsumerGroup);
    var sorted := SortByKey(MapSeq(groups, GroupResponseFrom), GroupKey);
    assert forall i, j :: 0 <= i < j < |sorted| ==> StrLe(sorted[i].groupId, sorted[j].groupId) by {
      forall i, j | 0 <= i < j < |sorted|
        ensures StrLe(sorted[i].groupId, sorted[j].groupId)
      {
        KeyLeOne(Str(sorted[i].groupId), Str(sorted[j].groupId));
      }
    }
    Ok(sorted)
  }

  /**
   * Against a port that keeps its contract, a failed listing is either the generic
   * failure or the "not found" of a listed key: a group that vanished between the listing and its description.
   */
  lemma ListedGroupFailure(p: Port)
    requires Honours(p)
    ensures var r := ListConsumerGroups(p);
      r.Err? ==> r.error.AdminFailure? || exists k :: k in p.listConsumerGroupIds.value && r.error == ConsumerGroupNotFound(k)
  {
  }

  /** `getConsumerGroup`: the port's group with every field copied. */
  function GetConsumerGroup(p: Port, groupId: string): (r: Result<ConsumerGroupDetailResponse>)
    ensures r.Ok? <==> p.getConsumerGroup(groupId).Ok?
    ensures r.Ok? ==> r.value.ToGroup() == p.getConsumerGroup(groupId).value
    ensures r.Err? ==> r.error == p.getConsumerGroup(groupId).error
  {
    var group :- p.getConsumerGroup(groupId);
    Ok(GroupDetailFrom(group))
  }

  /** `getConsumerGroupOffsets`: sorted by topic, then partition. */
  function GetConsumerGroupOffsets(p: Port, groupId: string): (r: Result<seq<ConsumerGroupOffsetResponse>>)
    ensures r.Ok? <==> p.getConsumerGroupOffsets(groupId).Ok?
    ensures r.Err? ==> r.error == p.getConsumerGroupOffsets(groupId).error
    ensures r.Ok? ==>
      var rows := MapSeq(p.getConsumerGroupOffsets(groupId).value, OffsetResponseFrom);
      multiset(r.value) == multiset(rows) && IsStableSortOf(r.value, rows, OffsetKey)
    ensures r.Ok? ==> forall i, j :: 0 <= i < j < |r.value| ==>
      StrLt(r.value[i].topic, r.value[j].topic) ||
      (r.value[i].topic == r.value[j].topic && r.value[i].partition <= r.value[j].partition)
  {
    var offsets :- p.getConsumerGroupOffsets(groupId);
    var sorted := SortByKey(MapSeq(offsets, OffsetResponseFrom), OffsetKey);
    assert forall i, j :: 0 <= i < j < |sorted| ==>
      StrLt(sorted[i].topic, sorted[j].topic) ||
      (sorted[i].topic == sorted[j].topic && sorted[i].partition <= sorted[j].partition) by {
      forall i, j | 0 <= i < j < |sorted|
        ensures StrLt(sorted[i].topic, sorted[j].topic) ||
          (sorted[i].topic == sorted[j].topic && sorted[i].partition <= sorted[j].partition)
      {
        KeyLeTwo(Str(sorted[i].topic), Num(sorted[i].partition), Str(sorted[j].topic), Num(sorted[j].partition));
      }
    }
    Ok(sorted)
  }

  /**
   * The rows of the scenario below (the offsets test of `ConsumerGroupServiceTest`), as the
   * port lists them and as they are expected back.
   */
  function ScenarioRows(): seq<ConsumerGroupOffsetResponse>
  {
    [ConsumerGroupOffsetResponse("topic-b", 0, 100, 150, 50),
     ConsumerGroupOffsetResponse("topic-a", 1, 200, 250, 50),
     ConsumerGroupOffsetResponse("topic-a", 0, 100, 120, 20)]
  }

  function ScenarioSorted(): seq<ConsumerGroupOffsetResponse>
  {
    [ConsumerGroupOffsetResponse("topic-a", 0, 100, 120, 20),
     ConsumerGroupOffsetResponse("topic-a", 1, 200, 250, 50),
     ConsumerGroupOffsetResponse("topic-b", 0, 100, 150, 50)]
  }

  lemma ScenarioTopicsOrdered()
    ensures StrLt("topic-a", "topic-b")
  {
    StrLtCommonPrefix("topic-", "a", "b");
    assert "topic-" + "a" == "topic-a" && "topic-" + "b" == "topic-b";
  }

  /** The expected order is sorted and keeps every key's rows (one each) in port order. */
  lemma ScenarioSortedIsStable()
    ensures IsStableSortOf(ScenarioSorted(), ScenarioRows(), OffsetKey)
  {
    var expected, rows := ScenarioSorted(), ScenarioRows();
    var a0, a1, b0 := expected[0], expected[1], expected[2];
    ScenarioTopicsOrdered();
    KeyLeTwo(Str("topic-a"), Num(0), Str("topic-a"), Num(1));
    KeyLeTwo(Str("topic-a"), Num(1), Str("topic-b"), Num(0));
    KeyLeTwo(Str("topic-a"), Num(0), Str("topic-b"), Num(0));
    assert SortedByKey(expected, OffsetKey);
    assert OffsetKey(a0) != OffsetKey(a1) by { assert OffsetKey(a0)[1] != OffsetKey(a1)[1]; }
    assert OffsetKey(a0) != OffsetKey(b0) && OffsetKey(a1) != OffsetKey(b0) by {
      StrLtIrreflexive("topic-a");
      assert OffsetKey(a0)[0] != OffsetKey(b0)[0];
    }
    forall k ensures WithKey(expected, OffsetKey, k) == WithKey(rows, OffsetKey, k) {
      WithKeyThree(a0, a1, b0, OffsetKey, k);
      WithKeyThree(b0, a1, a0, OffsetKey, k);
    }
  }

  /**
   * The offsets b/0, a/1, a/0 come back as a/0, a/1, b/0: the topics ascend, and within
   * a topic the partitions do.
   */
  lemma OffsetsScenario(p: Port, groupId: string)
    requires p.getConsumerGroupOffsets(groupId) == Ok([
      ConsumerGroupOffset("topic-b", 0, 100, 150, 50),
      ConsumerGroupOffset("topic-a", 1, 200, 250, 50),
      ConsumerGroupOffset("topic-a", 0, 100, 120, 20)])
    ensures GetConsumerGroupOffsets(p, groupId) == Ok(ScenarioSorted())
  {
    var r := GetConsumerGroupOffsets(p, groupId);
    assert MapSeq(p.getConsumerGroupOffsets(groupId).value, OffsetResponseFrom) == ScenarioRows();
    ScenarioSortedIsStable();
    StableSortUnique(r.value, ScenarioSorted(), OffsetKey);
  }
}
