/** The `Members` class of Members.py: the community's member list, one node
    info and one total capacity per member, and the in-community channels
    gathered from every member's channel list. The remote queries are
    replaced by their answers, given as inputs. */
module CommunityGraph {
  import opened CommunityData
  import opened ChannelFilter
  import opened GraphSpec

  class Members {
    var communityId: string
    var communityName: string
    var numMembers: int
    var members: seq<string>
    var capacity: seq<int>
    var nodesInfo: seq<NodeInfo>
    var result: seq<Channel>

    /** Positional correspondence: `nodesInfo[i]` and `capacity[i]` describe
        `members[i]`. */
    ghost predicate Valid()
      reads this
    {
      |nodesInfo| == |capacity| == |members|
    }

    /** `__init__`: start from empty lists, then load the community and every
        member's data from the given answers. */
    constructor (communityId: string, community: CommunityResponse, responses: seq<NodeResponse>)
      requires |responses| == |community.memberList|
      ensures Valid()
      ensures this.communityId == communityId
      ensures communityName == community.name && numMembers == community.memberCount
      ensures members == community.memberList
      ensures nodesInfo == NodeInfos(responses) && capacity == Capacities(responses)
      ensures forall i :: 0 <= i < |members| ==>
                nodesInfo[i] == responses[i].node && capacity[i] == responses[i].totalCapacity
      ensures result == Accumulated(members, responses, |members|)
    {
      this.communityId := communityId;
      communityName := "";
      numMembers := 0;
      members := [];
      capacity := [];
      nodesInfo := [];
      result := [];
      new;
      GetData(community, responses);
      assert nodesInfo == NodeInfos(responses) && capacity == Capacities(responses);
      PerMemberAt(responses);
    }

    /** `_get_data`: take name, member count and member list from the
        community answer, then fetch every member's channels. */
    method GetData(community: CommunityResponse, responses: seq<NodeResponse>)
      requires |responses| == |community.memberList|
      modifies this
      ensures communityId == old(communityId)
      ensures communityName == community.name && numMembers == community.memberCount
      ensures members == community.memberList
      ensures nodesInfo == old(nodesInfo) + NodeInfos(responses)
      ensures capacity == old(capacity) + Capacities(responses)
      ensures result == old(result) + Accumulated(members, responses, |members|)
    {
      communityName := community.name;
      numMembers := community.memberCount;
      members := community.memberList;
      GetChannels(responses);
    }

    /** `_get_channels`: for each member in order, record its node info and
        total capacity and run the in-community filter over its channels.
        `responses[i]` is the answer to the query for `members[i]`. */
    method GetChannels(responses: seq<NodeResponse>)
      requires |responses| == |members|
      modifies this`nodesInfo, this`capacity, this`result
      ensures nodesInfo == old(nodesInfo) + NodeInfos(responses)
      ensures capacity == old(capacity) + Capacities(responses)
      ensures result == old(result) + Accumulated(members, responses, |members|)
    {
      for i := 0 to |members|
        invariant nodesInfo == old(nodesInfo) + NodeInfos(responses[..i])
        invariant capacity == old(capacity) + Capacities(responses[..i])
        invariant result == old(result) + Accumulated(members, responses, i)
      {
        assert responses[..i + 1][..i] == responses[..i];
        AddMember(responses[i], members[i]);
      }
      assert responses[..|members|] == responses;
    }

    /** One iteration of `_get_channels`: append the member's node info and
        total capacity, then filter its channels. */
    method AddMember(res: NodeResponse, node: string)
      modifies this`nodesInfo, this`capacity, this`result
      ensures nodesInfo == old(nodesInfo) + [res.node]
      ensures capacity == old(capacity) + [res.totalCapacity]
      ensures result == old(result) + Kept(members, res.channels, node)
    {
      nodesInfo := nodesInfo + [res.node];
      capacity := capacity + [res.totalCapacity];
      ChannelsInCommunity(res.channels, node);
    }

    /** `_channels_in_community`: append to `result`, in input order, every
        channel of `channels` whose endpoints are both members and that passes
        the guard of line 58 as Python reads it. */
    method ChannelsInCommunity(channels: seq<Channel>, node: string)
      modifies this`result
      ensures result == old(result) + Kept(members, channels, node)
    {
      for k := 0 to |channels|
        invariant result == old(result) + Kept(members, channels[..k], node)
      {
        var item := channels[k];
        assert channels[..k + 1][..k] == channels[..k];
        if item.node1Pub !in members {
          continue;
        }
        if item.node2Pub !in members {
          continue;
        }
        GuardAsWrittenIsTouches(item, node, result);
        if item.node1Pub == node || (item.node2Pub == node && PyStr(item.shortChannelId) !in AsPyList(result)) {
          result := result + [item];
        }
      }
      assert channels[..|channels|] == channels;
    }

    /** `_get_data_for_graph`: one node element per member, then one edge per
        stored channel, classed by the highlight threshold. */
    method GetDataForGraph(capacityLimitHighlight: int) returns (elements: seq<Element>)
      requires |members| <= |nodesInfo|
      ensures elements == GraphElements(members, nodesInfo, result, capacityLimitHighlight)
    {
      elements := [];
      for i := 0 to |members|
        invariant elements == NodeElements(members[..i], nodesInfo)
      {
        var name := nodesInfo[i].alias;
        assert members[..i + 1][..i] == members[..i];
        elements := elements + [NodeElement(members[i], name, members[i])];
      }
      assert members[..|members|] == members;
      for j := 0 to |result|
        invariant elements == NodeElements(members, nodesInfo) + EdgeElements(result[..j], capacityLimitHighlight)
      {
        var chan := result[j];
        assert result[..j + 1][..j] == result[..j];
        elements := elements + [EdgeElement(chan.node1Pub, chan.node2Pub,
                                            if chan.capacity >= capacityLimitHighlight then "top" else "not-top")];
      }
      assert result[..|result|] == result;
    }

    /** `_get_stylesheet`: one colour rule per node info, then the label rule
        and the red rule for class "top". */
    method GetStylesheet() returns (res: seq<Rule>)
      requires |nodesInfo| <= |members|
      ensures res == Stylesheet(members, nodesInfo)
    {
      res := [];
      for i := 0 to |nodesInfo|
        invariant res == ColorRules(members, nodesInfo[..i])
      {
        var node := nodesInfo[i];
        assert nodesInfo[..i + 1][..i] == nodesInfo[..i];
        res := res + [Rule("." + members[i], map["background-color" := node.color])];
      }
      assert nodesInfo[..|nodesInfo|] == nodesInfo;
      res := res + [Rule("node", map["label" := "data(label)"])];
      res := res + [Rule(".top", map["background-color" := "red", "line-color" := "red"])];
    }
  }

  /** An empty community: no node infos, no capacities, no channels, and a
      graph and stylesheet with nothing but the two fixed rules. */
  method EmptyCommunityScenario()
  {
    var m := new Members("c0", CommunityResponse("empty", 0, []), []);
    assert m.nodesInfo == [] && m.capacity == [] && m.result == [];
    var elements := m.GetDataForGraph(150);
    assert elements == [];
    var rules := m.GetStylesheet();
    assert rules == [LabelRule, TopRule];
  }

  /** Three members, where A lists a channel to B and one to the outsider D:
      only the first is stored. */
  method OutsiderScenario()
  {
    var x := Channel("x", 100, "A", "B", 0);
    var y := Channel("y", 50, "A", "D", 0);
    var info := NodeInfo("n", "#000000");
    var responses := [NodeResponse(info, 150, [x, y]), NodeResponse(info, 0, []), NodeResponse(info, 0, [])];
    var m := new Members("c1", CommunityResponse("three", 3, ["A", "B", "C"]), responses);
    OutsiderRejected();
    assert Accumulated(["A", "B", "C"], responses, 1) == [x];
    assert m.result == Accumulated(["A", "B", "C"], responses, 3) == [x];
    assert m.capacity[0] == 150;
  }
}
