/** What `Members._get_data_for_graph` and `Members._get_stylesheet` build for
    the graph view, as specification functions over the member list, the node
    infos and the accumulated channels. */
module GraphSpec {
  import opened CommunityData

  /** One graph element: a node `{"data": {"id", "label"}, "classes"}` or an
      edge `{"data": {"source", "target"}, "classes"}`. */
  datatype Element =
    | NodeElement(id: string, labelText: string, classes: string)
    | EdgeElement(source: string, target: string, classes: string)

  /** One stylesheet rule: a selector and its style dictionary. */
  datatype Rule = Rule(selector: string, style: map<string, string>)

  /** The class of an edge: "top" when the channel's capacity reaches the
      highlight threshold, "not-top" below it. */
  function EdgeClass(capacity: int, limit: int): string
  {
    if capacity >= limit then "top" else "not-top"
  }

  /** The node elements for `members`, member `i` labelled with the alias of
      `infos[i]`. */
  function NodeElements(members: seq<string>, infos: seq<NodeInfo>): seq<Element>
    requires |members| <= |infos|
  {
    if members == [] then []
    else
      var n := |members| - 1;
      NodeElements(members[..n], infos) + [NodeElement(members[n], infos[n].alias, members[n])]
  }

  /** The edge elements for `channels`, one per channel, in order. */
  function EdgeElements(channels: seq<Channel>, limit: int): seq<Element>
  {
    if channels == [] then []
    else
      var n := |channels| - 1;
      var c := channels[n];
      EdgeElements(channels[..n], limit) + [EdgeElement(c.node1Pub, c.node2Pub, EdgeClass(c.capacity, limit))]
  }

  /** The element list of the graph: the nodes, then the edges. */
  function GraphElements(members: seq<string>, infos: seq<NodeInfo>, channels: seq<Channel>, limit: int): seq<Element>
    requires |members| <= |infos|
  {
    NodeElements(members, infos) + EdgeElements(channels, limit)
  }

  lemma {:induction false} NodeElementsAt(members: seq<string>, infos: seq<NodeInfo>)
    requires |members| <= |infos|
    ensures |NodeElements(members, infos)| == |members|
    ensures forall i :: 0 <= i < |members| ==>
              NodeElements(members, infos)[i] == NodeElement(members[i], infos[i].alias, members[i])
  {
    if members != [] {
      var n := |members| - 1;
      NodeElementsAt(members[..n], infos);
    }
  }

  lemma {:induction false} EdgeElementsAt(channels: seq<Channel>, limit: int)
    ensures |EdgeElements(channels, limit)| == |channels|
    ensures forall j :: 0 <= j < |channels| ==>
              EdgeElements(channels, limit)[j]
              == EdgeElement(channels[j].node1Pub, channels[j].node2Pub, EdgeClass(channels[j].capacity, limit))
  {
    if channels != [] {
      EdgeElementsAt(channels[..|channels| - 1], limit);
    }
  }

  /** The graph has one node element per member, labelled with that member's
      alias and classed by its id, followed by one edge per channel in order,
      from `node1_pub` to `node2_pub`. */
  lemma GraphElementsAt(members: seq<string>, infos: seq<NodeInfo>, channels: seq<Channel>, limit: int)
    requires |members| <= |infos|
    ensures var r := GraphElements(members, infos, channels, limit);
            |r| == |members| + |channels|
            && (forall i :: 0 <= i < |members| ==> r[i] == NodeElement(members[i], infos[i].alias, members[i]))
            && (forall j :: 0 <= j < |channels| ==>
                  r[|members| + j].EdgeElement?
                  && r[|members| + j].source == channels[j].node1Pub
                  && r[|members| + j].target == channels[j].node2Pub)
  {
    NodeElementsAt(members, infos);
    EdgeElementsAt(channels, limit);
  }

  /** An edge is classed "top" iff its channel's capacity is at least the
      threshold, and "not-top" otherwise. */
  lemma EdgeTopIff(members: seq<string>, infos: seq<NodeInfo>, channels: seq<Channel>, limit: int, j: nat)
    requires |members| <= |infos| && j < |channels|
    ensures var r := GraphElements(members, infos, channels, limit);
            |members| + j < |r|
            && (r[|members| + j].classes == "top" <==> channels[j].capacity >= limit)
            && (r[|members| + j].classes == "not-top" <==> channels[j].capacity < limit)
  {
    NodeElementsAt(members, infos);
    EdgeElementsAt(channels, limit);
  }

  /** Number of "top" edges among `elements`. */
  function TopEdges(elements: seq<Element>): nat
  {
    if elements == [] then 0
    else TopEdges(elements[1..]) + (if elements[0].EdgeElement? && elements[0].classes == "top" then 1 else 0)
  }

  /** Two members and one in-community channel of capacity 200 under a
      threshold of 150 give exactly one "top" edge. */
  lemma OneTopEdge()
    ensures var x := Channel("x", 200, "A", "B", 0);
            var infos := [NodeInfo("a", "#111111"), NodeInfo("b", "#222222")];
            TopEdges(GraphElements(["A", "B"], infos, [x], 150)) == 1
  {
    var x := Channel("x", 200, "A", "B", 0);
    var infos := [NodeInfo("a", "#111111"), NodeInfo("b", "#222222")];
    var r := GraphElements(["A", "B"], infos, [x], 150);
    NodeElementsAt(["A", "B"], infos);
    EdgeElementsAt([x], 150);
    var e := EdgeElement("A", "B", "top");
    assert r == [NodeElement("A", "a", "A"), NodeElement("B", "b", "B"), e];
    assert TopEdges([e]) == 1 by { assert [e][1..] == []; }
    assert r[1..][1..] == [e];
    assert TopEdges(r[1..]) == 1;
  }

  // ---------------------------------------------------------------------------
  // Stylesheet
  // ---------------------------------------------------------------------------

  /** Shows every node's `label` data field. */
  const LabelRule := Rule("node", map["label" := "data(label)"])

  /** Paints elements of class "top" red. */
  const TopRule := Rule(".top", map["background-color" := "red", "line-color" := "red"])

  /** One colour rule per node info, for the member at the same position. */
  function ColorRules(members: seq<string>, infos: seq<NodeInfo>): seq<Rule>
    requires |infos| <= |members|
  {
    if infos == [] then []
    else
      var n := |infos| - 1;
      ColorRules(members, infos[..n]) + [Rule("." + members[n], map["background-color" := infos[n].color])]
  }

  /** The stylesheet: the colour rules, then the label rule and the top rule. */
  function Stylesheet(members: seq<string>, infos: seq<NodeInfo>): seq<Rule>
    requires |infos| <= |members|
  {
    ColorRules(members, infos) + [LabelRule, TopRule]
  }

  lemma {:induction false} ColorRulesAt(members: seq<string>, infos: seq<NodeInfo>)
    requires |infos| <= |members|
    ensures |ColorRules(members, infos)| == |infos|
    ensures forall i :: 0 <= i < |infos| ==>
              ColorRules(members, infos)[i] == Rule("." + members[i], map["background-color" := infos[i].color])
  {
    if infos != [] {
      ColorRulesAt(members, infos[..|infos| - 1]);
    }
  }

  /** The stylesheet has `|infos| + 2` rules: rule `i` colours class
      `members[i]` with `infos[i].color`, and the last two are the label rule
      and the red top rule, in that order. */
  lemma StylesheetAt(members: seq<string>, infos: seq<NodeInfo>)
    requires |infos| <= |members|
    ensures var r := Stylesheet(members, infos);
            |r| == |infos| + 2
            && (forall i :: 0 <= i < |infos| ==>
                  r[i].selector == "." + members[i] && r[i].style == map["background-color" := infos[i].color])
            && r[|infos|] == Rule("node", map["label" := "data(label)"])
            && r[|infos| + 1] == Rule(".top", map["background-color" := "red", "line-color" := "red"])
  {
    ColorRulesAt(members, infos);
  }

  /** When there is one node info per member, every node element's class has
      a colour rule at the same position whose selector is "." and that class,
      carrying the member's colour. */
  lemma NodesAreColoured(members: seq<string>, infos: seq<NodeInfo>, channels: seq<Channel>, limit: int, i: nat)
    requires |members| == |infos| && i < |members|
    ensures var g := GraphElements(members, infos, channels, limit);
            var s := Stylesheet(members, infos);
            i < |g| && i < |s| && g[i].NodeElement?
            && s[i].selector == "." + g[i].classes
            && "background-color" in s[i].style
            && s[i].style["background-color"] == infos[i].color
  {
    NodeElementsAt(members, infos);
    EdgeElementsAt(channels, limit);
    ColorRulesAt(members, infos);
  }
}
