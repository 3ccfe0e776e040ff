# Lightning community graph: the `Members` core in Dafny

This project models the in-memory logic of the `Members` class of
ln-community-graph (Members.py). A `Members` object is built for one
community of the Lightning payment-routing network. It asks a remote graph API
for the community's member list. For every member it asks for the node's
alias, colour, total channel capacity and channel list. It keeps the node info
and capacity of each member in two lists aligned with the member list. It
keeps in a third list, `result`, the channels whose two endpoints are both
members. From these three lists it builds the element list and the stylesheet
of a graph view.

The model has four modules:

- `CommunityData` (data.dfy): the records read from the API answers
  (`Channel`, `NodeInfo`, `NodeResponse`, `CommunityResponse`).
- `ChannelFilter` (filter.dfy): specification functions for the in-community
  filter (`Kept`, one batch) and for what the fetch loop accumulates
  (`Accumulated`, the first `k` members), with their lemmas.
- `GraphSpec` (graph.dfy): specification functions for the graph elements and
  the stylesheet, with lemmas that describe them element by element.
- `CommunityGraph` (members.dfy): the class `Members` with the source's
  fields as `seq` fields. Its loop methods `GetChannels`,
  `ChannelsInCommunity`, `GetDataForGraph` and `GetStylesheet` are proved
  against those functions.

The network is replaced by its answers. The constructor takes the community
answer and a sequence of node answers; `responses[i]` is the answer to the
query for `members[i]`.

The filter guard at Members.py:58 is modelled as the code is written. Python
parses `A or B and C` as `A or (B and C)`. Its `C` part tests the string
`short_channel_id` against `self.result`, which is a list of channel
dictionaries. A string never equals a dictionary, so `C` is always true. The
model makes that comparison explicit with a small `PyValue` datatype and
proves it (`IdTestNeverRejects`). As a result the guard only asks whether the
channel touches the member being processed (`GuardAsWrittenIsTouches`). No
deduplication happens. A channel between two different members is stored once
for each of them (`AppearsTwice`, `DuplicateIdAsWritten`). The id test was
evidently meant to deduplicate channels by short channel id; the model
follows the code as written. The rule that was evidently meant, "touches the
member and the id is not yet stored", is stated separately as
`AppendIntended`. It is proved to keep ids unique and to store every
relevant channel's id, but the class does not use it.

## Model

| member | source | states |
|---|---|---|
| `ChannelFilter.IdTestNeverRejects` | Members.py:58 | the test `short_channel_id not in self.result` never rejects: a string is never an element of a list of channel records |
| `ChannelFilter.GuardAsWrittenIsTouches` | Members.py:58 | the guard `A or (B and C)` as written holds iff the channel's `node1_pub` or `node2_pub` is the member being processed, whatever `result` holds |
| `ChannelFilter.KeptMembership` | Members.py:53-61 | a channel is appended by one call iff it is in the input list, both endpoints are in `members`, and it touches `node` |
| `ChannelFilter.KeptCount` | Members.py:53-61 | every occurrence of an in-community channel touching `node` is appended and nothing else: the number of copies appended equals the number in the input, or zero |
| `ChannelFilter.KeptConcat` | Members.py:53-61 | appended channels keep the input order: filtering `a + b` appends the channels of `a`, then those of `b` |
| `ChannelFilter.OutsiderRejected` | Members.py:53-61 | with members A, B, C, the batch of A holding a channel to B and one to the outsider D appends only the first |
| `ChannelFilter.PerMemberAt` | Members.py:39-49 | one node info and one total capacity per answer, entry `i` taken from answer `i`: the positional correspondence with `members` |
| `ChannelFilter.AccumulatedMembership` | Members.py:39-61 | after the first `k` members, a channel is in `result` iff both endpoints are members and the answer of some processed member it touches lists it |
| `ChannelFilter.AccumulatedCount` | Members.py:39-61 | an in-community channel is in `result` exactly as often as it is listed by processed members it touches |
| `ChannelFilter.AppearsTwice` | Members.py:39-61 | a channel between members at two different positions, listed in both of their answers, is in `result` at least twice |
| `ChannelFilter.DuplicateIdAsWritten` | Members.py:58-61 | two members A and B each listing channel x give `result == [x, x]`, whose ids are not unique |
| `ChannelFilter.IntendedAppendsUnique` | Members.py:58-61 | under the intended rule `(A or B) and id-not-stored`, `result` only grows at its end, with in-community channels of the batch touching `node`, and its ids stay unique |
| `ChannelFilter.IntendedCovers` | Members.py:58-61 | under the intended rule, every in-community channel of the batch touching `node` has its id in the new `result` |
| `ChannelFilter.DuplicateIdIntended` | Members.py:58-61 | on the two-member example the intended rule stores channel x once |
| `GraphSpec.NodeElementsAt` | Members.py:77-86 | one node element per member; element `i` has id `members[i]`, label `nodes_info[i].alias` and class `members[i]` |
| `GraphSpec.EdgeElementsAt` | Members.py:87-95 | one edge element per stored channel, in order, from `node1_pub` to `node2_pub`, classed by the threshold |
| `GraphSpec.GraphElementsAt` | Members.py:75-96 | the element list has `|members| + |result|` entries: the member nodes first, then an edge for each channel of `result` in order |
| `GraphSpec.EdgeTopIff` | Members.py:93 | an edge is classed "top" iff its channel's capacity is at least the threshold, and "not-top" iff it is below |
| `GraphSpec.OneTopEdge` | Members.py:75-96 | two members and one channel of capacity 200 under threshold 150 give exactly one "top" edge |
| `GraphSpec.ColorRulesAt` | Members.py:100-108 | one colour rule per node info; rule `i` selects `"." + members[i]` and sets `background-color` to `nodes_info[i].color` |
| `GraphSpec.StylesheetAt` | Members.py:98-124 | the stylesheet has `|nodes_info| + 2` rules: the colour rules, then the `node` label rule, then the red `.top` rule |
| `GraphSpec.NodesAreColoured` | Members.py:84-105 | with one node info per member, the class of node element `i` is selected by colour rule `i`, which carries that member's colour |
| `CommunityGraph.Members.constructor` | Members.py:11-36 | starting from empty lists, the object holds the community's name, count and member list, `nodes_info[i]` and `capacity[i]` come from the answer for `members[i]`, and `result` is what the filter accumulates over all members |
| `CommunityGraph.Members.GetData` | Members.py:25-36 | takes name, member count and member list from the community answer, then appends each member's data as `GetChannels` does |
| `CommunityGraph.Members.GetChannels` | Members.py:38-50 | appends one node info and one capacity per member, in member order, from that member's answer, and appends to `result` what the filter keeps from each member's channels; earlier entries are unchanged |
| `CommunityGraph.Members.AddMember` | Members.py:46-50 | one loop iteration: appends the member's node info and total capacity, then what the filter keeps from its channels |
| `CommunityGraph.Members.ChannelsInCommunity` | Members.py:52-61 | appends to `result` exactly the in-community channels touching `node`, in input order; nothing else changes |
| `CommunityGraph.Members.GetDataForGraph` | Members.py:75-96 | returns the graph element list described by `GraphElements` |
| `CommunityGraph.Members.GetStylesheet` | Members.py:98-124 | returns the stylesheet described by `Stylesheet` |

## Left out

- The HTTP requests, JSON decoding and GraphQL query strings (Members.py:13, 26-35, 40-47): the answers are inputs instead.
- Network failures and missing JSON keys: in the source they raise out of `__init__` and no object exists, so the model only covers successful answers.
- `community_name` and `num_members` are stored as given; the source never checks `num_members` against the member list.
- `create_graph` (Members.py:128-159): Dash/Cytoscape user interface and a web server, with floating-point layout parameters.
- `print_nodes_info`, `print_community_channels` and the write to `./data.json` (Members.py:67-74): console and file output.
- `__str__` (Members.py:64-65): string formatting only.
- The `int(...)` parsing of capacities (Members.py:49, 93): capacities are `int` values in the model.
- The initial `None` values of `community_name`, `num_members` and `members` (Members.py:16-18): the constructor overwrites them before any use, so the model starts from placeholders.
- The two graph builders require the list lengths that the source needs to avoid an `IndexError`; the object built by the constructor always meets them.
