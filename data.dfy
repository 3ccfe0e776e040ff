/** Records that the community graph works on: what the remote graph API
    answers about a community and about one of its nodes. The JSON dictionaries
    of the source become datatypes with one field per key that is read. */
module CommunityData {

  /** One entry of `channels.list` in a node answer: `short_channel_id`,
      `capacity`, `node1_pub`, `node2_pub` and `block_age`. */
  datatype Channel = Channel(
    shortChannelId: string,
    capacity: int,
    node1Pub: string,
    node2Pub: string,
    blockAge: int)

  /** The `node` part of a node answer: its `alias` and display `color`. */
  datatype NodeInfo = NodeInfo(alias: string, color: string)

  /** What the node query returns for one member: the node's info, the
      `total_capacity` of its channels and its channel list. */
  datatype NodeResponse = NodeResponse(node: NodeInfo, totalCapacity: int, channels: seq<Channel>)

  /** What the community query returns: `details.name`, `member_count` and
      `member_list`. */
  datatype CommunityResponse = CommunityResponse(name: string, memberCount: int, memberList: seq<string>)
}
