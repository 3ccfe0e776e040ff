/** The in-community channel filter of `Members._channels_in_community` and
    what `Members._get_channels` accumulates with it, as specification
    functions, with the properties the class methods rely on. */
module ChannelFilter {
  import opened CommunityData

  /** A channel is in the community when both endpoints are in the member
      list (Python `in` on a list: exact string match). */
  predicate InCommunity(members: seq<string>, c: Channel)
  {
    c.node1Pub in members && c.node2Pub in members
  }

  /** The channel has `node` as one of its endpoints. */
  predicate Touches(c: Channel, node: string)
  {
    c.node1Pub == node || c.node2Pub == node
  }

  // ---------------------------------------------------------------------------
  // The guard at Members.py line 58, as Python reads it
  // ---------------------------------------------------------------------------

  /** The two kinds of Python value that the `in` test of the guard compares:
      the string `short_channel_id` and the channel dictionaries held in
      `self.result`. */
  datatype PyValue = PyStr(s: string) | PyRecord(c: Channel)

  /** `self.result` seen as the Python list that `in` scans. */
  function AsPyList(result: seq<Channel>): seq<PyValue>
  {
    if result == [] then [] else [PyRecord(result[0])] + AsPyList(result[1..])
  }

  /** The guard as written, `A or (B and C)` by Python precedence, where C is
      `item["short_channel_id"] not in self.result`. */
  predicate GuardAsWritten(c: Channel, node: string, result: seq<Channel>)
  {
    c.node1Pub == node || (c.node2Pub == node && PyStr(c.shortChannelId) !in AsPyList(result))
  }

  /** A string never equals a channel record, so the id test never rejects. */
  lemma {:induction false} IdTestNeverRejects(id: string, result: seq<Channel>)
    ensures PyStr(id) !in AsPyList(result)
  {
    if result != [] {
      IdTestNeverRejects(id, result[1..]);
    }
  }

  /** The as-written guard accepts exactly the channels that touch `node`,
      whatever `result` already holds. */
  lemma GuardAsWrittenIsTouches(c: Channel, node: string, result: seq<Channel>)
    ensures GuardAsWritten(c, node, result) <==> Touches(c, node)
  {
    IdTestNeverRejects(c.shortChannelId, result);
  }

  // ---------------------------------------------------------------------------
  // What one call of `_channels_in_community` appends
  // ---------------------------------------------------------------------------

  /** The channels that one call appends to `result`, in the order of
      `channels`: those in the community that touch `node`. Defined on the
      last element so that it grows the way the loop does. */
  function Kept(members: seq<string>, channels: seq<Channel>, node: string): seq<Channel>
  {
    if channels == [] then []
    else
      var last := channels[|channels| - 1];
      Kept(members, channels[..|channels| - 1], node)
        + (if InCommunity(members, last) && Touches(last, node) then [last] else [])
  }

  /** A channel is appended iff it is in the input, both endpoints are members
      and it touches the member being processed. */
  lemma {:induction false} KeptMembership(members: seq<string>, channels: seq<Channel>, node: string, c: Channel)
    ensures c in Kept(members, channels, node)
        <==> c in channels && InCommunity(members, c) && Touches(c, node)
  {
    if channels != [] {
      var init := channels[..|channels| - 1];
      assert channels == init + [channels[|channels| - 1]];
      KeptMembership(members, init, node, c);
    }
  }

  /** How many times `c` occurs in `s`. */
  function Occurrences(s: seq<Channel>, c: Channel): nat
  {
    if s == [] then 0
    else Occurrences(s[..|s| - 1], c) + (if s[|s| - 1] == c then 1 else 0)
  }

  lemma {:induction false} OccurrencesConcat(a: seq<Channel>, b: seq<Channel>, c: Channel)
    ensures Occurrences(a + b, c) == Occurrences(a, c) + Occurrences(b, c)
  {
    if b == [] {
      assert a + b == a;
    } else {
      var initB := b[..|b| - 1];
      assert (a + b)[..|a + b| - 1] == a + initB;
      OccurrencesConcat(a, initB, c);
    }
  }

  /** `c` occurs in `s` iff it is counted at least once. */
  lemma {:induction false} OccurrencesPositive(s: seq<Channel>, c: Channel)
    ensures c in s <==> Occurrences(s, c) > 0
  {
    if s != [] {
      var init := s[..|s| - 1];
      assert s == init + [s[|s| - 1]];
      OccurrencesPositive(init, c);
    }
  }

  /** Every occurrence of an in-community channel touching `node` is appended,
      and nothing else is: the filter never deduplicates. */
  lemma {:induction false} KeptCount(members: seq<string>, channels: seq<Channel>, node: string, c: Channel)
    ensures Occurrences(Kept(members, channels, node), c)
         == if InCommunity(members, c) && Touches(c, node) then Occurrences(channels, c) else 0
  {
    if channels != [] {
      var last := channels[|channels| - 1];
      var init := channels[..|channels| - 1];
      KeptCount(members, init, node, c);
      OccurrencesConcat(Kept(members, init, node),
                        if InCommunity(members, last) && Touches(last, node) then [last] else [], c);
      assert Occurrences([last], c) == if last == c then 1 else 0 by {
        assert [last][..0] == [];
      }
    }
  }

  /** Order is kept: the channels appended for `a + b` are those for `a`
      followed by those for `b`. */
  lemma {:induction false} KeptConcat(members: seq<string>, a: seq<Channel>, b: seq<Channel>, node: string)
    ensures Kept(members, a + b, node) == Kept(members, a, node) + Kept(members, b, node)
  {
    if b == [] {
      assert a + b == a;
    } else {
      var initB := b[..|b| - 1];
      assert (a + b)[..|a + b| - 1] == a + initB;
      KeptConcat(members, a, initB, node);
    }
  }

  // ---------------------------------------------------------------------------
  // What `_get_channels` accumulates over the member list
  // ---------------------------------------------------------------------------

  /** `result` after the first `k` members have been processed, starting
      from the empty list: the channels kept from member `i`'s response, for
      `i` in member order. */
  function Accumulated(members: seq<string>, responses: seq<NodeResponse>, k: nat): seq<Channel>
    requires k <= |members| && k <= |responses|
  {
    if k == 0 then []
    else Accumulated(members, responses, k - 1) + Kept(members, responses[k - 1].channels, members[k - 1])
  }

  /** The node infos that `_get_channels` appends, one per answer, in order. */
  function NodeInfos(responses: seq<NodeResponse>): seq<NodeInfo>
  {
    if responses == [] then []
    else NodeInfos(responses[..|responses| - 1]) + [responses[|responses| - 1].node]
  }

  /** The total capacities that `_get_channels` appends, one per answer, in order. */
  function Capacities(responses: seq<NodeResponse>): seq<int>
  {
    if responses == [] then []
    else Capacities(responses[..|responses| - 1]) + [responses[|responses| - 1].totalCapacity]
  }

  /** Positional correspondence: entry `i` of the node infos and of the
      capacities comes from answer `i`. */
  lemma {:induction false} PerMemberAt(responses: seq<NodeResponse>)
    ensures |NodeInfos(responses)| == |responses| && |Capacities(responses)| == |responses|
    ensures forall i :: 0 <= i < |responses| ==>
              NodeInfos(responses)[i] == responses[i].node
              && Capacities(responses)[i] == responses[i].totalCapacity
  {
    if responses != [] {
      PerMemberAt(responses[..|responses| - 1]);
    }
  }

  /** A channel is in the accumulated result iff some processed member's
      response lists it, it is in the community and it touches that member. */
  lemma {:induction false} AccumulatedMembership(members: seq<string>, responses: seq<NodeResponse>, k: nat, c: Channel)
    requires k <= |members| && k <= |responses|
    ensures c in Accumulated(members, responses, k)
        <==> InCommunity(members, c)
             && exists i :: 0 <= i < k && c in responses[i].channels && Touches(c, members[i])
  {
    if k > 0 {
      AccumulatedMembership(members, responses, k - 1, c);
      KeptMembership(members, responses[k - 1].channels, members[k - 1], c);
    }
  }

  /** How many of the first `k` members `c` touches, weighted by how often
      each of their responses lists `c`. */
  function TouchCount(members: seq<string>, responses: seq<NodeResponse>, k: nat, c: Channel): nat
    requires k <= |members| && k <= |responses|
  {
    if k == 0 then 0
    else TouchCount(members, responses, k - 1, c) + TouchTerm(members, responses, k - 1, c)
  }

  /** How many copies of `c` the batch of member `i` contributes. */
  function TouchTerm(members: seq<string>, responses: seq<NodeResponse>, i: nat, c: Channel): nat
    requires i < |members| && i < |responses|
  {
    if Touches(c, members[i]) then Occurrences(responses[i].channels, c) else 0
  }

  /** An in-community channel is appended once per listing by a member it
      touches: with the as-written guard, once for each endpoint. */
  lemma {:induction false} AccumulatedCount(members: seq<string>, responses: seq<NodeResponse>, k: nat, c: Channel)
    requires k <= |members| && k <= |responses|
    requires InCommunity(members, c)
    ensures Occurrences(Accumulated(members, responses, k), c) == TouchCount(members, responses, k, c)
  {
    if k == 0 {
      assert Accumulated(members, responses, k) == [];
    } else {
      AccumulatedCount(members, responses, k - 1, c);
      AccumulatedStepCount(members, responses, k, c);
      assert TouchCount(members, responses, k, c)
          == TouchCount(members, responses, k - 1, c) + TouchTerm(members, responses, k - 1, c);
    }
  }

  /** Processing member `k - 1` adds the copies of `c` that its batch keeps. */
  lemma AccumulatedStepCount(members: seq<string>, responses: seq<NodeResponse>, k: nat, c: Channel)
    requires 0 < k <= |members| && k <= |responses|
    requires InCommunity(members, c)
    ensures Occurrences(Accumulated(members, responses, k), c)
         == Occurrences(Accumulated(members, responses, k - 1), c) + TouchTerm(members, responses, k - 1, c)
  {
    var prev := Accumulated(members, responses, k - 1);
    var kept := Kept(members, responses[k - 1].channels, members[k - 1]);
    OccurrencesConcat(prev, kept, c);
    KeptCount(members, responses[k - 1].channels, members[k - 1], c);
  }

  /** Two different positions whose members `c` touches and whose answers
      list `c` each add at least one to the count once they are processed. */
  lemma {:induction false} TouchCountAtLeast(members: seq<string>, responses: seq<NodeResponse>, k: nat, c: Channel, i: nat, j: nat)
    requires k <= |members| && k <= |responses|
    requires i != j && i < |members| && j < |members| && i < |responses| && j < |responses|
    requires Touches(c, members[i]) && c in responses[i].channels
    requires Touches(c, members[j]) && c in responses[j].channels
    ensures TouchCount(members, responses, k, c) >= (if i < k then 1 else 0) + (if j < k then 1 else 0)
  {
    if k > 0 {
      TouchCountAtLeast(members, responses, k - 1, c, i, j);
      OccurrencesPositive(responses[k - 1].channels, c);
    }
  }

  /** A channel between the members at two different positions, listed in
      both of their responses, ends up in `result` at least twice. */
  lemma AppearsTwice(members: seq<string>, responses: seq<NodeResponse>, c: Channel, i: nat, j: nat)
    requires |responses| == |members|
    requires i != j && i < |members| && j < |members|
    requires members[i] == c.node1Pub && members[j] == c.node2Pub
    requires c in responses[i].channels && c in responses[j].channels
    ensures Occurrences(Accumulated(members, responses, |members|), c) >= 2
  {
    AccumulatedCount(members, responses, |members|, c);
    TouchCountAtLeast(members, responses, |members|, c, i, j);
  }

  /** Two members sharing one channel: the as-written filter stores its
      identifier twice. */
  lemma DuplicateIdAsWritten()
    ensures var x := Channel("x", 100, "A", "B", 0);
            var r := NodeResponse(NodeInfo("a", "#000000"), 100, [x]);
            Accumulated(["A", "B"], [r, r], 2) == [x, x]
            && !UniqueIds(Accumulated(["A", "B"], [r, r], 2))
  {
    var x := Channel("x", 100, "A", "B", 0);
    var r := NodeResponse(NodeInfo("a", "#000000"), 100, [x]);
    assert Kept(["A", "B"], [x], "A") == [x];
    assert Kept(["A", "B"], [x], "B") == [x];
    assert Accumulated(["A", "B"], [r, r], 1) == [x];
    assert Accumulated(["A", "B"], [r, r], 2) == [x, x];
    assert [x, x][0].shortChannelId == [x, x][1].shortChannelId;
  }

  /** One member's batch with one member-to-member channel and one channel to
      an outsider: only the first is kept. */
  lemma OutsiderRejected()
    ensures var x := Channel("x", 100, "A", "B", 0);
            var y := Channel("y", 50, "A", "D", 0);
            Kept(["A", "B", "C"], [x, y], "A") == [x]
  {
    var x := Channel("x", 100, "A", "B", 0);
    var y := Channel("y", 50, "A", "D", 0);
    assert [x, y][..1] == [x];
    assert Kept(["A", "B", "C"], [x], "A") == [x];
    assert !InCommunity(["A", "B", "C"], y);
  }

  // ---------------------------------------------------------------------------
  // The evidently intended rule: append if relevant and the id is new
  // ---------------------------------------------------------------------------

  /** Some entry of `result` carries the short channel id `id`. */
  predicate IdPresent(id: string, result: seq<Channel>)
  {
    exists k :: 0 <= k < |result| && result[k].shortChannelId == id
  }

  /** No two entries of `result` share a short channel id. */
  predicate UniqueIds(result: seq<Channel>)
  {
    forall p, q :: 0 <= p < q < |result| ==> result[p].shortChannelId != result[q].shortChannelId
  }

  /** The guard read as `(A or B) and C`, with C comparing identifiers. */
  predicate GuardIntended(c: Channel, node: string, result: seq<Channel>)
  {
    Touches(c, node) && !IdPresent(c.shortChannelId, result)
  }

  /** `result` after one batch under the intended rule. */
  function AppendIntended(members: seq<string>, channels: seq<Channel>, node: string, result: seq<Channel>): seq<Channel>
  {
    if channels == [] then result
    else
      var c := channels[0];
      AppendIntended(members, channels[1..], node,
        if InCommunity(members, c) && GuardIntended(c, node, result) then result + [c] else result)
  }

  /** Under the intended rule `result` only grows at its end, every new entry
      is an in-community channel of the batch touching `node`, and identifiers
      stay unique. */
  lemma {:induction false} IntendedAppendsUnique(members: seq<string>, channels: seq<Channel>, node: string, result: seq<Channel>)
    requires UniqueIds(result)
    ensures var r := AppendIntended(members, channels, node, result);
            |result| <= |r| && r[..|result|] == result && UniqueIds(r)
            && forall k :: |result| <= k < |r| ==> r[k] in channels && InCommunity(members, r[k]) && Touches(r[k], node)
  {
    if channels != [] {
      var c := channels[0];
      var next := if InCommunity(members, c) && GuardIntended(c, node, result) then result + [c] else result;
      if next != result {
        forall p, q | 0 <= p < q < |next|
          ensures next[p].shortChannelId != next[q].shortChannelId
        {
          if q == |result| {
            assert next[p] == result[p];
          }
        }
      }
      IntendedAppendsUnique(members, channels[1..], node, next);
      var r := AppendIntended(members, channels, node, result);
      assert r == AppendIntended(members, channels[1..], node, next);
      assert r[..|next|] == next;
      assert r[..|result|] == next[..|result|];
      forall k | |result| <= k < |r|
        ensures r[k] in channels && InCommunity(members, r[k]) && Touches(r[k], node)
      {
        if k < |next| {
          assert r[k] == next[k] == c;
        } else {
          assert r[k] in channels[1..];
        }
      }
    }
  }

  /** Under the intended rule every in-community channel of the batch that
      touches `node` is represented in the new `result` by its identifier. */
  lemma {:induction false} IntendedCovers(members: seq<string>, channels: seq<Channel>, node: string, result: seq<Channel>, c: Channel)
    requires c in channels && InCommunity(members, c) && Touches(c, node)
    ensures IdPresent(c.shortChannelId, AppendIntended(members, channels, node, result))
  {
    var d := channels[0];
    var next := if InCommunity(members, d) && GuardIntended(d, node, result) then result + [d] else result;
    if c == d {
      assert IdPresent(c.shortChannelId, next) by {
        if !IdPresent(c.shortChannelId, result) {
          assert next[|result|] == c;
        }
      }
      IdPresentKept(members, channels[1..], node, next, c.shortChannelId);
    } else {
      IntendedCovers(members, channels[1..], node, next, c);
    }
  }

  /** An identifier present before a batch is still present after it. */
  lemma {:induction false} IdPresentKept(members: seq<string>, channels: seq<Channel>, node: string, result: seq<Channel>, id: string)
    requires IdPresent(id, result)
    ensures IdPresent(id, AppendIntended(members, channels, node, result))
  {
    if channels != [] {
      var c := channels[0];
      var next := if InCommunity(members, c) && GuardIntended(c, node, result) then result + [c] else result;
      var k :| 0 <= k < |result| && result[k].shortChannelId == id;
      assert next[k] == result[k];
      IdPresentKept(members, channels[1..], node, next, id);
    }
  }

  /** On the two-member example the intended rule stores the shared channel
      once, where the as-written filter stores it twice. */
  lemma DuplicateIdIntended()
    ensures var x := Channel("x", 100, "A", "B", 0);
            AppendIntended(["A", "B"], [x], "B", AppendIntended(["A", "B"], [x], "A", [])) == [x]
  {
    var x := Channel("x", 100, "A", "B", 0);
    assert AppendIntended(["A", "B"], [x], "A", []) == [x];
    assert IdPresent("x", [x]);
  }
}
