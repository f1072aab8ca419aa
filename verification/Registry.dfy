/**
 What an endpoint's channels have to do with one client's: which of them its vector holds, and which
 requests were made for them.
 */
module Registry {
  import opened Base
  import opened SendTask
  import opened PeerConnections

  /**
     One client's vector against the endpoint: every opened id has a channel there, and an id
     that has a channel there is not available.
   */
  ghost predicate SlotsInv(v: Slots, openIds: set<ChannelId>, available: set<ChannelId>) {
    && Aligned(v)
    && (forall k: ChannelId :: k in openIds ==> Slot(v, k).Some?)
    && (forall k: ChannelId :: Slot(v, k).Some? ==> k !in available)
  }

  lemma RegisterKeepsSlots(v: Slots, openIds: set<ChannelId>, available: set<ChannelId>, c: Channel)
    requires SlotsInv(v, openIds, available) && c.id !in available
    ensures SlotsInv(Registered(v, c), openIds + {c.id}, available)
  {
    RegisteredAligned(v, c);
    RegisteredSlots(v, c);
  }

  lemma LoseKeepsSlots(before: Slots, after: Slots, openIds: set<ChannelId>, available: set<ChannelId>, id: ChannelId)
    requires SlotsInv(before, openIds, available) && (Loses(before, after, id) || before == after)
    ensures SlotsInv(after, openIds - {id}, available)
    ensures Loses(before, after, id) ==> SlotsInv(after, openIds - {id}, available + {id})
  {
    forall i | 0 <= i < |after| && after[i].Some? ensures after[i].value.id == i {
      assert after[i] == Slot(after, i);
    }
  }

  /** The vector is exactly as long as the highest of `ids` demands, with a channel under each of them. */
  ghost predicate HoldsExactly(v: Slots, ids: set<ChannelId>) {
    && (forall k: ChannelId :: Slot(v, k).Some? <==> k in ids)
    && |v| <= MAX_CHANNEL_COUNT
    && (v != [] ==> v[|v| - 1].Some?)
  }

  lemma HoldsOneMore(v: Slots, ids: set<ChannelId>, c: Channel)
    requires Aligned(v) && HoldsExactly(v, ids)
    ensures Aligned(Registered(v, c)) && HoldsExactly(Registered(v, c), ids + {c.id})
  {
    RegisteredAligned(v, c);
    RegisteredSlots(v, c);
  }

  /** The ids that channels are requested for, each as often as it is requested. */
  ghost function RequestedIds(requests: seq<CreateChannel>): multiset<ChannelId> {
    if requests == [] then multiset{}
    else RequestedIds(requests[..|requests| - 1]) + multiset{requests[|requests| - 1].channel.id}
  }

  /** One request for each of `ids`, with its configuration, that carries the registered channel. */
  ghost predicate RequestsFor(requests: seq<CreateChannel>, v: Slots, configs: map<ChannelId, ChannelConfig>, ids: set<ChannelId>) {
    && RequestedIds(requests) == multiset(ids)
    && (forall q :: q in requests ==>
          && q.channel.id in ids && q.channel.id in configs
          && q.config == configs[q.channel.id] && Slot(v, q.channel.id) == Some(q.channel))
  }

  lemma OneMoreRequest(requests: seq<CreateChannel>, v: Slots, configs: map<ChannelId, ChannelConfig>, ids: set<ChannelId>,
                       q: CreateChannel)
    requires RequestsFor(requests, v, configs, ids)
    requires q.channel.id !in ids && q.channel.id in configs && q.config == configs[q.channel.id]
    ensures RequestsFor(requests + [q], Registered(v, q.channel), configs, ids + {q.channel.id})
  {
    RegisteredSlots(v, q.channel);
    assert (requests + [q])[..|requests|] == requests;
    assert multiset(ids + {q.channel.id}) == multiset(ids) + multiset{q.channel.id};
  }

  lemma ExactSlots(v: Slots, ids: set<ChannelId>, available: set<ChannelId>)
    requires Aligned(v) && HoldsExactly(v, ids) && ids !! available
    ensures SlotsInv(v, ids, available)
  {
  }

  /**
     The vector holds exactly the channels `ids`, of those that are open, and `requests` are the last
     of all requests: one for each, with its configuration and the channel it holds.
   */
  ghost predicate Holds(v: Slots, all: seq<CreateChannel>, base: seq<CreateChannel>, requests: seq<CreateChannel>,
                        configs: map<ChannelId, ChannelConfig>, ids: set<ChannelId>) {
    && Aligned(v) && HoldsExactly(v, ids)
    && all == base + requests
    && RequestsFor(requests, v, configs, ids)
  }

  lemma HoldsNone(all: seq<CreateChannel>, configs: map<ChannelId, ChannelConfig>)
    ensures Holds([], all, all, [], configs, {})
  {
    assert all + [] == all;
  }

  lemma HoldsNext(v: Slots, all: seq<CreateChannel>, base: seq<CreateChannel>, requests: seq<CreateChannel>,
                  configs: map<ChannelId, ChannelConfig>, ids: set<ChannelId>, q: CreateChannel)
    requires Holds(v, all, base, requests, configs, ids)
    requires q.channel.id !in ids && q.channel.id in configs && q.config == configs[q.channel.id]
    ensures Holds(Registered(v, q.channel), all + [q], base, requests + [q], configs, ids + {q.channel.id})
  {
    HoldsOneMore(v, ids, q.channel);
    OneMoreRequest(requests, v, configs, ids, q);
    ConcatAssociative(base, requests, [q]);
  }
}
