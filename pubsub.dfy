/**
 * The in-memory topic broker (InMemoryPubSubService).
 *
 * The service holds a registry from topic to the subscriptions on it. A
 * subscription's channel is abstracted to its id: the registry is a map from
 * topic to a set of ids, and Publish returns the message each recipient is
 * handed. The functions below give the effect of each operation on a
 * registry value; the class `PubSubService` keeps the registry as a field and
 * its methods are proved to have exactly those effects. Every operation is
 * atomic (the mutex is not modelled), and the id uuid.New would draw is
 * supplied by the caller.
 */
module PubSub {
  import opened Wrappers

  /** A uuid.UUID: sixteen bytes. */
  type Uuid = u: seq<bv8> | |u| == 16 witness seq(16, i => 0 as bv8)

  /** The subscriptions of every topic that has an entry. */
  type Registry = map<string, set<Uuid>>

  /** Unsubscribe's error when the topic has an entry but not the id. */
  const SubscriptionNotFound := Error("subscription not found")

  /** Unsubscribe's error when the topic has no entry. */
  const NoSubscribersForTopic := Error("no subscribers for topic")

  /** The registry keeps no topic entry without subscriptions. */
  predicate NoEmptyTopics(reg: Registry)
  {
    forall t :: t in reg ==> reg[t] != {}
  }

  /** The ids registered under `topic`, none when it has no entry. */
  function SubscribersOf(reg: Registry, topic: string): set<Uuid>
  {
    if topic in reg then reg[topic] else {}
  }

  predicate Registered(reg: Registry, topic: string, id: Uuid)
  {
    topic in reg && id in reg[topic]
  }

  /** The registry after Subscribe registers `id` under `topic`. */
  function AddSubscriber(reg: Registry, topic: string, id: Uuid): (r: Registry)
    ensures Registered(r, topic, id)
    ensures SubscribersOf(r, topic) == SubscribersOf(reg, topic) + {id}
    ensures r.Keys == reg.Keys + {topic}
    ensures forall t :: t != topic ==> SubscribersOf(r, t) == SubscribersOf(reg, t)
    ensures NoEmptyTopics(reg) ==> NoEmptyTopics(r)
  {
    reg[topic := SubscribersOf(reg, topic) + {id}]
  }

  /** The registry after Unsubscribe of `id` from `topic`, and the error it returns. */
  function RemoveSubscriber(reg: Registry, topic: string, id: Uuid): (r: (Registry, Option<Error>))
    ensures r.1 == None <==> Registered(reg, topic, id)
    ensures topic !in reg ==> r == (reg, Some(NoSubscribersForTopic))
    ensures topic in reg && id !in reg[topic] ==> r == (reg, Some(SubscriptionNotFound))
    ensures r.1 == None ==> SubscribersOf(r.0, topic) == SubscribersOf(reg, topic) - {id}
    ensures r.1 == None ==> (topic in r.0 <==> SubscribersOf(reg, topic) != {id})
    ensures forall t :: t != topic ==> SubscribersOf(r.0, t) == SubscribersOf(reg, t) && (t in r.0 <==> t in reg)
    ensures NoEmptyTopics(reg) ==> NoEmptyTopics(r.0)
  {
    if topic in reg then
      if id in reg[topic] then
        var rest := reg[topic] - {id};
        if rest == {} then (reg - {topic}, None) else (reg[topic := rest], None)
      else
        (reg, Some(SubscriptionNotFound))
    else
      (reg, Some(NoSubscribersForTopic))
  }

  /**
   * Subscribing a fresh id and then unsubscribing it restores the registry,
   * and unsubscribing it a second time fails.
   */
  lemma SubscribeUnsubscribeRoundTrip(reg: Registry, topic: string, id: Uuid)
    requires NoEmptyTopics(reg) && !Registered(reg, topic, id)
    ensures RemoveSubscriber(AddSubscriber(reg, topic, id), topic, id) == (reg, None)
    ensures RemoveSubscriber(reg, topic, id).1.Some?
  {
    var added := AddSubscriber(reg, topic, id);
    if topic in reg {
      assert added[topic] - {id} == reg[topic];
      assert added[topic := reg[topic]] == reg;
    } else {
      assert added[topic] - {id} == {};
      assert added - {topic} == reg;
    }
  }

  /** No two positions of `ids` hold the same id. */
  predicate Distinct(ids: seq<Uuid>)
  {
    forall i, j :: 0 <= i < j < |ids| ==> ids[i] != ids[j]
  }

  /** Subscribe to `topic` once for each of `ids`, in order. */
  function SubscribeAll(reg: Registry, topic: string, ids: seq<Uuid>): Registry
    decreases |ids|
  {
    if ids == [] then reg else SubscribeAll(AddSubscriber(reg, topic, ids[0]), topic, ids[1..])
  }

  /** Unsubscribe each of `ids` from `topic`, in order; true when none of them failed. */
  function UnsubscribeAll(reg: Registry, topic: string, ids: seq<Uuid>): (Registry, bool)
    decreases |ids|
  {
    if ids == [] then (reg, true)
    else
      var (r, err) := RemoveSubscriber(reg, topic, ids[0]);
      var (r', ok) := UnsubscribeAll(r, topic, ids[1..]);
      (r', ok && err == None)
  }

  /** `reg` with the ids in `gone` taken off `topic`, the entry dropped when nothing is left. */
  function Without(reg: Registry, topic: string, gone: set<Uuid>): Registry
  {
    var rest := SubscribersOf(reg, topic) - gone;
    if rest == {} then reg - {topic} else reg[topic := rest]
  }

  /** Subscribing a non-empty batch adds exactly its ids to the topic's entry. */
  lemma {:induction false} SubscribeAllAdds(reg: Registry, topic: string, ids: seq<Uuid>)
    requires ids != []
    ensures SubscribeAll(reg, topic, ids) == reg[topic := SubscribersOf(reg, topic) + set i | i in ids]
    decreases |ids|
  {
    var r1 := AddSubscriber(reg, topic, ids[0]);
    if ids[1..] == [] {
      assert (set i | i in ids) == {ids[0]};
    } else {
      SubscribeAllAdds(r1, topic, ids[1..]);
      assert (set i | i in ids) == {ids[0]} + set i | i in ids[1..];
      var all := SubscribersOf(reg, topic) + set i | i in ids;
      assert SubscribersOf(r1, topic) + (set i | i in ids[1..]) == all;
      assert r1[topic := all] == reg[topic := all];
    }
  }

  /** Unsubscribing distinct registered ids, in any order, succeeds and removes exactly them. */
  lemma {:induction false} UnsubscribeAllRemoves(reg: Registry, topic: string, ids: seq<Uuid>)
    requires NoEmptyTopics(reg) && Distinct(ids)
    requires forall i :: 0 <= i < |ids| ==> Registered(reg, topic, ids[i])
    ensures UnsubscribeAll(reg, topic, ids) == (Without(reg, topic, set i | i in ids), true)
    decreases |ids|
  {
    if ids == [] {
      assert (set i | i in ids) == {};
      if topic in reg {
        assert SubscribersOf(reg, topic) - {} == reg[topic] != {};
        assert reg[topic := reg[topic]] == reg;
      } else {
        assert reg - {topic} == reg;
      }
      assert Without(reg, topic, set i | i in ids) == reg;
    } else {
      var (r1, err) := RemoveSubscriber(reg, topic, ids[0]);
      assert err == None;
      forall i | 0 <= i < |ids[1..]|
        ensures Registered(r1, topic, ids[1..][i])
      {
        assert ids[1..][i] == ids[i + 1] != ids[0];
      }
      UnsubscribeAllRemoves(r1, topic, ids[1..]);
      var all := set i | i in ids;
      var rest := set i | i in ids[1..];
      assert all == {ids[0]} + rest;
      assert SubscribersOf(r1, topic) - rest == SubscribersOf(reg, topic) - all;
      assert Without(r1, topic, rest) == Without(reg, topic, all);
    }
  }

  /**
   * No leak: subscribing a batch of fresh ids to `topic` and then
   * unsubscribing all of them, in any order, succeeds every time and leaves
   * the registry as it was; in particular a topic that had no subscribers
   * has no entry afterwards.
   */
  lemma NoLeak(reg: Registry, topic: string, ids: seq<Uuid>, order: seq<Uuid>)
    requires NoEmptyTopics(reg) && Distinct(ids) && Distinct(order)
    requires (set i | i in order) == set i | i in ids
    requires forall i :: 0 <= i < |ids| ==> !Registered(reg, topic, ids[i])
    ensures UnsubscribeAll(SubscribeAll(reg, topic, ids), topic, order) == (reg, true)
  {
    var all := set i | i in ids;
    if ids == [] {
      assert all == {};
      assert forall k :: 0 <= k < |order| ==> order[k] in all;
    } else {
      SubscribeAllAdds(reg, topic, ids);
      var r1 := SubscribeAll(reg, topic, ids);
      assert ids[0] in all;
      forall u | u in all ensures u !in SubscribersOf(reg, topic) {
        var i :| 0 <= i < |ids| && ids[i] == u;
      }
      BatchRegistered(r1, topic, order);
      SubscribeAllPreservesInvariant(reg, topic, ids);
      UnsubscribeAllRemoves(r1, topic, order);
      WithoutUndoesBatch(reg, topic, all);
    }
  }

  /** Every id of `order` is registered when the topic's entry holds all of them. */
  lemma BatchRegistered(reg: Registry, topic: string, order: seq<Uuid>)
    requires (set i | i in order) <= SubscribersOf(reg, topic)
    ensures forall i :: 0 <= i < |order| ==> Registered(reg, topic, order[i])
  {
    forall i | 0 <= i < |order| ensures Registered(reg, topic, order[i]) {
      assert order[i] in set j | j in order;
      assert order[i] in SubscribersOf(reg, topic);
    }
  }

  /** Taking a non-empty batch of new ids back off a topic restores the registry. */
  lemma WithoutUndoesBatch(reg: Registry, topic: string, batch: set<Uuid>)
    requires NoEmptyTopics(reg) && batch != {}
    requires batch !! SubscribersOf(reg, topic)
    ensures Without(reg[topic := SubscribersOf(reg, topic) + batch], topic, batch) == reg
  {
  }

  lemma SubscribeAllPreservesInvariant(reg: Registry, topic: string, ids: seq<Uuid>)
    requires NoEmptyTopics(reg)
    ensures NoEmptyTopics(SubscribeAll(reg, topic, ids))
    decreases |ids|
  {
    if ids != [] {
      SubscribeAllPreservesInvariant(AddSubscriber(reg, topic, ids[0]), topic, ids[1..]);
    }
  }

  /** InMemoryPubSubService: the registry, updated in place. */
  class PubSubService {
    var subscribers: Registry

    ghost predicate Valid()
      reads this
    {
      NoEmptyTopics(subscribers)
    }

    /** NewInMemoryPubSubService: no topics. */
    constructor ()
      ensures Valid() && subscribers == map[]
    {
      subscribers := map[];
    }

    /**
     * Publish: hand `message` to every subscription of `topic`, none when
     * the topic has no entry; the error is always nil and the registry is
     * not changed. The result maps each recipient to what it was handed.
     */
    method Publish(topic: string, message: string) returns (delivered: map<Uuid, string>, err: Option<Error>)
      ensures delivered.Keys == SubscribersOf(subscribers, topic)
      ensures forall id :: id in delivered ==> delivered[id] == message
      ensures err == None
    {
      delivered := map[];
      if topic in subscribers {
        var channels := subscribers[topic];
        var pending := channels;
        while pending != {}
          invariant pending <= channels
          invariant delivered.Keys == channels - pending
          invariant forall id :: id in delivered ==> delivered[id] == message
          decreases pending
        {
          var id :| id in pending;
          delivered := delivered[id := message];
          pending := pending - {id};
        }
      }
      err := None;
    }

    /** Subscribe: register `newId` (the id uuid.New draws) under `topic`, creating its entry if absent. */
    method Subscribe(topic: string, newId: Uuid) returns (id: Uuid)
      requires Valid()
      requires !Registered(subscribers, topic, newId)
      modifies this
      ensures Valid()
      ensures id == newId
      ensures subscribers == AddSubscriber(old(subscribers), topic, newId)
    {
      if topic !in subscribers {
        subscribers := subscribers[topic := {}];
      }
      id := newId;
      subscribers := subscribers[topic := subscribers[topic] + {id}];
    }

    /** Unsubscribe: remove `id` from `topic`, dropping the topic once empty; otherwise one of two errors. */
    method Unsubscribe(topic: string, id: Uuid) returns (err: Option<Error>)
      requires Valid()
      modifies this
      ensures Valid()
      ensures (subscribers, err) == RemoveSubscriber(old(subscribers), topic, id)
    {
      if topic in subscribers {
        var channels := subscribers[topic];
        if id in channels {
          channels := channels - {id};
          subscribers := subscribers[topic := channels];
          if |channels| == 0 {
            assert subscribers - {topic} == old(subscribers) - {topic};
            subscribers := subscribers - {topic};
          }
          return None;
        }
        return Some(SubscriptionNotFound);
      }
      return Some(NoSubscribersForTopic);
    }
  }
}
