# mini-gatekeeper services, modelled in Dafny

The repository protects a slow backend with a request-coalescing cache. The
first caller to miss a key takes an advisory lock: a set-if-absent ("NX")
write into an in-memory TTL cache. Other callers subscribe to a topic named
after the key and wait for the value to be published. This project models the
two in-memory services that protocol is built on, with each operation treated
as atomic:

- `Cache` (cache.dfy) models `InMemoryCacheService`. It holds two maps:
  `cache` for values and `expirations` for deadlines. The operations are Get,
  Set (with its NX and TTL options), Delete, and one pass of the
  expired-key cleanup loop. That pass is `Sweep(now)`, and the clock reading
  is a parameter.
- `PubSub` (pubsub.dfy) models `InMemoryPubSubService`. It holds a registry
  from topic to subscriptions, and its operations are Subscribe, Unsubscribe
  and Publish. A subscription's channel is represented by its id alone.
  Publish returns the message each recipient is handed.
- `Wrappers` (wrappers.dfy) holds `Option` and a Go-style `Error` that carries
  only its message.

Each service is a class whose fields are the Go struct's maps. Its methods
update those fields in the same steps as the Go code. Each method is proved
to produce exactly the state given by a pure transition function:
`SetStore`, `DeleteStore`, `SweepStore`, `AddSubscriber` and
`RemoveSubscriber`. The observable properties are stated on those functions,
and the lemmas about sequences of operations are stated over them.

The model follows the code wherever it differs from an idealised TTL cache
(one whose Get hides expired keys and whose Delete clears the deadline):
- Get never consults `expirations`. A key past its deadline is still returned
  until a sweep removes it.
- NX tests only whether the key is present in `cache`. An entry past its
  deadline that has not been swept yet still blocks an NX write.
- Set without a positive TTL does not clear an earlier deadline.
- Delete removes the value but not the deadline. Together with the previous
  point, this means a value re-set with no TTL after a Delete can still be
  evicted at the old deadline (`StaleDeadlineEvictsUntimedValue`).
- An entry expires when its deadline is strictly before the sweep's `now`
  (`now.After(expTime)`).

## Model

| member | source | states |
|---|---|---|
| `Cache.CacheService.constructor` | internal/services/cache.go:25-30 | a new service has empty `cache` and `expirations` maps |
| `Cache.Lookup` | internal/services/cache.go:53-58 | Get reports found exactly when the key is in `cache`, returns its value then and the zero value "" otherwise; deadlines play no part |
| `Cache.CacheService.Get` | internal/services/cache.go:53-58 | Get is that read-only lookup on the service's maps: found iff the key is in `cache` |
| `Cache.SetStore` | internal/services/cache.go:60-75 | Set returns false exactly when NX is on and the key is in `cache`, and then changes nothing; otherwise Get of the key yields the new value, a positive TTL records deadline `now + ttl`, no positive TTL leaves `expirations` untouched, and every other key's value and deadline are unchanged |
| `Cache.CacheService.Set` | internal/services/cache.go:60-75 | the in-place NX test, value write and optional deadline write give exactly `SetStore`'s state and result |
| `Cache.DeleteStore` | internal/services/cache.go:77-82 | after Delete the key is absent from `cache`, `expirations` is unchanged (a stale deadline stays) and every other key reads as before |
| `Cache.CacheService.Delete` | internal/services/cache.go:77-82 | Delete changes the maps as `DeleteStore` says and always returns a nil error |
| `Cache.SweepStore` | internal/services/cache.go:42-48 | a sweep at `now` removes from both maps exactly the keys whose deadline is strictly before `now`; every other key keeps its value and its deadline |
| `Cache.CacheService.Sweep` | internal/services/cache.go:42-48 | the loop over `expirations`, deleting expired keys from both maps, yields exactly `SweepStore`'s state |
| `Cache.SweepsCompose` | internal/services/cache.go:42-48 | a sweep followed by a sweep at a later or equal instant equals the later sweep alone |
| `Cache.SweepIdempotent` | internal/services/cache.go:42-48 | sweeping twice at the same instant equals sweeping once |
| `Cache.UntimedKeyStaysUntimed` | internal/services/cache.go:69-72 | a key with no deadline has none after any run of Set, Delete and sweep operations that never sets it with a positive TTL |
| `Cache.UntimedKeySurvivesSweeps` | internal/services/cache.go:43-47 | a key present without a deadline stays present in `cache` (its value may be replaced by an untimed Set) after any run of operations that neither deletes it nor sets it with a positive TTL: no sweep removes it |
| `Cache.TimedValueExpires` | internal/services/cache.go:70-72 | a value written with TTL `ttl` at `t0` is returned by Get after any sweep up to `t0 + ttl` and is absent after any sweep later than that |
| `Cache.NxLockExcludesThenSelfHeals` | internal/services/cache.go:63-67 | after a successful NX Set, a second NX Set fails, leaves the state unchanged and Get still gives the first value; after a sweep past the lock's deadline an NX Set succeeds again |
| `Cache.StaleDeadlineEvictsUntimedValue` | internal/services/cache.go:70-80 | timed Set, Delete, then Set with no TTL: the value is readable, yet a sweep after the first deadline evicts it |
| `PubSub.PubSubService.constructor` | internal/services/pubsub.go:21-26 | a new service has no topics |
| `PubSub.AddSubscriber` | internal/services/pubsub.go:39-48 | Subscribe registers the id under the topic, creating the topic's entry if absent; the topic's earlier subscribers and every other topic are unchanged; no topic is left empty |
| `PubSub.PubSubService.Subscribe` | internal/services/pubsub.go:39-49 | given an id not yet under the topic (the one uuid.New draws), Subscribe returns it and updates the registry as `AddSubscriber` says, keeping the no-empty-topic invariant |
| `PubSub.RemoveSubscriber` | internal/services/pubsub.go:52-68 | Unsubscribe succeeds exactly when the id is under the topic, then removes only that id and drops the topic when it becomes empty; a missing topic yields "no subscribers for topic" and a missing id "subscription not found", both leaving the registry unchanged; other topics never change and no topic is left empty |
| `PubSub.PubSubService.Unsubscribe` | internal/services/pubsub.go:52-68 | the in-place delete and topic removal give exactly `RemoveSubscriber`'s registry and error, keeping the no-empty-topic invariant |
| `PubSub.PubSubService.Publish` | internal/services/pubsub.go:28-37 | Publish hands the message to exactly the ids registered under the topic (none when it has no entry), returns a nil error and changes nothing |
| `PubSub.SubscribeUnsubscribeRoundTrip` | internal/services/pubsub.go:39-68 | subscribing a fresh id and then unsubscribing it restores the registry with no error; unsubscribing it again fails |
| `PubSub.SubscribeAllAdds` | internal/services/pubsub.go:42-47 | subscribing a non-empty batch of ids adds exactly those ids to the topic's entry and touches no other topic |
| `PubSub.SubscribeAllPreservesInvariant` | internal/services/pubsub.go:42-47 | any batch of subscriptions keeps every topic's entry non-empty |
| `PubSub.UnsubscribeAllRemoves` | internal/services/pubsub.go:55-62 | unsubscribing distinct registered ids in any order succeeds every time and removes exactly those ids, dropping the topic if it empties |
| `PubSub.NoLeak` | internal/services/pubsub.go:39-68 | subscribing a batch of fresh ids and then unsubscribing all of them in any order succeeds every time and leaves the registry exactly as before; a topic with no subscribers before has no entry after |

## Left out

- The cache-miss protocol in internal/handler/cache.go is not part of this model. That covers the NX lock race, waiting on a channel with a timeout, the recursive retry and the slow producer. Its guarantee (single flight) is a property of concurrent callers, and this model is sequential.
- main.go (router and HTTP server) is not part of this model.
- The `sync.RWMutex` in both services is not modelled: every operation is treated as atomic.
- The cleanup goroutine's one-millisecond ticker is not modelled: `Sweep(now)` is one pass of its loop, and `time.Now()` is the parameter `now`. Set's reading of the clock is a parameter as well.
- `time.Time` is an unbounded integer instant and `time.Duration` an integer in the same unit. Overflow of `time.Now().Add(ttl)` and the monotonic-clock reading are not modelled.
- Channels are not modelled. Publish's blocking unbuffered send is abstracted to the recipient map it returns, and Unsubscribe's `close(ch)` to the id's removal. A slow receiver stalling Publish is therefore outside the model.
- The random `uuid.New()` is not modelled. Subscribe takes the id as a parameter and requires that it is not already registered under the topic.
- PubSub.PubSubService.Subscribe: returns only the id, not the channel that Go also returns, because channels are not modelled.
- Logging is not modelled.
