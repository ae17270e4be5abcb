# cache-wrapper, modelled in Dafny

`cache-wrapper` puts a promise-returning facade in front of a Catbox client backed
by Redis. Callers `set` and `get` values by segment and key. A request made while
the client is not ready is queued, and the client is restarted. When the restart
completes, every queued request is settled in order. `delete` removes every key of
a segment that starts with a prefix. It asks Redis directly for the matching raw
keys (`redisWrapper.keys`), then drops each one through the segment's policy.

The model has five modules:

- `Wrappers`: the `Option` type.
- `UriComponent`: `encodeURIComponent` and `decodeURIComponent` over ASCII text,
  with the round trip proved.
- `RedisWrapper`: how `keys` builds the namespace and the glob pattern, strips the
  namespace and decodes what Redis returns. The options object is the class
  `DeleteOptions`, and `Keys` is a method on it.
- `Catbox`: the part of a Catbox policy the facade uses. `get`, `set` and `drop`
  work on a map from segment to keys and values. A `failing` switch stands for any
  error the policy reports.
- `CacheWrapper`: the module state of lib/cacheWrapper.js as the class `Cache`.
  Its fields are the client flags, the queue, the policy registry, the partition
  and the store. Each request gets an id, and `results` holds the state of the
  promise returned for it.

`Cache.Valid()` is the invariant every public method keeps:

- Exactly the ids handed out so far have a promise.
- A request is pending exactly when it is in the queue.
- Queued ids are distinct.
- A restart is in flight exactly while the queue is not empty.
- Exactly one `cacheClient.start` is outstanding per non-empty queue.

The callback of that start is the event `CompleteStart(ok)`. It is proved to settle
every queued request exactly once, as the function `Replay` says.

The model follows the code as written in these places:

- The policy registry is filled entry by entry, and a later entry for the same
  segment replaces the earlier one.
- `keys` issues a single Redis `KEYS` command. Its namespace is `cacheWrapper:<segment>:`,
  the segment is not encoded, `options.partition` is ignored, and a Redis error is
  ignored.
- After a restart, each queued item's rejection message and its choice between
  `stash` and `retrieve` come from the options of the request that triggered the
  restart, not from the item's own options.
- `_delete` hands `Q.allSettled` the deferred of each drop rather than its
  promise. Q takes an object without a `then` method as an already fulfilled
  value, so every entry is fulfilled with the deferred itself, whatever the drop
  reports.
- The test suite initialises with an empty configuration object, which
  `initialise` rejects. The scenarios here use a non-empty configuration.

## Model

| member | source | states |
|---|---|---|
| UriComponent.HexDigit | lib/redisWrapper.js:28 | the hex digit written for a nibble is a hex digit, reads back as that nibble, and is never `%` |
| UriComponent.EncodeChar | lib/redisWrapper.js:28 | an unreserved character is kept; any other is written as `%` followed by two hex digits whose value is the character's code |
| UriComponent.EncodeAppend | lib/redisWrapper.js:28 | encoding works character by character: encoding a concatenation is the concatenation of the encodings |
| UriComponent.DecodeEncode | lib/redisWrapper.js:28-34 | `decodeURIComponent` undoes `encodeURIComponent` on every ASCII string |
| RedisWrapper.FindFrom | lib/redisWrapper.js:34 | the position found is an occurrence of the pattern, no earlier one exists, and no result means no occurrence |
| RedisWrapper.StripFirstAt | lib/redisWrapper.js:34 | `replace` with a string pattern removes the first occurrence only, keeping the text before and after it as it was |
| RedisWrapper.StripFirstAbsent | lib/redisWrapper.js:34 | `replace` with a string pattern that does not occur leaves the text unchanged |
| RedisWrapper.DecodeAll | lib/redisWrapper.js:32-35 | the map succeeds iff every raw key decodes; it then has one user key per raw key, in order, each the decoding of its stripped raw key |
| RedisWrapper.NoReplyNoKeys | lib/redisWrapper.js:30-37 | when the `KEYS` call answers with nothing (its error ignored), `options.keys` becomes the empty list and the promise resolves |
| RedisWrapper.StripLeading | lib/redisWrapper.js:34 | stripping the namespace from a key that starts with it leaves exactly the rest, even if the rest contains the namespace again |
| RedisWrapper.RawKeyRoundTrip | lib/redisWrapper.js:27-34 | a user key stored under `namespace + encode(key)` comes back from `keys` as that same key |
| RedisWrapper.RawKeysRoundTrip | lib/redisWrapper.js:30-35 | a reply listing the raw keys of some user keys decodes to exactly those keys, in the same order |
| RedisWrapper.PatternCoversPrefixedKeys | lib/redisWrapper.js:27-28 | every user key that starts with the prefix has a raw key that starts with the pattern's stem, so the glob matches it |
| RedisWrapper.Keys | lib/redisWrapper.js:22-39 | `options.keys` becomes the decoded answer to the pattern when every key decodes, and the promise resolves; otherwise it never settles and `options.keys` is unchanged; no other field changes |
| Catbox.ReadAfterWrite | lib/cacheWrapper.js:53-89 | a `get` after a successful `set` of the same key answers with the value written, without error |
| Catbox.Put | lib/cacheWrapper.js:77 | after a write the key holds the value written |
| Catbox.PutKeepsOthers | lib/cacheWrapper.js:77 | a write changes no other key of any segment |
| Catbox.OtherKeysUnaffected | lib/cacheWrapper.js:77 | a `set` or a `drop` of one key, failing or not, leaves what a `get` of any other key answers |
| Catbox.Remove | lib/cacheWrapper.js:98 | after a removal the key is absent |
| Catbox.RemoveKeepsOthers | lib/cacheWrapper.js:98 | a removal changes no other key of any segment |
| Catbox.ReadAfterDrop | lib/cacheWrapper.js:98 | a `get` after a successful `drop` of the key is a miss, answered with `null`, without error |
| Catbox.FailingPolicy | lib/cacheWrapper.js:55-58 | a failing policy reports an error on every `get`, `set` and `drop`, and a failing `set` or `drop` leaves the store as it was |
| CacheWrapper.StashCases | lib/cacheWrapper.js:75-89 | `_stash` resolves with `undefined` iff the segment has a policy and the write succeeds, and the key then holds the value; otherwise it rejects with "stash failed" or "policy not found for segment" and writes nothing; other keys never change |
| CacheWrapper.RetrieveCases | lib/cacheWrapper.js:53-67 | `_retrieve` never writes; it resolves iff the segment has a policy, the read succeeds and the stored value is truthy, and it resolves with that value; otherwise it rejects with "retrieve failed" or "policy not found for segment" |
| CacheWrapper.NeverPending | lib/cacheWrapper.js:127-133 | the ready path and the start callback settle every request they handle: neither leaves it pending |
| CacheWrapper.FailedRestartMessage | lib/cacheWrapper.js:127-128 | when the restart was triggered by a `set` (a `get`), a failed restart rejects every queued item with "stash failed" ("retrieve failed"), whatever the item's own method, and writes nothing |
| CacheWrapper.Replay | lib/cacheWrapper.js:121-134 | replaying a queue gives one outcome per item |
| CacheWrapper.ReplaySettles | lib/cacheWrapper.js:121-134 | no item of a replayed queue is left pending |
| CacheWrapper.ReplaySnoc | lib/cacheWrapper.js:121-134 | the last item of a queue is settled against the store the items before it left |
| CacheWrapper.IdsBelow | lib/cacheWrapper.js:151 | the ids handed out before `n` are exactly those below `n` |
| CacheWrapper.IssueSettled | lib/cacheWrapper.js:147-165 | a new request that settles at once keeps the promise bookkeeping consistent |
| CacheWrapper.IssueQueued | lib/cacheWrapper.js:151-155 | a new request that joins the queue as pending keeps the promise bookkeeping consistent |
| CacheWrapper.SettleAllSnoc | lib/cacheWrapper.js:121-134 | settling one more item puts its outcome on top of the earlier settlements |
| CacheWrapper.SettleAllKeys | lib/cacheWrapper.js:121-134 | settling queued promises creates no new promise |
| CacheWrapper.SettleAllAt | lib/cacheWrapper.js:121-134 | with distinct ids, each queued promise ends up with its own item's outcome |
| CacheWrapper.SettleAllOthers | lib/cacheWrapper.js:121-134 | a promise that is not queued keeps its state when the queue is settled |
| CacheWrapper.SettledQueue | lib/cacheWrapper.js:121-135 | when exactly the queued promises are pending and each is settled, the bookkeeping is consistent with an empty queue and no promise is pending |
| CacheWrapper.ReplayInOrder | lib/cacheWrapper.js:121-134 | replay is FIFO: item j is settled against the store the first j items left |
| CacheWrapper.ReplayFailure | lib/cacheWrapper.js:127-128 | a failed restart rejects every queued item with "<method> failed", using the triggering request's method, and writes nothing |
| CacheWrapper.ReplayedGetActsAsSet | lib/cacheWrapper.js:129-133 | after a restart triggered by a `set`, a queued `get` is replayed as a `set`: its key is overwritten with the value its options carry (`undefined` when they carry none), and it resolves with `undefined` instead of the value the key held |
| CacheWrapper.StashThenRetrieve | lib/cacheWrapper.js:53-89 | a successful set followed by a get of the same key yields the value, when it is truthy |
| CacheWrapper.FalsyValueNotRetrievable | lib/cacheWrapper.js:56 | a falsy value can be set, but the get that follows rejects with "retrieve failed" |
| CacheWrapper.RegisterDomain | lib/cacheWrapper.js:32-34 | after `initialise`, the registry holds the segments it had plus every segment the entries name |
| CacheWrapper.RegisterKeepsOthers | lib/cacheWrapper.js:32-34 | a segment no entry names keeps the policy it had |
| CacheWrapper.RegisterLastWins | lib/cacheWrapper.js:32-34 | a named segment's policy is built from the last entry that names it |
| CacheWrapper.DropAllLookup | lib/cacheWrapper.js:95-101 | after the drops, a key is gone iff it is in the segment and in the list and the policy did not fail; every other key is untouched |
| CacheWrapper.NoKeysNoDrops | lib/cacheWrapper.js:95 | `_.each` over an absent `options.keys` drops nothing: the store is left as it was |
| CacheWrapper.Cache.constructor | lib/cacheWrapper.js:11-15 | the module starts with no client, no start in flight, an empty queue, no policies and the partition `''` |
| CacheWrapper.Cache.SetReady | lib/cacheWrapper.js:152 | the client's `isReady()` answer changes, and the invariant holds |
| CacheWrapper.Cache.SetFailing | lib/cacheWrapper.js:55-56 | the policy calls start or stop failing, and the invariant holds |
| CacheWrapper.Cache.Initialise | lib/cacheWrapper.js:17-45 | an empty configuration rejects with "no serverConfig passed" and changes nothing; otherwise the partition is taken from the configuration, a client exists that is not yet ready, the registry is extended by `Register`, and the promise is pending |
| CacheWrapper.Cache.Stash | lib/cacheWrapper.js:75-89 | request `id` settles as `StashEffect` says, and the store becomes its store |
| CacheWrapper.Cache.Retrieve | lib/cacheWrapper.js:53-67 | request `id` settles as `RetrieveEffect` says |
| CacheWrapper.Cache.QueueRequest | lib/cacheWrapper.js:114-119 | the request joins the end of the queue; a start is issued and the request becomes the trigger only if no start was in flight |
| CacheWrapper.Cache.AddCallToQueue | lib/cacheWrapper.js:147-165 | without a client, the request rejects with "Cache not initialised"; with a ready client, it is executed at once as `stash` or `retrieve`; otherwise it is queued as pending; the invariant holds |
| CacheWrapper.Cache.Set | lib/cacheWrapper.js:172-175 | a set is the request with method "stash", handled as `AddCallToQueue` says |
| CacheWrapper.Cache.Get | lib/cacheWrapper.js:182-185 | a get is the request with method "retrieve" and the caller's segment, key and value (if any), handled as `AddCallToQueue` says |
| CacheWrapper.Cache.SettleItem | lib/cacheWrapper.js:122-133 | one queued item settles as `Settle` says, with the trigger's method |
| CacheWrapper.Cache.SettleQueue | lib/cacheWrapper.js:121-134 | the items are settled in queue order, each promise with its item's outcome in `Replay`, and the store becomes the one `Replay` ends with; the queue itself is left alone |
| CacheWrapper.Cache.CompleteStart | lib/cacheWrapper.js:120-138 | the start callback settles the queued requests as `Replay` and `SettleAll` say, empties the queue and clears the flag; afterwards no request is pending and the invariant holds |
| CacheWrapper.Cache.DeleteKeys | lib/cacheWrapper.js:91-106 | with a policy for the segment, the listed keys are dropped (as `DropAll` says) and the `allSettled` result has one entry per key, the j-th fulfilled with the j-th drop's deferred; without one, the promise rejects with "policy not found for segment" and nothing is dropped |
| CacheWrapper.Cache.Delete | lib/cacheWrapper.js:192-200 | the partition is copied onto the options; when every raw key decodes, `options.keys` is the found keys and exactly those are dropped; otherwise the promise never settles and nothing changes |
| Scenarios.InitialisedCache | test/lib/cacheWrapperTest.js:14-17 | initialising with the policy of segment "foo" leaves a valid cache with that policy alone and a client that is not ready |
| Scenarios.UninitialisedScenario | test/lib/cacheWrapperTest.js:48-50 | a set before `initialise` rejects with "Cache not initialised" |
| Scenarios.ReadySet | test/lib/cacheWrapperTest.js:56-58 | with a ready client, a set resolves and leaves the item in the store |
| Scenarios.ReadyScenario | test/lib/cacheWrapperTest.js:56-66 | with a ready client, a set resolves, a get of the same key yields its value, and a get of a missing key rejects |
| Scenarios.UnknownSegmentScenario | test/lib/cacheWrapperTest.js:68-74 | a get or a set in a segment without a policy rejects with "policy not found for segment" |
| Scenarios.QueuedSet | test/lib/cacheWrapperTest.js:80-94 | with the client not ready, a set stays pending until the restart completes; it then resolves, or rejects with "stash failed" when the restart fails |
| Scenarios.QueuedScenario | test/lib/cacheWrapperTest.js:80-98 | with the client not ready, a set stays pending until the restart completes, then resolves; a get queued later yields the stored value |
| Scenarios.StartErrorScenario | test/lib/cacheWrapperTest.js:102-124 | when the restart fails, the queued set rejects with "stash failed" and the queued get with "retrieve failed" |

## Left out

- The Catbox client and Redis internals are not modelled: the connection, serialisation and the policy's time-to-live (`expiresIn` is stored but has no effect). Whether a policy call fails is the environment switch `failing`. A key that Catbox refuses, such as the test's key `true`, is one such failure.
- Asynchrony: each policy call completes as soon as it is made. A promise's state is the entry for its request id in `results`. The only callback modelled as a separate event is the queue's `cacheClient.start` callback (`CompleteStart`).
- Whether the client is ready is an input (`SetReady`). It is not derived from start completing, because `isReady()` is the client's own state.
- CacheWrapper.Cache.Initialise: the first `cacheClient.start`, `redisWrapper.initialise` and the creation of the Redis client are not modelled. The promise `initialise` returns is left pending, since it settles only when the Redis connection is ready.
- `console.log` output and launch.js are not modelled.
- UriComponent.Encode requires ASCII input: the UTF-8 escaping of other characters is not modelled. UriComponent.Decode treats an escape of a byte at or above 0x80 as a decoding error, where JavaScript would decode a valid UTF-8 sequence.
- RedisWrapper.Keys: Redis glob matching is not modelled. The `KEYS` answer is the parameter `keysCommand`, so the model does not say which raw keys match the pattern. It also does not model glob metacharacters inside the pattern: the segment is not encoded, and `encodeURIComponent` leaves `*` as it is. So a prefix such as `a*` puts a wildcard into the pattern, and the `KEYS` answer may then list keys that do not start with the prefix.
- RedisWrapper.Keys: when `decodeURIComponent` throws, the URIError is raised inside the Redis reply callback and nothing catches it. The model records only that the promise never settles. It does not model the uncaught exception.
- CacheWrapper.Cache.Delete: calling `delete` before the Redis client exists throws in the source. The model has no such state: the `KEYS` command is always available.
- The registry is a map keyed by segment. JavaScript's array `policies` also answers for inherited properties such as `length`, which the model does not reproduce.
- CacheWrapper.Cache.DeleteKeys: in the code, `Q.allSettled` settles without waiting for the drops, because its entries are already fulfilled. The model completes every drop before the promise settles, since policy calls complete at once (see asynchrony above), so it does not capture that a caller may see the keys before they are gone.
- CacheWrapper.Cache.Set and CacheWrapper.Cache.Get take their options by value. `set` and `get` write `options.method` into the caller's object, and the start callback reads the triggering object's `method` when it runs. So a caller who reuses one options object for a later `get` changes how an earlier queued `set` is replayed. The model fixes the method when the request is made.
- Values are `undefined`, `null`, booleans, integers and strings. Objects and floating-point numbers are not modelled.
