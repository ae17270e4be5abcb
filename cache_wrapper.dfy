/**
  The cache facade of lib/cacheWrapper.js: `get` and `set` that may be called
  before the Catbox client is ready, a queue of the requests that arrive while it
  is not, one reconnect at a time, and `delete` by key prefix.

  Each call gets a request id; `results` holds the state of the promise returned
  for it. The asynchronous callback of `cacheClient.start` is the event
  `CompleteStart(ok)`. Whether the client reports itself ready, and whether the
  policy calls fail, are set by the environment (`SetReady`, `SetFailing`).
 */
module CacheWrapper {
  import opened Wrappers
  import opened Catbox
  import opened UriComponent
  import RedisWrapper

  type RequestId = nat

  const NotInitialised := "Cache not initialised"
  const PolicyNotFound := "policy not found for segment"
  const RetrieveFailed := "retrieve failed"
  const StashFailed := "stash failed"
  const NoServerConfig := "no serverConfig passed"
  const StashMethod := "stash"
  const RetrieveMethod := "retrieve"

  /** The options object of a `get` or `set` call; `value` is `Undefined` when the caller gives none. */
  datatype Options = Options(kind: string, segment: Segment, key: Key, value: Value)

  /** The state of the promise returned for a request. */
  datatype Outcome = Pending | Resolved(value: Value) | Rejected(msg: string)

  /** An entry of `queryQueue`: the request's deferred (its id) and its options. */
  datatype QueueItem = QueueItem(id: RequestId, options: Options)

  /** What one policy call settles the request with, and the store afterwards. */
  datatype Effect = Effect(outcome: Outcome, store: Store)

  /** What replaying a queue settles each item with, in queue order, and the store afterwards. */
  datatype Settled = Settled(outcomes: seq<Outcome>, store: Store)

  /** An entry of the `cachePolicies` argument of `initialise`. */
  datatype PolicyDef = PolicyDef(segment: Segment, expiresIn: int)

  /** The server configuration object, as its own properties. */
  type ServerConfig = map<string, string>

  /**
    An entry of the result of `_delete`'s `Q.allSettled`. The code pushes the
    deferred of each drop, not its promise; Q takes an object without a `then`
    method as an already fulfilled value, so the entry for the drop made `index`-th
    is fulfilled with that deferred itself, whatever the drop reports.
   */
  datatype DropEntry = FulfilledWithDeferred(index: nat)

  /** The promise returned by `delete`: pending, `allSettled` over the drops' deferreds, or rejected. */
  datatype DeleteOutcome = DeletePending | AllSettled(drops: seq<DropEntry>) | DeleteRejected(msg: string)

  /** `_stash`: write through the segment's policy. */
  function StashEffect(policies: map<Segment, Policy>, store: Store, failing: bool, o: Options): Effect {
    if o.segment in policies then
      var reply := PolicySet(store, failing, o.segment, o.key, o.value);
      if reply.error then Effect(Rejected(StashFailed), reply.store)
      else Effect(Resolved(Undefined), reply.store)
    else Effect(Rejected(PolicyNotFound), store)
  }

  /**
    `_stash` settles its promise: it resolves with `undefined` exactly when the
    segment has a policy and the write succeeds, and the key then holds the value;
    otherwise it rejects with the message of the failure and writes nothing.
    Other keys never change.
   */
  lemma StashCases(policies: map<Segment, Policy>, store: Store, failing: bool, o: Options)
    ensures var e := StashEffect(policies, store, failing, o);
      e.outcome != Pending &&
      (e.outcome.Resolved? <==> o.segment in policies && !failing) &&
      (e.outcome.Resolved? ==> e.outcome.value == Undefined && Lookup(e.store, o.segment, o.key) == Some(o.value)) &&
      (e.outcome.Rejected? ==>
        e.store == store && e.outcome.msg == (if o.segment in policies then StashFailed else PolicyNotFound)) &&
      (forall s, k :: s != o.segment || k != o.key ==> Lookup(e.store, s, k) == Lookup(store, s, k))
  {
    forall s, k | s != o.segment || k != o.key
      ensures Lookup(StashEffect(policies, store, failing, o).store, s, k) == Lookup(store, s, k)
    {
      PutKeepsOthers(store, o.segment, o.key, o.value, s, k);
    }
  }

  /** `_retrieve`: read through the segment's policy; a miss or a falsy value is a failure. */
  function RetrieveEffect(policies: map<Segment, Policy>, store: Store, failing: bool, o: Options): Effect {
    if o.segment in policies then
      var reply := PolicyGet(store, failing, o.segment, o.key);
      if reply.error || Falsy(reply.cached) then Effect(Rejected(RetrieveFailed), store)
      else Effect(Resolved(reply.cached), store)
    else Effect(Rejected(PolicyNotFound), store)
  }

  /**
    `_retrieve` settles its promise and never writes: it resolves exactly when the
    segment has a policy, the read succeeds and the stored value is truthy, and
    then with that value; otherwise it rejects with the message of the failure.
   */
  lemma RetrieveCases(policies: map<Segment, Policy>, store: Store, failing: bool, o: Options)
    ensures var e := RetrieveEffect(policies, store, failing, o);
      e.store == store && e.outcome != Pending &&
      (e.outcome.Resolved? <==>
        o.segment in policies && !failing &&
        Lookup(store, o.segment, o.key).Some? && !Falsy(Lookup(store, o.segment, o.key).value)) &&
      (e.outcome.Resolved? ==> Lookup(store, o.segment, o.key) == Some(e.outcome.value)) &&
      (e.outcome.Rejected? ==> e.outcome.msg == (if o.segment in policies then RetrieveFailed else PolicyNotFound))
  {
  }

  /** The ready path of `_addCallToQueue`: `stash` for the method "stash", `retrieve` for anything else. */
  function Execute(policies: map<Segment, Policy>, store: Store, failing: bool, o: Options): Effect {
    if o.kind == StashMethod then StashEffect(policies, store, failing, o)
    else RetrieveEffect(policies, store, failing, o)
  }

  /**
    What the start callback does with one queued item. Both the rejection message
    and the choice between `stash` and `retrieve` come from `trigger`, the options
    of the request that started the reconnect; only the item's own options are
    handed to the policy.
   */
  function Settle(policies: map<Segment, Policy>, store: Store, failing: bool, ok: bool, trigger: Options, item: QueueItem): Effect {
    if !ok then Effect(Rejected(trigger.kind + " failed"), store)
    else if trigger.kind == StashMethod then StashEffect(policies, store, failing, item.options)
    else RetrieveEffect(policies, store, failing, item.options)
  }

  /**
    A failed reconnect triggered by a `set` or a `get` rejects each queued item
    with "stash failed" or "retrieve failed": the same text as a failed policy
    call of the triggering request's kind, whatever the item's own options.
   */
  lemma FailedRestartMessage(policies: map<Segment, Policy>, store: Store, failing: bool, trigger: Options, item: QueueItem)
    requires trigger.kind == StashMethod || trigger.kind == RetrieveMethod
    ensures Settle(policies, store, failing, false, trigger, item) ==
      Effect(Rejected(if trigger.kind == StashMethod then StashFailed else RetrieveFailed), store)
  {
    if trigger.kind == StashMethod {
      assert StashMethod + " failed" == StashFailed;
    } else {
      assert RetrieveMethod + " failed" == RetrieveFailed;
    }
  }

  /** The start callback's pass over the queue, item after item, each seeing the store the earlier ones left. */
  function Replay(policies: map<Segment, Policy>, store: Store, failing: bool, ok: bool, trigger: Options, items: seq<QueueItem>): (r: Settled)
    ensures |r.outcomes| == |items|
    decreases |items|
  {
    if items == [] then Settled([], store)
    else
      var before := Replay(policies, store, failing, ok, trigger, items[..|items| - 1]);
      var e := Settle(policies, before.store, failing, ok, trigger, items[|items| - 1]);
      Settled(before.outcomes + [e.outcome], e.store)
  }

  /** Every request the callback or the ready path handles is settled, never left pending. */
  lemma NeverPending(policies: map<Segment, Policy>, store: Store, failing: bool, ok: bool, trigger: Options, item: QueueItem)
    ensures Execute(policies, store, failing, item.options).outcome != Pending
    ensures Settle(policies, store, failing, ok, trigger, item).outcome != Pending
  {
    StashCases(policies, store, failing, item.options);
    RetrieveCases(policies, store, failing, item.options);
  }

  /** Replaying a queue settles every item. */
  lemma {:induction false} ReplaySettles(policies: map<Segment, Policy>, store: Store, failing: bool, ok: bool, trigger: Options, items: seq<QueueItem>)
    ensures forall j :: 0 <= j < |items| ==> Replay(policies, store, failing, ok, trigger, items).outcomes[j] != Pending
    decreases |items|
  {
    if items != [] {
      var n := |items|;
      ReplaySettles(policies, store, failing, ok, trigger, items[..n - 1]);
      var before := Replay(policies, store, failing, ok, trigger, items[..n - 1]);
      NeverPending(policies, before.store, failing, ok, trigger, items[n - 1]);
    }
  }

  /** Replaying one more item settles it against the store the earlier ones left. */
  lemma ReplaySnoc(policies: map<Segment, Policy>, store: Store, failing: bool, ok: bool, trigger: Options,
                   items: seq<QueueItem>, item: QueueItem)
    ensures var before := Replay(policies, store, failing, ok, trigger, items);
      var e := Settle(policies, before.store, failing, ok, trigger, item);
      Replay(policies, store, failing, ok, trigger, items + [item]) == Settled(before.outcomes + [e.outcome], e.store)
  {
    assert (items + [item])[..|items|] == items;
  }

  /** The ids of the queued requests. */
  function QueuedIds(items: seq<QueueItem>): set<RequestId> {
    set j | 0 <= j < |items| :: items[j].id
  }

  /** The ids handed out before `n`. */
  function IdsBelow(n: nat): (ids: set<RequestId>)
    ensures forall id: RequestId :: id in ids <==> id < n
  {
    if n == 0 then {} else IdsBelow(n - 1) + {n - 1}
  }

  /** The requests whose promise is still pending. */
  function PendingIds(results: map<RequestId, Outcome>): set<RequestId> {
    set id | id in results && results[id] == Pending
  }

  predicate DistinctIds(items: seq<QueueItem>) {
    forall j, k :: 0 <= j < k < |items| ==> items[j].id != items[k].id
  }

  /**
    The promise bookkeeping: exactly the ids below `nextId` have been handed out,
    a promise is pending exactly when its request is queued, and no request is
    queued twice.
   */
  ghost predicate Consistent(results: map<RequestId, Outcome>, queue: seq<QueueItem>, nextId: nat) {
    results.Keys == IdsBelow(nextId) && PendingIds(results) == QueuedIds(queue) && DistinctIds(queue)
  }

  /** A new request that settles at once keeps the bookkeeping consistent. */
  lemma IssueSettled(results: map<RequestId, Outcome>, queue: seq<QueueItem>, nextId: nat, outcome: Outcome)
    requires Consistent(results, queue, nextId) && outcome != Pending
    ensures Consistent(results[nextId := outcome], queue, nextId + 1)
  {
    var m := results[nextId := outcome];
    assert nextId !in results;
    assert m.Keys == IdsBelow(nextId + 1);
    assert PendingIds(m) == PendingIds(results);
  }

  /** A new request that is queued, pending, keeps the bookkeeping consistent. */
  lemma IssueQueued(results: map<RequestId, Outcome>, queue: seq<QueueItem>, nextId: nat, o: Options)
    requires Consistent(results, queue, nextId)
    ensures Consistent(results[nextId := Pending], queue + [QueueItem(nextId, o)], nextId + 1)
  {
    var m := results[nextId := Pending];
    var q := queue + [QueueItem(nextId, o)];
    assert nextId !in results;
    assert m.Keys == IdsBelow(nextId + 1);
    assert PendingIds(m) == PendingIds(results) + {nextId};
    forall j | 0 <= j < |queue| ensures q[j] == queue[j] && queue[j].id != nextId {
      assert queue[j].id in QueuedIds(queue);
    }
    assert QueuedIds(q) == QueuedIds(queue) + {nextId} by {
      assert q[|queue|].id == nextId;
    }
  }

  /** The promise states once the items' promises are settled with the outcomes, one after the other. */
  function SettleAll(results: map<RequestId, Outcome>, items: seq<QueueItem>, outcomes: seq<Outcome>): map<RequestId, Outcome>
    requires |items| == |outcomes|
    decreases |items|
  {
    if items == [] then results
    else
      var n := |items|;
      SettleAll(results, items[..n - 1], outcomes[..n - 1])[items[n - 1].id := outcomes[n - 1]]
  }

  /** Settling one more item puts its outcome on top of the earlier ones. */
  lemma SettleAllSnoc(results: map<RequestId, Outcome>, items: seq<QueueItem>, outcomes: seq<Outcome>, item: QueueItem, outcome: Outcome)
    requires |items| == |outcomes|
    ensures SettleAll(results, items + [item], outcomes + [outcome]) == SettleAll(results, items, outcomes)[item.id := outcome]
  {
    assert (items + [item])[..|items|] == items;
    assert (outcomes + [outcome])[..|outcomes|] == outcomes;
  }

  /** Settling promises that already exist creates none. */
  lemma {:induction false} SettleAllKeys(results: map<RequestId, Outcome>, items: seq<QueueItem>, outcomes: seq<Outcome>)
    requires |items| == |outcomes| && forall j :: 0 <= j < |items| ==> items[j].id in results
    ensures SettleAll(results, items, outcomes).Keys == results.Keys
    decreases |items|
  {
    if items != [] {
      SettleAllKeys(results, items[..|items| - 1], outcomes[..|items| - 1]);
    }
  }

  /** With distinct ids, item j's promise ends up settled with outcome j. */
  lemma {:induction false} SettleAllAt(results: map<RequestId, Outcome>, items: seq<QueueItem>, outcomes: seq<Outcome>, j: nat)
    requires |items| == |outcomes| && j < |items| && DistinctIds(items)
    ensures items[j].id in SettleAll(results, items, outcomes)
    ensures SettleAll(results, items, outcomes)[items[j].id] == outcomes[j]
    decreases |items|
  {
    var n := |items|;
    if j < n - 1 {
      assert items[..n - 1][j] == items[j] && outcomes[..n - 1][j] == outcomes[j];
      SettleAllAt(results, items[..n - 1], outcomes[..n - 1], j);
      assert items[n - 1].id != items[j].id;
    }
  }

  /** A promise that is not among the items keeps its state. */
  lemma {:induction false} SettleAllOthers(results: map<RequestId, Outcome>, items: seq<QueueItem>, outcomes: seq<Outcome>, id: RequestId)
    requires |items| == |outcomes| && id in results && id !in QueuedIds(items)
    ensures id in SettleAll(results, items, outcomes) && SettleAll(results, items, outcomes)[id] == results[id]
    decreases |items|
  {
    var n := |items|;
    if n > 0 {
      assert items[n - 1].id != id;
      assert QueuedIds(items[..n - 1]) <= QueuedIds(items) by {
        forall x | x in QueuedIds(items[..n - 1]) ensures x in QueuedIds(items) {
          var k :| 0 <= k < n - 1 && items[..n - 1][k].id == x;
          assert items[k] == items[..n - 1][k];
        }
      }
      SettleAllOthers(results, items[..n - 1], outcomes[..n - 1], id);
    }
  }

  /**
    Settling every queued promise, when exactly the queued ones are pending and
    none is settled as pending, leaves the bookkeeping consistent with an empty
    queue: the same promises exist and none is pending.
   */
  lemma SettledQueue(results: map<RequestId, Outcome>, items: seq<QueueItem>, outcomes: seq<Outcome>, nextId: nat)
    requires Consistent(results, items, nextId) && |items| == |outcomes|
    requires forall j :: 0 <= j < |outcomes| ==> outcomes[j] != Pending
    ensures Consistent(SettleAll(results, items, outcomes), [], nextId)
  {
    var m := SettleAll(results, items, outcomes);
    forall j | 0 <= j < |items| ensures items[j].id in results {
      assert items[j].id in QueuedIds(items);
    }
    SettleAllKeys(results, items, outcomes);
    forall id | id in m ensures m[id] != Pending {
      if id in QueuedIds(items) {
        var j :| 0 <= j < |items| && items[j].id == id;
        SettleAllAt(results, items, outcomes, j);
      } else {
        SettleAllOthers(results, items, outcomes, id);
        assert id !in PendingIds(results);
      }
    }
    assert PendingIds(m) == {};
  }

  /** Replay is FIFO: the j-th item is settled against the store the first j items left. */
  lemma {:induction false} ReplayInOrder(policies: map<Segment, Policy>, store: Store, failing: bool, ok: bool, trigger: Options, items: seq<QueueItem>, j: nat)
    requires j < |items|
    ensures Replay(policies, store, failing, ok, trigger, items).outcomes[j] ==
      Settle(policies, Replay(policies, store, failing, ok, trigger, items[..j]).store, failing, ok, trigger, items[j]).outcome
    decreases |items|
  {
    var n := |items|;
    if j < n - 1 {
      var front := items[..n - 1];
      ReplayInOrder(policies, store, failing, ok, trigger, front, j);
      assert front[..j] == items[..j];
      assert front[j] == items[j];
    } else {
      assert items[..j] == items[..n - 1];
    }
  }

  /** A failed reconnect rejects every queued item with the triggering request's "<method> failed" and writes nothing. */
  lemma {:induction false} ReplayFailure(policies: map<Segment, Policy>, store: Store, failing: bool, trigger: Options, items: seq<QueueItem>)
    ensures var r := Replay(policies, store, failing, false, trigger, items);
      r.store == store && forall j :: 0 <= j < |items| ==> r.outcomes[j] == Rejected(trigger.kind + " failed")
    decreases |items|
  {
    if items != [] {
      ReplayFailure(policies, store, failing, trigger, items[..|items| - 1]);
    }
  }

  /**
    A successful reconnect triggered by a `set` replays a queued `get` as a `set`:
    the get's key is overwritten with the value its options carry (`Undefined`
    when they carry none), and its promise resolves with `undefined` instead of
    the value the key held.
   */
  lemma ReplayedGetActsAsSet(segment: Segment, setKey: Key, getKey: Key, v: Value, carried: Value, held: Value)
    requires setKey != getKey
    ensures var policies := map[segment := Policy(10000)];
      var store := map[segment := map[getKey := held]];
      var trigger := Options(StashMethod, segment, setKey, v);
      var queue := [QueueItem(0, trigger), QueueItem(1, Options(RetrieveMethod, segment, getKey, carried))];
      var r := Replay(policies, store, false, true, trigger, queue);
      r.outcomes == [Resolved(Undefined), Resolved(Undefined)] &&
      Lookup(r.store, segment, setKey) == Some(v) && Lookup(r.store, segment, getKey) == Some(carried)
  {
    var policies := map[segment := Policy(10000)];
    var store := map[segment := map[getKey := held]];
    var trigger := Options(StashMethod, segment, setKey, v);
    var queue := [QueueItem(0, trigger), QueueItem(1, Options(RetrieveMethod, segment, getKey, carried))];
    assert queue[..1] == [queue[0]];
    assert queue[..1][..0] == [];
    var first := StashEffect(policies, store, false, trigger);
    PutKeepsOthers(store, segment, setKey, v, segment, getKey);
    assert Lookup(first.store, segment, getKey) == Some(held);
    PutKeepsOthers(first.store, segment, getKey, carried, segment, setKey);
  }

  /** Round trip: a successful set followed by a get of the same key yields the value, when it is truthy. */
  lemma StashThenRetrieve(policies: map<Segment, Policy>, store: Store, segment: Segment, key: Key, v: Value)
    requires segment in policies && !Falsy(v)
    ensures var written := StashEffect(policies, store, false, Options(StashMethod, segment, key, v));
      written.outcome == Resolved(Undefined) &&
      RetrieveEffect(policies, written.store, false, Options(RetrieveMethod, segment, key, Undefined)).outcome == Resolved(v)
  {
  }

  /** A set of a falsy value succeeds, but the get that follows it fails: the cache cannot return falsy values. */
  lemma FalsyValueNotRetrievable(policies: map<Segment, Policy>, store: Store, segment: Segment, key: Key, v: Value)
    requires segment in policies && Falsy(v)
    ensures var written := StashEffect(policies, store, false, Options(StashMethod, segment, key, v));
      written.outcome == Resolved(Undefined) &&
      RetrieveEffect(policies, written.store, false, Options(RetrieveMethod, segment, key, Undefined)).outcome == Rejected(RetrieveFailed)
  {
  }

  /** `initialise` fills the registry entry by entry; a later entry for a segment replaces an earlier one. */
  function Register(policies: map<Segment, Policy>, defs: seq<PolicyDef>): map<Segment, Policy>
    decreases |defs|
  {
    if defs == [] then policies
    else
      var last := defs[|defs| - 1];
      Register(policies, defs[..|defs| - 1])[last.segment := Policy(last.expiresIn)]
  }

  function DefSegments(defs: seq<PolicyDef>): set<Segment> {
    set i | 0 <= i < |defs| :: defs[i].segment
  }

  /** No later entry of `defs` names the segment of entry `j`. */
  predicate IsLastFor(defs: seq<PolicyDef>, j: nat)
    requires j < |defs|
  {
    forall k :: j < k < |defs| ==> defs[k].segment != defs[j].segment
  }

  lemma DefSegmentsSnoc(defs: seq<PolicyDef>)
    requires defs != []
    ensures DefSegments(defs) == DefSegments(defs[..|defs| - 1]) + {defs[|defs| - 1].segment}
  {
    var n := |defs|;
    var front := defs[..n - 1];
    forall s | s in DefSegments(defs) ensures s in DefSegments(front) + {defs[n - 1].segment} {
      var i :| 0 <= i < n && defs[i].segment == s;
      if i < n - 1 { assert front[i] == defs[i]; }
    }
    forall s | s in DefSegments(front) ensures s in DefSegments(defs) {
      var i :| 0 <= i < n - 1 && front[i].segment == s;
      assert defs[i] == front[i];
    }
  }

  /** The registry ends up with the segments it had plus every segment the entries name. */
  lemma {:induction false} RegisterDomain(policies: map<Segment, Policy>, defs: seq<PolicyDef>)
    ensures Register(policies, defs).Keys == policies.Keys + DefSegments(defs)
    decreases |defs|
  {
    if defs != [] {
      RegisterDomain(policies, defs[..|defs| - 1]);
      DefSegmentsSnoc(defs);
    }
  }

  /** A segment no entry names keeps the policy it had. */
  lemma {:induction false} RegisterKeepsOthers(policies: map<Segment, Policy>, defs: seq<PolicyDef>, s: Segment)
    requires s in policies && s !in DefSegments(defs)
    ensures s in Register(policies, defs) && Register(policies, defs)[s] == policies[s]
    decreases |defs|
  {
    if defs != [] {
      DefSegmentsSnoc(defs);
      RegisterKeepsOthers(policies, defs[..|defs| - 1], s);
    }
  }

  /** The policy of a named segment is built from the last entry that names it. */
  lemma {:induction false} RegisterLastWins(policies: map<Segment, Policy>, defs: seq<PolicyDef>, j: nat)
    requires j < |defs| && IsLastFor(defs, j)
    ensures defs[j].segment in Register(policies, defs)
    ensures Register(policies, defs)[defs[j].segment] == Policy(defs[j].expiresIn)
    decreases |defs|
  {
    var n := |defs|;
    if j < n - 1 {
      var front := defs[..n - 1];
      assert front[j] == defs[j];
      assert IsLastFor(front, j) by {
        forall k | j < k < n - 1 ensures front[k].segment != front[j].segment { assert front[k] == defs[k]; }
      }
      RegisterLastWins(policies, front, j);
      assert defs[n - 1].segment != defs[j].segment;
    }
  }

  /** `_delete`'s drops, one key after the other. */
  function DropAll(store: Store, segment: Segment, keys: seq<Key>, failing: bool): Store
    decreases |keys|
  {
    if keys == [] then store
    else
      var n := |keys|;
      PolicyDrop(DropAll(store, segment, keys[..n - 1], failing), failing, segment, keys[n - 1]).store
  }

  /** After the drops, exactly the listed keys of the segment are gone; with the policy failing, nothing is. */
  lemma {:induction false} DropAllLookup(store: Store, segment: Segment, keys: seq<Key>, failing: bool, s: Segment, k: Key)
    ensures Lookup(DropAll(store, segment, keys, failing), s, k) ==
      (if !failing && s == segment && k in keys then None else Lookup(store, s, k))
    decreases |keys|
  {
    if keys != [] {
      var n := |keys|;
      var before := DropAll(store, segment, keys[..n - 1], failing);
      DropAllLookup(store, segment, keys[..n - 1], failing, s, k);
      assert k in keys <==> k in keys[..n - 1] || k == keys[n - 1];
      if !failing && (s != segment || k != keys[n - 1]) {
        RemoveKeepsOthers(before, segment, keys[n - 1], s, k);
      }
    }
  }

  /** The keys `_delete` drops: `_.each` over an absent `options.keys` does nothing. */
  function KeysOf(keys: Option<seq<Key>>): seq<Key> {
    if keys.Some? then keys.value else []
  }

  /** With no `options.keys`, `_delete` drops nothing: the store is left as it was. */
  lemma NoKeysNoDrops(store: Store, segment: Segment, failing: bool)
    ensures DropAll(store, segment, KeysOf(None), failing) == store
  {
  }

  /** The module state of lib/cacheWrapper.js, with the Redis store behind it. */
  class Cache {
    var initialised: bool               // a cacheClient exists
    var ready: bool                     // cacheClient.isReady()
    var starting: bool                  // startingClient
    var queue: seq<QueueItem>           // queryQueue
    var trigger: Options                // `options` of the request whose call started the reconnect
    var policies: map<Segment, Policy>
    var partition: Option<string>
    var store: Store
    var failing: bool                   // every policy call errors
    var results: map<RequestId, Outcome>
    var nextId: nat
    ghost var starts: nat               // calls of cacheClient.start made by the queue
    ghost var completions: nat          // start callbacks that have run

    /** The promise bookkeeping is consistent; a reconnect is in flight exactly while the queue is not empty, and it is the only one. */
    ghost predicate Valid()
      reads this
    {
      Consistent(results, queue, nextId) &&
      (starting <==> queue != []) &&
      (starting ==> initialised) &&
      starts == completions + (if starting then 1 else 0)
    }

    /** The module as loaded, in front of a store that may already hold data. */
    constructor (store: Store)
      ensures Valid()
      ensures !initialised && !ready && !starting && queue == [] && policies == map[] && partition == Some("")
      ensures this.store == store && !failing && results == map[] && nextId == 0
    {
      initialised, ready, starting := false, false, false;
      queue := [];
      trigger := Options("", "", "", Undefined);
      policies := map[];
      partition := Some("");
      this.store := store;
      failing := false;
      results := map[];
      nextId := 0;
      starts, completions := 0, 0;
    }

    /** The Catbox client's own connection state changes. */
    method SetReady(b: bool)
      requires Valid()
      modifies this`ready
      ensures Valid() && ready == b
    {
      ready := b;
    }

    /** The policy calls start or stop failing. */
    method SetFailing(b: bool)
      requires Valid()
      modifies this`failing
      ensures Valid() && failing == b
    {
      failing := b;
    }

    /**
      `initialise`: rejects an empty configuration; otherwise makes a new client
      (not yet ready) and registers one policy per entry. The returned promise
      stays pending: it settles when the client's first start and the Redis
      connection complete, which are outside this model.
     */
    method Initialise(config: ServerConfig, cachePolicies: seq<PolicyDef>) returns (r: Outcome)
      requires Valid()
      modifies this`initialised, this`ready, this`partition, this`policies
      ensures Valid()
      ensures |config| == 0 ==> r == Rejected(NoServerConfig) && unchanged(this)
      ensures |config| != 0 ==>
        r == Pending && initialised && !ready &&
        partition == (if "partition" in config then Some(config["partition"]) else None) &&
        policies == Register(old(policies), cachePolicies)
    {
      if |config| == 0 {
        return Rejected(NoServerConfig);
      }
      partition := if "partition" in config then Some(config["partition"]) else None;
      initialised, ready := true, false;
      var i := 0;
      while i < |cachePolicies|
        modifies this`policies
        invariant 0 <= i <= |cachePolicies|
        invariant policies == Register(old(policies), cachePolicies[..i])
      {
        var def := cachePolicies[i];
        assert cachePolicies[..i + 1][..i] == cachePolicies[..i];
        policies := policies[def.segment := Policy(def.expiresIn)];
        i := i + 1;
      }
      assert cachePolicies[..i] == cachePolicies;
      r := Pending;
    }

    /** `_stash` settling request `id`. */
    method Stash(id: RequestId, o: Options)
      modifies this`results, this`store
      ensures var e := StashEffect(old(policies), old(store), old(failing), o);
        results == old(results)[id := e.outcome] && store == e.store
    {
      if o.segment in policies {
        var reply := PolicySet(store, failing, o.segment, o.key, o.value);
        store := reply.store;
        if reply.error {
          results := results[id := Rejected(StashFailed)];
        } else {
          results := results[id := Resolved(Undefined)];
        }
      } else {
        results := results[id := Rejected(PolicyNotFound)];
      }
    }

    /** `_retrieve` settling request `id`. */
    method Retrieve(id: RequestId, o: Options)
      modifies this`results
      ensures results == old(results)[id := RetrieveEffect(old(policies), old(store), old(failing), o).outcome]
    {
      if o.segment in policies {
        var reply := PolicyGet(store, failing, o.segment, o.key);
        if reply.error || Falsy(reply.cached) {
          results := results[id := Rejected(RetrieveFailed)];
        } else {
          results := results[id := Resolved(reply.cached)];
        }
      } else {
        results := results[id := Rejected(PolicyNotFound)];
      }
    }

    /** `_queueRequest`: append to the queue; start the client unless a start is already in flight. */
    method QueueRequest(id: RequestId, o: Options)
      modifies this`queue, this`starting, this`trigger, this`starts
      ensures queue == old(queue) + [QueueItem(id, o)] && starting
      ensures starts == (if old(starting) then old(starts) else old(starts) + 1)
      ensures trigger == (if old(starting) then old(trigger) else o)
    {
      queue := queue + [QueueItem(id, o)];
      if !starting {
        starting := true;
        trigger := o;
        starts := starts + 1;
      }
    }

    /** How `_addCallToQueue` handles request `id` with options `o`, as a change of state. */
    twostate predicate Handled(o: Options, id: RequestId)
      reads this
    {
      id == old(nextId) && nextId == old(nextId) + 1 &&
      completions == old(completions) &&
      if !old(initialised) then
        // rejected at once; the queue and the flag are untouched
        results == old(results)[id := Rejected(NotInitialised)] && store == old(store) &&
        queue == old(queue) && starting == old(starting) && starts == old(starts) && trigger == old(trigger)
      else if old(ready) then
        // executed at once; the queue and the flag are untouched
        var e := Execute(old(policies), old(store), old(failing), o);
        results == old(results)[id := e.outcome] && store == e.store &&
        queue == old(queue) && starting == old(starting) && starts == old(starts) && trigger == old(trigger)
      else
        // queued; a start is issued only if none is in flight
        results == old(results)[id := Pending] && store == old(store) &&
        queue == old(queue) + [QueueItem(id, o)] && starting &&
        starts == (if old(starting) then old(starts) else old(starts) + 1) &&
        trigger == (if old(starting) then old(trigger) else o)
    }

    /** `_addCallToQueue`: returns the id of the request's promise. */
    method AddCallToQueue(o: Options) returns (id: RequestId)
      requires Valid()
      modifies this`results, this`store, this`queue, this`starting, this`trigger, this`starts, this`nextId
      ensures Valid() && Handled(o, id)
    {
      id := nextId;
      if !initialised {
        IssueSettled(results, queue, nextId, Rejected(NotInitialised));
        results := results[id := Rejected(NotInitialised)];
        nextId := nextId + 1;
        return;
      }
      if !ready {
        IssueQueued(results, queue, nextId, o);
        results := results[id := Pending];
        nextId := nextId + 1;
        QueueRequest(id, o);
      } else {
        NeverPending(policies, store, failing, false, trigger, QueueItem(id, o));
        IssueSettled(results, queue, nextId, Execute(policies, store, failing, o).outcome);
        nextId := nextId + 1;
        if o.kind == StashMethod {
          Stash(id, o);
        } else {
          Retrieve(id, o);
        }
      }
    }

    /** `set`: the request with method "stash". */
    method Set(segment: Segment, key: Key, value: Value) returns (id: RequestId)
      requires Valid()
      modifies this`results, this`store, this`queue, this`starting, this`trigger, this`starts, this`nextId
      ensures Valid() && Handled(Options(StashMethod, segment, key, value), id)
    {
      id := AddCallToQueue(Options(StashMethod, segment, key, value));
    }

    /**
      `get`: the request with method "retrieve". The caller's options are handed
      on whole, so a `value` they carry (`Undefined` when they carry none) goes
      with the request; a replay under a `set` trigger writes it.
     */
    method Get(segment: Segment, key: Key, value: Value) returns (id: RequestId)
      requires Valid()
      modifies this`results, this`store, this`queue, this`starting, this`trigger, this`starts, this`nextId
      ensures Valid() && Handled(Options(RetrieveMethod, segment, key, value), id)
    {
      id := AddCallToQueue(Options(RetrieveMethod, segment, key, value));
    }

    /** The start callback's treatment of one queued item (the body of its `_.forEach`). */
    method SettleItem(ok: bool, item: QueueItem)
      modifies this`results, this`store
      ensures var e := Settle(old(policies), old(store), old(failing), ok, old(trigger), item);
        results == old(results)[item.id := e.outcome] && store == e.store
    {
      if !ok {
        results := results[item.id := Rejected(trigger.kind + " failed")];
      } else if trigger.kind == StashMethod {
        Stash(item.id, item.options);
      } else {
        Retrieve(item.id, item.options);
      }
    }

    /** The `_.forEach` of the start callback: settles the queued items in order, leaving the queue itself alone. */
    method SettleQueue(ok: bool)
      modifies this`results, this`store
      ensures var r := Replay(old(policies), old(store), old(failing), ok, old(trigger), old(queue));
        store == r.store && results == SettleAll(old(results), old(queue), r.outcomes)
    {
      var i := 0;
      while i < |queue|
        invariant 0 <= i <= |queue|
        invariant var done := Replay(policies, old(store), failing, ok, trigger, queue[..i]);
          store == done.store && results == SettleAll(old(results), queue[..i], done.outcomes)
      {
        var item := queue[i];
        assert queue[..i + 1] == queue[..i] + [item];
        ghost var done := Replay(policies, old(store), failing, ok, trigger, queue[..i]);
        ReplaySnoc(policies, old(store), failing, ok, trigger, queue[..i], item);
        SettleAllSnoc(old(results), queue[..i], done.outcomes, item, Settle(policies, store, failing, ok, trigger, item).outcome);
        SettleItem(ok, item);
        i := i + 1;
      }
      assert queue[..i] == queue;
    }

    /**
      The callback of the `cacheClient.start` issued by `QueueRequest`: settles
      every queued request exactly once, as `Replay` says, then empties the queue
      and clears the flag.
     */
    method CompleteStart(ok: bool)
      requires Valid() && starting
      modifies this`queue, this`starting, this`results, this`store, this`completions
      ensures Valid() && PendingIds(results) == {}
      ensures queue == [] && !starting && completions == old(completions) + 1
      ensures var r := Replay(old(policies), old(store), old(failing), ok, old(trigger), old(queue));
        store == r.store && results == SettleAll(old(results), old(queue), r.outcomes)
    {
      ghost var r := Replay(policies, store, failing, ok, trigger, queue);
      ghost var settled := SettleAll(results, queue, r.outcomes);
      ReplaySettles(policies, store, failing, ok, trigger, queue);
      SettledQueue(results, queue, r.outcomes, nextId);
      SettleQueue(ok);
      assert store == r.store && results == settled;
      queue := [];
      starting := false;
      completions := completions + 1;
    }

    /** How `_delete` settles and what it drops, as a change of state. */
    twostate predicate Dropped(segment: Segment, keys: seq<Key>, r: DeleteOutcome)
      reads this
    {
      if segment in policies then
        r.AllSettled? && |r.drops| == |keys| && (forall j :: 0 <= j < |keys| ==> r.drops[j] == FulfilledWithDeferred(j)) &&
        store == DropAll(old(store), segment, keys, failing)
      else
        r == DeleteRejected(PolicyNotFound) && store == old(store)
    }

    /**
      `_delete`: one drop per key in `options.keys`, each reported as fulfilled
      with its deferred; rejected when the segment has no policy.
     */
    method DeleteKeys(options: RedisWrapper.DeleteOptions) returns (r: DeleteOutcome)
      modifies this`store
      ensures Dropped(options.segment, KeysOf(options.keys), r)
    {
      var segment := options.segment;
      if segment !in policies {
        return DeleteRejected(PolicyNotFound);
      }
      var keys := KeysOf(options.keys);
      var drops: seq<DropEntry> := [];
      var i := 0;
      while i < |keys|
        invariant 0 <= i <= |keys|
        invariant |drops| == i && forall j :: 0 <= j < i ==> drops[j] == FulfilledWithDeferred(j)
        invariant store == DropAll(old(store), segment, keys[..i], failing)
      {
        assert keys[..i + 1][..i] == keys[..i];
        var reply := PolicyDrop(store, failing, segment, keys[i]);
        store := reply.store;
        drops := drops + [FulfilledWithDeferred(i)];
        i := i + 1;
      }
      assert keys[..i] == keys;
      r := AllSettled(drops);
    }

    /**
      `delete`: stamps the partition on `options`, asks `keys` for the matching
      user keys and drops them. When decoding a raw key throws, the promise never
      settles and nothing is dropped.
     */
    method Delete(options: RedisWrapper.DeleteOptions, keysCommand: string -> Option<seq<string>>) returns (r: DeleteOutcome)
      requires Valid() && IsAscii(options.prefix)
      modifies this`store, options`partition, options`keys
      ensures Valid()
      ensures options.partition == partition
      ensures var found := RedisWrapper.FoundKeys(options.segment, options.prefix, keysCommand);
        (found.None? ==> r == DeletePending && options.keys == old(options.keys) && store == old(store)) &&
        (found.Some? ==> options.keys == found && Dropped(options.segment, found.value, r))
    {
      options.partition := partition;
      var settled := RedisWrapper.Keys(options, keysCommand);
      if !settled {
        return DeletePending;
      }
      r := DeleteKeys(options);
    }
  }
}
