/**
  The call sequences of test/lib/cacheWrapperTest.js, stated as verified method
  bodies over `CacheWrapper.Cache`, using its contracts and the lemmas beside it.
 */
module Scenarios {
  import opened Catbox
  import opened CacheWrapper

  /** The policies the tests register: segment "foo" only. */
  const FooPolicies: map<Segment, Policy> := map["foo" := Policy(10000)]

  /** The tests' `cacheItem`, as a `set` and as a `get`; the get carries the item's value too. */
  const SetBaz := Options(StashMethod, "foo", "bar", Str("baz"))
  const GetBar := Options(RetrieveMethod, "foo", "bar", Str("baz"))
  const GetMissing := Options(RetrieveMethod, "foo", "noExist", Undefined)

  /** The store once `cacheItem` is written. */
  const Filled: Store := map["foo" := map["bar" := Str("baz")]]

  /** Writing `cacheItem` into an empty store succeeds and leaves exactly that item. */
  lemma SetIntoEmpty()
    ensures StashEffect(FooPolicies, map[], false, SetBaz) == Effect(Resolved(Undefined), Filled)
  {
    assert Put(map[], "foo", "bar", Str("baz")) == Filled;
  }

  /** Reading back `cacheItem` gives its value; reading a key never written fails. */
  lemma ReadFilled()
    ensures RetrieveEffect(FooPolicies, Filled, false, GetBar) == Effect(Resolved(Str("baz")), Filled)
    ensures RetrieveEffect(FooPolicies, Filled, false, GetMissing) == Effect(Rejected(RetrieveFailed), Filled)
  {
    assert Lookup(Filled, "foo", "noExist").None?;
  }

  /** Replaying a queue of one item settles that item alone. */
  lemma ReplayOne(policies: map<Segment, Policy>, store: Store, failing: bool, ok: bool, trigger: Options,
                  item: QueueItem, results: map<RequestId, Outcome>)
    ensures var e := Settle(policies, store, failing, ok, trigger, item);
      Replay(policies, store, failing, ok, trigger, [item]) == Settled([e.outcome], e.store) &&
      SettleAll(results, [item], [e.outcome]) == results[item.id := e.outcome]
  {
    var e := Settle(policies, store, failing, ok, trigger, item);
    assert [] + [item] == [item];
    assert [] + [e.outcome] == [e.outcome];
    ReplaySnoc(policies, store, failing, ok, trigger, [], item);
    SettleAllSnoc(results, [], [], item, e.outcome);
  }

  /** Sets up a cache with the policy of segment "foo", as the tests do. */
  method InitialisedCache() returns (c: Cache)
    ensures fresh(c) && c.Valid()
    ensures c.initialised && !c.ready && !c.starting && !c.failing && c.queue == []
    ensures c.policies == FooPolicies && c.store == map[]
  {
    c := new Cache(map[]);
    var r := c.Initialise(map["partition" := "cacheWrapper"], [PolicyDef("foo", 10000)]);
    assert [PolicyDef("foo", 10000)][..0] == [];
  }

  /** A set before `initialise` is rejected. */
  method UninitialisedScenario() returns (early: Outcome)
    ensures early == Rejected(NotInitialised)
  {
    var c := new Cache(map[]);
    var id := c.Set("foo", "bar", Str("baz"));
    early := c.results[id];
  }

  /** With the client ready, a set succeeds and leaves the item in the store. */
  method ReadySet() returns (c: Cache, stored: Outcome)
    ensures fresh(c) && c.Valid() && c.initialised && c.ready && !c.failing
    ensures c.policies == FooPolicies && c.store == Filled
    ensures stored == Resolved(Undefined)
  {
    c := InitialisedCache();
    c.SetReady(true);
    SetIntoEmpty();
    var id := c.Set("foo", "bar", Str("baz"));
    stored := c.results[id];
  }

  /** With the client ready, a set and a get of the same key round-trip and a missing key is rejected. */
  method ReadyScenario() returns (stored: Outcome, fetched: Outcome, missing: Outcome)
    ensures stored == Resolved(Undefined) && fetched == Resolved(Str("baz"))
    ensures missing == Rejected(RetrieveFailed)
  {
    var c;
    c, stored := ReadySet();
    ReadFilled();
    var id := c.Get("foo", "bar", Str("baz"));
    fetched := c.results[id];
    id := c.Get("foo", "noExist", Undefined);
    missing := c.results[id];
  }

  /** With the client ready, a get or a set in a segment without a policy is rejected. */
  method UnknownSegmentScenario() returns (unknownGet: Outcome, unknownSet: Outcome)
    ensures unknownGet == Rejected(PolicyNotFound) && unknownSet == Rejected(PolicyNotFound)
  {
    var c := InitialisedCache();
    c.SetReady(true);
    var id := c.Get("noExist", "noExist", Undefined);
    unknownGet := c.results[id];
    id := c.Set("noExist", "noExist", Undefined);
    unknownSet := c.results[id];
  }

  /** With the client not ready, a set is queued, pending, and starts a reconnect; when that succeeds the set is replayed. */
  method QueuedSet(ok: bool) returns (c: Cache, setWhileQueued: Outcome, settled: Outcome)
    ensures fresh(c) && c.Valid() && c.initialised && !c.ready && !c.starting && !c.failing && c.queue == []
    ensures c.policies == FooPolicies && c.store == (if ok then Filled else map[])
    ensures setWhileQueued == Pending
    ensures settled == (if ok then Resolved(Undefined) else Rejected(StashFailed))
  {
    c := InitialisedCache();
    var id := c.Set("foo", "bar", Str("baz"));
    setWhileQueued := c.results[id];
    var item := QueueItem(id, SetBaz);
    assert c.queue == [item] && c.trigger == SetBaz;
    ReplayOne(FooPolicies, map[], false, ok, SetBaz, item, c.results);
    SetIntoEmpty();
    FailedRestartMessage(FooPolicies, map[], false, SetBaz, item);
    c.CompleteStart(ok);
    settled := c.results[id];
  }

  /**
    The queued set is replayed once the reconnect succeeds; a get issued
    afterwards is queued the same way and resolves with the stored value.
   */
  method QueuedScenario() returns (setWhileQueued: Outcome, stored: Outcome, fetched: Outcome)
    ensures setWhileQueued == Pending
    ensures stored == Resolved(Undefined) && fetched == Resolved(Str("baz"))
  {
    var c;
    c, setWhileQueued, stored := QueuedSet(true);
    var id := c.Get("foo", "bar", Str("baz"));
    var item := QueueItem(id, GetBar);
    assert c.queue == [item] && c.trigger == GetBar;
    ReplayOne(FooPolicies, Filled, false, true, GetBar, item, c.results);
    ReadFilled();
    c.CompleteStart(true);
    fetched := c.results[id];
  }

  /** When the reconnect fails, the queued set and get are rejected with "<method> failed". */
  method StartErrorScenario() returns (setOutcome: Outcome, getOutcome: Outcome)
    ensures setOutcome == Rejected(StashFailed)
    ensures getOutcome == Rejected(RetrieveFailed)
  {
    var c, setWhileQueued;
    c, setWhileQueued, setOutcome := QueuedSet(false);
    var id := c.Get("foo", "bar", Str("baz"));
    var item := QueueItem(id, GetBar);
    assert c.queue == [item] && c.trigger == GetBar;
    ReplayOne(FooPolicies, map[], false, false, GetBar, item, c.results);
    FailedRestartMessage(FooPolicies, map[], false, GetBar, item);
    c.CompleteStart(false);
    getOutcome := c.results[id];
  }
}
