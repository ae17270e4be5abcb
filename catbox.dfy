/**
  The slice of a Catbox policy that the cache facade relies on: get, set and drop
  of a key within a segment of the backing Redis store. The store is a map from
  segment to that segment's keys and values; `failing` stands for any error the
  policy reports (connection lost, bad key, serialisation), and when it is set
  every call answers with an error and leaves the store alone.
 */
module Catbox {
  import opened Wrappers

  type Segment = string
  type Key = string

  /** The JavaScript values a caller may cache. Objects and floating point are not modelled. */
  datatype Value = Undefined | Null | Bool(b: bool) | Num(n: int) | Str(s: string)

  /** The values JavaScript's `!v` treats as false. */
  predicate Falsy(v: Value) {
    v.Undefined? || v.Null? || v == Bool(false) || v == Num(0) || v == Str("")
  }

  type Store = map<Segment, map<Key, Value>>

  /** What the store holds for a key of a segment. */
  function Lookup(st: Store, segment: Segment, key: Key): Option<Value> {
    if segment in st && key in st[segment] then Some(st[segment][key]) else None
  }

  function Put(st: Store, segment: Segment, key: Key, v: Value): (r: Store)
    ensures Lookup(r, segment, key) == Some(v)
  {
    var inner := if segment in st then st[segment] else map[];
    st[segment := inner[key := v]]
  }

  /** A write touches its own key only. */
  lemma PutKeepsOthers(st: Store, segment: Segment, key: Key, v: Value, s: Segment, k: Key)
    requires s != segment || k != key
    ensures Lookup(Put(st, segment, key, v), s, k) == Lookup(st, s, k)
  {
  }

  function Remove(st: Store, segment: Segment, key: Key): (r: Store)
    ensures Lookup(r, segment, key).None?
  {
    if segment in st then st[segment := st[segment] - {key}] else st
  }

  /** A removal touches its own key only. */
  lemma RemoveKeepsOthers(st: Store, segment: Segment, key: Key, s: Segment, k: Key)
    requires s != segment || k != key
    ensures Lookup(Remove(st, segment, key), s, k) == Lookup(st, s, k)
  {
  }

  /** A registered policy; its time-to-live has no effect in this model. */
  datatype Policy = Policy(expiresIn: int)

  /** The arguments of a `get` callback: the error flag and the value (`null` on a miss). */
  datatype GetReply = GetReply(error: bool, cached: Value)

  /** The error flag of a `set` or `drop` callback, and the store afterwards. */
  datatype WriteReply = WriteReply(error: bool, store: Store)

  /** `policy.get`: the stored value, or `null` on a miss. */
  function PolicyGet(st: Store, failing: bool, segment: Segment, key: Key): GetReply {
    if failing then GetReply(true, Null)
    else match Lookup(st, segment, key)
      case None => GetReply(false, Null)
      case Some(v) => GetReply(false, v)
  }

  /** `policy.set`. */
  function PolicySet(st: Store, failing: bool, segment: Segment, key: Key, v: Value): WriteReply {
    if failing then WriteReply(true, st) else WriteReply(false, Put(st, segment, key, v))
  }

  /** `policy.drop`. */
  function PolicyDrop(st: Store, failing: bool, segment: Segment, key: Key): WriteReply {
    if failing then WriteReply(true, st) else WriteReply(false, Remove(st, segment, key))
  }

  /** Read after write: a `get` after a successful `set` of the same key answers with the value written. */
  lemma ReadAfterWrite(st: Store, segment: Segment, key: Key, v: Value)
    ensures !PolicySet(st, false, segment, key, v).error
    ensures PolicyGet(PolicySet(st, false, segment, key, v).store, false, segment, key) == GetReply(false, v)
  {
  }

  /** Read after drop: a `get` after a successful `drop` of the key is a miss, answered with `null`. */
  lemma ReadAfterDrop(st: Store, segment: Segment, key: Key)
    ensures !PolicyDrop(st, false, segment, key).error
    ensures PolicyGet(PolicyDrop(st, false, segment, key).store, false, segment, key) == GetReply(false, Null)
  {
  }

  /** A write or a drop of one key leaves what a `get` of any other key answers. */
  lemma OtherKeysUnaffected(st: Store, failing: bool, segment: Segment, key: Key, v: Value, s: Segment, k: Key)
    requires s != segment || k != key
    ensures PolicyGet(PolicySet(st, failing, segment, key, v).store, false, s, k) == PolicyGet(st, false, s, k)
    ensures PolicyGet(PolicyDrop(st, failing, segment, key).store, false, s, k) == PolicyGet(st, false, s, k)
  {
    if !failing {
      PutKeepsOthers(st, segment, key, v, s, k);
      RemoveKeepsOthers(st, segment, key, s, k);
    }
  }

  /** A failing policy reports an error on every call and changes nothing. */
  lemma FailingPolicy(st: Store, segment: Segment, key: Key, v: Value)
    ensures PolicyGet(st, true, segment, key).error
    ensures PolicySet(st, true, segment, key, v) == WriteReply(true, st)
    ensures PolicyDrop(st, true, segment, key) == WriteReply(true, st)
  {
  }
}
