/**
  `redisWrapper.keys` (lib/redisWrapper.js): finds the user keys of a segment that
  start with a prefix by asking Redis for every raw key matching a glob pattern,
  then turns each raw key back into a user key.

  The raw keys live under the namespace `cacheWrapper:<segment>:`. The partition
  word is fixed and the segment is not percent-encoded; `options.partition` is
  carried along untouched. The Redis `KEYS` call is the parameter `keysCommand`:
  given the pattern it answers with the matching raw keys, or with nothing when
  it fails (its error is ignored).
 */
module RedisWrapper {
  import opened Wrappers
  import opened UriComponent

  const Separator := ":"
  const Wildcard := "*"
  const NamespaceRoot := "cacheWrapper"

  /** The storage namespace of a segment. */
  function Namespace(segment: string): string {
    NamespaceRoot + Separator + segment + Separator
  }

  /** The part of the `KEYS` pattern before the trailing wildcard. */
  function PatternStem(segment: string, prefix: string): string
    requires IsAscii(prefix)
  {
    Namespace(segment) + Encode(prefix)
  }

  /** The glob pattern handed to Redis. */
  function MatchPattern(segment: string, prefix: string): (p: string)
    requires IsAscii(prefix)
  {
    PatternStem(segment, prefix) + Wildcard
  }

  /** The raw key `keys` expects for a user key of the segment: its fixed namespace, then the encoded key. */
  function RawKey(segment: string, key: string): string
    requires IsAscii(key)
  {
    Namespace(segment) + Encode(key)
  }

  predicate OccursAt(s: string, sub: string, k: nat) {
    k + |sub| <= |s| && s[k..k + |sub|] == sub
  }

  /** The first position at or after `from` where `sub` occurs in `s`. */
  function FindFrom(s: string, sub: string, from: nat): (r: Option<nat>)
    requires from <= |s|
    ensures r.Some? ==> from <= r.value && OccursAt(s, sub, r.value)
    ensures r.Some? ==> forall k :: from <= k < r.value ==> !OccursAt(s, sub, k)
    ensures r.None? ==> forall k :: from <= k <= |s| ==> !OccursAt(s, sub, k)
    decreases |s| - from
  {
    if OccursAt(s, sub, from) then Some(from)
    else if from == |s| then None
    else FindFrom(s, sub, from + 1)
  }

  /** JavaScript's `s.replace(sub, '')` with a string pattern: only the first occurrence goes. */
  function StripFirst(s: string, sub: string): string {
    match FindFrom(s, sub, 0)
    case None => s
    case Some(k) => s[..k] + s[k + |sub|..]
  }

  /** Only the first occurrence goes: the text around it is kept as it was. */
  lemma StripFirstAt(s: string, sub: string, k: nat)
    requires OccursAt(s, sub, k) && forall j :: 0 <= j < k ==> !OccursAt(s, sub, j)
    ensures StripFirst(s, sub) == s[..k] + s[k + |sub|..]
  {
    var r := FindFrom(s, sub, 0);
    assert r == Some(k);
  }

  /** Without an occurrence, `replace` leaves the text unchanged. */
  lemma StripFirstAbsent(s: string, sub: string)
    requires forall j :: 0 <= j <= |s| ==> !OccursAt(s, sub, j)
    ensures StripFirst(s, sub) == s
  {
    assert FindFrom(s, sub, 0).None?;
  }

  /** One raw key as `keys` maps it: namespace stripped, then percent-decoded. */
  function DecodeKey(namespace: string, raw: string): Option<string> {
    Decode(StripFirst(raw, namespace))
  }

  /**
    `_.map(results, ...)` over the raw keys: one user key per raw key, in order.
    `None` when `decodeURIComponent` throws on some raw key, which aborts the map.
   */
  function DecodeAll(namespace: string, raws: seq<string>): (r: Option<seq<string>>)
    ensures r.Some? <==> forall i :: 0 <= i < |raws| ==> DecodeKey(namespace, raws[i]).Some?
    ensures r.Some? ==> |r.value| == |raws|
    ensures r.Some? ==> forall i :: 0 <= i < |raws| ==> r.value[i] == DecodeKey(namespace, raws[i]).value
  {
    if raws == [] then Some([])
    else
      match DecodeKey(namespace, raws[0])
      case None => None
      case Some(k) =>
        match DecodeAll(namespace, raws[1..])
        case None => None
        case Some(rest) => Some([k] + rest)
  }

  /** lodash maps an absent collection (`undefined` or `null`) to an empty array. */
  function ReplyKeys(reply: Option<seq<string>>): seq<string> {
    match reply
    case None => []
    case Some(rs) => rs
  }

  /** What `keys` stores in `options.keys`, given the store's answer to the pattern. */
  function FoundKeys(segment: string, prefix: string, keysCommand: string -> Option<seq<string>>): Option<seq<string>>
    requires IsAscii(prefix)
  {
    DecodeAll(Namespace(segment), ReplyKeys(keysCommand(MatchPattern(segment, prefix))))
  }

  /** The store's error is ignored: with no answer, `keys` still resolves, with no keys. */
  lemma NoReplyNoKeys(segment: string, prefix: string, keysCommand: string -> Option<seq<string>>)
    requires IsAscii(prefix) && keysCommand(MatchPattern(segment, prefix)).None?
    ensures FoundKeys(segment, prefix, keysCommand) == Some([])
  {
  }

  /** Stripping removes the leading namespace and nothing after it, even a second copy. */
  lemma StripLeading(namespace: string, rest: string)
    ensures StripFirst(namespace + rest, namespace) == rest
  {
    var s := namespace + rest;
    assert s[0..|namespace|] == namespace;
    assert OccursAt(s, namespace, 0);
    assert s[|namespace|..] == rest;
  }

  /** Round trip: the raw key written for a user key decodes back to exactly that key. */
  lemma RawKeyRoundTrip(segment: string, key: string)
    requires IsAscii(key)
    ensures DecodeKey(Namespace(segment), RawKey(segment, key)) == Some(key)
  {
    StripLeading(Namespace(segment), Encode(key));
    DecodeEncode(key);
  }

  /** Round trip for a whole reply: the raw keys of some user keys decode to those keys, in order. */
  lemma RawKeysRoundTrip(segment: string, keys: seq<string>)
    requires forall i :: 0 <= i < |keys| ==> IsAscii(keys[i])
    ensures DecodeAll(Namespace(segment), seq(|keys|, i requires 0 <= i < |keys| => RawKey(segment, keys[i]))) == Some(keys)
  {
    var raws := seq(|keys|, i requires 0 <= i < |keys| => RawKey(segment, keys[i]));
    forall i | 0 <= i < |keys| ensures DecodeKey(Namespace(segment), raws[i]) == Some(keys[i]) {
      RawKeyRoundTrip(segment, keys[i]);
    }
    var decoded := DecodeAll(Namespace(segment), raws);
    assert decoded.value == keys;
  }

  /** Every user key that starts with the prefix has a raw key that starts with the pattern's stem. */
  lemma PatternCoversPrefixedKeys(segment: string, prefix: string, key: string)
    requires IsAscii(key) && prefix <= key
    ensures IsAscii(prefix)
    ensures PatternStem(segment, prefix) <= RawKey(segment, key)
  {
    var suffix := key[|prefix|..];
    assert prefix + suffix == key;
    assert IsAscii(prefix) by {
      forall i | 0 <= i < |prefix| ensures IsAsciiChar(prefix[i]) { assert prefix[i] == key[i]; }
    }
    assert IsAscii(suffix) by {
      forall i | 0 <= i < |suffix| ensures IsAsciiChar(suffix[i]) { assert suffix[i] == key[|prefix| + i]; }
    }
    EncodeAppend(prefix, suffix);
    assert RawKey(segment, key) == PatternStem(segment, prefix) + Encode(suffix);
  }

  /**
    The options object the caller passes to `keys` (and to `cacheWrapper.delete`).
    `keys` adds the field `keys`; `delete` sets `partition` before that.
   */
  class DeleteOptions {
    var partition: Option<string>
    var segment: string
    var prefix: string
    var keys: Option<seq<string>>

    constructor (segment: string, prefix: string)
      ensures this.segment == segment && this.prefix == prefix
      ensures partition.None? && keys.None?
    {
      this.segment := segment;
      this.prefix := prefix;
      partition := None;
      keys := None;
    }
  }

  /**
    `keys(options)`: sends `MatchPattern(segment, prefix)` to Redis and sets
    `options.keys` to the decoded answer. `settled` says whether the promise
    resolves (with `options` itself); it does not when decoding throws, and then
    `options.keys` is left as it was. Nothing else in `options` changes.
   */
  method Keys(options: DeleteOptions, keysCommand: string -> Option<seq<string>>) returns (settled: bool)
    requires IsAscii(options.prefix)
    modifies options`keys
    ensures var found := FoundKeys(options.segment, options.prefix, keysCommand);
      settled == found.Some? && options.keys == (if settled then found else old(options.keys))
  {
    var namespace := Namespace(options.segment);
    var pattern := namespace + Encode(options.prefix) + Wildcard;
    var results := keysCommand(pattern);
    var found := DecodeAll(namespace, ReplyKeys(results));
    if found.Some? {
      options.keys := found;
      settled := true;
    } else {
      settled := false;
    }
  }
}
