/** `RedisStorage`: JSON values under prefixed keys of a Redis database. */
module Storage {
  import opened Json
  import Text
  import Glob

  /** The Redis database: each key holds the JSON value `json.dumps` wrote for it; `up` says
      whether the server answers (every command fails while it is down), and `writable` whether
      it accepts writes while it answers (a read-only replica serves GET but refuses SET and DEL). */
  class Redis {
    var data: map<string, Json>
    var up: bool
    var writable: bool

    constructor(up: bool, writable: bool)
      ensures data == map[] && this.up == up && this.writable == writable
    {
      data := map[];
      this.up := up;
      this.writable := writable;
    }
  }

  /** Whether a write command succeeds. */
  predicate Writes(up: bool, writable: bool) {
    up && writable
  }

  /** What `RedisStorage.get` returns for a full Redis key: the stored value, or JNull (Python
      None) when the key is absent or the server is down. A stored `null` also reads as None. */
  function Lookup(data: map<string, Json>, up: bool, key: string): Json {
    if up && key in data then data[key] else JNull
  }

  /** A key as `get_keys` reports it: `k.replace(prefix, '', 1)` when there is a prefix. */
  function StripKey(prefix: string, k: string): string {
    if prefix == "" then k else Text.ReplaceFirst(k, prefix, "")
  }

  /** The keys `get_keys(pattern)` reports: every stored key matching `prefix + pattern`, prefix
      removed; none while the server is down. */
  function KeysOf(data: map<string, Json>, up: bool, prefix: string, pattern: string): set<string> {
    if !up then {} else set k | k in data && Glob.Match(prefix + pattern, k) :: StripKey(prefix, k)
  }

  /** Reading a key back after saving it gives the saved value. */
  lemma GetAfterSave(data: map<string, Json>, key: string, d: Json)
    ensures Lookup(data[key := d], true, key) == d
  {
  }

  /** After a delete the key reads as None, whether or not it was there. */
  lemma GetAfterDelete(data: map<string, Json>, up: bool, key: string)
    ensures Lookup(data - {key}, up, key) == JNull
  {
  }

  /** Saving or deleting one key leaves every other key as it was. */
  lemma OtherKeysUnchanged(data: map<string, Json>, up: bool, key: string, other: string, d: Json)
    requires other != key
    ensures Lookup(data[key := d], up, other) == Lookup(data, up, other)
    ensures Lookup(data - {key}, up, other) == Lookup(data, up, other)
  {
  }

  /** With a prefix free of wildcards, putting the prefix back onto a reported key names a stored key. */
  lemma KeysRestorePrefix(data: map<string, Json>, up: bool, prefix: string, pattern: string, e: string)
    requires Glob.NoMeta(prefix) && e in KeysOf(data, up, prefix, pattern)
    ensures prefix + e in data
  {
    var k :| k in data && Glob.Match(prefix + pattern, k) && e == StripKey(prefix, k);
    Glob.LiteralPrefix(prefix, pattern, k);
    if prefix != "" {
      Text.ReplaceFirstLeading(k, prefix);
      assert prefix + k[|prefix|..] == k;
    } else {
      assert prefix + e == k;
    }
  }

  class RedisStorage {
    const prefix: string
    const redis: Redis

    constructor(prefix: string, redis: Redis)
      ensures this.prefix == prefix && this.redis == redis
    {
      this.prefix := prefix;
      this.redis := redis;
    }

    /** `_get_key`: the prefix followed by the key. */
    function Key(key: string): (r: string)
      ensures |r| == |prefix| + |key| && r[..|prefix|] == prefix && r[|prefix|..] == key
    {
      prefix + key
    }

    /** Distinct keys never share a Redis key. */
    lemma KeyInjective(a: string, b: string)
      requires Key(a) == Key(b)
      ensures a == b
    {
      assert a == Key(a)[|prefix|..];
    }

    /** `save`: stores `d` and returns True, or returns False and changes nothing when Redis fails. */
    method Save(key: string, d: Json) returns (ok: bool)
      modifies redis
      ensures ok == Writes(old(redis.up), old(redis.writable))
      ensures redis.up == old(redis.up) && redis.writable == old(redis.writable)
      ensures redis.data == if ok then old(redis.data)[Key(key) := d] else old(redis.data)
    {
      if !redis.up || !redis.writable {
        return false;
      }
      redis.data := redis.data[Key(key) := d];
      return true;
    }

    /** `get`: the stored value, None when absent or when Redis fails. */
    method Get(key: string) returns (r: Json)
      ensures r == Lookup(redis.data, redis.up, Key(key))
      ensures !redis.up ==> r == JNull
    {
      var k := Key(key);
      if !redis.up || k !in redis.data {
        return JNull;
      }
      return redis.data[k];
    }

    /** `delete`: removes the key (present or not) and returns True, or False when Redis fails. */
    method Delete(key: string) returns (ok: bool)
      modifies redis
      ensures ok == Writes(old(redis.up), old(redis.writable))
      ensures redis.up == old(redis.up) && redis.writable == old(redis.writable)
      ensures redis.data == if ok then old(redis.data) - {Key(key)} else old(redis.data)
    {
      if !redis.up || !redis.writable {
        return false;
      }
      redis.data := redis.data - {Key(key)};
      return true;
    }

    /** `get_keys`: the keys matching `prefix + pattern`, with the prefix removed; `[]` when Redis
        fails. */
    method GetKeys(pattern: string) returns (keys: seq<string>)
      ensures Elems(keys) == KeysOf(redis.data, redis.up, prefix, pattern)
      ensures !redis.up ==> keys == []
      ensures Glob.NoMeta(prefix) ==> Distinct(keys)
    {
      if !redis.up {
        return [];
      }
      keys := CollectKeys(redis.data, prefix, pattern);
    }
  }

  /** No entry of the list appears twice. */
  predicate Distinct(s: seq<string>) {
    forall i, j :: 0 <= i < j < |s| ==> s[i] != s[j]
  }

  /** The scan behind `get_keys`: each stored key matching `prefix + pattern`, with `prefix`
      removed. Redis reports each key once, and removing a wildcard-free prefix that every
      reported key starts with keeps them apart. */
  method CollectKeys(data: map<string, Json>, prefix: string, pattern: string) returns (keys: seq<string>)
    ensures Elems(keys) == set k | k in data && Glob.Match(prefix + pattern, k) :: StripKey(prefix, k)
    ensures Glob.NoMeta(prefix) ==> Distinct(keys)
  {
    var full := prefix + pattern;
    var rest := data.Keys;
    ghost var done: set<string> := {};
    keys := [];
    while rest != {}
      invariant rest <= data.Keys && done == data.Keys - rest
      invariant Elems(keys) == Scanned(data, full, prefix, done)
      invariant Glob.NoMeta(prefix) ==> Distinct(keys)
      decreases |rest|
    {
      var k :| k in rest;
      ScannedStep(data, full, prefix, done, k);
      if Glob.Match(full, k) {
        var e := StripKey(prefix, k);
        if Glob.NoMeta(prefix) {
          StripFresh(data, prefix, pattern, done, k);
          DistinctAppend(keys, e);
        }
        ElemsAppend(keys, e);
        keys := keys + [e];
      }
      rest := rest - {k};
      done := done + {k};
    }
    ScannedAll(data, full, prefix, done);
  }

  /** The keys reported so far, after the scan has visited the stored keys in `done`. */
  ghost function Scanned(data: map<string, Json>, full: string, prefix: string, done: set<string>): set<string> {
    set k | k in data && k in done && Glob.Match(full, k) :: StripKey(prefix, k)
  }

  lemma ScannedStep(data: map<string, Json>, full: string, prefix: string, done: set<string>, k: string)
    requires k in data && k !in done
    ensures Scanned(data, full, prefix, done + {k}) ==
      Scanned(data, full, prefix, done) + (if Glob.Match(full, k) then {StripKey(prefix, k)} else {})
  {
    var a := Scanned(data, full, prefix, done + {k});
    var b := Scanned(data, full, prefix, done) + (if Glob.Match(full, k) then {StripKey(prefix, k)} else {});
    forall e | e in a ensures e in b {
      var j :| j in data && j in done + {k} && Glob.Match(full, j) && e == StripKey(prefix, j);
      if j != k {
        assert e in Scanned(data, full, prefix, done);
      }
    }
  }

  /** Two keys matching `prefix + pattern` that strip to the same key are the same key. */
  lemma StripInjective(prefix: string, pattern: string, j: string, k: string)
    requires Glob.NoMeta(prefix) && Glob.Match(prefix + pattern, j) && Glob.Match(prefix + pattern, k)
    requires StripKey(prefix, j) == StripKey(prefix, k)
    ensures j == k
  {
    Glob.LiteralPrefix(prefix, pattern, j);
    Glob.LiteralPrefix(prefix, pattern, k);
    if prefix != "" {
      Text.ReplaceFirstLeading(j, prefix);
      Text.ReplaceFirstLeading(k, prefix);
      assert j == prefix + j[|prefix|..] && k == prefix + k[|prefix|..];
    }
  }

  /** A matching key not yet scanned strips to a key not yet reported. */
  lemma StripFresh(data: map<string, Json>, prefix: string, pattern: string, done: set<string>, k: string)
    requires Glob.NoMeta(prefix) && k !in done && Glob.Match(prefix + pattern, k)
    ensures StripKey(prefix, k) !in Scanned(data, prefix + pattern, prefix, done)
  {
    if StripKey(prefix, k) in Scanned(data, prefix + pattern, prefix, done) {
      var j :| j in data && j in done && Glob.Match(prefix + pattern, j) && StripKey(prefix, k) == StripKey(prefix, j);
      StripInjective(prefix, pattern, j, k);
    }
  }

  lemma ScannedAll(data: map<string, Json>, full: string, prefix: string, done: set<string>)
    requires done == data.Keys
    ensures Scanned(data, full, prefix, done) == set k | k in data && Glob.Match(full, k) :: StripKey(prefix, k)
  {
  }

  /** The distinct entries of a list. */
  function Elems(s: seq<string>): (r: set<string>)
    ensures forall e :: e in r <==> e in s
  {
    set e | e in s
  }

  lemma DistinctAppend(s: seq<string>, x: string)
    requires Distinct(s) && x !in Elems(s)
    ensures Distinct(s + [x])
  {
  }

  lemma ElemsAppend(s: seq<string>, x: string)
    ensures Elems(s + [x]) == Elems(s) + {x}
  {
    assert forall e :: e in s + [x] <==> e in s || e == x;
  }
}
