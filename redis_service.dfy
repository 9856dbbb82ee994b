/** The hash-based task helpers and the per-user counters of `redis_service`, over a Redis server
    that decodes replies to text. Every helper catches the server's errors and answers False,
    None, `[]` or 0 instead. */
module RedisService {
  import opened Wrappers
  import Decimal
  import Glob

  /** A Redis value: a string, or a hash of string fields. */
  datatype Value = RStr(s: string) | RHash(fields: map<string, string>)

  /** The Redis server; `up` says whether it answers. */
  class Server {
    var store: map<string, Value>
    var up: bool

    constructor(store: map<string, Value>, up: bool)
      ensures this.store == store && this.up == up
    {
      this.store := store;
      this.up := up;
    }
  }

  const TaskPrefix := "task:"

  function TaskKey(id: string): string {
    TaskPrefix + id
  }

  function CountKey(userId: int): string {
    "user:" + Decimal.IntToStr(userId) + ":request_count"
  }

  function DurationKey(userId: int): string {
    "user:" + Decimal.IntToStr(userId) + ":duration"
  }

  /** `HSET key mapping`: the fields are merged into the hash (created when absent); an empty
      mapping, or a key holding a string, is an error. */
  function HSet(store: map<string, Value>, key: string, m: map<string, string>): (r: Option<map<string, Value>>)
    ensures r.Some? <==> m != map[] && (key !in store || store[key].RHash?)
    ensures r.Some? ==>
      && key in r.value && r.value[key].RHash?
      && r.value[key].fields == (if key in store then store[key].fields else map[]) + m
      && forall k :: k != key ==> (k in r.value <==> k in store) && (k in store ==> r.value[k] == store[k])
  {
    if m == map[] then None
    else if key in store && store[key].RStr? then None
    else Some(store[key := RHash((if key in store then store[key].fields else map[]) + m)])
  }

  /** `HGETALL key`: the hash, `{}` for an absent key, an error for a string. */
  function HGetAll(store: map<string, Value>, key: string): Option<map<string, string>> {
    if key !in store then Some(map[])
    else match store[key]
      case RHash(h) => Some(h)
      case RStr(_) => None
  }

  /** `GET key`: the string, None (Python None) for an absent key, an error for a hash. */
  function Get(store: map<string, Value>, key: string): Try<Option<string>> {
    if key !in store then Ok(None)
    else match store[key]
      case RStr(s) => Ok(Some(s))
      case RHash(_) => Raises
  }

  /** The store after `INCR key` and the value it returns. */
  datatype Counted = Counted(store: map<string, Value>, count: int)

  /** `INCR key`: an absent key counts from 0; the value must be the text of a 64-bit integer
      and the result must stay within 64 bits. */
  function Incr(store: map<string, Value>, key: string): Option<Counted> {
    if key !in store then Some(Counted(store[key := RStr("1")], 1))
    else match store[key]
      case RHash(_) => None
      case RStr(s) =>
        match Decimal.ParseCanonical(s)
        case None => None
        case Some(n) =>
          if Decimal.InInt64(n + 1) then Some(Counted(store[key := RStr(Decimal.IntToStr(n + 1))], n + 1))
          else None
  }

  /** `get_task`: the hash when it is non-empty; None when it is empty, missing, or the read fails. */
  function TaskOf(store: map<string, Value>, up: bool, id: string): (r: Option<map<string, string>>)
    ensures r.Some? ==> r.value != map[] && TaskKey(id) in store && store[TaskKey(id)] == RHash(r.value)
    ensures up && TaskKey(id) in store && store[TaskKey(id)].RHash? && store[TaskKey(id)].fields != map[] ==> r.Some?
  {
    if !up then None
    else match HGetAll(store, TaskKey(id))
      case None => None
      case Some(h) => if h != map[] then Some(h) else None
  }

  /** `save_task`: the fields are merged into the task's hash (the 24-hour expiry is not modelled). */
  method SaveTask(server: Server, id: string, data: map<string, string>) returns (ok: bool)
    modifies server
    ensures ok <==> old(server.up) && HSet(old(server.store), TaskKey(id), data).Some?
    ensures server.store == if ok then HSet(old(server.store), TaskKey(id), data).value else old(server.store)
    ensures server.up == old(server.up)
  {
    if !server.up {
      return false;
    }
    var r := HSet(server.store, TaskKey(id), data);
    if r.None? {
      return false;
    }
    server.store := r.value;
    return true;
  }

  /** `get_task`. */
  method GetTask(server: Server, id: string) returns (r: Option<map<string, string>>)
    ensures r == TaskOf(server.store, server.up, id)
  {
    if !server.up {
      return None;
    }
    var h := HGetAll(server.store, TaskKey(id));
    if h.None? || h.value == map[] {
      return None;
    }
    return h;
  }

  /** `update_task_status(task_id, status, **kwargs)`: `status` and the other keyword arguments
      are merged into the hash. A keyword argument cannot itself be named `status`. */
  method UpdateTaskStatus(server: Server, id: string, status: string, kwargs: map<string, string>) returns (ok: bool)
    requires "status" !in kwargs
    modifies server
    ensures ok <==> old(server.up) && HSet(old(server.store), TaskKey(id), map["status" := status] + kwargs).Some?
    ensures server.store == if ok then HSet(old(server.store), TaskKey(id), map["status" := status] + kwargs).value else old(server.store)
    ensures server.up == old(server.up)
  {
    ok := SaveTask(server, id, map["status" := status] + kwargs);
  }

  /** `delete_task`: True whenever the server answers, whether or not the key was there. */
  method DeleteTask(server: Server, id: string) returns (ok: bool)
    modifies server
    ensures ok == old(server.up) && server.up == old(server.up)
    ensures server.store == if ok then old(server.store) - {TaskKey(id)} else old(server.store)
  {
    if !server.up {
      return false;
    }
    server.store := server.store - {TaskKey(id)};
    return true;
  }

  /** `KEYS pattern`: each matching key once, in some order. */
  method Keys(server: Server, pattern: string) returns (ks: seq<string>)
    ensures forall k :: k in ks <==> k in server.store && Glob.Match(pattern, k)
    ensures forall i, j :: 0 <= i < j < |ks| ==> ks[i] != ks[j]
  {
    var rest := server.store.Keys;
    ks := [];
    while rest != {}
      invariant rest <= server.store.Keys
      invariant forall k :: k in ks <==> k in server.store && k !in rest && Glob.Match(pattern, k)
      invariant forall i, j :: 0 <= i < j < |ks| ==> ks[i] != ks[j]
      decreases |rest|
    {
      var k :| k in rest;
      if Glob.Match(pattern, k) {
        ks := ks + [k];
      }
      rest := rest - {k};
    }
  }

  /** `key.split(":")[1]`: the text between the first and the second colon (or the end). */
  function SecondSegment(key: string): (r: string)
    ensures ':' !in r
  {
    var i := FirstColon(key);
    if i == |key| then [] else
      var rest := key[i + 1..];
      rest[..FirstColon(rest)]
  }

  /** The index of the first `:`, or the length. */
  function FirstColon(s: string): (i: nat)
    ensures i <= |s| && ':' !in s[..i] && (i < |s| ==> s[i] == ':')
  {
    if s == [] then 0
    else if s[0] == ':' then 0
    else
      var j := FirstColon(s[1..]);
      assert s[..j + 1] == [s[0]] + s[1..][..j];
      j + 1
  }

  /** A hash whose `status` field is `pending`, tagged with the id from its key. */
  predicate IsPending(h: map<string, string>) {
    "status" in h && h["status"] == "pending"
  }

  function Tagged(key: string, h: map<string, string>): map<string, string> {
    h["task_id" := SecondSegment(key)]
  }

  /** The loop of `get_pending_tasks` over the keys `ks` in order: None once a key holds a
      string (the `HGETALL` error escapes the loop). */
  function PendingScanUpTo(store: map<string, Value>, ks: seq<string>): Option<seq<map<string, string>>>
    decreases |ks|
  {
    if ks == [] then Some([])
    else
      var front :- PendingScanUpTo(store, ks[..|ks| - 1]);
      var h :- HGetAll(store, ks[|ks| - 1]);
      Some(front + if IsPending(h) then [Tagged(ks[|ks| - 1], h)] else [])
  }

  /** `get_pending_tasks`: the pending records among the `task:*` keys, each tagged with its id;
      `[]` when the server fails or a task key holds a string. `order` is the order `KEYS` gave. */
  method GetPendingTasks(server: Server) returns (tasks: seq<map<string, string>>, order: seq<string>)
    ensures server.up ==> forall k :: k in order <==> k in server.store && Glob.Match("task:*", k)
    ensures tasks == if !server.up then [] else
      match PendingScanUpTo(server.store, order) case None => [] case Some(ts) => ts
  {
    if !server.up {
      return [], [];
    }
    order := Keys(server, "task:*");
    tasks := [];
    var i := 0;
    while i < |order|
      invariant 0 <= i <= |order|
      invariant PendingScanUpTo(server.store, order[..i]) == Some(tasks)
    {
      assert order[..i + 1][..i] == order[..i] && order[..i + 1][i] == order[i];
      var h := HGetAll(server.store, order[i]);
      if h.None? {
        assert PendingScanUpTo(server.store, order[..i + 1]).None?;
        EscapeStops(server.store, order, i + 1);
        return [], order;
      }
      ScanStep(server.store, order, i, tasks, h.value);
      if IsPending(h.value) {
        tasks := tasks + [Tagged(order[i], h.value)];
      } else {
        assert tasks + [] == tasks;
      }
      i := i + 1;
    }
    assert order[..|order|] == order;
  }

  lemma ScanStep(store: map<string, Value>, ks: seq<string>, i: nat, ts: seq<map<string, string>>, h: map<string, string>)
    requires i < |ks| && PendingScanUpTo(store, ks[..i]) == Some(ts) && HGetAll(store, ks[i]) == Some(h)
    ensures PendingScanUpTo(store, ks[..i + 1]) == Some(ts + if IsPending(h) then [Tagged(ks[i], h)] else [])
  {
    assert ks[..i + 1][..i] == ks[..i] && ks[..i + 1][i] == ks[i];
  }

  /** Once a prefix of the keys raises, the whole scan raises. */
  lemma {:induction false} EscapeStops(store: map<string, Value>, ks: seq<string>, i: nat)
    requires i <= |ks| && PendingScanUpTo(store, ks[..i]).None?
    ensures PendingScanUpTo(store, ks).None?
    decreases |ks| - i
  {
    if i < |ks| {
      assert ks[..i + 1][..i] == ks[..i];
      EscapeStops(store, ks, i + 1);
    } else {
      assert ks[..i] == ks;
    }
  }

  /** `m` is the tagged record of the pending hash stored at `k`. */
  predicate PendingAt(store: map<string, Value>, k: string, m: map<string, string>) {
    k in store && store[k].RHash? && IsPending(store[k].fields) && m == Tagged(k, store[k].fields)
  }

  /** The records the scan returns are exactly the pending hashes under the scanned keys, each
      tagged with its key's id. */
  lemma {:induction false} PendingScanExact(store: map<string, Value>, ks: seq<string>, ts: seq<map<string, string>>)
    requires PendingScanUpTo(store, ks) == Some(ts)
    ensures |ts| <= |ks|
    ensures forall m :: m in ts <==> exists k :: k in ks && PendingAt(store, k, m)
    decreases |ks|
  {
    if ks != [] {
      var front := ks[..|ks| - 1];
      var last := ks[|ks| - 1];
      var fts := PendingScanUpTo(store, front).value;
      var h := HGetAll(store, last).value;
      PendingScanExact(store, front, fts);
      assert ts == fts + if IsPending(h) then [Tagged(last, h)] else [];
      forall m
        ensures m in ts <==> exists k :: k in ks && PendingAt(store, k, m)
      {
        if m in ts && m !in fts {
          assert PendingAt(store, last, m);
        }
        if exists k :: k in ks && PendingAt(store, k, m) {
          var k :| k in ks && PendingAt(store, k, m);
          if k != last {
            assert k in front;
          }
        }
      }
    }
  }

  lemma TaskPatternPrefix(k: string)
    requires Glob.Match("task:*", k)
    ensures |k| >= 5 && k[..5] == TaskPrefix
  {
    assert "task:*" == TaskPrefix + "*";
    Glob.LiteralPrefix(TaskPrefix, "*", k);
  }

  /** The first colon is at `i` when `s[i]` is a colon and none comes before it. */
  lemma FirstColonAt(s: string, i: nat)
    requires i < |s| && s[i] == ':' && ':' !in s[..i]
    ensures FirstColon(s) == i
  {
  }

  /** The id tagged onto the record of a task key is the key's text after `task:` up to the next
      colon (every key `KEYS task:*` reports is one, by `TaskPatternPrefix`). */
  lemma PendingKeyShape(k: string)
    requires |k| >= 5 && k[..5] == TaskPrefix
    ensures SecondSegment(k) == k[5..][..FirstColon(k[5..])]
  {
    assert k[4] == ':';
    assert ':' !in k[..4] by {
      assert k[..4] == "task";
    }
    FirstColonAt(k, 4);
  }

  /** A hash that a task was saved to is what `get_task` then reads: the old fields merged with
      the saved ones. */
  lemma GetAfterSave(store: map<string, Value>, id: string, data: map<string, string>)
    requires HSet(store, TaskKey(id), data).Some?
    ensures TaskOf(HSet(store, TaskKey(id), data).value, true, id) ==
      Some((if TaskKey(id) in store then store[TaskKey(id)].fields else map[]) + data)
  {
    var m := (if TaskKey(id) in store then store[TaskKey(id)].fields else map[]) + data;
    var k :| k in data;
    assert k in m;
  }

  /** A status update keeps every other field of the hash and sets `status`. */
  lemma UpdateKeepsOtherFields(store: map<string, Value>, id: string, status: string, kwargs: map<string, string>, f: string)
    requires "status" !in kwargs && TaskKey(id) in store && store[TaskKey(id)].RHash?
    requires f in store[TaskKey(id)].fields && f != "status" && f !in kwargs
    ensures var s := HSet(store, TaskKey(id), map["status" := status] + kwargs);
      s.Some? && TaskOf(s.value, true, id).Some?
      && f in TaskOf(s.value, true, id).value && TaskOf(s.value, true, id).value[f] == store[TaskKey(id)].fields[f]
      && TaskOf(s.value, true, id).value["status"] == status
  {
    var u := map["status" := status] + kwargs;
    assert "status" in u;
    GetAfterSave(store, id, u);
  }

  /** After `delete_task` the task reads as None. */
  lemma GetAfterDelete(store: map<string, Value>, up: bool, id: string)
    ensures TaskOf(store - {TaskKey(id)}, up, id).None?
  {
  }

  /** `increment_user_request_count`: the previous count plus one (from 0 when absent); 0 when
      the server fails or the value is not a counter. */
  function IncrementResult(store: map<string, Value>, up: bool, userId: int): (r: int)
    ensures up && CountKey(userId) !in store ==> r == 1
  {
    if !up then 0
    else match Incr(store, CountKey(userId))
      case None => 0
      case Some(c) => c.count
  }

  method IncrementUserRequestCount(server: Server, userId: int) returns (count: int)
    modifies server
    ensures count == IncrementResult(old(server.store), old(server.up), userId)
    ensures server.up == old(server.up)
    ensures server.store == if old(server.up) && Incr(old(server.store), CountKey(userId)).Some?
      then Incr(old(server.store), CountKey(userId)).value.store else old(server.store)
  {
    if !server.up {
      return 0;
    }
    var c := Incr(server.store, CountKey(userId));
    if c.None? {
      return 0;
    }
    server.store := c.value.store;
    return c.value.count;
  }

  /** `int(count) if count else 0` on a `GET`; 0 on any error. */
  function CountOf(store: map<string, Value>, up: bool, key: string): int {
    if !up then 0
    else match Get(store, key)
      case Raises => 0
      case Ok(None) => 0
      case Ok(Some(s)) => if s == "" then 0 else match Decimal.PyInt(s) case None => 0 case Some(n) => n
  }

  /** `get_user_request_count`. */
  method GetUserRequestCount(server: Server, userId: int) returns (count: int)
    ensures count == CountOf(server.store, server.up, CountKey(userId))
    ensures server.up && CountKey(userId) !in server.store ==> count == 0
  {
    if !server.up {
      return 0;
    }
    var v := Get(server.store, CountKey(userId));
    if v.Raises? || v.value.None? || v.value.value == "" {
      return 0;
    }
    var n := Decimal.PyInt(v.value.value);
    if n.None? {
      return 0;
    }
    return n.value;
  }

  /** An increment is seen by the next read: the count read back is the one returned. */
  lemma IncrementThenGet(store: map<string, Value>, userId: int)
    requires Incr(store, CountKey(userId)).Some?
    ensures var c := Incr(store, CountKey(userId)).value;
      CountOf(c.store, true, CountKey(userId)) == c.count == IncrementResult(store, true, userId)
  {
    var c := Incr(store, CountKey(userId)).value;
    Decimal.PyIntOfIntToStr(c.count);
    assert Decimal.IntToStr(1) == "1";
  }

  /** Two increments from a valid count count up by two. */
  lemma IncrementTwice(store: map<string, Value>, userId: int, n: int)
    requires CountKey(userId) in store && store[CountKey(userId)] == RStr(Decimal.IntToStr(n))
    requires Decimal.InInt64(n) && Decimal.InInt64(n + 2)
    ensures var c1 := Incr(store, CountKey(userId));
      c1.Some? && c1.value.count == n + 1
      && var c2 := Incr(c1.value.store, CountKey(userId));
      c2.Some? && c2.value.count == n + 2
  {
    Decimal.ParseCanonicalIff(Decimal.IntToStr(n), n);
    Decimal.ParseCanonicalIff(Decimal.IntToStr(n + 1), n + 1);
  }

  /** A whole number of seconds as Python holds it: an `int`, or a `float` with that value. */
  datatype Seconds = IntSecs(n: int) | FloatSecs(n: int)

  /** The text `SET` stores for the number: `str` of an `int`, `repr` of a `float`. */
  function SecondsText(t: Seconds): (r: string)
    ensures r != []
    ensures t.FloatSecs? <==> '.' in r
  {
    Decimal.NoDotInIntToStr(t.n);
    assert Decimal.IntToStr(t.n) != [] by {
      if t.n < 0 {} else { assert Decimal.NatToStr(t.n) != []; }
    }
    match t
    case IntSecs(n) => Decimal.IntToStr(n)
    case FloatSecs(n) => assert Decimal.FloatText(n)[|Decimal.FloatText(n)| - 2] == '.'; Decimal.FloatText(n)
  }

  /** `float(duration) if duration else 0` on a `GET`; 0 on any error. */
  function DurationOf(store: map<string, Value>, up: bool, key: string): int {
    if !up then 0
    else match Get(store, key)
      case Raises => 0
      case Ok(None) => 0
      case Ok(Some(s)) => if s == "" then 0 else match Decimal.PyWholeFloat(s) case None => 0 case Some(n) => n
  }

  /** `add_user_duration`: the stored duration plus `duration`, written back; None (the
      method's 0) when the server fails or the stored text is not a number. An absent key
      counts as the `int` 0, so the first add keeps the type of `duration`; a stored value
      is read with `float()`, so every later total is a `float`. */
  function DurationAfter(store: map<string, Value>, key: string, duration: Seconds): Option<Seconds> {
    match Get(store, key)
    case Raises => None
    case Ok(None) => Some(duration)
    case Ok(Some(s)) =>
      if s == "" then Some(duration)
      else match Decimal.PyWholeFloat(s) case None => None case Some(n) => Some(FloatSecs(n + duration.n))
  }

  method AddUserDuration(server: Server, userId: int, duration: Seconds) returns (total: Seconds)
    modifies server
    ensures server.up == old(server.up)
    ensures var d := DurationAfter(old(server.store), DurationKey(userId), duration);
      if old(server.up) && d.Some? then total == d.value && server.store == old(server.store)[DurationKey(userId) := RStr(SecondsText(d.value))]
      else total == IntSecs(0) && server.store == old(server.store)
  {
    if !server.up {
      return IntSecs(0);
    }
    var d := DurationAfter(server.store, DurationKey(userId), duration);
    if d.None? {
      return IntSecs(0);
    }
    server.store := server.store[DurationKey(userId) := RStr(SecondsText(d.value))];
    return d.value;
  }

  /** `get_user_duration`. */
  method GetUserDuration(server: Server, userId: int) returns (total: int)
    ensures total == DurationOf(server.store, server.up, DurationKey(userId))
    ensures server.up && DurationKey(userId) !in server.store ==> total == 0
  {
    if !server.up {
      return 0;
    }
    var v := Get(server.store, DurationKey(userId));
    if v.Raises? || v.value.None? || v.value.value == "" {
      return 0;
    }
    var n := Decimal.PyWholeFloat(v.value.value);
    if n.None? {
      return 0;
    }
    return n.value;
  }

  /** `float()` reads the text of a total back as its value. */
  lemma FloatOfSecondsText(t: Seconds)
    ensures Decimal.PyWholeFloat(SecondsText(t)) == Some(t.n)
  {
    match t
    case IntSecs(n) => Decimal.PyWholeFloatOfIntToStr(n);
    case FloatSecs(n) => Decimal.PyWholeFloatOfFloatText(n);
  }

  /** Reading and adding to a stored text that `float()` reads as `v`. */
  lemma StoredDuration(store: map<string, Value>, key: string, text: string, v: int, duration: Seconds)
    requires text != [] && Decimal.PyWholeFloat(text) == Some(v)
    ensures DurationOf(store[key := RStr(text)], true, key) == v
    ensures DurationAfter(store[key := RStr(text)], key, duration) == Some(FloatSecs(v + duration.n))
  {
    assert Get(store[key := RStr(text)], key) == Ok(Some(text));
  }

  /** A stored total, `int` or `float` text, reads back as its value. */
  lemma SecondsTextReadsBack(store: map<string, Value>, key: string, t: Seconds)
    ensures DurationOf(store[key := RStr(SecondsText(t))], true, key) == t.n
  {
    FloatOfSecondsText(t);
    StoredDuration(store, key, SecondsText(t), t.n, IntSecs(0));
  }

  /** Durations accumulate: the total is the previous duration plus the added one, it is a
      `float` unless nothing was stored before, and it reads back as itself. */
  lemma AddThenGetDuration(store: map<string, Value>, userId: int, duration: Seconds)
    requires DurationAfter(store, DurationKey(userId), duration).Some?
    ensures var total := DurationAfter(store, DurationKey(userId), duration).value;
      && total.n == DurationOf(store, true, DurationKey(userId)) + duration.n
      && (DurationKey(userId) in store && store[DurationKey(userId)] != RStr("") ==> total.FloatSecs?)
      && DurationOf(store[DurationKey(userId) := RStr(SecondsText(total))], true, DurationKey(userId)) == total.n
  {
    var total := DurationAfter(store, DurationKey(userId), duration).value;
    SecondsTextReadsBack(store, DurationKey(userId), total);
  }

  /** Adding to a total the service wrote itself never fails, and writes a `float`. */
  lemma AddAfterAdd(store: map<string, Value>, userId: int, t: Seconds, duration: Seconds)
    ensures DurationAfter(store[DurationKey(userId) := RStr(SecondsText(t))], DurationKey(userId), duration)
      == Some(FloatSecs(t.n + duration.n))
  {
    FloatOfSecondsText(t);
    StoredDuration(store, DurationKey(userId), SecondsText(t), t.n, duration);
  }

  lemma ExampleTexts()
    ensures SecondsText(IntSecs(15)) == "15"
    ensures SecondsText(FloatSecs(18)) == "18.0" && SecondsText(FloatSecs(21)) == "21.0"
  {
    assert Decimal.IntToStr(15) == "15";
    assert Decimal.IntToStr(18) == "18";
    assert Decimal.IntToStr(21) == "21";
  }

  /** Three adds of `int` seconds to a fresh key store `"15"`, `"18.0"` and `"21.0"`. */
  lemma DurationTexts(store: map<string, Value>, userId: int)
    requires DurationKey(userId) !in store
    ensures var k := DurationKey(userId);
      && var d1 := DurationAfter(store, k, IntSecs(15));
      d1 == Some(IntSecs(15)) && SecondsText(d1.value) == "15"
      && var s1 := store[k := RStr(SecondsText(d1.value))];
      var d2 := DurationAfter(s1, k, IntSecs(3));
      d2 == Some(FloatSecs(18)) && SecondsText(d2.value) == "18.0"
      && DurationOf(s1[k := RStr("18.0")], true, k) == 18
      && var s2 := s1[k := RStr(SecondsText(d2.value))];
      var d3 := DurationAfter(s2, k, IntSecs(3));
      d3 == Some(FloatSecs(21)) && SecondsText(d3.value) == "21.0"
  {
    var k := DurationKey(userId);
    ExampleTexts();
    assert DurationAfter(store, k, IntSecs(15)) == Some(IntSecs(15));
    var s1 := store[k := RStr(SecondsText(IntSecs(15)))];
    AddAfterAdd(store, userId, IntSecs(15), IntSecs(3));
    assert DurationAfter(s1, k, IntSecs(3)) == Some(FloatSecs(18));
    var s2 := s1[k := RStr(SecondsText(FloatSecs(18)))];
    SecondsTextReadsBack(s1, k, FloatSecs(18));
    AddAfterAdd(s1, userId, FloatSecs(18), IntSecs(3));
    assert DurationAfter(s2, k, IntSecs(3)) == Some(FloatSecs(21));
  }

  /** The task, count and duration keys never collide. */
  lemma KeysDistinct(id: string, u: int, v: int)
    ensures CountKey(u) != DurationKey(v)
    ensures TaskKey(id) != CountKey(u) && TaskKey(id) != DurationKey(v)
  {
    var c := CountKey(u);
    var d := DurationKey(v);
    assert c[..5] == "user:" && TaskKey(id)[..5] == "task:";
    assert d[..5] == "user:";
    assert c[|c| - 1] == 't' && d[|d| - 1] == 'n';
  }
}
