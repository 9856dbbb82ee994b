/** The one-off migration of stored task records: numeric timestamps become ISO text, a missing
    `whisper_arch` is filled into non-empty extra parameters, and each record is saved back only
    if it still validates as a task. `datetime.fromtimestamp(v).isoformat()` is a parameter
    (None where it raises). */
module MigrateTimestamps {
  import opened Wrappers
  import opened Json
  import opened TaskSchema
  import Text
  import Storage

  /** `convert_timestamp`: a number (a bool included, as for Python) becomes its ISO text; any
      other value comes back as it is. */
  function ConvertTimestamp(v: Json, iso: Json -> Option<string>): (r: Try<Json>)
    ensures !IsNumber(v) ==> r == Ok(v)
    ensures IsNumber(v) ==> (r.Ok? <==> iso(v).Some?) && (r.Ok? ==> r.value == JStr(iso(v).value))
    ensures r.Ok? ==> !IsNumber(r.value)
  {
    if IsNumber(v) then
      match iso(v)
      case Some(s) => Ok(JStr(s))
      case None => Raises
    else Ok(v)
  }

  /** Converting a converted value again changes nothing. */
  lemma ConvertIdempotent(v: Json, iso: Json -> Option<string>)
    requires ConvertTimestamp(v, iso).Ok?
    ensures ConvertTimestamp(ConvertTimestamp(v, iso).value, iso) == ConvertTimestamp(v, iso)
  {
  }

  const TimestampFields: seq<string> := ["started_at", "completed_at", "created_at"]

  /** One step of the field loop: a present, truthy field is converted in place. */
  function ConvertField(d: map<string, Json>, f: string, iso: Json -> Option<string>): Try<map<string, Json>> {
    if f in d && Truthy(d[f]) then
      var c :- ConvertTimestamp(d[f], iso);
      Ok(d[f := c])
    else Ok(d)
  }

  /** The field loop over `fields`, in order; the first conversion that raises stops it. */
  function ConvertFields(d: map<string, Json>, fields: seq<string>, iso: Json -> Option<string>): (r: Try<map<string, Json>>)
    ensures r.Ok? ==> r.value.Keys == d.Keys
    ensures r.Ok? ==> forall k :: k in d && k !in fields ==> r.value[k] == d[k]
    ensures r.Ok? ==> forall k :: k in d && k in fields && !Truthy(d[k]) ==> r.value[k] == d[k]
    ensures r.Ok? ==> forall k :: k in d && k in fields && Truthy(d[k]) ==>
      ConvertTimestamp(d[k], iso) == Ok(r.value[k])
    decreases |fields|
  {
    if fields == [] then Ok(d)
    else
      var prefix := fields[..|fields| - 1];
      var f := fields[|fields| - 1];
      var e :- ConvertFields(d, prefix, iso);
      ConvertField(e, f, iso)
  }

  /** The field loop of the migration, over the three timestamp fields. */
  method ConvertTimestampFields(d: map<string, Json>, iso: Json -> Option<string>) returns (r: Try<map<string, Json>>)
    ensures r == ConvertFields(d, TimestampFields, iso)
  {
    var cur := d;
    var i := 0;
    while i < |TimestampFields|
      invariant 0 <= i <= |TimestampFields|
      invariant ConvertFields(d, TimestampFields[..i], iso) == Ok(cur)
    {
      var f := TimestampFields[i];
      assert TimestampFields[..i + 1][..i] == TimestampFields[..i];
      if f in cur && Truthy(cur[f]) {
        var c := ConvertTimestamp(cur[f], iso);
        if c.Raises? {
          return Raises;
        }
        cur := cur[f := c.value];
      }
      i := i + 1;
    }
    assert TimestampFields[..i] == TimestampFields;
    return Ok(cur);
  }

  /** `fix_extra_params`: truthy extra parameters lacking `whisper_arch` get the default; the
      assignment raises on anything but a dict (the `in` test already raises on a number). */
  function FixExtraParams(d: map<string, Json>, defaultArch: string): (r: Try<map<string, Json>>)
    ensures !("extra_params" in d && Truthy(d["extra_params"])) ==> r == Ok(d)
    ensures "extra_params" in d && d["extra_params"].JObj? && Truthy(d["extra_params"]) ==>
      var e := d["extra_params"].fields;
      r == Ok(if "whisper_arch" in e then d else d["extra_params" := JObj(e["whisper_arch" := JStr(defaultArch)])])
    ensures r.Ok? ==> r.value.Keys == d.Keys && forall k :: k in d && k != "extra_params" ==> r.value[k] == d[k]
  {
    if "extra_params" in d && Truthy(d["extra_params"]) then
      match d["extra_params"]
      case JObj(e) =>
        if "whisper_arch" in e then Ok(d) else Ok(d["extra_params" := JObj(e["whisper_arch" := JStr(defaultArch)])])
      case JArr(items) => if JStr("whisper_arch") in items then Ok(d) else Raises
      case JStr(s) => if Text.Contains(s, "whisper_arch") then Ok(d) else Raises
      case _ => Raises
    else Ok(d)
  }

  /** An existing `whisper_arch` is kept, and fixing twice is fixing once. */
  lemma FixIdempotent(d: map<string, Json>, defaultArch: string)
    requires FixExtraParams(d, defaultArch).Ok?
    ensures FixExtraParams(FixExtraParams(d, defaultArch).value, defaultArch) == FixExtraParams(d, defaultArch)
  {
    var r := FixExtraParams(d, defaultArch).value;
    if "extra_params" in d && d["extra_params"].JObj? && Truthy(d["extra_params"]) {
      var e := d["extra_params"].fields;
      if "whisper_arch" !in e {
        assert r["extra_params"] == JObj(e["whisper_arch" := JStr(defaultArch)]);
        assert r["extra_params" := JObj(r["extra_params"].fields)] == r;
      }
    }
  }

  /** What the loop does with one record. */
  datatype Outcome = Skipped | Invalid | Saved(record: map<string, Json>)

  /** The body of the per-record loop: falsy and non-dict values are skipped; a conversion or fix
      that raises, or a record that does not validate, is an error; the rest is saved. */
  function MigrateRecord(v: Json, iso: Json -> Option<string>, defaultArch: string): (o: Outcome)
    ensures o.Saved? ==> v.JObj? && o.record.Keys == v.fields.Keys && FromDict(JObj(o.record)).Some?
    ensures (!Truthy(v) || !v.JObj?) <==> o.Skipped?
  {
    if !Truthy(v) || !v.JObj? then Skipped
    else match ConvertFields(v.fields, TimestampFields, iso)
      case Raises => Invalid
      case Ok(c) =>
        match FixExtraParams(c, defaultArch)
        case Raises => Invalid
        case Ok(f) => if FromDict(JObj(f)).None? then Invalid else Saved(f)
  }

  /** The per-record body as the loop runs it, with the field loop. */
  method MigrateOne(v: Json, iso: Json -> Option<string>, defaultArch: string) returns (o: Outcome)
    ensures o == MigrateRecord(v, iso, defaultArch)
  {
    if !Truthy(v) || !v.JObj? {
      return Skipped;
    }
    var c := ConvertTimestampFields(v.fields, iso);
    if c.Raises? {
      return Invalid;
    }
    var f := FixExtraParams(c.value, defaultArch);
    if f.Raises? {
      return Invalid;
    }
    if FromDict(JObj(f.value)).None? {
      return Invalid;
    }
    return Saved(f.value);
  }

  /** A record whose listed fields hold no truthy number passes the field loop unchanged. */
  lemma {:induction false} ConvertFieldsNoNumbers(d: map<string, Json>, fields: seq<string>, iso: Json -> Option<string>)
    requires forall k :: k in fields && k in d && Truthy(d[k]) ==> !IsNumber(d[k])
    ensures ConvertFields(d, fields, iso) == Ok(d)
    decreases |fields|
  {
    if fields != [] {
      var f := fields[|fields| - 1];
      ConvertFieldsNoNumbers(d, fields[..|fields| - 1], iso);
      if f in d {
        assert d[f := d[f]] == d;
      }
    }
  }

  /** Migrating a migrated record saves it unchanged: running the migration twice is running it
      once. */
  lemma RecordMigrationIdempotent(v: Json, iso: Json -> Option<string>, defaultArch: string)
    requires MigrateRecord(v, iso, defaultArch).Saved?
    ensures var r := MigrateRecord(v, iso, defaultArch).record;
      MigrateRecord(JObj(r), iso, defaultArch) == Saved(r)
  {
    var r := MigrateRecord(v, iso, defaultArch).record;
    var c := ConvertFields(v.fields, TimestampFields, iso).value;
    assert FixExtraParams(c, defaultArch) == Ok(r);
    forall k | k in TimestampFields && k in r && Truthy(r[k])
      ensures !IsNumber(r[k])
    {
      assert r[k] == c[k];
    }
    ConvertFieldsNoNumbers(r, TimestampFields, iso);
    FixIdempotent(c, defaultArch);
    assert r.Keys == v.fields.Keys;
  }

  /** The loop's running state: the stored data and the two counters. */
  datatype Tally = Tally(data: map<string, Json>, success: nat, errors: nat)

  /** What one outcome does to the running state: a saved record is written back (a failed
      save still counts as a success, as `save` reports failure by its return value only). */
  function Apply(t: Tally, key: string, saves: bool, o: Outcome): Tally {
    match o
    case Skipped => t
    case Invalid => Tally(t.data, t.success, t.errors + 1)
    case Saved(r) => Tally(if saves then t.data[key := JObj(r)] else t.data, t.success + 1, t.errors)
  }

  /** One record of the loop, on a server that answers when `up` and accepts writes when also
      `writable`. */
  function Step(t: Tally, prefix: string, up: bool, writable: bool, id: string, iso: Json -> Option<string>, defaultArch: string): Tally {
    Apply(t, prefix + id, Storage.Writes(up, writable), MigrateRecord(Storage.Lookup(t.data, up, prefix + id), iso, defaultArch))
  }

  /** The loop over `ids`, in order. */
  function MigrateAll(t: Tally, prefix: string, up: bool, writable: bool, ids: seq<string>, iso: Json -> Option<string>, defaultArch: string): Tally
    decreases |ids|
  {
    if ids == [] then t
    else Step(MigrateAll(t, prefix, up, writable, ids[..|ids| - 1], iso, defaultArch), prefix, up, writable, ids[|ids| - 1], iso, defaultArch)
  }

  lemma MigrateAllStep(t: Tally, prefix: string, up: bool, writable: bool, ids: seq<string>, i: nat, iso: Json -> Option<string>, defaultArch: string)
    requires i < |ids|
    ensures MigrateAll(t, prefix, up, writable, ids[..i + 1], iso, defaultArch)
      == Step(MigrateAll(t, prefix, up, writable, ids[..i], iso, defaultArch), prefix, up, writable, ids[i], iso, defaultArch)
  {
    assert ids[..i + 1][..i] == ids[..i];
  }

  /** Every id counts at most once, skipped ones not at all. */
  lemma {:induction false} CountsBounded(t: Tally, prefix: string, up: bool, writable: bool, ids: seq<string>, iso: Json -> Option<string>, defaultArch: string)
    ensures var r := MigrateAll(t, prefix, up, writable, ids, iso, defaultArch);
      r.success + r.errors <= t.success + t.errors + |ids| && r.success >= t.success && r.errors >= t.errors
    decreases |ids|
  {
    if ids != [] {
      CountsBounded(t, prefix, up, writable, ids[..|ids| - 1], iso, defaultArch);
    }
  }

  /** The migration writes only records that validate as tasks: every stored value either is the
      one that was there before or passes `TranscriptionTask(**v)`. */
  lemma {:induction false} WritesValidate(t: Tally, prefix: string, up: bool, writable: bool, ids: seq<string>, iso: Json -> Option<string>, defaultArch: string)
    ensures var r := MigrateAll(t, prefix, up, writable, ids, iso, defaultArch);
      r.data.Keys == t.data.Keys + (set i | i in ids && Storage.Writes(up, writable) && prefix + i in r.data :: prefix + i)
      && forall k :: k in r.data ==> (k in t.data && r.data[k] == t.data[k]) || FromDict(r.data[k]).Some?
    decreases |ids|
  {
    if ids != [] {
      var before := MigrateAll(t, prefix, up, writable, ids[..|ids| - 1], iso, defaultArch);
      WritesValidate(t, prefix, up, writable, ids[..|ids| - 1], iso, defaultArch);
      var id := ids[|ids| - 1];
      var r := MigrateAll(t, prefix, up, writable, ids, iso, defaultArch);
      assert r.data.Keys == before.data.Keys || r.data.Keys == before.data.Keys + {prefix + id};
      forall i | i in ids[..|ids| - 1] && Storage.Writes(up, writable) && prefix + i in before.data
        ensures prefix + i in r.data
      {
      }
      assert forall i :: i in ids ==> i in ids[..|ids| - 1] || i == id;
    }
  }

  /** Reads one record, migrates it and writes the result back when it is to be saved. */
  method MigrateKey(storage: Storage.RedisStorage, id: string, iso: Json -> Option<string>, defaultArch: string)
    returns (o: Outcome)
    modifies storage.redis
    ensures o == MigrateRecord(Storage.Lookup(old(storage.redis.data), old(storage.redis.up), storage.prefix + id), iso, defaultArch)
    ensures storage.redis.up == old(storage.redis.up) && storage.redis.writable == old(storage.redis.writable)
    ensures storage.redis.data == Apply(Tally(old(storage.redis.data), 0, 0), storage.prefix + id,
                                        Storage.Writes(storage.redis.up, storage.redis.writable), o).data
  {
    var v := storage.Get(id);
    o := MigrateOne(v, iso, defaultArch);
    if o.Saved? {
      var _ := storage.Save(id, JObj(o.record));
    }
  }

  /** `migrate_timestamps` over a `RedisStorage` with the `transcription:` prefix: lists every
      key, migrates each record in turn, and returns the keys with the two counts. */
  method Migrate(storage: Storage.RedisStorage, iso: Json -> Option<string>, defaultArch: string)
    returns (ids: seq<string>, success: nat, errors: nat)
    modifies storage.redis
    ensures Storage.Elems(ids) == Storage.KeysOf(old(storage.redis.data), old(storage.redis.up), storage.prefix, "*")
    ensures storage.redis.up == old(storage.redis.up) && storage.redis.writable == old(storage.redis.writable)
    ensures Tally(storage.redis.data, success, errors)
      == MigrateAll(Tally(old(storage.redis.data), 0, 0), storage.prefix, storage.redis.up, storage.redis.writable, ids, iso, defaultArch)
  {
    ids := storage.GetKeys("*");
    success, errors := 0, 0;
    if ids == [] {
      return;
    }
    var i := 0;
    while i < |ids|
      invariant 0 <= i <= |ids| && storage.redis.up == old(storage.redis.up) && storage.redis.writable == old(storage.redis.writable)
      invariant Tally(storage.redis.data, success, errors)
        == MigrateAll(Tally(old(storage.redis.data), 0, 0), storage.prefix, storage.redis.up, storage.redis.writable, ids[..i], iso, defaultArch)
    {
      var id := ids[i];
      MigrateAllStep(Tally(old(storage.redis.data), 0, 0), storage.prefix, storage.redis.up, storage.redis.writable, ids, i, iso, defaultArch);
      ghost var t := Tally(storage.redis.data, success, errors);
      var o := MigrateKey(storage, id, iso, defaultArch);
      if o.Invalid? {
        errors := errors + 1;
      } else if o.Saved? {
        success := success + 1;
      }
      assert Tally(storage.redis.data, success, errors) == Apply(t, storage.prefix + id, Storage.Writes(storage.redis.up, storage.redis.writable), o);
      i := i + 1;
    }
    assert ids[..i] == ids;
  }
}
