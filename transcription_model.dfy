/** What each `TranscriptionService` operation does to the task store, as functions of the store
    before the call. The store is the `transcription:`-prefixed part of a Redis database. */
module TranscriptionModel {
  import opened Wrappers
  import opened Json
  import opened TaskSchema
  import Storage
  import Text
  import Decimal

  const Prefix := "transcription:"

  /** The Redis database the service's `RedisStorage` talks to: its data, whether it answers,
      and whether it accepts writes while it answers. */
  datatype Db = Db(data: map<string, Json>, up: bool, writable: bool)

  /** Whether `storage.save` and `storage.delete` succeed on this store. */
  predicate Saves(db: Db) {
    Storage.Writes(db.up, db.writable)
  }

  /** The key of a client's task-id list. */
  function ClientKey(clientId: string): string {
    "client:" + clientId + ":tasks"
  }

  /** `storage.get(key)`. */
  function Read(db: Db, key: string): Json {
    Storage.Lookup(db.data, db.up, Prefix + key)
  }

  /** `storage.save(key, v)` (a failed save changes nothing). */
  function Write(db: Db, key: string, v: Json): Db {
    if Saves(db) then db.(data := db.data[Prefix + key := v]) else db
  }

  /** `storage.delete(key)`. */
  function Remove(db: Db, key: string): Db {
    if Saves(db) then db.(data := db.data - {Prefix + key}) else db
  }

  /** `TranscriptionTask(**v)`, which raises on a record that does not validate. */
  function Validate(v: Json): Try<Task> {
    match FromDict(v)
    case Some(t) => Ok(t)
    case None => Raises
  }

  /** `get_task`: None for a falsy stored value, else the validated record. */
  function GetTask(db: Db, id: string): Try<Option<Task>> {
    var v := Read(db, id);
    if !Truthy(v) then Ok(None)
    else
      var t :- Validate(v);
      Ok(Some(t))
  }

  /** The store after a call, and what the call returned. */
  datatype Updated = Updated(db: Db, reply: Try<Option<Task>>)

  /** `update_task(id, **u)`: None and no write for a falsy record; a raise and no change for a
      record that is not a dict; otherwise the merged dict is saved and then validated. */
  function UpdateTask(db: Db, id: string, u: map<string, Json>): Updated {
    var v := Read(db, id);
    if !Truthy(v) then Updated(db, Ok(None))
    else if !v.JObj? then Updated(db, Raises)
    else
      var merged := JObj(v.fields + u);
      Updated(Write(db, id, merged), match FromDict(merged) case Some(t) => Ok(Some(t)) case None => Raises)
  }

  /** The keyword arguments `reset_task` passes to `update_task`. */
  const ResetUpdates: map<string, Json> := map[
    "status" := JStr(PENDING), "progress" := JInt(0), "error_message" := JNull,
    "result" := JNull, "started_at" := JNull, "completed_at" := JNull]

  /** `reset_task`: None when there is no task, else the update above. */
  function ResetTask(db: Db, id: string): Updated {
    match GetTask(db, id)
    case Raises => Updated(db, Raises)
    case Ok(None) => Updated(db, Ok(None))
    case Ok(Some(_)) => UpdateTask(db, id, ResetUpdates)
  }

  /** `storage.get(key) or []` for a client's list. */
  function ClientList(db: Db, clientId: string): Json {
    var v := Read(db, ClientKey(clientId));
    if Truthy(v) then v else JArr([])
  }

  /** `task_id in task_list`: list membership, dict-key membership, or substring; None where
      `in` raises (a number or a bool). */
  function ListHas(l: Json, id: string): Option<bool> {
    match l
    case JArr(items) => Some(JStr(id) in items)
    case JObj(fields) => Some(id in fields)
    case JStr(s) => Some(Text.Contains(s, id))
    case _ => None
  }

  /** The store after a call that returns None, and whether it raised. */
  datatype Outcome = Outcome(db: Db, raised: bool)

  /** `_add_to_client_tasks`: appends the id when it is not yet there; `append` on a value that
      is not a list raises. */
  function AddToClientTasks(db: Db, clientId: string, id: string): Outcome {
    var l := ClientList(db, clientId);
    match ListHas(l, id)
    case None => Outcome(db, true)
    case Some(true) => Outcome(db, false)
    case Some(false) =>
      if l.JArr? then Outcome(Write(db, ClientKey(clientId), JArr(l.items + [JStr(id)])), false)
      else Outcome(db, true)
  }

  /** `list.remove(x)`: drops the first occurrence. */
  function RemoveFirst(xs: seq<Json>, x: Json): (r: seq<Json>)
    ensures x in xs ==> |r| == |xs| - 1 && multiset(r) == multiset(xs) - multiset{x}
    ensures x !in xs ==> r == xs
  {
    if xs == [] then []
    else
      assert xs == [xs[0]] + xs[1..];
      if xs[0] == x then xs[1..] else [xs[0]] + RemoveFirst(xs[1..], x)
  }

  /** `_remove_from_client_tasks`: removes the id when it is there; `remove` on a value that is
      not a list raises. */
  function RemoveFromClientTasks(db: Db, clientId: string, id: string): Outcome {
    var l := ClientList(db, clientId);
    match ListHas(l, id)
    case None => Outcome(db, true)
    case Some(false) => Outcome(db, false)
    case Some(true) =>
      if l.JArr? then Outcome(Write(db, ClientKey(clientId), JArr(RemoveFirst(l.items, JStr(id)))), false)
      else Outcome(db, true)
  }

  /** The record `create_task` builds. */
  function NewTask(id: string, filePath: string, resultPath: string, filename: string,
                   clientId: string, language: Option<string>, createdAt: string): Task
  {
    Task(id, clientId, PENDING, filename, filePath, language, createdAt, None, None, Some(0),
         None, None, None, None, None, Some(resultPath), 0, None, 0, None)
  }

  datatype Created = Created(db: Db, reply: Try<Task>)

  /** `create_task`: saves the new record, then registers the id with its client. */
  function CreateTask(db: Db, id: string, filePath: string, resultPath: string, filename: string,
                      clientId: string, language: Option<string>, createdAt: string): Created
  {
    var t := NewTask(id, filePath, resultPath, filename, clientId, language, createdAt);
    var o := AddToClientTasks(Write(db, id, ToDict(t)), clientId, id);
    Created(o.db, if o.raised then Raises else Ok(t))
  }

  /** `os.remove` of an existing path inside `try`: a locked path stays. */
  function RemoveFile(files: map<string, seq<bv8>>, locked: set<string>, p: string): map<string, seq<bv8>> {
    if p in files && p !in locked then files - {p} else files
  }

  datatype Deleted = Deleted(db: Db, files: map<string, seq<bv8>>, reply: Try<bool>)

  /** `delete_task`: False for a missing task; otherwise removes the audio and result files
      (failures are logged and ignored), the id from the client list, and the record. */
  function DeleteTask(db: Db, files: map<string, seq<bv8>>, locked: set<string>,
                      transcriptionDir: string, id: string): Deleted
  {
    match GetTask(db, id)
    case Raises => Deleted(db, files, Raises)
    case Ok(None) => Deleted(db, files, Ok(false))
    case Ok(Some(t)) =>
      var f1 := if t.filePath != "" then RemoveFile(files, locked, t.filePath) else files;
      var f2 := RemoveFile(f1, locked, ResultFile(transcriptionDir, id));
      var o := RemoveFromClientTasks(db, t.clientId, id);
      if o.raised then Deleted(o.db, f2, Raises) else Deleted(Remove(o.db, id), f2, Ok(true))
  }

  /** The result file `delete_task` removes. */
  function ResultFile(transcriptionDir: string, id: string): string {
    Text.PathJoin(transcriptionDir, id + ".json")
  }

  /** Python's bound for one end of `xs[a:b]`. */
  function SliceBound(i: int, n: nat): (r: nat)
    ensures r <= n
  {
    if i < 0 then (if i + n < 0 then 0 else i + n) else if i > n then n else i
  }

  /** `xs[a:b]` with Python's negative-index and clamping rules. */
  function PySlice<T>(xs: seq<T>, a: int, b: int): seq<T> {
    var lo := SliceBound(a, |xs|);
    var hi := SliceBound(b, |xs|);
    if lo < hi then xs[lo..hi] else []
  }

  /** A page `xs[offset:offset + limit]` with a non-negative limit holds at most `limit` items,
      and from a non-negative offset it is the run of items starting there. */
  lemma PageAtMostLimit<T>(xs: seq<T>, offset: int, limit: int)
    requires 0 <= limit
    ensures |PySlice(xs, offset, offset + limit)| <= limit
    ensures 0 <= offset ==>
      var lo := if offset < |xs| then offset else |xs|;
      var hi := if offset + limit < |xs| then offset + limit else |xs|;
      PySlice(xs, offset, offset + limit) == xs[lo..hi]
  {
  }

  /** With a negative limit Python's slice can still be non-empty: `xs[2:-1]`. */
  lemma NegativeLimitPage()
    ensures |PySlice([0, 1, 2, 3, 4], 2, 2 + -3)| == 2
  {
  }

  /** The characters of a string as one-character strings (slicing and iterating a `str`). */
  function Chars(s: string): (r: seq<Json>)
    ensures |r| == |s|
  {
    seq(|s|, k requires 0 <= k < |s| => JStr([s[k]]))
  }

  /** `task_ids[offset:offset + limit]`, which raises for values that cannot be sliced. */
  function Page(l: Json, offset: int, limit: int): Try<seq<Json>> {
    match l
    case JArr(items) => Ok(PySlice(items, offset, offset + limit))
    case JStr(s) => Ok(PySlice(Chars(s), offset, offset + limit))
    case _ => Raises
  }

  /** The text `f"{prefix}{key}"` puts after the prefix, for the scalar ids it can meet; None for
      the float, list and dict ids whose text this model does not reproduce. */
  function IdText(v: Json): Option<string> {
    match v
    case JStr(s) => Some(s)
    case JInt(i) => Some(Decimal.IntToStr(i))
    case JBool(b) => Some(if b then "True" else "False")
    case JNull => Some("None")
    case _ => None
  }

  /** `get_task` on one listed id. */
  function LookupId(db: Db, v: Json): Try<Option<Task>> {
    match IdText(v)
    case Some(id) => GetTask(db, id)
    case None => Ok(None)
  }

  /** The records for `ids`, in order, missing ones dropped; a raise from any lookup propagates. */
  function LookupAll(db: Db, ids: seq<Json>): Try<seq<Task>>
    decreases |ids|
  {
    if ids == [] then Ok([])
    else
      var head :- LookupId(db, ids[0]);
      var tail :- LookupAll(db, ids[1..]);
      Ok(if head.Some? then [head.value] + tail else tail)
  }

  /** The records already found, followed by what a lookup of the remaining ids returns. */
  function Prepend(found: seq<Task>, rest: Try<seq<Task>>): Try<seq<Task>> {
    match rest
    case Raises => Raises
    case Ok(ts) => Ok(found + ts)
  }

  /** `LookupAll` looks up the first id, then the rest. */
  lemma LookupAllStep(db: Db, ids: seq<Json>)
    requires ids != []
    ensures LookupAll(db, ids) ==
      match LookupId(db, ids[0])
      case Raises => Raises
      case Ok(h) => Prepend(if h.Some? then [h.value] else [], LookupAll(db, ids[1..]))
  {
    match LookupId(db, ids[0])
    case Raises =>
    case Ok(h) =>
      match LookupAll(db, ids[1..])
      case Raises =>
      case Ok(tail) =>
        assert [] + tail == tail;
        assert LookupAll(db, ids) == Ok(if h.Some? then [h.value] + tail else tail);
  }

  lemma PrependNothing(r: Try<seq<Task>>)
    ensures Prepend([], r) == r
  {
    if r.Ok? {
      assert [] + r.value == r.value;
    }
  }

  lemma PrependTwice(a: seq<Task>, b: seq<Task>, r: Try<seq<Task>>)
    ensures Prepend(a, Prepend(b, r)) == Prepend(a + b, r)
  {
    if r.Ok? {
      assert a + (b + r.value) == (a + b) + r.value;
    }
  }

  /** Later `created_at` first; ties keep their order, as Python's stable `sort(reverse=True)`. */
  predicate SortedByCreatedDesc(ts: seq<Task>) {
    forall i, j :: 0 <= i < j < |ts| ==> Text.StrLe(ts[j].createdAt, ts[i].createdAt)
  }

  /** Inserts `t` after every record created no earlier than it. */
  function InsertByCreated(t: Task, sorted: seq<Task>): seq<Task>
    decreases |sorted|
  {
    if sorted == [] then [t]
    else if Text.StrLt(sorted[0].createdAt, t.createdAt) then [t] + sorted
    else [sorted[0]] + InsertByCreated(t, sorted[1..])
  }

  /** `sorted(ts, key=created_at, reverse=True)`. */
  function SortByCreatedDesc(ts: seq<Task>): seq<Task>
    decreases |ts|
  {
    if ts == [] then [] else InsertByCreated(ts[|ts| - 1], SortByCreatedDesc(ts[..|ts| - 1]))
  }

  lemma {:induction false} InsertByCreatedSorted(t: Task, sorted: seq<Task>)
    requires SortedByCreatedDesc(sorted)
    ensures SortedByCreatedDesc(InsertByCreated(t, sorted))
    decreases |sorted|
  {
    if sorted == [] {
    } else if Text.StrLt(sorted[0].createdAt, t.createdAt) {
      var r := [t] + sorted;
      forall i, j | 0 <= i < j < |r| ensures Text.StrLe(r[j].createdAt, r[i].createdAt) {
        if i == 0 {
          Text.StrLeTotal(t.createdAt, sorted[0].createdAt);
          if j > 1 {
            Text.StrLeTrans(r[j].createdAt, sorted[0].createdAt, t.createdAt);
          }
        }
      }
    } else {
      var rest := InsertByCreated(t, sorted[1..]);
      InsertByCreatedSorted(t, sorted[1..]);
      InsertByCreatedPerm(t, sorted[1..]);
      var r := [sorted[0]] + rest;
      forall i, j | 0 <= i < j < |r| ensures Text.StrLe(r[j].createdAt, r[i].createdAt) {
        if i == 0 {
          assert r[j] in multiset(rest);
          if r[j] == t {
          } else {
            assert r[j] in multiset(sorted[1..]);
            var k :| 0 <= k < |sorted[1..]| && sorted[1..][k] == r[j];
            assert sorted[k + 1] == r[j];
          }
        }
      }
    }
  }

  lemma {:induction false} InsertByCreatedPerm(t: Task, sorted: seq<Task>)
    ensures multiset(InsertByCreated(t, sorted)) == multiset(sorted) + multiset{t}
    decreases |sorted|
  {
    if sorted != [] && !Text.StrLt(sorted[0].createdAt, t.createdAt) {
      InsertByCreatedPerm(t, sorted[1..]);
      assert sorted == [sorted[0]] + sorted[1..];
    }
  }

  /** The sort orders by `created_at`, latest first, and keeps exactly the records it was given. */
  lemma SortByCreatedDescCorrect(ts: seq<Task>)
    ensures SortedByCreatedDesc(SortByCreatedDesc(ts))
    ensures multiset(SortByCreatedDesc(ts)) == multiset(ts)
  {
    SortSorted(ts);
    SortKeepsRecords(ts);
  }

  lemma {:induction false} SortSorted(ts: seq<Task>)
    ensures SortedByCreatedDesc(SortByCreatedDesc(ts))
    decreases |ts|
  {
    if ts != [] {
      var init := ts[..|ts| - 1];
      SortSorted(init);
      InsertByCreatedSorted(ts[|ts| - 1], SortByCreatedDesc(init));
    }
  }

  lemma {:induction false} SortKeepsRecords(ts: seq<Task>)
    ensures multiset(SortByCreatedDesc(ts)) == multiset(ts)
    decreases |ts|
  {
    if ts != [] {
      var init := ts[..|ts| - 1];
      var last := ts[|ts| - 1];
      var sortedInit := SortByCreatedDesc(init);
      assert ts == init + [last];
      calc {
        multiset(SortByCreatedDesc(ts));
        multiset(InsertByCreated(last, sortedInit));
        { InsertByCreatedPerm(last, sortedInit); }
        multiset(sortedInit) + multiset{last};
        { SortKeepsRecords(init); }
        multiset(init) + multiset{last};
        multiset(init + [last]);
      }
    }
  }

  /** `get_client_tasks(client_id, limit, offset)`. */
  function GetClientTasks(db: Db, clientId: string, limit: int, offset: int): Try<seq<Task>> {
    var ids :- Page(ClientList(db, clientId), offset, limit);
    var found :- LookupAll(db, ids);
    Ok(SortByCreatedDesc(found))
  }

  /** What the audio processor did: the progress it reported, then a result or an exception. */
  datatype AudioOutcome = Produced(result: map<string, Json>, duration: real) | Threw(message: string)
  datatype AudioRun = AudioRun(progress: seq<(int, string)>, outcome: AudioOutcome)

  /** The clock readings `process_task` takes. */
  datatype Clock = Clock(startedAt: string, completedAt: string, processingTime: real)

  /** The store after `process_task`, whether the processor was invoked, whether the completion
      notifications went out, and whether the call raised. */
  datatype Processed = Processed(db: Db, processorRan: bool, notified: bool, raised: bool)

  /** The update `_update_progress` makes. */
  function ProgressUpdate(p: int, m: string): map<string, Json> {
    map["progress" := JInt(p), "progress_message" := JStr(m)]
  }

  /** The progress callbacks in order; the first raise stops the processor. */
  function ApplyProgress(db: Db, id: string, events: seq<(int, string)>): Outcome
    decreases |events|
  {
    if events == [] then Outcome(db, false)
    else
      var u := UpdateTask(db, id, ProgressUpdate(events[0].0, events[0].1));
      if u.reply.Raises? then Outcome(u.db, true) else ApplyProgress(u.db, id, events[1..])
  }

  const MissingAudioMessage := "音频文件不存在"

  function FailedUpdate(message: string): map<string, Json> {
    map["status" := JStr(FAILED), "error_message" := JStr(message)]
  }

  function StartedUpdate(clock: Clock): map<string, Json> {
    map["status" := JStr(PROCESSING), "started_at" := JStr(clock.startedAt)]
  }

  function CompletedUpdate(clock: Clock, result: map<string, Json>, duration: real): map<string, Json> {
    map["status" := JStr(COMPLETED), "completed_at" := JStr(clock.completedAt),
        "audio_duration" := JFloat(duration), "processing_time" := JFloat(clock.processingTime),
        "result" := JObj(result)]
  }

  /** The `except` branch of `process_task`: records the failure; a raise here escapes. */
  function Fail(db: Db, id: string, ran: bool, message: string): Processed {
    var u := UpdateTask(db, id, FailedUpdate(message));
    Processed(u.db, ran, false, u.reply.Raises?)
  }

  /** `process_task`. `invalidText` is `str()` of the validation error a corrupted record raises. */
  function ProcessTask(db: Db, files: map<string, seq<bv8>>, id: string, run: AudioRun, clock: Clock,
                       invalidText: string): Processed
  {
    match GetTask(db, id)
    case Raises => Processed(db, false, false, true)
    case Ok(None) => Processed(db, false, false, false)
    case Ok(Some(t)) =>
      if t.filePath !in files then
        var u := UpdateTask(db, id, FailedUpdate(MissingAudioMessage));
        Processed(u.db, false, false, u.reply.Raises?)
      else
        var u1 := UpdateTask(db, id, StartedUpdate(clock));
        if u1.reply.Raises? then Fail(u1.db, id, false, invalidText)
        else
          var p := ApplyProgress(u1.db, id, run.progress);
          if p.raised then Fail(p.db, id, true, invalidText)
          else
            match run.outcome
            case Threw(m) => Fail(p.db, id, true, m)
            case Produced(res, dur) =>
              var u2 := UpdateTask(p.db, id, CompletedUpdate(clock, res, dur));
              if u2.reply.Raises? then Fail(u2.db, id, true, invalidText)
              else Processed(u2.db, true, true, false)
  }

  // ---------------------------------------------------------------------------------------------
  // Properties of the operations

  /** Keys of the store other than `key` read as before after a write or removal of `key`. */
  lemma WriteKeepsOthers(db: Db, key: string, other: string, v: Json)
    requires other != key
    ensures Read(Write(db, key, v), other) == Read(db, other)
    ensures Read(Remove(db, key), other) == Read(db, other)
    ensures Write(db, key, v).up == db.up && Remove(db, key).up == db.up
    ensures Write(db, key, v).writable == db.writable && Remove(db, key).writable == db.writable
  {
    assert other == (Prefix + other)[|Prefix|..];
  }

  /** `update_task` on a task that is not there returns None and writes nothing. */
  lemma UpdateMissingWritesNothing(db: Db, id: string, u: map<string, Json>)
    requires GetTask(db, id) == Ok(None)
    ensures UpdateTask(db, id, u) == Updated(db, Ok(None))
  {
  }

  /** `update_task` on a stored record: the record becomes the old dict with exactly the keys of
      `u` overwritten, every other stored key is untouched, and a record that validated before
      still validates when the updates fit their fields. */
  lemma UpdateOverwrites(db: Db, id: string, u: map<string, Json>)
    requires Saves(db) && GetTask(db, id).Ok? && GetTask(db, id).value.Some?
    ensures var r := UpdateTask(db, id, u);
      && Saves(r.db)
      && Read(r.db, id) == JObj(Read(db, id).fields + u)
      && (forall k :: k in u ==> Read(r.db, id).fields[k] == u[k])
      && (forall k :: k in Read(db, id).fields && k !in u ==> Read(r.db, id).fields[k] == Read(db, id).fields[k])
      && (r.reply.Ok? <==> FromDict(Read(r.db, id)).Some?)
      && (UpdatesFit(u) ==> r.reply.Ok? && r.reply.value.Some?)
    ensures forall other :: other != id ==> Read(UpdateTask(db, id, u).db, other) == Read(db, other)
  {
    var v := Read(db, id);
    assert v.JObj?;
    var r := UpdateTask(db, id, u);
    if UpdatesFit(u) {
      MergeKeepsValid(v.fields, u);
    }
    forall other | other != id ensures Read(r.db, other) == Read(db, other) {
      WriteKeepsOthers(db, id, other, JObj(v.fields + u));
    }
  }

  /** The record `reset_task` leaves: pending, progress 0, no error, result or timestamps, and
      everything else (the retry count and the result code among them) as it was. */
  function ResetOf(t: Task): Task {
    t.(status := PENDING, progress := Some(0), errorMessage := None, result := None,
       startedAt := None, completedAt := None)
  }

  lemma ResetReads(d: map<string, Json>, t: Task)
    requires Reads(d, t)
    ensures Reads(d + ResetUpdates, ResetOf(t))
  {
    var e := d + ResetUpdates;
    ResetFieldsRead(d, e);
    KeptReads(d, e);
  }

  /** The keys `reset_task` names read as the reset values. */
  lemma ResetFieldsRead(d: map<string, Json>, e: map<string, Json>)
    requires e == d + ResetUpdates
    ensures ReqStr(e, "status") == Some(PENDING) && OptIntField(e, "progress", Some(0)) == Some(Some(0))
    ensures OptStrField(e, "error_message") == Some(None) && OptDictField(e, "result") == Some(None)
    ensures OptStrField(e, "started_at") == Some(None) && OptStrField(e, "completed_at") == Some(None)
  {
  }

  /** Keys `reset_task` does not name read the same in the reset dict. */
  lemma KeptReads(d: map<string, Json>, e: map<string, Json>)
    requires e == d + ResetUpdates
    ensures SameReads(d, e, "task_id") && SameReads(d, e, "client_id") && SameReads(d, e, "filename") && SameReads(d, e, "file_path")
      && SameReads(d, e, "created_at")
    ensures SameReads(d, e, "language") && SameReads(d, e, "progress_message") && SameReads(d, e, "audio_duration")
      && SameReads(d, e, "processing_time")
    ensures SameReads(d, e, "result_path") && SameReads(d, e, "code") && SameReads(d, e, "message")
      && SameReads(d, e, "retry_count") && SameReads(d, e, "extra_params")
  {
    SameEntrySameReads(d, e, "task_id");
    SameEntrySameReads(d, e, "client_id");
    SameEntrySameReads(d, e, "filename");
    SameEntrySameReads(d, e, "file_path");
    SameEntrySameReads(d, e, "created_at");
    SameEntrySameReads(d, e, "language");
    SameEntrySameReads(d, e, "progress_message");
    SameEntrySameReads(d, e, "audio_duration");
    SameEntrySameReads(d, e, "processing_time");
    SameEntrySameReads(d, e, "result_path");
    SameEntrySameReads(d, e, "code");
    SameEntrySameReads(d, e, "message");
    SameEntrySameReads(d, e, "retry_count");
    SameEntrySameReads(d, e, "extra_params");
  }

  /** Every reader finds the same in `d` and `e` at `k`. */
  predicate SameReads(d: map<string, Json>, e: map<string, Json>, k: string) {
    && ReqStr(e, k) == ReqStr(d, k) && OptStrField(e, k) == OptStrField(d, k)
    && OptRealField(e, k) == OptRealField(d, k) && IntField(e, k) == IntField(d, k)
    && OptDictField(e, k) == OptDictField(d, k)
  }

  lemma SameEntrySameReads(d: map<string, Json>, e: map<string, Json>, k: string)
    requires k !in ResetUpdates && e == d + ResetUpdates
    ensures SameReads(d, e, k)
  {
  }

  /** `reset_task` on a stored, valid task returns the reset record and stores its dict. */
  lemma ResetTaskResult(db: Db, id: string, t: Task)
    requires Saves(db) && GetTask(db, id) == Ok(Some(t))
    ensures ResetTask(db, id).reply == Ok(Some(ResetOf(t)))
    ensures Read(ResetTask(db, id).db, id) == JObj(Read(db, id).fields + ResetUpdates)
  {
    var v := Read(db, id);
    assert db.up && v.JObj?;
    ReadsIff(v.fields, t);
    ResetReads(v.fields, t);
    ReadsIff(v.fields + ResetUpdates, ResetOf(t));
  }

  /** Adding an id twice is adding it once. */
  lemma AddIdempotent(db: Db, clientId: string, id: string)
    requires Saves(db) && !AddToClientTasks(db, clientId, id).raised
    ensures var o := AddToClientTasks(db, clientId, id);
      ListHas(ClientList(o.db, clientId), id) == Some(true) && AddToClientTasks(o.db, clientId, id) == Outcome(o.db, false)
  {
    var l := ClientList(db, clientId);
    var o := AddToClientTasks(db, clientId, id);
    if ListHas(l, id) == Some(false) {
      var items := l.items + [JStr(id)];
      assert items[|items| - 1] == JStr(id);
      assert Read(o.db, ClientKey(clientId)) == JArr(items);
    }
  }

  /** No item of the list occurs twice. */
  predicate NoDuplicates(xs: seq<Json>) {
    forall i, j :: 0 <= i < j < |xs| ==> xs[i] != xs[j]
  }

  /** A client list of distinct ids stays a list of distinct ids after an add. */
  lemma AddKeepsDistinct(db: Db, clientId: string, id: string)
    requires ClientList(db, clientId).JArr? && NoDuplicates(ClientList(db, clientId).items)
    ensures var l := ClientList(AddToClientTasks(db, clientId, id).db, clientId);
      l.JArr? && NoDuplicates(l.items)
  {
    var l := ClientList(db, clientId);
    var o := AddToClientTasks(db, clientId, id);
    if ListHas(l, id) == Some(false) && Saves(db) {
      var items := l.items + [JStr(id)];
      assert Read(o.db, ClientKey(clientId)) == JArr(items);
      assert Truthy(JArr(items));
    }
  }

  lemma RemoveFirstDistinct(xs: seq<Json>, x: Json)
    requires NoDuplicates(xs)
    ensures NoDuplicates(RemoveFirst(xs, x)) && x !in RemoveFirst(xs, x)
    ensures forall y :: y != x ==> (y in RemoveFirst(xs, x) <==> y in xs)
  {
    if xs != [] && xs[0] != x {
      RemoveFirstDistinct(xs[1..], x);
      assert xs[0] !in xs[1..];
      var r := RemoveFirst(xs, x);
      assert r == [xs[0]] + RemoveFirst(xs[1..], x);
    }
  }

  /** Removing an id from a list of distinct ids leaves no trace of it and keeps the others. */
  lemma RemoveDeletesId(db: Db, clientId: string, id: string)
    requires Saves(db)
    requires ClientList(db, clientId).JArr? && NoDuplicates(ClientList(db, clientId).items)
    ensures var o := RemoveFromClientTasks(db, clientId, id);
      !o.raised && ListHas(ClientList(o.db, clientId), id) == Some(false)
      && forall y :: y != JStr(id) ==>
        (ClientList(o.db, clientId).JArr? && (y in ClientList(o.db, clientId).items <==> y in ClientList(db, clientId).items))
  {
    var l := ClientList(db, clientId);
    if JStr(id) in l.items {
      RemoveFirstDistinct(l.items, JStr(id));
      var rest := RemoveFirst(l.items, JStr(id));
      var o := RemoveFromClientTasks(db, clientId, id);
      assert Read(o.db, ClientKey(clientId)) == JArr(rest);
      if rest == [] {
        assert ClientList(o.db, clientId) == JArr([]);
      }
    }
  }

  /** A saved record dict is truthy, so it reads back as a task. */
  lemma ToDictTruthy(t: Task)
    ensures ToDict(t).JObj? && Truthy(ToDict(t))
  {
    assert "task_id" in ToDict(t).fields;
  }

  /** `create_task` with a working store and a client list that is a list (or absent): it returns
      the new pending record, which reads back from the store, and the client lists its id. */
  lemma CreateTaskStores(db: Db, id: string, filePath: string, resultPath: string, filename: string,
                         clientId: string, language: Option<string>, createdAt: string)
    requires Saves(db) && ClientKey(clientId) != id && ClientList(db, clientId).JArr?
    ensures var t := NewTask(id, filePath, resultPath, filename, clientId, language, createdAt);
      var c := CreateTask(db, id, filePath, resultPath, filename, clientId, language, createdAt);
      && c.reply == Ok(t) && t.status == PENDING && t.progress == Some(0) && t.retryCount == 0
      && GetTask(c.db, id) == Ok(Some(t))
      && ListHas(ClientList(c.db, clientId), id) == Some(true)
  {
    var t := NewTask(id, filePath, resultPath, filename, clientId, language, createdAt);
    var db1 := Write(db, id, ToDict(t));
    WriteKeepsOthers(db, id, ClientKey(clientId), ToDict(t));
    assert ClientList(db1, clientId) == ClientList(db, clientId);
    FromToDict(t);
    ToDictTruthy(t);
    assert GetTask(db1, id) == Ok(Some(t));
    AddIdempotent(db1, clientId, id);
    var o := AddToClientTasks(db1, clientId, id);
    if o.db != db1 {
      WriteKeepsOthers(db1, ClientKey(clientId), id, JArr(ClientList(db1, clientId).items + [JStr(id)]));
    }
  }

  /** When the client list is a value `append` cannot extend, `create_task` raises after the record
      was already saved: the record stays in the store unlisted. */
  lemma CreateTaskRaisesAfterSave(db: Db, id: string, filePath: string, resultPath: string, filename: string,
                                  clientId: string, language: Option<string>, createdAt: string)
    requires Saves(db) && ClientKey(clientId) != id && Read(db, ClientKey(clientId)) == JInt(1)
    ensures var t := NewTask(id, filePath, resultPath, filename, clientId, language, createdAt);
      var c := CreateTask(db, id, filePath, resultPath, filename, clientId, language, createdAt);
      c.reply == Raises && GetTask(c.db, id) == Ok(Some(t))
  {
    var t := NewTask(id, filePath, resultPath, filename, clientId, language, createdAt);
    WriteKeepsOthers(db, id, ClientKey(clientId), ToDict(t));
    FromToDict(t);
    ToDictTruthy(t);
  }

  /** `delete_task` of a task that is not there returns False and changes nothing. */
  lemma DeleteMissing(db: Db, files: map<string, seq<bv8>>, locked: set<string>, dir: string, id: string)
    requires GetTask(db, id) == Ok(None)
    ensures DeleteTask(db, files, locked, dir, id) == Deleted(db, files, Ok(false))
  {
  }

  /** `delete_task` of a stored task: it returns True, the record is gone, the client no longer
      lists it, and of the audio and result files exactly those not locked are removed; a file
      that cannot be removed does not stop the deletion. */
  lemma DeleteRemoves(db: Db, files: map<string, seq<bv8>>, locked: set<string>, dir: string, id: string, t: Task)
    requires Saves(db) && GetTask(db, id) == Ok(Some(t)) && ClientKey(t.clientId) != id
    requires ClientList(db, t.clientId).JArr? && NoDuplicates(ClientList(db, t.clientId).items)
    ensures var r := DeleteTask(db, files, locked, dir, id);
      && r.reply == Ok(true)
      && Read(r.db, id) == JNull
      && ListHas(ClientList(r.db, t.clientId), id) == Some(false)
      && (forall p :: p in r.files <==> p in files && !(p !in locked && (p == ResultFile(dir, id) || (p == t.filePath && p != ""))))
      && (forall p :: p in r.files ==> r.files[p] == files[p])
  {
    var o := RemoveFromClientTasks(db, t.clientId, id);
    RemoveDeletesId(db, t.clientId, id);
    var db2 := Remove(o.db, id);
    assert Saves(o.db);
    WriteKeepsOthers(o.db, id, ClientKey(t.clientId), JNull);
    assert ClientList(db2, t.clientId) == ClientList(o.db, t.clientId);
  }

  /** Each record `LookupAll` returns is what `get_task` gives for one of the ids, it never
      returns more records than ids, and every id whose record is there contributes it: only
      the missing records are dropped. */
  lemma {:induction false} LookupAllFound(db: Db, ids: seq<Json>)
    requires LookupAll(db, ids).Ok?
    ensures |LookupAll(db, ids).value| <= |ids|
    ensures forall t :: t in LookupAll(db, ids).value ==> exists i :: 0 <= i < |ids| && LookupId(db, ids[i]) == Ok(Some(t))
    ensures forall i :: 0 <= i < |ids| ==> LookupId(db, ids[i]).Ok?
    ensures forall i :: 0 <= i < |ids| && LookupId(db, ids[i]).value.Some? ==>
      LookupId(db, ids[i]).value.value in LookupAll(db, ids).value
    decreases |ids|
  {
    if ids != [] {
      LookupAllFound(db, ids[1..]);
      var tail := LookupAll(db, ids[1..]).value;
      forall i | 0 <= i < |ids|
        ensures LookupId(db, ids[i]).Ok?
        ensures LookupId(db, ids[i]).value.Some? ==> LookupId(db, ids[i]).value.value in LookupAll(db, ids).value
      {
        if i > 0 {
          assert ids[1..][i - 1] == ids[i];
        }
      }
      forall t | t in LookupAll(db, ids).value
        ensures exists i :: 0 <= i < |ids| && LookupId(db, ids[i]) == Ok(Some(t))
      {
        if t !in tail {
          assert LookupId(db, ids[0]) == Ok(Some(t));
        } else {
          var i :| 0 <= i < |ids[1..]| && LookupId(db, ids[1..][i]) == Ok(Some(t));
          assert ids[1..][i] == ids[i + 1];
        }
      }
    }
  }

  /** `get_client_tasks`: at most `limit` records, latest first, each the stored record of an id
      on the requested page of the client's list. */
  lemma GetClientTasksBounded(db: Db, clientId: string, limit: int, offset: int)
    requires 0 <= limit && GetClientTasks(db, clientId, limit, offset).Ok?
    ensures var ts := GetClientTasks(db, clientId, limit, offset).value;
      var page := Page(ClientList(db, clientId), offset, limit).value;
      && |ts| <= limit && SortedByCreatedDesc(ts)
      && (forall t :: t in ts ==> exists i :: 0 <= i < |page| && LookupId(db, page[i]) == Ok(Some(t)))
      && (forall i :: 0 <= i < |page| && LookupId(db, page[i]).Ok? && LookupId(db, page[i]).value.Some? ==>
            LookupId(db, page[i]).value.value in ts)
  {
    var l := ClientList(db, clientId);
    var page := Page(l, offset, limit).value;
    if l.JArr? {
      PageAtMostLimit(l.items, offset, limit);
    } else {
      PageAtMostLimit(Chars(l.s), offset, limit);
    }
    LookupAllFound(db, page);
    var found := LookupAll(db, page).value;
    SortByCreatedDescCorrect(found);
    var ts := SortByCreatedDesc(found);
    forall t | t in ts ensures t in found {
      assert t in multiset(ts);
    }
    forall t | t in found ensures t in ts {
      assert t in multiset(found);
    }
    assert |ts| == |multiset(ts)| == |multiset(found)| == |found|;
  }

  /** The stored record of `id` is a dict that validates. */
  predicate HoldsTask(db: Db, id: string) {
    Saves(db) && Read(db, id).JObj? && GetTask(db, id).Ok? && GetTask(db, id).value.Some?
  }

  /** An update whose values fit the record keeps it valid and leaves the other keys alone. */
  lemma FittingUpdateKeepsTask(db: Db, id: string, u: map<string, Json>)
    requires HoldsTask(db, id) && UpdatesFit(u)
    ensures var r := UpdateTask(db, id, u);
      && HoldsTask(r.db, id) && r.reply.Ok?
      && Read(r.db, id) == JObj(Read(db, id).fields + u)
      && r.reply.value == FromDict(Read(r.db, id))
  {
    UpdateOverwrites(db, id, u);
    var r := UpdateTask(db, id, u);
    var t :| FromDict(Read(r.db, id)) == Some(t);
    assert Read(r.db, id).JObj?;
    ReadsIff(Read(r.db, id).fields, t);
    assert "task_id" in Read(r.db, id).fields;
  }

  /** Progress callbacks on a valid record never raise and keep it valid. */
  lemma {:induction false} ApplyProgressKeepsTask(db: Db, id: string, events: seq<(int, string)>)
    requires HoldsTask(db, id)
    ensures var p := ApplyProgress(db, id, events); !p.raised && HoldsTask(p.db, id)
    decreases |events|
  {
    if events != [] {
      var u := ProgressUpdate(events[0].0, events[0].1);
      assert UpdatesFit(u);
      FittingUpdateKeepsTask(db, id, u);
      ApplyProgressKeepsTask(UpdateTask(db, id, u).db, id, events[1..]);
    }
  }

  /** The validated record after the last update `FittingUpdateKeepsTask` describes. */
  lemma StatusAfter(db: Db, id: string, u: map<string, Json>, t: Task)
    requires HoldsTask(db, id) && UpdatesFit(u) && "status" in u && u["status"].JStr?
    requires UpdateTask(db, id, u).reply == Ok(Some(t))
    ensures t.status == u["status"].s
  {
    FittingUpdateKeepsTask(db, id, u);
    var d := Read(UpdateTask(db, id, u).db, id).fields;
    ReadsIff(d, t);
  }

  /** A task whose audio file is missing is marked failed with the missing-file message, and the
      processor never runs. */
  lemma ProcessMissingFile(db: Db, files: map<string, seq<bv8>>, id: string, run: AudioRun, clock: Clock,
                           invalidText: string, t: Task)
    requires Saves(db) && GetTask(db, id) == Ok(Some(t)) && t.filePath !in files
    ensures var r := ProcessTask(db, files, id, run, clock, invalidText);
      && !r.processorRan && !r.notified && !r.raised
      && Read(r.db, id).fields["status"] == JStr(FAILED)
      && Read(r.db, id).fields["error_message"] == JStr(MissingAudioMessage)
  {
    FittingUpdateKeepsTask(db, id, FailedUpdate(MissingAudioMessage));
  }

  /** The store after the start, progress and completion updates of a successful run. */
  function CompletedDb(db: Db, id: string, run: AudioRun, clock: Clock): Db
    requires run.outcome.Produced?
  {
    var db1 := UpdateTask(db, id, StartedUpdate(clock)).db;
    var db2 := ApplyProgress(db1, id, run.progress).db;
    UpdateTask(db2, id, CompletedUpdate(clock, run.outcome.result, run.outcome.duration)).db
  }

  /** The three updates of a successful run all succeed and leave a valid record. */
  lemma CompletedRun(db: Db, files: map<string, seq<bv8>>, id: string, run: AudioRun, clock: Clock,
                     invalidText: string, t: Task)
    requires Saves(db) && GetTask(db, id) == Ok(Some(t)) && t.filePath in files && run.outcome.Produced?
    ensures ProcessTask(db, files, id, run, clock, invalidText) == Processed(CompletedDb(db, id, run, clock), true, true, false)
    ensures HoldsTask(CompletedDb(db, id, run, clock), id)
  {
    var s := StartedUpdate(clock);
    StartedFits(clock);
    FittingUpdateKeepsTask(db, id, s);
    var db1 := UpdateTask(db, id, s).db;
    ApplyProgressKeepsTask(db1, id, run.progress);
    var p := ApplyProgress(db1, id, run.progress);
    var c := CompletedUpdate(clock, run.outcome.result, run.outcome.duration);
    CompletedFits(clock, run.outcome.result, run.outcome.duration);
    FittingUpdateKeepsTask(p.db, id, c);
    assert !UpdateTask(db, id, s).reply.Raises? && !p.raised && !UpdateTask(p.db, id, c).reply.Raises?;
  }

  /** A run whose processor produces a result ends completed, with the result, the duration and
      the timings stored, and the completion notifications sent; it never raises. */
  lemma ProcessCompletes(db: Db, files: map<string, seq<bv8>>, id: string, run: AudioRun, clock: Clock,
                         invalidText: string, t: Task)
    requires Saves(db) && GetTask(db, id) == Ok(Some(t)) && t.filePath in files && run.outcome.Produced?
    ensures var r := ProcessTask(db, files, id, run, clock, invalidText);
      && r.processorRan && r.notified && !r.raised && HoldsTask(r.db, id)
      && var f := Read(r.db, id).fields;
      && "status" in f && f["status"] == JStr(COMPLETED)
      && "result" in f && f["result"] == JObj(run.outcome.result)
      && "audio_duration" in f && f["audio_duration"] == JFloat(run.outcome.duration)
      && "started_at" in f && f["started_at"] == JStr(clock.startedAt)
      && "completed_at" in f && f["completed_at"] == JStr(clock.completedAt)
      && "processing_time" in f && f["processing_time"] == JFloat(clock.processingTime)
  {
    CompletedRun(db, files, id, run, clock, invalidText, t);
    CompletedFields(db, id, run, clock);
    CompletedKeepsStart(db, id, run, clock);
    var c := CompletedUpdate(clock, run.outcome.result, run.outcome.duration);
    assert "status" in c && "result" in c && "audio_duration" in c;
    assert "completed_at" in c && "processing_time" in c;
  }

  lemma CompletedFields(db: Db, id: string, run: AudioRun, clock: Clock)
    requires HoldsTask(db, id) && run.outcome.Produced?
    ensures var d := CompletedDb(db, id, run, clock);
      && Read(d, id).JObj?
      && var f := Read(d, id).fields;
      && var c := CompletedUpdate(clock, run.outcome.result, run.outcome.duration);
      && (forall k :: k in c ==> k in f && f[k] == c[k])
  {
    var s := StartedUpdate(clock);
    StartedFits(clock);
    FittingUpdateKeepsTask(db, id, s);
    var db1 := UpdateTask(db, id, s).db;
    ApplyProgressKeepsTask(db1, id, run.progress);
    var db2 := ApplyProgress(db1, id, run.progress).db;
    var c := CompletedUpdate(clock, run.outcome.result, run.outcome.duration);
    UpdateSetsKeys(db2, id, c);
    assert CompletedDb(db, id, run, clock) == UpdateTask(db2, id, c).db;
  }

  lemma CompletedKeepsStart(db: Db, id: string, run: AudioRun, clock: Clock)
    requires HoldsTask(db, id) && run.outcome.Produced?
    ensures var d := CompletedDb(db, id, run, clock);
      && Read(d, id).JObj?
      && "started_at" in Read(d, id).fields && Read(d, id).fields["started_at"] == JStr(clock.startedAt)
  {
    var s := StartedUpdate(clock);
    StartedFits(clock);
    FittingUpdateKeepsTask(db, id, s);
    var db1 := UpdateTask(db, id, s).db;
    UpdateSetsKeys(db, id, s);
    ProgressKeepsStart(db1, id, run.progress);
    ApplyProgressKeepsTask(db1, id, run.progress);
    var db2 := ApplyProgress(db1, id, run.progress).db;
    var c := CompletedUpdate(clock, run.outcome.result, run.outcome.duration);
    CompletedFits(clock, run.outcome.result, run.outcome.duration);
    UpdateKeepsKey(db2, id, c, "started_at");
    assert CompletedDb(db, id, run, clock) == UpdateTask(db2, id, c).db;
  }

  /** After `update_task` on a stored dict, every key of the update holds its new value. */
  lemma UpdateSetsKeys(db: Db, id: string, u: map<string, Json>)
    requires HoldsTask(db, id)
    ensures var d := UpdateTask(db, id, u).db;
      && Read(d, id).JObj?
      && forall k :: k in u ==> k in Read(d, id).fields && Read(d, id).fields[k] == u[k]
  {
    UpdateOverwrites(db, id, u);
  }

  /** After `update_task` on a stored dict, a key the update does not name is unchanged. */
  lemma UpdateKeepsKey(db: Db, id: string, u: map<string, Json>, k: string)
    requires HoldsTask(db, id) && k in Read(db, id).fields && k !in u
    ensures var d := UpdateTask(db, id, u).db;
      && Read(d, id).JObj?
      && k in Read(d, id).fields && Read(d, id).fields[k] == Read(db, id).fields[k]
  {
    UpdateOverwrites(db, id, u);
  }

  lemma StartedFits(clock: Clock)
    ensures UpdatesFit(StartedUpdate(clock)) && "started_at" in StartedUpdate(clock)
  {
  }

  lemma CompletedFits(clock: Clock, result: map<string, Json>, duration: real)
    ensures UpdatesFit(CompletedUpdate(clock, result, duration))
    ensures "started_at" !in CompletedUpdate(clock, result, duration)
  {
  }

  /** Progress callbacks touch only `progress` and `progress_message`. */
  lemma {:induction false} ProgressKeepsStart(db: Db, id: string, events: seq<(int, string)>)
    requires HoldsTask(db, id)
    ensures Read(ApplyProgress(db, id, events).db, id).JObj?
    ensures var d := Read(ApplyProgress(db, id, events).db, id).fields;
      forall k :: k in Read(db, id).fields && k != "progress" && k != "progress_message" ==>
        k in d && d[k] == Read(db, id).fields[k]
    decreases |events|
  {
    if events != [] {
      var u := ProgressUpdate(events[0].0, events[0].1);
      FittingUpdateKeepsTask(db, id, u);
      ProgressKeepsStart(UpdateTask(db, id, u).db, id, events[1..]);
    }
    ApplyProgressKeepsTask(db, id, events);
  }

  /** A run whose processor raises ends failed with the exception's text and sends no completion
      notification; it never raises itself. */
  lemma ProcessFailsOnThrow(db: Db, files: map<string, seq<bv8>>, id: string, run: AudioRun, clock: Clock,
                            invalidText: string, t: Task)
    requires Saves(db) && GetTask(db, id) == Ok(Some(t)) && t.filePath in files && run.outcome.Threw?
    ensures var r := ProcessTask(db, files, id, run, clock, invalidText);
      && r.processorRan && !r.notified && !r.raised && HoldsTask(r.db, id)
      && Read(r.db, id).fields["status"] == JStr(FAILED)
      && Read(r.db, id).fields["error_message"] == JStr(run.outcome.message)
  {
    var s := StartedUpdate(clock);
    FittingUpdateKeepsTask(db, id, s);
    var db1 := UpdateTask(db, id, s).db;
    ApplyProgressKeepsTask(db1, id, run.progress);
    var db2 := ApplyProgress(db1, id, run.progress).db;
    FittingUpdateKeepsTask(db2, id, FailedUpdate(run.outcome.message));
  }
}
