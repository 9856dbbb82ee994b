/** The Celery worker `process_transcription`: prerequisite checks, the retry guard, the retry
    counter, the engine call and the mapping of its outcome to a result record and a code.
    A redelivered message is one more sequential call. */
module TranscriptionTasks {
  import opened Wrappers
  import opened Json
  import opened TaskSchema
  import opened ErrorCodes
  import Decimal
  import Storage
  import M = TranscriptionModel
  import Transcription

  /** What the engine (`process_task_sync`) did to the task record before it returned. */
  datatype EngineEffect = Untouched | Merged(fields: map<string, Json>) | Removed

  /** What the engine handed back: its result dict, or the text of the exception it raised. */
  datatype EngineReply = Returned(result: map<string, Json>) | Raised(message: string)

  datatype Engine = Engine(effect: EngineEffect, reply: EngineReply)

  /** One delivery of the task message: how the engine behaves on it, whether the worker process
      is lost while the engine runs (the message is then delivered again), and the condition of
      the Redis server while it runs: whether it answers, and whether it accepts writes. */
  datatype Delivery = Delivery(engine: Engine, lost: bool, up: bool, writable: bool)

  /** The store as a delivery finds it: the same data, under the delivery's server condition. */
  function Under(db: M.Db, d: Delivery): (r: M.Db)
    ensures r.data == db.data && M.Saves(r) == Storage.Writes(d.up, d.writable)
  {
    M.Db(db.data, d.up, d.writable)
  }

  /** The server accepts every write of the delivery whenever it answers. */
  predicate WritesLand(d: Delivery) {
    d.up ==> d.writable
  }

  /** The notifications a run sends; none of them touches the store. */
  datatype Event =
    | Mqtt(code: Json, message: Json)
    | Webhook(extraParams: map<string, Json>, result: string, code: Json)
    | CompletionReported(clientId: string, duration: Json)

  /** How a run ends: with a result dict, with an exception escaping the task, or with the worker lost. */
  datatype Reply = Finished(result: map<string, Json>) | Escaped | Lost

  datatype Run = Run(db: M.Db, reply: Reply, engineRan: bool, events: seq<Event>)

  /** The values a run reads from its environment: the retry cap, the clock, the download URL
      base (`BASE_URL` followed by `DOWNLOAD_URL_PREFIX`) and the text of a validation error. */
  datatype Env = Env(maxRetry: int, now: string, elapsed: real, timestamp: real, downloadBase: string,
                     invalidText: string)

  /** `create_task_result`: status, id, timestamp and code, then `error` and `timings` when truthy,
      then the extra fields over all of them. */
  function CreateTaskResult(status: string, taskId: string, error: Json, timings: map<string, Json>,
                            code: Json, extra: map<string, Json>, timestamp: real): (r: map<string, Json>)
    ensures forall k :: k in extra ==> k in r && r[k] == extra[k]
    ensures "status" !in extra ==> "status" in r && r["status"] == JStr(status)
    ensures "task_id" !in extra ==> "task_id" in r && r["task_id"] == JStr(taskId)
    ensures "timestamp" !in extra ==> "timestamp" in r && r["timestamp"] == JFloat(timestamp)
    ensures "code" !in extra ==> "code" in r && r["code"] == code
    ensures "error" !in extra ==> ("error" in r <==> Truthy(error)) && ("error" in r ==> r["error"] == error)
    ensures "timings" !in extra ==> ("timings" in r <==> timings != map[]) && ("timings" in r ==> r["timings"] == JObj(timings))
    ensures r.Keys == {"status", "task_id", "timestamp", "code"} + extra.Keys
      + (if Truthy(error) then {"error"} else {}) + (if timings != map[] then {"timings"} else {})
  {
    var base := map["status" := JStr(status), "task_id" := JStr(taskId), "timestamp" := JFloat(timestamp), "code" := code];
    var withError := if Truthy(error) then base["error" := error] else base;
    var withTimings := if timings != map[] then withError["timings" := JObj(timings)] else withError;
    withTimings + extra
  }

  /** The outcome of `check_task_prerequisites`: the task, or the store and the failure result,
      or an exception (after whatever was already written). */
  datatype Prereq = Found(task: Task) | Rejected(db: M.Db, result: map<string, Json>) | Threw(db: M.Db)

  /** The record update for a failure with `code`. */
  function FailureUpdate(errorMessage: string, code: int, message: string): map<string, Json> {
    map["status" := JStr(FAILED), "error_message" := JStr(errorMessage), "code" := JInt(code),
        "message" := JStr(message)]
  }

  const TaskMissingText := "任务不存在"

  /** The failed result `check_task_prerequisites` returns, with its code and error text. */
  function Rejection(db: M.Db, id: string, error: string, timings: map<string, Json>, code: int,
                     timestamp: real): (p: Prereq)
    requires error != ""
    ensures p.Rejected? && p.db == db
    ensures "code" in p.result && p.result["code"] == JInt(code)
    ensures "error" in p.result && p.result["error"] == JStr(error)
    ensures "status" in p.result && p.result["status"] == JStr(FAILED)
  {
    Rejected(db, CreateTaskResult(FAILED, id, JStr(error), timings, JInt(code), map[], timestamp))
  }

  /** `check_task_prerequisites`. */
  function PrerequisitesOf(db: M.Db, files: map<string, seq<bv8>>, id: string, env: Env): (p: Prereq)
    ensures p.Found? ==> M.GetTask(db, id) == Ok(Some(p.task)) && p.task.filePath in files
    ensures p.Rejected? ==> "code" in p.result && "error" in p.result
  {
    match M.GetTask(db, id)
    case Raises => Threw(db)
    case Ok(None) =>
      Rejection(db, id, TaskMissingText, map["task_received" := JFloat(env.elapsed)],
                ERROR_TASK_NOT_FOUND, env.timestamp)
    case Ok(Some(t)) =>
      if t.filePath in files then Found(t)
      else
        var msg := GetErrorMessage(ERROR_FILE_NOT_FOUND, None);
        var u := M.UpdateTask(db, id, FailureUpdate(msg, ERROR_FILE_NOT_FOUND, msg));
        if u.reply.Raises? then Threw(u.db)
        else
          Rejection(u.db, id, msg, map["task_received" := JFloat(env.elapsed), "file_check" := JFloat(env.elapsed)],
                    ERROR_FILE_NOT_FOUND, env.timestamp)
  }

  /** The engine's own writes to the record. */
  function EngineApply(db: M.Db, id: string, effect: EngineEffect): M.Db {
    match effect
    case Untouched => db
    case Merged(f) => M.UpdateTask(db, id, f).db
    case Removed => M.Remove(db, id)
  }

  /** `task.extra_params or {}`: what the webhook is told about the task's callback target. */
  function Callback(t: Task): map<string, Json> {
    if t.extraParams.Some? then t.extraParams.value else map[]
  }

  /** The code an exception is recorded with: the stored non-zero code, else processing failed. */
  function ExceptionCode(current: Option<Task>): (c: int)
    ensures c != SUCCESS
    ensures current.Some? && current.value.code != SUCCESS ==> c == current.value.code
    ensures (current.None? || current.value.code == SUCCESS) ==> c == ERROR_PROCESSING_FAILED
  {
    var c0 := if current.Some? then current.value.code else ERROR_PROCESSING_FAILED;
    if c0 == SUCCESS then ERROR_PROCESSING_FAILED else c0
  }

  /** The `except` branch: re-reads the task for its code and records the failure. */
  function ExceptionRun(db: M.Db, id: string, message: string, cb: map<string, Json>, env: Env, ran: bool): Run {
    match M.GetTask(db, id)
    case Raises => Run(db, Escaped, ran, [])
    case Ok(current) =>
      var code := ExceptionCode(current);
      RecordFailure(db, id, message, code, GetErrorMessage(code, Some(message)), cb, env, ran)
  }

  /** Records the failure with `code` and the user-facing `text`, and reports it. */
  function RecordFailure(db: M.Db, id: string, message: string, code: int, text: string, cb: map<string, Json>, env: Env, ran: bool): Run {
    var u := M.UpdateTask(db, id, FailureUpdate(message, code, text));
    if u.reply.Raises? then Run(u.db, Escaped, ran, [])
    else
      var res := CreateTaskResult(FAILED, id, JStr(message),
                   map["task_received" := JFloat(env.elapsed), "total_time" := JFloat(env.elapsed)],
                   JInt(code), map[], env.timestamp);
      Run(u.db, Finished(res), ran, [Mqtt(JInt(code), JStr(message)), Webhook(cb, "", JInt(code))])
  }

  /** The text of the `KeyError` a result without `status` raises. */
  const MissingStatusText := "'status'"
  const UnknownErrorText := "未知错误"

  /** The timings of a completed run. */
  function CompletedTimings(r: map<string, Json>, env: Env): map<string, Json> {
    map["total_time" := JFloat(env.elapsed),
        "model_loading" := Get(r, "model_loading_time", JInt(0)),
        "transcription" := Get(r, "transcription_time", JInt(0)),
        "diarization" := Get(r, "diarization_time", JInt(0)),
        "post_processing" := Get(r, "post_processing_time", JInt(0))]
  }

  /** The exception a reply raises in the worker: the engine's own, or the `KeyError` of a
      result without `status`. */
  function Raising(reply: EngineReply): Option<string> {
    match reply
    case Raised(m) => Some(m)
    case Returned(r) => if "status" !in r then Some(MissingStatusText) else None
  }

  /** The two branches on a result dict that has a `status`. */
  function ReturnedRun(db: M.Db, id: string, t: Task, r: map<string, Json>, env: Env): Run
    requires "status" in r
  {
    if r["status"] == JStr(COMPLETED) then
      var duration := Get(r, "audio_duration", JInt(0));
      var res := CreateTaskResult(COMPLETED, id, JNull, CompletedTimings(r, env), JInt(SUCCESS),
                   map["audio_duration" := duration, "result" := Get(r, "result", JObj(map[]))], env.timestamp);
      var url := env.downloadBase + "/" + id + ".json";
      Run(db, Finished(res), true, [CompletionReported(t.clientId, duration), Webhook(Callback(t), url, JInt(SUCCESS)), Mqtt(JInt(SUCCESS), JNull)])
    else
      var msg := Get(r, "error", JStr(UnknownErrorText));
      var code := Get(r, "code", JInt(ERROR_PROCESSING_FAILED));
      var res := CreateTaskResult(FAILED, id, msg, map["total_time" := JFloat(env.elapsed)], code, map[], env.timestamp);
      Run(db, Finished(res), true, [Mqtt(code, msg), Webhook(Callback(t), "", code)])
  }

  /** The engine call and what follows it. */
  function EngineRun(db: M.Db, id: string, t: Task, d: Delivery, env: Env): Run {
    var db2 := EngineApply(db, id, d.engine.effect);
    if d.lost then Run(db2, Lost, true, [])
    else
      match Raising(d.engine.reply)
      case Some(m) => ExceptionRun(db2, id, m, Callback(t), env, true)
      case None => ReturnedRun(db2, id, t, d.engine.reply.result, env)
  }

  /** The update that marks the task as processing. */
  function StartUpdate(env: Env): map<string, Json> {
    map["status" := JStr(PROCESSING), "started_at" := JStr(env.now)]
  }

  /** The `try` block after the counter was raised: processing, the engine, and its outcome. */
  function AttemptRun(db: M.Db, id: string, t: Task, d: Delivery, env: Env): Run {
    var p := M.UpdateTask(db, id, StartUpdate(env));
    if p.reply.Raises? then ExceptionRun(p.db, id, env.invalidText, Callback(t), env, false)
    else EngineRun(p.db, id, t, d, env)
  }

  /** The message the retry guard records. */
  function RetryLimitText(maxRetry: int): string {
    "任务重试次数已达上限 (" + Decimal.IntToStr(maxRetry) + "次)"
  }

  /** The retry guard's branch: the task is marked failed and the engine is not called. */
  function RetryLimitRun(db: M.Db, id: string, cb: map<string, Json>, env: Env): Run {
    var msg := RetryLimitText(env.maxRetry);
    var u := M.UpdateTask(db, id, FailureUpdate(msg, ERROR_MAX_RETRY_EXCEEDED, GetErrorMessage(ERROR_MAX_RETRY_EXCEEDED, None)));
    if u.reply.Raises? then Run(u.db, Escaped, false, [])
    else
      var res := CreateTaskResult(FAILED, id, JStr(msg),
                   map["task_received" := JFloat(env.elapsed), "total_time" := JFloat(env.elapsed)],
                   JInt(ERROR_MAX_RETRY_EXCEEDED), map[], env.timestamp);
      Run(u.db, Finished(res), false, [Mqtt(JInt(ERROR_MAX_RETRY_EXCEEDED), JStr(msg)), Webhook(cb, "", JInt(ERROR_MAX_RETRY_EXCEEDED))])
  }

  /** The counter update. */
  function IncrementUpdate(t: Task): map<string, Json> {
    map["retry_count" := JInt(t.retryCount + 1)]
  }

  /** Past the prerequisites: the guard, or the counter update and the attempt. The source
      ignores whether the update's save landed (`checked` false); with `checked` the run stops
      when it did not, before the engine is called. */
  function GuardedRun(db: M.Db, id: string, t: Task, d: Delivery, env: Env, checked: bool): Run {
    if t.retryCount >= env.maxRetry then RetryLimitRun(db, id, Callback(t), env)
    else
      var inc := M.UpdateTask(db, id, IncrementUpdate(t));
      if inc.reply.Raises? || (checked && !M.Saves(db)) then Run(inc.db, Escaped, false, [])
      else AttemptRun(inc.db, id, t, d, env)
  }

  /** `process_transcription` (as written when `checked` is false). */
  function TranscriptionRun(db: M.Db, files: map<string, seq<bv8>>, id: string, d: Delivery, env: Env, checked: bool): Run {
    match PrerequisitesOf(db, files, id, env)
    case Threw(db1) => Run(db1, Escaped, false, [])
    case Rejected(db1, res) => Run(db1, Finished(res), false, [Mqtt(res["code"], res["error"]), Webhook(map[], "", res["code"])])
    case Found(t) => GuardedRun(db, id, t, d, env, checked)
  }

  /** The store after a sequence of deliveries, and how many of them ran the engine. */
  datatype History = History(db: M.Db, engineRuns: nat)

  /** Each delivery runs on the data the previous one left, under its own server condition. */
  function Deliveries(db: M.Db, files: map<string, seq<bv8>>, id: string, ds: seq<Delivery>, env: Env, checked: bool): History
    decreases |ds|
  {
    if ds == [] then History(db, 0)
    else
      var r := TranscriptionRun(Under(db, ds[0]), files, id, ds[0], env, checked);
      var h := Deliveries(r.db, files, id, ds[1..], env, checked);
      History(h.db, h.engineRuns + if r.engineRan then 1 else 0)
  }

  // ---------------------------------------------------------------------------------------------
  // The retry ladder

  /** The raw `retry_count` of the stored record, whatever the server's condition: None when
      there is no record to read. */
  function RetryField(db: M.Db, id: string): Option<int> {
    var v := Storage.Lookup(db.data, true, M.Prefix + id);
    if Truthy(v) && v.JObj? then IntField(v.fields, "retry_count") else None
  }

  /** The stored counter is within the cap (or there is no record). */
  predicate RetryAtMost(db: M.Db, id: string, maxRetry: int) {
    RetryField(db, id).Some? ==> RetryField(db, id).value <= maxRetry
  }

  /** How many more engine runs the stored counter allows. */
  function Potential(db: M.Db, id: string, maxRetry: int): nat {
    match RetryField(db, id)
    case Some(n) => if n < maxRetry then maxRetry - n else 0
    case None => 0
  }

  /** The engine never writes the counter itself. */
  predicate NoRetryWrite(e: EngineEffect) {
    e.Merged? ==> "retry_count" !in e.fields
  }

  /** An update that does not name `retry_count` leaves the stored counter as it was. */
  lemma UpdateKeepsRetry(db: M.Db, id: string, u: map<string, Json>)
    requires "retry_count" !in u
    ensures RetryField(M.UpdateTask(db, id, u).db, id) == RetryField(db, id)
  {
    var v := M.Read(db, id);
    if Truthy(v) && v.JObj? && M.Saves(db) {
      var w := JObj(v.fields + u);
      assert M.Read(M.UpdateTask(db, id, u).db, id) == w;
      assert "retry_count" in w.fields <==> "retry_count" in v.fields;
      assert Truthy(w) by {
        var k :| k in v.fields;
        assert k in w.fields;
      }
    }
  }

  /** The engine's writes keep the counter, or remove the record altogether. */
  lemma EngineKeepsRetry(db: M.Db, id: string, e: EngineEffect)
    requires NoRetryWrite(e)
    ensures RetryField(EngineApply(db, id, e), id) == RetryField(db, id) || RetryField(EngineApply(db, id, e), id).None?
  {
    match e
    case Untouched =>
    case Merged(f) => UpdateKeepsRetry(db, id, f);
    case Removed =>
  }

  lemma ExceptionKeepsRetry(db: M.Db, id: string, message: string, cb: map<string, Json>, env: Env, ran: bool)
    ensures RetryField(ExceptionRun(db, id, message, cb, env, ran).db, id) == RetryField(db, id)
  {
    match M.GetTask(db, id)
    case Raises =>
    case Ok(current) =>
      var code := ExceptionCode(current);
      UpdateKeepsRetry(db, id, FailureUpdate(message, code, GetErrorMessage(code, Some(message))));
      assert ExceptionRun(db, id, message, cb, env, ran) == RecordFailure(db, id, message, code, GetErrorMessage(code, Some(message)), cb, env, ran);
  }

  /** Nothing after the engine call raises the counter. */
  lemma EngineKeepsRetryAfter(db: M.Db, id: string, t: Task, d: Delivery, env: Env)
    requires NoRetryWrite(d.engine.effect)
    ensures var f := RetryField(EngineRun(db, id, t, d, env).db, id);
      f == RetryField(db, id) || f.None?
  {
    var db2 := EngineApply(db, id, d.engine.effect);
    EngineKeepsRetry(db, id, d.engine.effect);
    match Raising(d.engine.reply)
    case Some(m) => ExceptionKeepsRetry(db2, id, m, Callback(t), env, true);
    case None =>
  }

  /** Nothing in the `try` block raises the counter. */
  lemma AttemptKeepsRetry(db: M.Db, id: string, t: Task, d: Delivery, env: Env)
    requires NoRetryWrite(d.engine.effect)
    ensures var f := RetryField(AttemptRun(db, id, t, d, env).db, id);
      f == RetryField(db, id) || f.None?
  {
    UpdateKeepsRetry(db, id, StartUpdate(env));
    var p := M.UpdateTask(db, id, StartUpdate(env));
    if p.reply.Raises? {
      ExceptionKeepsRetry(p.db, id, env.invalidText, Callback(t), env, false);
    } else {
      EngineKeepsRetryAfter(p.db, id, t, d, env);
    }
  }

  /** Checking the prerequisites never raises the counter. */
  lemma PrerequisitesKeepRetry(db: M.Db, files: map<string, seq<bv8>>, id: string, env: Env)
    ensures var p := PrerequisitesOf(db, files, id, env);
      !p.Found? ==> RetryField(p.db, id) == RetryField(db, id)
  {
    var msg := GetErrorMessage(ERROR_FILE_NOT_FOUND, None);
    UpdateKeepsRetry(db, id, FailureUpdate(msg, ERROR_FILE_NOT_FOUND, msg));
  }

  /** A validated record's counter is the stored one. */
  lemma FoundRetry(db: M.Db, id: string, t: Task)
    requires M.GetTask(db, id) == Ok(Some(t))
    ensures RetryField(db, id) == Some(t.retryCount) && db.up
  {
    var v := M.Read(db, id);
    assert v.JObj?;
    ReadsIff(v.fields, t);
  }

  /** Raising the counter of a stored record stores the raised value. */
  lemma IncrementStores(db: M.Db, id: string, t: Task)
    requires M.Saves(db) && M.GetTask(db, id) == Ok(Some(t))
    ensures RetryField(M.UpdateTask(db, id, IncrementUpdate(t)).db, id) == Some(t.retryCount + 1)
  {
    FoundRetry(db, id, t);
    var v := M.Read(db, id);
    var u := IncrementUpdate(t);
    assert M.Read(M.UpdateTask(db, id, u).db, id) == JObj(v.fields + u);
    assert "retry_count" in v.fields + u;
  }

  /** Past the prerequisites, one delivery keeps the counter within the cap, and an engine run
      raises it by one first, provided the server takes the writes or the save is checked. */
  lemma GuardedStep(db: M.Db, id: string, t: Task, d: Delivery, env: Env, checked: bool)
    requires M.GetTask(db, id) == Ok(Some(t)) && t.retryCount <= env.maxRetry && NoRetryWrite(d.engine.effect)
    requires checked || M.Saves(db)
    ensures var r := GuardedRun(db, id, t, d, env, checked);
      && RetryAtMost(r.db, id, env.maxRetry)
      && Potential(r.db, id, env.maxRetry) <= Potential(db, id, env.maxRetry)
      && (r.engineRan ==> Potential(r.db, id, env.maxRetry) < Potential(db, id, env.maxRetry))
  {
    FoundRetry(db, id, t);
    if t.retryCount >= env.maxRetry {
      var msg := RetryLimitText(env.maxRetry);
      UpdateKeepsRetry(db, id, FailureUpdate(msg, ERROR_MAX_RETRY_EXCEEDED, GetErrorMessage(ERROR_MAX_RETRY_EXCEEDED, None)));
    } else if M.Saves(db) {
      IncrementStores(db, id, t);
      var inc := M.UpdateTask(db, id, IncrementUpdate(t));
      if !inc.reply.Raises? {
        AttemptKeepsRetry(inc.db, id, t, d, env);
      }
    } else {
      UpdateUnsaved(db, id, IncrementUpdate(t));
    }
  }

  /** One delivery keeps the counter within the cap, never gives back budget, and an engine run
      uses up one unit of it, provided the server takes the writes or the save is checked. */
  lemma DeliveryStep(db: M.Db, files: map<string, seq<bv8>>, id: string, d: Delivery, env: Env, checked: bool)
    requires RetryAtMost(db, id, env.maxRetry) && NoRetryWrite(d.engine.effect)
    requires checked || WritesLand(d)
    ensures var r := TranscriptionRun(Under(db, d), files, id, d, env, checked);
      && RetryAtMost(r.db, id, env.maxRetry)
      && Potential(r.db, id, env.maxRetry) <= Potential(db, id, env.maxRetry)
      && (r.engineRan ==> Potential(r.db, id, env.maxRetry) < Potential(db, id, env.maxRetry))
  {
    var db1 := Under(db, d);
    PrerequisitesKeepRetry(db1, files, id, env);
    match PrerequisitesOf(db1, files, id, env)
    case Threw(_) =>
    case Rejected(_, _) =>
    case Found(t) =>
      assert M.GetTask(db1, id) == Ok(Some(t));
      FoundRetry(db1, id, t);
      GuardedStep(db1, id, t, d, env, checked);
  }

  /** The deliveries after the first keep the property every delivery has. */
  lemma TailKeeps(ds: seq<Delivery>, checked: bool)
    requires ds != []
    requires forall k :: 0 <= k < |ds| ==> NoRetryWrite(ds[k].engine.effect) && (checked || WritesLand(ds[k]))
    ensures forall k :: 0 <= k < |ds[1..]| ==> NoRetryWrite(ds[1..][k].engine.effect) && (checked || WritesLand(ds[1..][k]))
  {
    forall k | 0 <= k < |ds[1..]|
      ensures NoRetryWrite(ds[1..][k].engine.effect) && (checked || WritesLand(ds[1..][k]))
    {
      assert ds[1..][k] == ds[k + 1];
    }
  }

  /** The key theorem of the retry ladder: across any sequence of deliveries, redeliveries of a
      lost worker included, the stored counter never exceeds the cap, and the engine runs at most
      as many times as the counter had left, so at most `maxRetry` times from a fresh task. As
      written this needs every delivery's writes to land: `LostIncrementUnbounded` shows the
      engine running without bound when the counter's save is refused. */
  lemma {:induction false} RetryBound(db: M.Db, files: map<string, seq<bv8>>, id: string, ds: seq<Delivery>, env: Env, checked: bool)
    requires RetryAtMost(db, id, env.maxRetry)
    requires forall k :: 0 <= k < |ds| ==> NoRetryWrite(ds[k].engine.effect) && (checked || WritesLand(ds[k]))
    ensures RetryAtMost(Deliveries(db, files, id, ds, env, checked).db, id, env.maxRetry)
    ensures Deliveries(db, files, id, ds, env, checked).engineRuns <= Potential(db, id, env.maxRetry)
    decreases |ds|
  {
    if ds != [] {
      DeliveryStep(db, files, id, ds[0], env, checked);
      var r := TranscriptionRun(Under(db, ds[0]), files, id, ds[0], env, checked);
      TailKeeps(ds, checked);
      RetryBound(r.db, files, id, ds[1..], env, checked);
    }
  }

  /** With the counter's save checked, the bound holds whatever the server does: a delivery
      whose writes are refused stops before the engine. */
  lemma CheckedRetryBound(db: M.Db, files: map<string, seq<bv8>>, id: string, ds: seq<Delivery>, env: Env)
    requires RetryAtMost(db, id, env.maxRetry)
    requires forall k :: 0 <= k < |ds| ==> NoRetryWrite(ds[k].engine.effect)
    ensures RetryAtMost(Deliveries(db, files, id, ds, env, true).db, id, env.maxRetry)
    ensures Deliveries(db, files, id, ds, env, true).engineRuns <= Potential(db, id, env.maxRetry)
  {
    RetryBound(db, files, id, ds, env, true);
  }

  /** From a record whose counter starts at `n` (0 for a new task), the engine runs at most
      `maxRetry - n` times when every delivery's writes land. */
  lemma EngineRunsFromFreshTask(db: M.Db, files: map<string, seq<bv8>>, id: string, ds: seq<Delivery>, env: Env, t: Task)
    requires M.GetTask(db, id) == Ok(Some(t)) && 0 <= t.retryCount <= env.maxRetry
    requires forall k :: 0 <= k < |ds| ==> NoRetryWrite(ds[k].engine.effect) && WritesLand(ds[k])
    ensures Deliveries(db, files, id, ds, env, false).engineRuns <= env.maxRetry - t.retryCount <= env.maxRetry
  {
    FoundRetry(db, id, t);
    RetryBound(db, files, id, ds, env, false);
  }

  // ---------------------------------------------------------------------------------------------
  // Lost writes

  /** On a server that refuses writes, `update_task` writes nothing; its reply is the one a
      writable server would give, as the source ignores what `save` returned. */
  lemma UpdateUnsaved(db: M.Db, id: string, u: map<string, Json>)
    requires !M.Saves(db)
    ensures M.UpdateTask(db, id, u).db == db
    ensures M.UpdateTask(db, id, u).reply == M.UpdateTask(db.(writable := true), id, u).reply
  {
  }

  /** A run on a server that refuses writes leaves the data as it was. */
  lemma UnsavedRunKeepsData(db: M.Db, files: map<string, seq<bv8>>, id: string, d: Delivery, env: Env, checked: bool)
    requires !M.Saves(db)
    ensures TranscriptionRun(db, files, id, d, env, checked).db == db
  {
    match PrerequisitesOf(db, files, id, env)
    case Threw(db1) => UnsavedPrerequisites(db, files, id, env);
    case Rejected(db1, res) => UnsavedPrerequisites(db, files, id, env);
    case Found(t) =>
      assert TranscriptionRun(db, files, id, d, env, checked) == GuardedRun(db, id, t, d, env, checked);
      if t.retryCount >= env.maxRetry {
        UpdateUnsaved(db, id, FailureUpdate(RetryLimitText(env.maxRetry), ERROR_MAX_RETRY_EXCEEDED,
                                            GetErrorMessage(ERROR_MAX_RETRY_EXCEEDED, None)));
      } else {
        UpdateUnsaved(db, id, IncrementUpdate(t));
        if !(M.UpdateTask(db, id, IncrementUpdate(t)).reply.Raises? || (checked && !M.Saves(db))) {
          UnsavedAttempt(db, id, t, d, env);
        }
      }
  }

  lemma UnsavedPrerequisites(db: M.Db, files: map<string, seq<bv8>>, id: string, env: Env)
    requires !M.Saves(db)
    ensures var p := PrerequisitesOf(db, files, id, env);
      (p.Threw? ==> p.db == db) && (p.Rejected? ==> p.db == db)
  {
    var msg := GetErrorMessage(ERROR_FILE_NOT_FOUND, None);
    UpdateUnsaved(db, id, FailureUpdate(msg, ERROR_FILE_NOT_FOUND, msg));
  }

  lemma UnsavedAttempt(db: M.Db, id: string, t: Task, d: Delivery, env: Env)
    requires !M.Saves(db)
    ensures AttemptRun(db, id, t, d, env).db == db
  {
    UpdateUnsaved(db, id, StartUpdate(env));
    var p := M.UpdateTask(db, id, StartUpdate(env));
    if p.reply.Raises? {
      UnsavedException(db, id, env.invalidText, Callback(t), env, false);
    } else {
      var db2 := EngineApply(db, id, d.engine.effect);
      match d.engine.effect
      case Untouched =>
      case Merged(f) => UpdateUnsaved(db, id, f);
      case Removed =>
      assert db2 == db;
      if !d.lost {
        match Raising(d.engine.reply)
        case Some(m) => UnsavedException(db, id, m, Callback(t), env, true);
        case None =>
      }
    }
  }

  lemma UnsavedException(db: M.Db, id: string, message: string, cb: map<string, Json>, env: Env, ran: bool)
    requires !M.Saves(db)
    ensures ExceptionRun(db, id, message, cb, env, ran).db == db
  {
    match M.GetTask(db, id)
    case Raises =>
    case Ok(current) =>
      var code := ExceptionCode(current);
      UpdateUnsaved(db, id, FailureUpdate(message, code, GetErrorMessage(code, Some(message))));
  }

  /** On a server that answers reads and refuses writes, the source's worker runs the engine on
      every delivery of a task below the cap, and the stored counter never moves: the number of
      engine runs is the number of deliveries, beyond any cap. */
  lemma {:induction false} LostIncrementUnbounded(db: M.Db, files: map<string, seq<bv8>>, id: string, ds: seq<Delivery>, env: Env, t: Task)
    requires M.GetTask(db, id) == Ok(Some(t)) && t.filePath in files && t.retryCount < env.maxRetry
    requires forall k :: 0 <= k < |ds| ==> ds[k].up && !ds[k].writable
    ensures Deliveries(db, files, id, ds, env, false).db.data == db.data
    ensures Deliveries(db, files, id, ds, env, false).engineRuns == |ds|
    ensures |ds| > env.maxRetry - t.retryCount ==> Deliveries(db, files, id, ds, env, false).engineRuns > Potential(db, id, env.maxRetry)
    decreases |ds|
  {
    FoundRetry(db, id, t);
    if ds != [] {
      var db1 := Under(db, ds[0]);
      assert M.GetTask(db1, id) == M.GetTask(db, id);
      UnsavedRunKeepsData(db1, files, id, ds[0], env, false);
      UnsavedEngineRuns(db1, files, id, ds[0], env, t);
      var r := TranscriptionRun(db1, files, id, ds[0], env, false);
      assert forall k :: 0 <= k < |ds[1..]| ==> ds[1..][k].up && !ds[1..][k].writable by {
        forall k | 0 <= k < |ds[1..]| ensures ds[1..][k].up && !ds[1..][k].writable {
          assert ds[1..][k] == ds[k + 1];
        }
      }
      assert M.GetTask(r.db, id) == M.GetTask(db, id);
      LostIncrementUnbounded(r.db, files, id, ds[1..], env, t);
    }
  }

  /** One such delivery runs the engine. */
  lemma UnsavedEngineRuns(db: M.Db, files: map<string, seq<bv8>>, id: string, d: Delivery, env: Env, t: Task)
    requires !M.Saves(db) && M.GetTask(db, id) == Ok(Some(t)) && t.filePath in files && t.retryCount < env.maxRetry
    ensures TranscriptionRun(db, files, id, d, env, false).engineRan
  {
    FoundRetry(db, id, t);
    var w := db.(writable := true);
    assert M.GetTask(w, id) == M.GetTask(db, id);
    M.FittingUpdateKeepsTask(w, id, IncrementUpdate(t));
    UpdateUnsaved(db, id, IncrementUpdate(t));
    M.FittingUpdateKeepsTask(w, id, StartUpdate(env));
    UpdateUnsaved(db, id, StartUpdate(env));
    assert TranscriptionRun(db, files, id, d, env, false) == GuardedRun(db, id, t, d, env, false);
    assert GuardedRun(db, id, t, d, env, false) == AttemptRun(db, id, t, d, env);
    assert AttemptRun(db, id, t, d, env) == EngineRun(db, id, t, d, env);
    EngineRunRan(db, id, t, d, env);
  }

  /** Once called, the engine counts as run whatever it answers. */
  lemma EngineRunRan(db: M.Db, id: string, t: Task, d: Delivery, env: Env)
    ensures EngineRun(db, id, t, d, env).engineRan
  {
    var db2 := EngineApply(db, id, d.engine.effect);
    if !d.lost {
      match Raising(d.engine.reply)
      case Some(m) => ExceptionRan(db2, id, m, Callback(t), env);
      case None =>
    }
  }

  lemma ExceptionRan(db: M.Db, id: string, message: string, cb: map<string, Json>, env: Env)
    ensures ExceptionRun(db, id, message, cb, env, true).engineRan
  {
    match M.GetTask(db, id)
    case Raises =>
    case Ok(current) =>
      var code := ExceptionCode(current);
      assert ExceptionRun(db, id, message, cb, env, true) == RecordFailure(db, id, message, code, GetErrorMessage(code, Some(message)), cb, env, true);
  }

  // ---------------------------------------------------------------------------------------------
  // The branches of one run

  /** A task that is not there: a failed result with the task-not-found code, no write, no engine. */
  lemma MissingTaskRun(db: M.Db, files: map<string, seq<bv8>>, id: string, d: Delivery, env: Env)
    requires M.GetTask(db, id) == Ok(None)
    ensures var r := TranscriptionRun(db, files, id, d, env, false);
      && r.db == db && !r.engineRan && r.reply.Finished?
      && r.reply.result["status"] == JStr(FAILED) && r.reply.result["code"] == JInt(ERROR_TASK_NOT_FOUND)
      && r.reply.result["error"] == JStr(TaskMissingText)
  {
  }

  /** A task whose audio file is missing: the record is marked failed with the file-not-found
      code, the counter is untouched and the engine does not run. */
  lemma MissingFileRun(db: M.Db, files: map<string, seq<bv8>>, id: string, d: Delivery, env: Env, t: Task)
    requires M.Saves(db) && M.GetTask(db, id) == Ok(Some(t)) && t.filePath !in files
    ensures var r := TranscriptionRun(db, files, id, d, env, false);
      && !r.engineRan && r.reply.Finished? && r.reply.result["code"] == JInt(ERROR_FILE_NOT_FOUND)
      && RetryField(r.db, id) == RetryField(db, id)
      && M.Read(r.db, id) == JObj(M.Read(db, id).fields + FailureUpdate(Messages[ERROR_FILE_NOT_FOUND], ERROR_FILE_NOT_FOUND, Messages[ERROR_FILE_NOT_FOUND]))
  {
    FoundRetry(db, id, t);
    var msg := GetErrorMessage(ERROR_FILE_NOT_FOUND, None);
    var u := FailureUpdate(msg, ERROR_FILE_NOT_FOUND, msg);
    M.FittingUpdateKeepsTask(db, id, u);
    PrerequisitesKeepRetry(db, files, id, env);
  }

  /** The retry guard's branch on a stored record. */
  lemma RetryLimitFacts(db: M.Db, id: string, cb: map<string, Json>, env: Env)
    requires M.HoldsTask(db, id)
    ensures var r := RetryLimitRun(db, id, cb, env);
      && !r.engineRan && r.reply.Finished? && r.reply.result["code"] == JInt(ERROR_MAX_RETRY_EXCEEDED)
      && RetryField(r.db, id) == RetryField(db, id)
      && M.Read(r.db, id).JObj?
      && var f := M.Read(r.db, id).fields;
      && "status" in f && f["status"] == JStr(FAILED) && "code" in f && f["code"] == JInt(ERROR_MAX_RETRY_EXCEEDED)
  {
    FailureStored(db, id, RetryLimitText(env.maxRetry), ERROR_MAX_RETRY_EXCEEDED,
                  GetErrorMessage(ERROR_MAX_RETRY_EXCEEDED, None));
  }

  /** A task at the cap: marked failed with the retry-exceeded code; neither the engine nor the
      counter moves. */
  lemma RetryLimitReached(db: M.Db, files: map<string, seq<bv8>>, id: string, d: Delivery, env: Env, t: Task)
    requires M.Saves(db) && M.GetTask(db, id) == Ok(Some(t)) && t.filePath in files && t.retryCount >= env.maxRetry
    ensures var r := TranscriptionRun(db, files, id, d, env, false);
      && !r.engineRan && r.reply.Finished? && r.reply.result["code"] == JInt(ERROR_MAX_RETRY_EXCEEDED)
      && RetryField(r.db, id) == RetryField(db, id)
      && M.Read(r.db, id).JObj?
      && var f := M.Read(r.db, id).fields;
      && "status" in f && f["status"] == JStr(FAILED) && "code" in f && f["code"] == JInt(ERROR_MAX_RETRY_EXCEEDED)
  {
    FoundRetry(db, id, t);
    RetryLimitFacts(db, id, Callback(t), env);
    assert TranscriptionRun(db, files, id, d, env, false) == RetryLimitRun(db, id, Callback(t), env);
  }

  /** Below the cap the counter goes up by exactly one, then the task is marked processing with its
      start time, and only then does the engine run, on that store. */
  lemma EngineSeesRaisedCounter(db: M.Db, files: map<string, seq<bv8>>, id: string, d: Delivery, env: Env, t: Task)
    requires M.Saves(db) && M.GetTask(db, id) == Ok(Some(t)) && t.filePath in files && t.retryCount < env.maxRetry
    ensures var db1 := M.UpdateTask(M.UpdateTask(db, id, IncrementUpdate(t)).db, id, StartUpdate(env)).db;
      && TranscriptionRun(db, files, id, d, env, false) == EngineRun(db1, id, t, d, env)
      && TranscriptionRun(db, files, id, d, env, false).engineRan
      && M.Read(db1, id) == JObj(M.Read(db, id).fields + IncrementUpdate(t) + StartUpdate(env))
      && RetryField(db1, id) == Some(t.retryCount + 1)
  {
    assert PrerequisitesOf(db, files, id, env) == Found(t);
    assert TranscriptionRun(db, files, id, d, env, false) == GuardedRun(db, id, t, d, env, false);
    RaisedCounterStored(db, id, t, env);
  }

  /** The two updates before the engine both succeed on a stored task: the counter, then the start. */
  lemma RaisedCounterStored(db: M.Db, id: string, t: Task, env: Env)
    requires M.Saves(db) && M.GetTask(db, id) == Ok(Some(t))
    ensures var inc := M.UpdateTask(db, id, IncrementUpdate(t));
      var p := M.UpdateTask(inc.db, id, StartUpdate(env));
      && inc.reply.Ok? && p.reply.Ok?
      && M.Read(p.db, id) == JObj(M.Read(db, id).fields + IncrementUpdate(t) + StartUpdate(env))
      && RetryField(p.db, id) == Some(t.retryCount + 1)
  {
    FoundRetry(db, id, t);
    M.FittingUpdateKeepsTask(db, id, IncrementUpdate(t));
    var db0 := M.UpdateTask(db, id, IncrementUpdate(t)).db;
    IncrementStores(db, id, t);
    M.FittingUpdateKeepsTask(db0, id, StartUpdate(env));
    UpdateKeepsRetry(db0, id, StartUpdate(env));
  }

  /** A result dict whose status is `completed` gives code SUCCESS; any other status gives the
      result's own code, processing failed when it has none. Neither branch writes to the store. */
  lemma ReturnedCodes(db: M.Db, id: string, t: Task, r: map<string, Json>, env: Env)
    requires "status" in r
    ensures var run := ReturnedRun(db, id, t, r, env);
      && run.db == db && run.reply.Finished?
      && (r["status"] == JStr(COMPLETED) ==> run.reply.result["code"] == JInt(SUCCESS) && run.reply.result["status"] == JStr(COMPLETED))
      && (r["status"] != JStr(COMPLETED) ==>
            run.reply.result["code"] == Get(r, "code", JInt(ERROR_PROCESSING_FAILED)) && run.reply.result["status"] == JStr(FAILED))
  {
  }

  /** The non-completed branch writes no `failed` status: the record stays as the engine left it. */
  lemma NotCompletedWritesNothing(db: M.Db, id: string, t: Task, d: Delivery, env: Env)
    requires !d.lost && d.engine.reply.Returned? && "status" in d.engine.reply.result
    requires d.engine.reply.result["status"] != JStr(COMPLETED)
    ensures EngineRun(db, id, t, d, env).db == EngineApply(db, id, d.engine.effect)
    ensures EngineRun(db, id, t, d, env).reply.Finished?
  {
  }

  lemma RecordFailureFacts(db: M.Db, id: string, message: string, code: int, text: string, cb: map<string, Json>, env: Env, ran: bool)
    requires M.HoldsTask(db, id)
    ensures var r := RecordFailure(db, id, message, code, text, cb, env, ran);
      && r.reply.Finished? && r.reply.result["code"] == JInt(code)
      && M.Read(r.db, id).JObj?
      && var f := M.Read(r.db, id).fields;
      && "status" in f && f["status"] == JStr(FAILED) && "code" in f && f["code"] == JInt(code)
      && "error_message" in f && f["error_message"] == JStr(message)
  {
    FailureStored(db, id, message, code, text);
  }

  /** Recording a failure on a stored task succeeds and writes its status, code and error, and
      leaves the counter alone. */
  lemma FailureStored(db: M.Db, id: string, message: string, code: int, text: string)
    requires M.HoldsTask(db, id)
    ensures var up := M.UpdateTask(db, id, FailureUpdate(message, code, text));
      && up.reply.Ok? && M.Read(up.db, id).JObj?
      && RetryField(up.db, id) == RetryField(db, id)
      && var f := M.Read(up.db, id).fields;
      && "status" in f && f["status"] == JStr(FAILED) && "code" in f && f["code"] == JInt(code)
      && "error_message" in f && f["error_message"] == JStr(message)
  {
    var u := FailureUpdate(message, code, text);
    assert UpdatesFit(u);
    M.FittingUpdateKeepsTask(db, id, u);
    M.UpdateSetsKeys(db, id, u);
    UpdateKeepsRetry(db, id, u);
  }

  /** An exception records the task as failed with `ExceptionCode` of the record as then stored. */
  lemma ExceptionRecordsFailure(db: M.Db, id: string, message: string, cb: map<string, Json>, env: Env, ran: bool, current: Task)
    requires M.Saves(db) && M.GetTask(db, id) == Ok(Some(current))
    ensures var r := ExceptionRun(db, id, message, cb, env, ran);
      && r.reply.Finished? && r.reply.result["code"] == JInt(ExceptionCode(Some(current)))
      && M.Read(r.db, id).JObj?
      && var f := M.Read(r.db, id).fields;
      && "status" in f && f["status"] == JStr(FAILED)
      && "code" in f && f["code"] == JInt(ExceptionCode(Some(current)))
      && "error_message" in f && f["error_message"] == JStr(message)
  {
    var code := ExceptionCode(Some(current));
    FoundRetry(db, id, current);
    RecordFailureFacts(db, id, message, code, GetErrorMessage(code, Some(message)), cb, env, ran);
  }

  /** An exception after the record vanished: nothing is written (there is nothing to update) and
      the result carries processing failed. */
  lemma ExceptionAfterRemoval(db: M.Db, id: string, message: string, cb: map<string, Json>, env: Env, ran: bool)
    requires M.GetTask(db, id) == Ok(None)
    ensures var r := ExceptionRun(db, id, message, cb, env, ran);
      r.db == db && r.reply.Finished? && r.reply.result["code"] == JInt(ERROR_PROCESSING_FAILED)
  {
  }

  /** Every webhook among `events` carries `cb`. */
  predicate WebhooksTo(events: seq<Event>, cb: map<string, Json>) {
    forall k :: 0 <= k < |events| && events[k].Webhook? ==> events[k].extraParams == cb
  }

  lemma ExceptionWebhooks(db: M.Db, id: string, message: string, cb: map<string, Json>, env: Env, ran: bool)
    ensures WebhooksTo(ExceptionRun(db, id, message, cb, env, ran).events, cb)
  {
    match M.GetTask(db, id)
    case Raises =>
    case Ok(current) =>
      var code := ExceptionCode(current);
      RecordFailureWebhooks(db, id, message, code, GetErrorMessage(code, Some(message)), cb, env, ran);
  }

  lemma RecordFailureWebhooks(db: M.Db, id: string, message: string, code: int, text: string, cb: map<string, Json>, env: Env, ran: bool)
    ensures WebhooksTo(RecordFailure(db, id, message, code, text, cb, env, ran).events, cb)
  {
  }

  lemma EngineWebhooks(db: M.Db, id: string, t: Task, d: Delivery, env: Env)
    ensures WebhooksTo(EngineRun(db, id, t, d, env).events, Callback(t))
  {
    var db2 := EngineApply(db, id, d.engine.effect);
    if !d.lost {
      match Raising(d.engine.reply)
      case Some(m) =>
        ExceptionWebhooks(db2, id, m, Callback(t), env, true);
      case None =>
        ReturnedWebhooks(db2, id, t, d.engine.reply.result, env);
    }
  }

  lemma ReturnedWebhooks(db: M.Db, id: string, t: Task, r: map<string, Json>, env: Env)
    requires "status" in r
    ensures WebhooksTo(ReturnedRun(db, id, t, r, env).events, Callback(t))
  {
  }

  /** Once the prerequisites have found the task, every webhook the run sends carries the task's
      callback parameters (`task.extra_params or {}`) -- the exception path included. */
  lemma WebhooksCarryCallback(db: M.Db, files: map<string, seq<bv8>>, id: string, d: Delivery, env: Env, checked: bool, t: Task)
    requires PrerequisitesOf(db, files, id, env) == Found(t)
    ensures var r := TranscriptionRun(db, files, id, d, env, checked);
      forall k :: 0 <= k < |r.events| && r.events[k].Webhook? ==> r.events[k].extraParams == Callback(t)
  {
    assert TranscriptionRun(db, files, id, d, env, checked) == GuardedRun(db, id, t, d, env, checked);
    if t.retryCount < env.maxRetry {
      var inc := M.UpdateTask(db, id, IncrementUpdate(t));
      if !(inc.reply.Raises? || (checked && !M.Saves(db))) {
        var p := M.UpdateTask(inc.db, id, StartUpdate(env));
        if p.reply.Raises? {
          ExceptionWebhooks(p.db, id, env.invalidText, Callback(t), env, false);
        } else {
          EngineWebhooks(p.db, id, t, d, env);
        }
      }
    }
  }

  /** A worker lost inside the engine leaves the store as the engine left it and sends nothing;
      the message's redelivery is the next call. */
  lemma LostWorker(db: M.Db, id: string, t: Task, d: Delivery, env: Env)
    requires d.lost
    ensures var r := EngineRun(db, id, t, d, env);
      r.db == EngineApply(db, id, d.engine.effect) && r.reply == Lost && r.events == []
  {
  }

  // ---------------------------------------------------------------------------------------------
  // The worker

  /** What `check_task_prerequisites` hands back: the task, the failure result, or a raise. */
  datatype Check = Ready(task: Task) | Refused(result: map<string, Json>) | CheckRaised

  /** The prerequisite outcome a `Check` stands for, over the store `db` it left behind. */
  function AsPrereq(db: M.Db, c: Check): Prereq {
    match c
    case Ready(t) => Found(t)
    case Refused(r) => Rejected(db, r)
    case CheckRaised => Threw(db)
  }

  /** The worker process: every store access goes through the live transcription service. */
  class TranscriptionWorker {
    const service: Transcription.TranscriptionService

    constructor(service: Transcription.TranscriptionService)
      ensures this.service == service
    {
      this.service := service;
    }

    function State(): M.Db
      reads service.storage.redis
    {
      service.State()
    }

    /** `check_task_prerequisites`. */
    method CheckTaskPrerequisites(id: string, env: Env) returns (c: Check)
      requires service.Valid()
      modifies service.storage.redis
      ensures AsPrereq(State(), c) == PrerequisitesOf(old(State()), service.fs.files, id, env)
      ensures c.Ready? ==> State() == old(State())
      ensures c.Refused? ==> "code" in c.result && "error" in c.result
    {
      var g := service.GetTask(id);
      if g.Raises? {
        return CheckRaised;
      }
      if g.value.None? {
        return Refused(CreateTaskResult(FAILED, id, JStr(TaskMissingText), map["task_received" := JFloat(env.elapsed)],
                                        JInt(ERROR_TASK_NOT_FOUND), map[], env.timestamp));
      }
      var t := g.value.value;
      if !service.fs.Exists(t.filePath) {
        var msg := GetErrorMessage(ERROR_FILE_NOT_FOUND, None);
        var u := service.UpdateTask(id, FailureUpdate(msg, ERROR_FILE_NOT_FOUND, msg));
        if u.Raises? {
          return CheckRaised;
        }
        return Refused(CreateTaskResult(FAILED, id, JStr(msg),
                         map["task_received" := JFloat(env.elapsed), "file_check" := JFloat(env.elapsed)],
                         JInt(ERROR_FILE_NOT_FOUND), map[], env.timestamp));
      }
      return Ready(t);
    }

    /** The `except` branch: re-reads the task for its code, records the failure and reports it. */
    method RecordException(id: string, message: string, cb: map<string, Json>, env: Env, ghost ran: bool) returns (reply: Reply, events: seq<Event>)
      requires service.Valid()
      modifies service.storage.redis
      ensures Run(State(), reply, ran, events) == ExceptionRun(old(State()), id, message, cb, env, ran)
    {
      var g := service.GetTask(id);
      if g.Raises? {
        return Escaped, [];
      }
      var code := ExceptionCode(g.value);
      var u := service.UpdateTask(id, FailureUpdate(message, code, GetErrorMessage(code, Some(message))));
      if u.Raises? {
        return Escaped, [];
      }
      var res := CreateTaskResult(FAILED, id, JStr(message),
                   map["task_received" := JFloat(env.elapsed), "total_time" := JFloat(env.elapsed)],
                   JInt(code), map[], env.timestamp);
      return Finished(res), [Mqtt(JInt(code), JStr(message)), Webhook(cb, "", JInt(code))];
    }

    /** What `process_task_sync` writes to the record. */
    method ApplyEngine(id: string, effect: EngineEffect)
      requires service.Valid()
      modifies service.storage.redis
      ensures State() == EngineApply(old(State()), id, effect)
    {
      match effect
      case Untouched =>
      case Merged(f) =>
        var _ := service.UpdateTask(id, f);
      case Removed =>
        var _ := service.storage.Delete(id);
    }

    /** The engine call and the handling of its result. */
    method CallEngine(id: string, t: Task, d: Delivery, env: Env) returns (reply: Reply, events: seq<Event>)
      requires service.Valid()
      modifies service.storage.redis
      ensures Run(State(), reply, true, events) == EngineRun(old(State()), id, t, d, env)
    {
      ApplyEngine(id, d.engine.effect);
      if d.lost {
        return Lost, [];
      }
      match d.engine.reply
      case Raised(m) =>
        reply, events := RecordException(id, m, Callback(t), env, true);
      case Returned(r) =>
        if "status" !in r {
          reply, events := RecordException(id, MissingStatusText, Callback(t), env, true);
        } else if r["status"] == JStr(COMPLETED) {
          var duration := Get(r, "audio_duration", JInt(0));
          var url := env.downloadBase + "/" + id + ".json";
          var res := CreateTaskResult(COMPLETED, id, JNull, CompletedTimings(r, env), JInt(SUCCESS),
                       map["audio_duration" := duration, "result" := Get(r, "result", JObj(map[]))], env.timestamp);
          return Finished(res), [CompletionReported(t.clientId, duration), Webhook(Callback(t), url, JInt(SUCCESS)), Mqtt(JInt(SUCCESS), JNull)];
        } else {
          var msg := Get(r, "error", JStr(UnknownErrorText));
          var code := Get(r, "code", JInt(ERROR_PROCESSING_FAILED));
          var res := CreateTaskResult(FAILED, id, msg, map["total_time" := JFloat(env.elapsed)], code, map[], env.timestamp);
          return Finished(res), [Mqtt(code, msg), Webhook(Callback(t), "", code)];
        }
    }

    /** `process_transcription`: the prerequisites, the retry guard, the counter, the processing
        mark, the engine, and the result record with its notifications. */
    method ProcessTranscription(id: string, d: Delivery, env: Env) returns (reply: Reply, ran: bool, events: seq<Event>)
      requires service.Valid()
      modifies service.storage.redis
      ensures Run(State(), reply, ran, events) == TranscriptionRun(old(State()), service.fs.files, id, d, env, false)
    {
      var c := CheckTaskPrerequisites(id, env);
      match c
      case CheckRaised =>
        return Escaped, false, [];
      case Refused(res) =>
        return Finished(res), false, [Mqtt(res["code"], res["error"]), Webhook(map[], "", res["code"])];
      case Ready(t) =>
        if t.retryCount >= env.maxRetry {
          var msg := RetryLimitText(env.maxRetry);
          var u := service.UpdateTask(id, FailureUpdate(msg, ERROR_MAX_RETRY_EXCEEDED, GetErrorMessage(ERROR_MAX_RETRY_EXCEEDED, None)));
          if u.Raises? {
            return Escaped, false, [];
          }
          var res := CreateTaskResult(FAILED, id, JStr(msg),
                       map["task_received" := JFloat(env.elapsed), "total_time" := JFloat(env.elapsed)],
                       JInt(ERROR_MAX_RETRY_EXCEEDED), map[], env.timestamp);
          return Finished(res), false, [Mqtt(JInt(ERROR_MAX_RETRY_EXCEEDED), JStr(msg)), Webhook(Callback(t), "", JInt(ERROR_MAX_RETRY_EXCEEDED))];
        }
        var inc := service.UpdateTask(id, IncrementUpdate(t));
        if inc.Raises? {
          return Escaped, false, [];
        }
        var p := service.UpdateTask(id, StartUpdate(env));
        if p.Raises? {
          reply, events := RecordException(id, env.invalidText, Callback(t), env, false);
          return reply, false, events;
        }
        reply, events := CallEngine(id, t, d, env);
        ran := true;
    }

    /** The broker delivering the message again and again (a lost worker's message comes back):
        one sequential call per delivery, with the Redis server in the condition the delivery
        names. When every delivery's writes land, the counter stays within the cap and the engine
        runs at most as often as the stored counter allows. */
    method Redeliver(id: string, ds: seq<Delivery>, env: Env) returns (runs: nat)
      requires service.Valid()
      modifies service.storage.redis
      ensures History(State(), runs) == Deliveries(old(State()), service.fs.files, id, ds, env, false)
      ensures RetryAtMost(old(State()), id, env.maxRetry)
                && (forall k :: 0 <= k < |ds| ==> NoRetryWrite(ds[k].engine.effect) && WritesLand(ds[k]))
        ==> RetryAtMost(State(), id, env.maxRetry) && runs <= Potential(old(State()), id, env.maxRetry)
    {
      ghost var db0 := State();
      ghost var files := service.fs.files;
      runs := 0;
      var i := 0;
      assert ds[0..] == ds;
      while i < |ds|
        invariant 0 <= i <= |ds|
        invariant Deliveries(State(), files, id, ds[i..], env, false).db == Deliveries(db0, files, id, ds, env, false).db
        invariant runs + Deliveries(State(), files, id, ds[i..], env, false).engineRuns == Deliveries(db0, files, id, ds, env, false).engineRuns
      {
        assert ds[i..][1..] == ds[i + 1..];
        service.storage.redis.up, service.storage.redis.writable := ds[i].up, ds[i].writable;
        var _, ran, _ := ProcessTranscription(id, ds[i], env);
        if ran {
          runs := runs + 1;
        }
        i := i + 1;
      }
      if RetryAtMost(db0, id, env.maxRetry) && (forall k :: 0 <= k < |ds| ==> NoRetryWrite(ds[k].engine.effect) && WritesLand(ds[k])) {
        RetryBound(db0, files, id, ds, env, false);
      }
    }
  }
}
