/** The task record: the declared `TranscriptionTask` fields plus the fields the worker and the
    status endpoint also read and write (`result_path`, `code`, `message`, `retry_count`,
    `extra_params`). Building a record from a dict is `TranscriptionTask(**d)`. */
module TaskSchema {
  import opened Wrappers
  import opened Json

  const PENDING := "pending"
  const PROCESSING := "processing"
  const COMPLETED := "completed"
  const FAILED := "failed"

  datatype Task = Task(
    taskId: string,
    clientId: string,
    status: string,
    filename: string,
    filePath: string,
    language: Option<string>,
    createdAt: string,
    startedAt: Option<string>,
    completedAt: Option<string>,
    progress: Option<int>,
    progressMessage: Option<string>,
    errorMessage: Option<string>,
    result: Option<map<string, Json>>,
    audioDuration: Option<real>,
    processingTime: Option<real>,
    resultPath: Option<string>,
    code: int,
    message: Option<string>,
    retryCount: int,
    extraParams: Option<map<string, Json>>)

  /** A required `str` field. */
  function ReqStr(d: map<string, Json>, k: string): Option<string> {
    if k in d && d[k].JStr? then Some(d[k].s) else None
  }

  /** An `Optional[str]` field defaulting to None. */
  function OptStrField(d: map<string, Json>, k: string): Option<Option<string>> {
    if k !in d || d[k].JNull? then Some(None)
    else if d[k].JStr? then Some(Some(d[k].s))
    else None
  }

  /** An `Optional[int]` field with default `dflt` when the key is absent. */
  function OptIntField(d: map<string, Json>, k: string, dflt: Option<int>): Option<Option<int>> {
    if k !in d then Some(dflt)
    else if d[k].JNull? then Some(None)
    else if d[k].JInt? then Some(Some(d[k].i))
    else None
  }

  /** An `Optional[float]` field defaulting to None; an integer is accepted as a float. */
  function OptRealField(d: map<string, Json>, k: string): Option<Option<real>> {
    if k !in d || d[k].JNull? then Some(None)
    else if d[k].JFloat? then Some(Some(d[k].r))
    else if d[k].JInt? then Some(Some(d[k].i as real))
    else None
  }

  /** An `Optional[Dict[str, Any]]` field defaulting to None. */
  function OptDictField(d: map<string, Json>, k: string): Option<Option<map<string, Json>>> {
    if k !in d || d[k].JNull? then Some(None)
    else if d[k].JObj? then Some(Some(d[k].fields))
    else None
  }

  /** A non-optional `int` field defaulting to 0. */
  function IntField(d: map<string, Json>, k: string): Option<int> {
    if k !in d then Some(0)
    else if d[k].JInt? then Some(d[k].i)
    else None
  }

  /** `TranscriptionTask(**v)`: None where validation raises (a missing required field, a value
      of the wrong type, or an argument that is not a dict). Unknown keys are ignored. */
  function FromDict(v: Json): Option<Task> {
    if !v.JObj? then None
    else
      var d := v.fields;
      var taskId :- ReqStr(d, "task_id");
      var clientId :- ReqStr(d, "client_id");
      var status :- ReqStr(d, "status");
      var filename :- ReqStr(d, "filename");
      var filePath :- ReqStr(d, "file_path");
      var language :- OptStrField(d, "language");
      var createdAt :- ReqStr(d, "created_at");
      var startedAt :- OptStrField(d, "started_at");
      var completedAt :- OptStrField(d, "completed_at");
      var progress :- OptIntField(d, "progress", Some(0));
      var progressMessage :- OptStrField(d, "progress_message");
      var errorMessage :- OptStrField(d, "error_message");
      var result :- OptDictField(d, "result");
      var audioDuration :- OptRealField(d, "audio_duration");
      var processingTime :- OptRealField(d, "processing_time");
      var resultPath :- OptStrField(d, "result_path");
      var code :- IntField(d, "code");
      var message :- OptStrField(d, "message");
      var retryCount :- IntField(d, "retry_count");
      var extraParams :- OptDictField(d, "extra_params");
      Some(Task(taskId, clientId, status, filename, filePath, language, createdAt, startedAt,
                completedAt, progress, progressMessage, errorMessage, result, audioDuration,
                processingTime, resultPath, code, message, retryCount, extraParams))
  }

  function OptIntJson(x: Option<int>): Json {
    match x
    case Some(i) => JInt(i)
    case None => JNull
  }

  function OptRealJson(x: Option<real>): Json {
    match x
    case Some(r) => JFloat(r)
    case None => JNull
  }

  function OptDictJson(x: Option<map<string, Json>>): Json {
    match x
    case Some(m) => JObj(m)
    case None => JNull
  }

  /** `task.dict()`: every field under its Python name. */
  function ToDict(t: Task): Json {
    JObj(map[
      "task_id" := JStr(t.taskId),
      "client_id" := JStr(t.clientId),
      "status" := JStr(t.status),
      "filename" := JStr(t.filename),
      "file_path" := JStr(t.filePath),
      "language" := OptStr(t.language),
      "created_at" := JStr(t.createdAt),
      "started_at" := OptStr(t.startedAt),
      "completed_at" := OptStr(t.completedAt),
      "progress" := OptIntJson(t.progress),
      "progress_message" := OptStr(t.progressMessage),
      "error_message" := OptStr(t.errorMessage),
      "result" := OptDictJson(t.result),
      "audio_duration" := OptRealJson(t.audioDuration),
      "processing_time" := OptRealJson(t.processingTime),
      "result_path" := OptStr(t.resultPath),
      "code" := JInt(t.code),
      "message" := OptStr(t.message),
      "retry_count" := JInt(t.retryCount),
      "extra_params" := OptDictJson(t.extraParams)
    ])
  }

  lemma IdentityFieldsRoundTrip(t: Task)
    ensures ReqStr(ToDict(t).fields, "task_id") == Some(t.taskId)
    ensures ReqStr(ToDict(t).fields, "client_id") == Some(t.clientId)
    ensures ReqStr(ToDict(t).fields, "status") == Some(t.status)
  {
  }

  lemma FileFieldsRoundTrip(t: Task)
    ensures ReqStr(ToDict(t).fields, "filename") == Some(t.filename)
    ensures ReqStr(ToDict(t).fields, "file_path") == Some(t.filePath)
  {
  }

  lemma TimeFieldsRoundTrip(t: Task)
    ensures OptStrField(ToDict(t).fields, "language") == Some(t.language)
    ensures ReqStr(ToDict(t).fields, "created_at") == Some(t.createdAt)
    ensures OptStrField(ToDict(t).fields, "started_at") == Some(t.startedAt)
  {
  }

  lemma StageFieldsRoundTrip(t: Task)
    ensures OptStrField(ToDict(t).fields, "completed_at") == Some(t.completedAt)
    ensures OptIntField(ToDict(t).fields, "progress", Some(0)) == Some(t.progress)
  {
  }

  lemma ProgressFieldsRoundTrip(t: Task)
    ensures OptStrField(ToDict(t).fields, "progress_message") == Some(t.progressMessage)
    ensures OptStrField(ToDict(t).fields, "error_message") == Some(t.errorMessage)
    ensures OptDictField(ToDict(t).fields, "result") == Some(t.result)
    ensures OptRealField(ToDict(t).fields, "audio_duration") == Some(t.audioDuration)
    ensures OptRealField(ToDict(t).fields, "processing_time") == Some(t.processingTime)
  {
  }

  lemma WorkerFieldsRoundTrip(t: Task)
    ensures OptStrField(ToDict(t).fields, "result_path") == Some(t.resultPath)
    ensures IntField(ToDict(t).fields, "code") == Some(t.code)
    ensures OptStrField(ToDict(t).fields, "message") == Some(t.message)
    ensures IntField(ToDict(t).fields, "retry_count") == Some(t.retryCount)
    ensures OptDictField(ToDict(t).fields, "extra_params") == Some(t.extraParams)
  {
  }

  /** Validating what `task.dict()` produced gives back the same record. */
  lemma FromToDict(t: Task)
    ensures FromDict(ToDict(t)) == Some(t)
  {
    IdentityFieldsRoundTrip(t);
    FileFieldsRoundTrip(t);
    TimeFieldsRoundTrip(t);
    StageFieldsRoundTrip(t);
    ProgressFieldsRoundTrip(t);
    WorkerFieldsRoundTrip(t);
  }

  const RequiredStrKeys: set<string> := {"task_id", "client_id", "status", "filename", "file_path", "created_at"}
  const OptStrKeys: set<string> :=
    {"language", "started_at", "completed_at", "progress_message", "error_message", "result_path", "message"}
  const OptRealKeys: set<string> := {"audio_duration", "processing_time"}
  const OptDictKeys: set<string> := {"result", "extra_params"}
  const IntKeys: set<string> := {"code", "retry_count"}

  /** A value the record's field `k` accepts; keys outside the record accept anything. */
  predicate Fits(k: string, v: Json) {
    if k in RequiredStrKeys then v.JStr?
    else if k in OptStrKeys then v.JNull? || v.JStr?
    else if k == "progress" then v.JNull? || v.JInt?
    else if k in OptRealKeys then v.JNull? || v.JFloat? || v.JInt?
    else if k in OptDictKeys then v.JNull? || v.JObj?
    else if k in IntKeys then v.JInt?
    else true
  }

  /** Every key of `u` carries a value its field accepts. */
  predicate UpdatesFit(u: map<string, Json>) {
    forall k :: k in u ==> Fits(k, u[k])
  }

  lemma ReqStrMerge(d: map<string, Json>, u: map<string, Json>, k: string)
    requires ReqStr(d, k).Some? && UpdatesFit(u) && k in RequiredStrKeys
    ensures ReqStr(d + u, k).Some?
  {
    if k in u { assert Fits(k, u[k]); }
  }

  lemma OptStrMerge(d: map<string, Json>, u: map<string, Json>, k: string)
    requires OptStrField(d, k).Some? && UpdatesFit(u) && k in OptStrKeys && k !in RequiredStrKeys
    ensures OptStrField(d + u, k).Some?
  {
    if k in u { assert Fits(k, u[k]); }
  }

  lemma ProgressMerge(d: map<string, Json>, u: map<string, Json>)
    requires OptIntField(d, "progress", Some(0)).Some? && UpdatesFit(u)
    ensures OptIntField(d + u, "progress", Some(0)).Some?
  {
    if "progress" in u { assert Fits("progress", u["progress"]); }
  }

  lemma OptRealMerge(d: map<string, Json>, u: map<string, Json>, k: string)
    requires OptRealField(d, k).Some? && UpdatesFit(u) && k in OptRealKeys
    requires k !in RequiredStrKeys && k !in OptStrKeys && k != "progress"
    ensures OptRealField(d + u, k).Some?
  {
    if k in u { assert Fits(k, u[k]); }
  }

  lemma OptDictMerge(d: map<string, Json>, u: map<string, Json>, k: string)
    requires OptDictField(d, k).Some? && UpdatesFit(u) && k in OptDictKeys
    requires k !in RequiredStrKeys && k !in OptStrKeys && k != "progress" && k !in OptRealKeys
    ensures OptDictField(d + u, k).Some?
  {
    if k in u { assert Fits(k, u[k]); }
  }

  lemma IntMerge(d: map<string, Json>, u: map<string, Json>, k: string)
    requires IntField(d, k).Some? && UpdatesFit(u) && k in IntKeys
    requires k !in RequiredStrKeys && k !in OptStrKeys && k != "progress" && k !in OptRealKeys
    requires k !in OptDictKeys
    ensures IntField(d + u, k).Some?
  {
    if k in u { assert Fits(k, u[k]); }
  }

  /** Every field of `t` is what its reader finds in `d`. */
  predicate Reads(d: map<string, Json>, t: Task) {
    && ReqStr(d, "task_id") == Some(t.taskId) && ReqStr(d, "client_id") == Some(t.clientId)
    && ReqStr(d, "status") == Some(t.status) && ReqStr(d, "filename") == Some(t.filename)
    && ReqStr(d, "file_path") == Some(t.filePath) && OptStrField(d, "language") == Some(t.language)
    && ReqStr(d, "created_at") == Some(t.createdAt) && OptStrField(d, "started_at") == Some(t.startedAt)
    && OptStrField(d, "completed_at") == Some(t.completedAt)
    && OptIntField(d, "progress", Some(0)) == Some(t.progress)
    && OptStrField(d, "progress_message") == Some(t.progressMessage)
    && OptStrField(d, "error_message") == Some(t.errorMessage)
    && OptDictField(d, "result") == Some(t.result)
    && OptRealField(d, "audio_duration") == Some(t.audioDuration)
    && OptRealField(d, "processing_time") == Some(t.processingTime)
    && OptStrField(d, "result_path") == Some(t.resultPath) && IntField(d, "code") == Some(t.code)
    && OptStrField(d, "message") == Some(t.message) && IntField(d, "retry_count") == Some(t.retryCount)
    && OptDictField(d, "extra_params") == Some(t.extraParams)
  }

  /** Validation yields `t` exactly when every field of `t` reads from the dict. */
  lemma ReadsIff(d: map<string, Json>, t: Task)
    ensures FromDict(JObj(d)) == Some(t) <==> Reads(d, t)
  {
  }

  /** Every field of the record reads successfully from `d`. */
  predicate AllFieldsRead(d: map<string, Json>) {
    && ReqStr(d, "task_id").Some? && ReqStr(d, "client_id").Some? && ReqStr(d, "status").Some?
    && ReqStr(d, "filename").Some? && ReqStr(d, "file_path").Some? && ReqStr(d, "created_at").Some?
    && OptStrField(d, "language").Some? && OptStrField(d, "started_at").Some?
    && OptStrField(d, "completed_at").Some? && OptStrField(d, "progress_message").Some?
    && OptStrField(d, "error_message").Some? && OptStrField(d, "result_path").Some?
    && OptStrField(d, "message").Some? && OptIntField(d, "progress", Some(0)).Some?
    && OptRealField(d, "audio_duration").Some? && OptRealField(d, "processing_time").Some?
    && OptDictField(d, "result").Some? && OptDictField(d, "extra_params").Some?
    && IntField(d, "code").Some? && IntField(d, "retry_count").Some?
  }

  /** Validation succeeds exactly when every field reads. */
  lemma FromDictIff(d: map<string, Json>)
    ensures FromDict(JObj(d)).Some? <==> AllFieldsRead(d)
  {
  }

  /** `update_task` on a valid record with values of the right types yields a valid record,
      so its `TranscriptionTask(**task_data)` does not raise. */
  lemma MergeKeepsValid(d: map<string, Json>, u: map<string, Json>)
    requires FromDict(JObj(d)).Some? && UpdatesFit(u)
    ensures FromDict(JObj(d + u)).Some?
  {
    FromDictIff(d);
    MergeKeepsStrReads(d, u);
    MergeKeepsOtherReads(d, u);
    MergeKeepsIntReads(d, u);
    FromDictIff(d + u);
  }

  lemma MergeKeepsStrReads(d: map<string, Json>, u: map<string, Json>)
    requires AllFieldsRead(d) && UpdatesFit(u)
    ensures ReqStr(d + u, "task_id").Some? && ReqStr(d + u, "client_id").Some?
    ensures ReqStr(d + u, "status").Some? && ReqStr(d + u, "filename").Some?
    ensures ReqStr(d + u, "file_path").Some? && ReqStr(d + u, "created_at").Some?
    ensures OptStrField(d + u, "language").Some? && OptStrField(d + u, "started_at").Some?
    ensures OptStrField(d + u, "completed_at").Some? && OptStrField(d + u, "progress_message").Some?
    ensures OptStrField(d + u, "error_message").Some? && OptStrField(d + u, "result_path").Some?
    ensures OptStrField(d + u, "message").Some?
  {
    ReqStrMerge(d, u, "task_id");
    ReqStrMerge(d, u, "client_id");
    ReqStrMerge(d, u, "status");
    ReqStrMerge(d, u, "filename");
    ReqStrMerge(d, u, "file_path");
    ReqStrMerge(d, u, "created_at");
    OptStrMerge(d, u, "language");
    OptStrMerge(d, u, "started_at");
    OptStrMerge(d, u, "completed_at");
    OptStrMerge(d, u, "progress_message");
    OptStrMerge(d, u, "error_message");
    OptStrMerge(d, u, "result_path");
    OptStrMerge(d, u, "message");
  }

  lemma MergeKeepsOtherReads(d: map<string, Json>, u: map<string, Json>)
    requires AllFieldsRead(d) && UpdatesFit(u)
    ensures OptIntField(d + u, "progress", Some(0)).Some?
    ensures OptRealField(d + u, "audio_duration").Some? && OptRealField(d + u, "processing_time").Some?
    ensures OptDictField(d + u, "result").Some? && OptDictField(d + u, "extra_params").Some?
  {
    ProgressMerge(d, u);
    OptRealMerge(d, u, "audio_duration");
    OptRealMerge(d, u, "processing_time");
    OptDictMerge(d, u, "result");
    OptDictMerge(d, u, "extra_params");
  }

  lemma MergeKeepsIntReads(d: map<string, Json>, u: map<string, Json>)
    requires IntField(d, "code").Some? && IntField(d, "retry_count").Some? && UpdatesFit(u)
    ensures IntField(d + u, "code").Some? && IntField(d + u, "retry_count").Some?
  {
    IntMerge(d, u, "code");
    IntMerge(d, u, "retry_count");
  }
}
