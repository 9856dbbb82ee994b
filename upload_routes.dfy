/** The HTTP routes around a task: the server-id lookup, the upload handler's validation ladder
    and its side effects (save the audio, create the task, enqueue it), and the download rule. */
module UploadRoutes {
  import opened Wrappers
  import opened Json
  import opened TaskSchema
  import opened ErrorCodes
  import Decimal
  import Text
  import Files
  import M = TranscriptionModel
  import Transcription

  // ---------------------------------------------------------------- server id lookup

  /** The `{code, message, data}` body `get_server_id` answers with. */
  datatype ServerIdReply = ServerIdReply(code: int, message: string, data: Json)

  const Refusal := ServerIdReply(-1, "failed", JStr(""))

  /** `extra_params.get(k, "")` under `if extra_params:`: a missing or empty dict reads as `""`. */
  function ExtraGet(extra: Option<map<string, Json>>, k: string): Json {
    if extra.Some? && extra.value != map[] then Get(extra.value, k, JStr("")) else JStr("")
  }

  /** The stored extra parameters carry exactly the requested, non-empty content id. */
  predicate ContentMatches(t: Task, contentId: string) {
    contentId != "" && t.extraParams.Some? && "content_id" in t.extraParams.value
    && t.extraParams.value["content_id"] == JStr(contentId)
  }

  /** The answer for a stored task: code 0 with the stored server id (or `""`) exactly when the
      content ids match, the refusal otherwise. */
  function ServerIdOf(t: Task, contentId: string): (r: ServerIdReply)
    ensures r.code == 0 <==> ContentMatches(t, contentId)
    ensures r.code != 0 ==> r == Refusal
    ensures r.code == 0 ==> r.message == "ok" && r.data == ExtraGet(t.extraParams, "server_id")
  {
    var stored := ExtraGet(t.extraParams, "content_id");
    if !Truthy(stored) || stored != JStr(contentId) then Refusal
    else ServerIdReply(0, "ok", ExtraGet(t.extraParams, "server_id"))
  }

  /** `get_server_id`: the refusal for a missing task; a record that does not validate raises. */
  function GetServerId(db: M.Db, taskId: string, contentId: string): (r: Try<ServerIdReply>)
    ensures M.GetTask(db, taskId) == Ok(None) ==> r == Ok(Refusal)
    ensures r.Raises? <==> M.GetTask(db, taskId).Raises?
    ensures r.Ok? && r.value.code == 0 ==>
      M.GetTask(db, taskId).Ok? && M.GetTask(db, taskId).value.Some?
      && ContentMatches(M.GetTask(db, taskId).value.value, contentId)
  {
    var found :- M.GetTask(db, taskId);
    match found
    case None => Ok(Refusal)
    case Some(t) => Ok(ServerIdOf(t, contentId))
  }

  /** An empty content id is always refused, whatever is stored. */
  lemma EmptyContentIdRefused(db: M.Db, taskId: string)
    ensures GetServerId(db, taskId, "").Ok? ==> GetServerId(db, taskId, "") == Ok(Refusal)
  {
  }

  /** A task without extra parameters never matches a content id. */
  lemma NoExtraParamsRefused(t: Task, contentId: string)
    requires t.extraParams.None? || t.extraParams == Some(map[])
    ensures ServerIdOf(t, contentId) == Refusal
  {
  }

  // ---------------------------------------------------------------- upload validation ladder

  /** What the handler reads from the settings and the code table. `tooSmallCode` and
      `tooSmallText` stand for `ERROR_FILE_TOO_SMALL` and its message. */
  datatype UploadConfig = UploadConfig(
    archList: seq<string>,
    defaultArch: string,
    minBytes: int,
    maxMb: int,
    uploadDir: string,
    transcriptionDir: string,
    tooSmallCode: int,
    tooSmallText: string)

  /** What `json.loads` made of the `extra_params` form field. */
  datatype Decoded = Parsed(v: Json) | DecodeError(text: string)

  /** The parameters the handler takes out of the decoded dict. */
  datatype UploadParams = UploadParams(
    uId: Json, taskId: Json, language: Json, modeId: Json, aiMode: Json,
    speaker: Json, whisperArch: Json, contentId: Json, serverId: Json)

  /** Where the checks leave a request: an uncaught exception, an early error response with its
      HTTP status, result code and message, or admitted with its parameters. */
  datatype Screened =
    | Crashed
    | Rejected(status: int, code: int, message: string)
    | Admitted(p: UploadParams)

  const ParseFailedPrefix := "解析参数失败: "
  const MissingParamText := "缺少必要的参数"
  const BytesPerMb := 1024 * 1024

  /** `whisper_arch in ARCH_LIST`. */
  predicate InArchList(v: Json, archList: seq<string>) {
    v.JStr? && v.s in archList
  }

  /** `all([u_id, task_id, mode_id, ai_mode])` on `params.get(...)`. */
  predicate RequiredPresent(d: map<string, Json>) {
    Truthy(Get(d, "u_id", JNull)) && Truthy(Get(d, "task_id", JNull))
    && Truthy(Get(d, "mode_id", JNull)) && Truthy(Get(d, "ai_mode", JNull))
  }

  /** The parameters decode to a dict that holds the four required values. */
  predicate ParamsOk(decoded: Decoded) {
    decoded.Parsed? && decoded.v.JObj? && RequiredPresent(decoded.v.fields)
  }

  /** The parameters with their defaults, the architecture replaced by the default when it is
      not a known one. */
  function ReadParams(d: map<string, Json>, cfg: UploadConfig): UploadParams {
    var arch := Get(d, "whisper_arch", JNull);
    UploadParams(
      Get(d, "u_id", JNull), Get(d, "task_id", JNull), Get(d, "language", JStr("auto")),
      Get(d, "mode_id", JNull), Get(d, "ai_mode", JNull), Get(d, "speaker", JBool(false)),
      if InArchList(arch, cfg.archList) then arch else JStr(cfg.defaultArch),
      Get(d, "content_id", JNull), Get(d, "server_id", JNull))
  }

  /** The `try` block: a decode error or a missing required value is a 400 with
      `ERROR_PROCESSING_FAILED`; JSON that is not an object makes `params.get` raise, which
      nothing catches. */
  function ParseParams(decoded: Decoded, cfg: UploadConfig): (r: Screened)
    ensures r.Crashed? <==> decoded.Parsed? && !decoded.v.JObj?
    ensures r.Admitted? <==> ParamsOk(decoded)
    ensures r.Rejected? ==> r.status == 400 && r.code == ERROR_PROCESSING_FAILED
    ensures decoded.DecodeError? ==> r == Rejected(400, ERROR_PROCESSING_FAILED, ParseFailedPrefix + decoded.text)
    ensures r.Admitted? ==>
      var d := decoded.v.fields;
      && r.p.taskId == d["task_id"] && r.p.uId == d["u_id"] && r.p.modeId == d["mode_id"] && r.p.aiMode == d["ai_mode"]
      && r.p.language == Get(d, "language", JStr("auto"))
      && (InArchList(r.p.whisperArch, cfg.archList) || r.p.whisperArch == JStr(cfg.defaultArch))
      && (InArchList(Get(d, "whisper_arch", JNull), cfg.archList) ==> r.p.whisperArch == d["whisper_arch"])
  {
    match decoded
    case DecodeError(e) => Rejected(400, ERROR_PROCESSING_FAILED, ParseFailedPrefix + e)
    case Parsed(v) =>
      if !v.JObj? then Crashed
      else
        var p := ReadParams(v.fields, cfg);
        if !(Truthy(p.uId) && Truthy(p.taskId) && Truthy(p.modeId) && Truthy(p.aiMode)) then
          Rejected(400, ERROR_PROCESSING_FAILED, ParseFailedPrefix + MissingParamText)
        else Admitted(p)
  }

  /** `file_size_bytes / (1024 * 1024) > MAX_UPLOAD_SIZE_MB`. */
  predicate TooLarge(size: nat, maxMb: int) {
    size as real / BytesPerMb as real > maxMb as real
  }

  /** The size limit in bytes: too large exactly when over `maxMb` whole mebibytes. */
  lemma TooLargeInBytes(size: nat, maxMb: int)
    ensures TooLarge(size, maxMb) <==> size > maxMb * BytesPerMb
  {
    var b := BytesPerMb as real;
    assert size as real / b * b == size as real;
    if size > maxMb * BytesPerMb {
      assert size as real > maxMb as real * b;
    } else {
      assert size as real <= maxMb as real * b;
    }
  }

  function TooSmallMessage(cfg: UploadConfig): string {
    cfg.tooSmallText + "。最小限制: " + Decimal.IntToStr(cfg.minBytes) + "字节"
  }

  function TooLargeMessage(cfg: UploadConfig): string {
    Messages[ERROR_FILE_TOO_LARGE] + "。最大允许: " + Decimal.IntToStr(cfg.maxMb) + "MB"
  }

  /** The whole ladder, in the handler's order: the parameters, the audio type, too small, too
      large. The first failing check answers; a request is admitted exactly when all pass. */
  function Screen(decoded: Decoded, filename: string, contentType: string, size: nat, cfg: UploadConfig): (r: Screened)
    ensures r.Admitted? <==>
      ParamsOk(decoded) && Files.ValidAudioFile(filename, contentType) && size >= cfg.minBytes && !TooLarge(size, cfg.maxMb)
    ensures !ParamsOk(decoded) ==> r == ParseParams(decoded, cfg)
    ensures ParamsOk(decoded) && !Files.ValidAudioFile(filename, contentType) ==>
      r == Rejected(400, ERROR_INVALID_FILE_FORMAT, Messages[ERROR_INVALID_FILE_FORMAT])
    ensures ParamsOk(decoded) && Files.ValidAudioFile(filename, contentType) && size < cfg.minBytes ==>
      r == Rejected(400, cfg.tooSmallCode, TooSmallMessage(cfg))
    ensures ParamsOk(decoded) && Files.ValidAudioFile(filename, contentType) && size >= cfg.minBytes && TooLarge(size, cfg.maxMb) ==>
      r == Rejected(413, ERROR_FILE_TOO_LARGE, TooLargeMessage(cfg))
    ensures r.Admitted? ==> r == ParseParams(decoded, cfg)
  {
    match ParseParams(decoded, cfg)
    case Admitted(p) =>
      if !Files.ValidAudioFile(filename, contentType) then
        Rejected(400, ERROR_INVALID_FILE_FORMAT, Messages[ERROR_INVALID_FILE_FORMAT])
      else if size < cfg.minBytes then Rejected(400, cfg.tooSmallCode, TooSmallMessage(cfg))
      else if TooLarge(size, cfg.maxMb) then Rejected(413, ERROR_FILE_TOO_LARGE, TooLargeMessage(cfg))
      else Admitted(p)
    case other => other
  }

  /** A missing required value is reported as such, whatever the file is like. */
  lemma MissingParamFirst(d: map<string, Json>, filename: string, contentType: string, size: nat, cfg: UploadConfig)
    requires !RequiredPresent(d)
    ensures Screen(Parsed(JObj(d)), filename, contentType, size, cfg)
      == Rejected(400, ERROR_PROCESSING_FAILED, ParseFailedPrefix + MissingParamText)
  {
  }

  // ---------------------------------------------------------------- side effects of an admitted upload

  /** Python's `str()` of a decoded JSON value; `repr` stands for the formatting of floats,
      lists and dicts. */
  function PyStr(v: Json, repr: Json -> string): string {
    match v
    case JNull => "None"
    case JBool(b) => if b then "True" else "False"
    case JInt(i) => Decimal.IntToStr(i)
    case JStr(s) => s
    case _ => repr(v)
    }

  /** The `language` handed to `create_task`: a string as it is, None as None, anything else as
      its text. */
  function LanguageArg(v: Json, repr: Json -> string): Option<string> {
    if v.JNull? then None else Some(PyStr(v, repr))
  }

  /** The raw `task_id` and `language` suit `TranscriptionTask`'s `str` and `Optional[str]`
      fields: pydantic 2 accepts no other JSON value there. */
  predicate TaskFieldsValid(p: UploadParams) {
    p.taskId.JStr? && (p.language.JStr? || p.language.JNull?)
  }

  /** A numeric `task_id` with a list `language` passes the required-value check, yet the
      task record refuses both fields, so such a request ends in a server error. */
  lemma NumericTaskIdRefused(cfg: UploadConfig)
    ensures var d := map["u_id" := JInt(7), "task_id" := JInt(123), "mode_id" := JInt(1),
                         "ai_mode" := JStr("x"), "language" := JArr([JStr("zh")])];
      && RequiredPresent(d)
      && var p := ReadParams(d, cfg);
      !p.taskId.JStr? && !p.language.JStr? && !p.language.JNull? && !TaskFieldsValid(p)
  {
    var d := map["u_id" := JInt(7), "task_id" := JInt(123), "mode_id" := JInt(1),
                 "ai_mode" := JStr("x"), "language" := JArr([JStr("zh")])];
    assert Get(d, "task_id", JNull) == JInt(123);
    assert Get(d, "language", JStr("auto")) == JArr([JStr("zh")]);
  }

  /** `os.path.join(TRANSCRIPTION_DIR, f"{task_id}.json")`: ends in the id and `.json`. */
  function ResultPath(dir: string, id: string): (p: string)
    ensures |p| >= |id| + 5 && p[|p| - |id| - 5..] == id + ".json"
  {
    Text.PathJoin(dir, id + ".json")
  }

  /** The handler's answer. */
  datatype UploadReply =
    | Refused(status: int, code: int, message: string)
    | ServerError
    | Accepted(task: Task)

  /** The route with the service it uses and the worker queue `process_transcription.delay`
      feeds. */
  class UploadRoute {
    const service: Transcription.TranscriptionService
    const cfg: UploadConfig
    const repr: Json -> string
    var queue: seq<string>

    constructor(service: Transcription.TranscriptionService, cfg: UploadConfig, repr: Json -> string)
      ensures this.service == service && this.cfg == cfg && this.repr == repr && queue == []
    {
      this.service := service;
      this.cfg := cfg;
      this.repr := repr;
      queue := [];
    }

    /** `create_transcription_task`. A request that fails a check gets its error response and
        changes nothing; an admitted one goes on as `Admit` says. */
    method CreateTranscriptionTask(decoded: Decoded, upload: Files.Upload, filename: string,
                                   contentType: string, createdAt: string)
      returns (reply: UploadReply)
      requires service.Valid()
      modifies this, upload, service.fs, service.storage.redis
      ensures var s := Screen(decoded, filename, contentType, |upload.content|, cfg);
        !s.Admitted? ==>
          && reply == (if s.Crashed? then ServerError else Refused(s.status, s.code, s.message))
          && queue == old(queue) && service.fs.files == old(service.fs.files)
          && service.State() == old(service.State()) && upload.position == old(upload.position)
      ensures var s := Screen(decoded, filename, contentType, |upload.content|, cfg);
        s.Admitted? && !TaskFieldsValid(s.p) ==>
          && reply == ServerError && queue == old(queue) && service.State() == old(service.State())
          && service.fs.files == old(service.fs.files)[Files.UploadPath(cfg.uploadDir, PyStr(s.p.taskId, repr), filename) := upload.content]
      ensures var s := Screen(decoded, filename, contentType, |upload.content|, cfg);
        s.Admitted? && TaskFieldsValid(s.p) ==>
          var id := s.p.taskId.s;
          var path := Files.UploadPath(cfg.uploadDir, id, filename);
          var c := M.CreateTask(old(service.State()), id, path, ResultPath(cfg.transcriptionDir, id), filename,
                                PyStr(s.p.uId, repr), LanguageArg(s.p.language, repr), createdAt);
          && service.fs.files == old(service.fs.files)[path := upload.content]
          && service.State() == c.db
          && (c.reply.Ok? ==> reply == Accepted(c.reply.value) && queue == old(queue) + [id])
          && (c.reply.Raises? ==> reply == ServerError && queue == old(queue))
    {
      var s := Screen(decoded, filename, contentType, |upload.content|, cfg);
      match s
      case Crashed =>
        return ServerError;
      case Rejected(st, code, message) =>
        return Refused(st, code, message);
      case Admitted(p) =>
        reply := Admit(p, upload, filename, createdAt);
    }

    /** The admitted path: the audio is saved under the task id's text. A task id or language
        the task record refuses then ends in a server error with the file saved and nothing
        else changed; otherwise the task is created and, when that succeeds, the id is
        enqueued and the reply is the new task. */
    method Admit(p: UploadParams, upload: Files.Upload, filename: string, createdAt: string)
      returns (reply: UploadReply)
      requires service.Valid()
      modifies this, upload, service.fs, service.storage.redis
      ensures !TaskFieldsValid(p) ==>
        && reply == ServerError && queue == old(queue) && service.State() == old(service.State())
        && service.fs.files == old(service.fs.files)[Files.UploadPath(cfg.uploadDir, PyStr(p.taskId, repr), filename) := upload.content]
      ensures TaskFieldsValid(p) ==>
        var id := p.taskId.s;
        var path := Files.UploadPath(cfg.uploadDir, id, filename);
        var c := M.CreateTask(old(service.State()), id, path, ResultPath(cfg.transcriptionDir, id), filename,
                              PyStr(p.uId, repr), LanguageArg(p.language, repr), createdAt);
        && service.fs.files == old(service.fs.files)[path := upload.content]
        && service.State() == c.db
        && (c.reply.Ok? ==> reply == Accepted(c.reply.value) && queue == old(queue) + [id])
        && (c.reply.Raises? ==> reply == ServerError && queue == old(queue))
    {
      ghost var before := service.State();
      var id := PyStr(p.taskId, repr);
      var clientId := PyStr(p.uId, repr);
      var path := upload.SaveTo(service.fs, cfg.uploadDir, id, filename);
      assert service.State() == before;
      ghost var saved := service.fs.files;
      if !TaskFieldsValid(p) {
        return ServerError;
      }
      assert id == p.taskId.s;
      var created := service.CreateTask(id, path, ResultPath(cfg.transcriptionDir, id), filename,
                                        clientId, LanguageArg(p.language, repr), createdAt);
      assert service.fs.files == saved;
      if created.Raises? {
        return ServerError;
      }
      queue := queue + [id];
      return Accepted(created.value);
    }
  }

  /** An admitted upload on a reachable store stores a pending task with retry count 0 under
      its id, and the reply is that task. */
  lemma AdmittedTaskIsPending(db: M.Db, id: string, path: string, resultPath: string, filename: string,
                              clientId: string, language: Option<string>, createdAt: string)
    requires M.Saves(db) && M.ClientKey(clientId) != id && M.ClientList(db, clientId).JArr?
    ensures var c := M.CreateTask(db, id, path, resultPath, filename, clientId, language, createdAt);
      && c.reply.Ok? && c.reply.value.status == PENDING && c.reply.value.retryCount == 0
      && c.reply.value.resultPath == Some(resultPath)
      && M.GetTask(c.db, id) == Ok(Some(c.reply.value))
  {
    M.CreateTaskStores(db, id, path, resultPath, filename, clientId, language, createdAt);
  }

  // ---------------------------------------------------------------- download

  /** The file name `download_result_file` serves: the id itself when it has a dot, else the
      id with `.json`. */
  function DownloadName(taskId: string): (n: string)
    ensures '.' in n
    ensures '.' in taskId ==> n == taskId
    ensures '.' !in taskId ==> n == taskId + ".json"
  {
    if '.' in taskId then taskId else taskId + ".json"
  }

  /** The download answer: a 404 body, or the file with its `Content-Disposition`. */
  datatype DownloadReply =
    | NotFound(status: int, body: map<string, Json>)
    | Attachment(content: seq<bv8>, disposition: string)

  /** `download_result_file`: 404 with `ERROR_RESULT_NOT_FOUND` exactly when the file is
      missing; otherwise its content as an attachment named after it. */
  function DownloadResultFile(files: map<string, seq<bv8>>, dir: string, taskId: string): (r: DownloadReply)
    ensures r.NotFound? <==> Text.PathJoin(dir, DownloadName(taskId)) !in files
    ensures r.NotFound? ==> r.status == 404 && r.body == map[
      "task_id" := JStr(taskId), "status" := JStr(FAILED), "code" := JInt(ERROR_RESULT_NOT_FOUND),
      "message" := JStr(Messages[ERROR_RESULT_NOT_FOUND])]
    ensures r.Attachment? ==>
      r.content == files[Text.PathJoin(dir, DownloadName(taskId))]
      && r.disposition == "attachment; filename=\"" + DownloadName(taskId) + "\""
  {
    var name := DownloadName(taskId);
    var path := Text.PathJoin(dir, name);
    if path !in files then
      NotFound(404, map["task_id" := JStr(taskId), "status" := JStr(FAILED),
                        "code" := JInt(ERROR_RESULT_NOT_FOUND), "message" := JStr(Messages[ERROR_RESULT_NOT_FOUND])])
    else Attachment(files[path], "attachment; filename=\"" + name + "\"")
  }

  /** The download finds what the upload named as the result: for an id without a dot, the
      served path is the task's `result_path`, so a written result is served as it is. */
  lemma DownloadServesResultPath(files: map<string, seq<bv8>>, dir: string, id: string)
    requires '.' !in id
    ensures Text.PathJoin(dir, DownloadName(id)) == ResultPath(dir, id)
    ensures ResultPath(dir, id) in files ==> DownloadResultFile(files, dir, id) == Attachment(
      files[ResultPath(dir, id)], "attachment; filename=\"" + id + ".json\"")
  {
    assert DownloadName(id) == id + ".json";
    assert "attachment; filename=\"" + DownloadName(id) + "\"" == "attachment; filename=\"" + id + ".json\"";
  }

  /** Asking for the served name again serves the same file. */
  lemma DownloadNameIdempotent(taskId: string)
    ensures DownloadName(DownloadName(taskId)) == DownloadName(taskId)
  {
  }
}
