/** `TaskStatusService.get_task_status`: the polling response for a task id, read from the same
    `transcription:` store the lifecycle service writes. */
module TaskStatus {
  import opened Wrappers
  import opened Json
  import opened TaskSchema
  import M = TranscriptionModel

  /** The configured URLs: `UPLOAD_URL`, and `BASE_URL` followed by `DOWNLOAD_URL_PREFIX`. */
  datatype Config = Config(uploadUrl: string, downloadBase: string)

  /** The endpoint's answer: a response body, or the HTTP error it raises. */
  datatype StatusReply = Body(response: map<string, Json>) | HttpError(status: int, detail: string)

  const NotUploadedCode := -4
  const PendingCode := 1
  const ProcessingCode := 2

  const NotUploadedText := "此任务还未上传"
  const CompletedText := "任务完成"
  const PendingText := "正在上传，待开始转写"
  const ProcessingText := "上传完成，正在转写"
  const UploadFailedText := "上传文件失败"
  const TranscribeFailedText := "转写失败，请重新转写"
  const SummaryFailedText := "总结生成失败"
  const FailedText := "处理失败"
  const QueryFailedPrefix := "查询失败: "

  /** The download URL of one of the task's results. */
  function ResultUrl(cfg: Config, id: string, suffix: string): string {
    cfg.downloadBase + "/" + id + suffix
  }

  /** The `data` block of a completed task: the transcript and the summary, each with its URL. */
  function CompletedData(cfg: Config, id: string): Json {
    JObj(map[
      "trans" := JObj(map["task_id" := JStr(id), "results" := JStr(ResultUrl(cfg, id, ".json"))]),
      "summary" := JObj(map["task_id" := JStr(id), "results" := JStr(ResultUrl(cfg, id, "-summary.md"))])])
  }

  /** The message of a failed task: fixed texts for the codes -1, -2 and -3, otherwise the stored
      message when it is non-empty, otherwise the generic text. */
  function FailedMessage(t: Task): (m: string)
    ensures t.code == -1 ==> m == UploadFailedText
    ensures t.code == -2 ==> m == TranscribeFailedText
    ensures t.code == -3 ==> m == SummaryFailedText
    ensures t.code !in {-1, -2, -3} && t.message.Some? && t.message.value != "" ==> m == t.message.value
    ensures t.code !in {-1, -2, -3} && (t.message.None? || t.message.value == "") ==> m == FailedText
  {
    if t.code == -1 then UploadFailedText
    else if t.code == -2 then TranscribeFailedText
    else if t.code == -3 then SummaryFailedText
    else if t.message.Some? && t.message.value != "" then t.message.value
    else FailedText
  }

  /** The response for a stored task: the code and the id, then what its status adds. */
  function StatusResponse(id: string, t: Task, cfg: Config): (r: map<string, Json>)
    ensures "task_id" in r && r["task_id"] == JStr(id)
    ensures "code" in r
    ensures t.status == PENDING ==>
      r["code"] == JInt(PendingCode) && r.Keys == {"code", "task_id", "msg"} && r["msg"] == JStr(PendingText)
    ensures t.status == PROCESSING ==>
      && r["code"] == JInt(ProcessingCode) && r.Keys == {"code", "task_id", "msg", "progress"}
      && r["msg"] == JStr(ProcessingText) && r["progress"] == OptIntJson(t.progress)
    ensures t.status !in {PENDING, PROCESSING} ==> r["code"] == JInt(t.code)
    ensures t.status == COMPLETED ==>
      r.Keys == {"code", "task_id", "msg", "data"} && r["msg"] == JStr(CompletedText) && r["data"] == CompletedData(cfg, id)
    ensures t.status == FAILED ==> r.Keys == {"code", "task_id", "msg"} && r["msg"] == JStr(FailedMessage(t))
    ensures t.status !in {PENDING, PROCESSING, COMPLETED, FAILED} ==> r.Keys == {"code", "task_id"}
  {
    var base := map["code" := JInt(t.code), "task_id" := JStr(id)];
    if t.status == COMPLETED then base + map["msg" := JStr(CompletedText), "data" := CompletedData(cfg, id)]
    else if t.status == PENDING then base + map["code" := JInt(PendingCode), "msg" := JStr(PendingText)]
    else if t.status == PROCESSING then
      base + map["code" := JInt(ProcessingCode), "msg" := JStr(ProcessingText), "progress" := OptIntJson(t.progress)]
    else if t.status == FAILED then base + map["msg" := JStr(FailedMessage(t))]
    else base
  }

  /** `get_task_status`: a falsy record (absent, or the store unreachable) is "not uploaded yet";
      a record that does not validate becomes HTTP 500 with the exception's text `errorText`. */
  function GetTaskStatus(db: M.Db, id: string, cfg: Config, errorText: string): (r: StatusReply)
    ensures M.GetTask(db, id) == Ok(None) ==> r.Body? && r.response == map["code" := JInt(NotUploadedCode), "msg" := JStr(NotUploadedText), "upload_url" := JStr(cfg.uploadUrl)]
    ensures M.GetTask(db, id).Raises? <==> r.HttpError?
    ensures r.HttpError? ==> r.status == 500 && r.detail == QueryFailedPrefix + errorText
    ensures M.GetTask(db, id).Ok? && M.GetTask(db, id).value.Some? ==>
      r == Body(StatusResponse(id, M.GetTask(db, id).value.value, cfg))
    ensures r.Body? && "upload_url" in r.response ==> M.GetTask(db, id) == Ok(None)
  {
    match M.GetTask(db, id)
    case Raises => HttpError(500, QueryFailedPrefix + errorText)
    case Ok(None) => Body(map["code" := JInt(NotUploadedCode), "msg" := JStr(NotUploadedText), "upload_url" := JStr(cfg.uploadUrl)])
    case Ok(Some(t)) =>
      Body(StatusResponse(id, t, cfg))
  }

  /** The `results` URL of the entry `name` of a completed response, when it is there. */
  function ResultsOf(data: Json, name: string): Option<string> {
    if data.JObj? && name in data.fields && data.fields[name].JObj? && "results" in data.fields[name].fields
       && data.fields[name].fields["results"].JStr?
    then Some(data.fields[name].fields["results"].s)
    else None
  }

  /** A completed task's response carries its transcript and summary, each tagged with the task
      id, under download URLs that start with the configured base and end in `/{id}.json` and
      `/{id}-summary.md`. */
  lemma CompletedUrls(cfg: Config, id: string, t: Task)
    requires t.status == COMPLETED
    ensures var d := StatusResponse(id, t, cfg)["data"];
      && d.JObj? && d.fields.Keys == {"trans", "summary"}
      && d.fields["trans"].JObj? && d.fields["trans"].fields["task_id"] == JStr(id)
      && d.fields["summary"].JObj? && d.fields["summary"].fields["task_id"] == JStr(id)
      && ResultsOf(d, "trans").Some? && ResultsOf(d, "summary").Some?
    ensures var u := ResultsOf(StatusResponse(id, t, cfg)["data"], "trans").value;
      && |u| >= |cfg.downloadBase| + |id| + 6 && u[..|cfg.downloadBase|] == cfg.downloadBase
      && u[|u| - |id| - 6..] == "/" + id + ".json"
    ensures var u := ResultsOf(StatusResponse(id, t, cfg)["data"], "summary").value;
      && |u| >= |cfg.downloadBase| + |id| + 12 && u[..|cfg.downloadBase|] == cfg.downloadBase
      && u[|u| - |id| - 12..] == "/" + id + "-summary.md"
  {
    var d := StatusResponse(id, t, cfg)["data"];
    assert d == CompletedData(cfg, id);
    var u := ResultUrl(cfg, id, ".json");
    assert ResultsOf(d, "trans") == Some(u);
    assert u == cfg.downloadBase + ("/" + id + ".json");
    var w := ResultUrl(cfg, id, "-summary.md");
    assert ResultsOf(d, "summary") == Some(w);
    assert w == cfg.downloadBase + ("/" + id + "-summary.md");
  }

  /** A task just created is reported as pending (code 1) once it is stored. */
  lemma CreatedIsPending(db: M.Db, id: string, filePath: string, resultPath: string, filename: string,
                         clientId: string, language: Option<string>, createdAt: string, cfg: Config, e: string)
    requires M.Saves(db) && M.ClientKey(clientId) != id && M.ClientList(db, clientId).JArr?
    ensures var c := M.CreateTask(db, id, filePath, resultPath, filename, clientId, language, createdAt);
      GetTaskStatus(c.db, id, cfg, e) == Body(map["code" := JInt(PendingCode), "task_id" := JStr(id), "msg" := JStr(PendingText)])
  {
    M.CreateTaskStores(db, id, filePath, resultPath, filename, clientId, language, createdAt);
  }

  /** A reset task is reported as pending again. */
  lemma ResetIsPending(db: M.Db, id: string, t: Task, cfg: Config, e: string)
    requires M.Saves(db) && M.GetTask(db, id) == Ok(Some(t))
    ensures GetTaskStatus(M.ResetTask(db, id).db, id, cfg, e) == Body(map["code" := JInt(PendingCode), "task_id" := JStr(id), "msg" := JStr(PendingText)])
  {
    M.ResetTaskResult(db, id, t);
    var v := M.Read(db, id);
    var w := JObj(v.fields + M.ResetUpdates);
    assert "status" in w.fields;
    assert FromDict(w) == Some(M.ResetOf(t));
    assert M.GetTask(M.ResetTask(db, id).db, id) == Ok(Some(M.ResetOf(t)));
  }
}
