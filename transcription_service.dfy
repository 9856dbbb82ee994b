/** `TranscriptionService`: the task store operations, each proved to do what the functions of
    `TranscriptionModel` say it does to the store. */
module Transcription {
  import opened Wrappers
  import opened Json
  import opened TaskSchema
  import Storage
  import Files
  import M = TranscriptionModel

  /** `for key, value in updates.items(): task_data[key] = value`: every key of `u` ends up with
      its value from `u`, every other key keeps its value, whatever order the keys come in. */
  method SetAll(d: map<string, Json>, u: map<string, Json>) returns (r: map<string, Json>)
    ensures r == d + u
  {
    r := d;
    var rest := u.Keys;
    ghost var done: set<string> := {};
    while rest != {}
      invariant rest <= u.Keys && done == u.Keys - rest
      invariant r == d + Restrict(u, done)
      decreases |rest|
    {
      var k :| k in rest;
      RestrictStep(d, u, done, k);
      r := r[k := u[k]];
      rest := rest - {k};
      done := done + {k};
    }
    assert Restrict(u, done) == u;
  }

  /** The entries of `u` whose keys the loop has already set. */
  ghost function Restrict(u: map<string, Json>, done: set<string>): map<string, Json> {
    map k | k in u && k in done :: u[k]
  }

  lemma RestrictStep(d: map<string, Json>, u: map<string, Json>, done: set<string>, k: string)
    requires k in u
    ensures (d + Restrict(u, done))[k := u[k]] == d + Restrict(u, done + {k})
  {
  }

  class TranscriptionService {
    const storage: Storage.RedisStorage
    const fs: Files.FileSystem
    const transcriptionDir: string

    /** The service over a Redis database and a file system; the store uses the
        `transcription:` prefix. */
    constructor(redis: Storage.Redis, fs: Files.FileSystem, transcriptionDir: string)
      ensures Valid() && storage.redis == redis && this.fs == fs && this.transcriptionDir == transcriptionDir
    {
      storage := new Storage.RedisStorage(M.Prefix, redis);
      this.fs := fs;
      this.transcriptionDir := transcriptionDir;
    }

    predicate Valid() {
      storage.prefix == M.Prefix
    }

    /** The database as the model sees it. */
    function State(): M.Db
      reads storage.redis
    {
      M.Db(storage.redis.data, storage.redis.up, storage.redis.writable)
    }

    /** `get_task`. */
    method GetTask(id: string) returns (r: Try<Option<Task>>)
      requires Valid()
      ensures r == M.GetTask(State(), id)
    {
      var v := storage.Get(id);
      if !Truthy(v) {
        return Ok(None);
      }
      var t := FromDict(v);
      if t.None? {
        return Raises;
      }
      return Ok(Some(t.value));
    }

    /** `update_task`: sets each updated key on the stored dict, saves it and validates it. */
    method UpdateTask(id: string, u: map<string, Json>) returns (r: Try<Option<Task>>)
      requires Valid()
      modifies storage.redis
      ensures M.Updated(State(), r) == M.UpdateTask(old(State()), id, u)
    {
      var v := storage.Get(id);
      if !Truthy(v) {
        return Ok(None);
      }
      if !v.JObj? {
        return Raises;
      }
      var data := SetAll(v.fields, u);
      var _ := storage.Save(id, JObj(data));
      var t := FromDict(JObj(data));
      if t.None? {
        return Raises;
      }
      return Ok(Some(t.value));
    }

    /** `_update_progress`. */
    method UpdateProgress(id: string, progress: int, message: string) returns (r: Try<Option<Task>>)
      requires Valid()
      modifies storage.redis
      ensures M.Updated(State(), r) == M.UpdateTask(old(State()), id, M.ProgressUpdate(progress, message))
    {
      r := UpdateTask(id, M.ProgressUpdate(progress, message));
    }

    /** The client's list, `[]` when it is missing or falsy. */
    method ClientList(clientId: string) returns (l: Json)
      requires Valid()
      ensures l == M.ClientList(State(), clientId)
    {
      l := storage.Get(M.ClientKey(clientId));
      if !Truthy(l) {
        l := JArr([]);
      }
    }

    /** `_add_to_client_tasks`. */
    method AddToClientTasks(clientId: string, id: string) returns (raised: bool)
      requires Valid()
      modifies storage.redis
      ensures M.Outcome(State(), raised) == M.AddToClientTasks(old(State()), clientId, id)
    {
      var l := ClientList(clientId);
      var has := M.ListHas(l, id);
      if has.None? {
        return true;
      }
      if has.value {
        return false;
      }
      if !l.JArr? {
        return true;
      }
      var _ := storage.Save(M.ClientKey(clientId), JArr(l.items + [JStr(id)]));
      return false;
    }

    /** `_remove_from_client_tasks`. */
    method RemoveFromClientTasks(clientId: string, id: string) returns (raised: bool)
      requires Valid()
      modifies storage.redis
      ensures M.Outcome(State(), raised) == M.RemoveFromClientTasks(old(State()), clientId, id)
    {
      var l := ClientList(clientId);
      var has := M.ListHas(l, id);
      if has.None? {
        return true;
      }
      if !has.value {
        return false;
      }
      if !l.JArr? {
        return true;
      }
      var _ := storage.Save(M.ClientKey(clientId), JArr(M.RemoveFirst(l.items, JStr(id))));
      return false;
    }

    /** `create_task`; `createdAt` is the clock reading it stamps on the record. */
    method CreateTask(id: string, filePath: string, resultPath: string, filename: string,
                      clientId: string, language: Option<string>, createdAt: string) returns (r: Try<Task>)
      requires Valid()
      modifies storage.redis
      ensures M.Created(State(), r) ==
        M.CreateTask(old(State()), id, filePath, resultPath, filename, clientId, language, createdAt)
    {
      var t := M.NewTask(id, filePath, resultPath, filename, clientId, language, createdAt);
      var _ := storage.Save(id, ToDict(t));
      var raised := AddToClientTasks(clientId, id);
      if raised {
        return Raises;
      }
      return Ok(t);
    }

    /** `delete_task`. */
    method DeleteTask(id: string) returns (r: Try<bool>)
      requires Valid()
      modifies storage.redis, fs
      ensures M.Deleted(State(), fs.files, r) ==
        M.DeleteTask(old(State()), old(fs.files), fs.locked, transcriptionDir, id)
    {
      var g := GetTask(id);
      if g.Raises? {
        return Raises;
      }
      if g.value.None? {
        return Ok(false);
      }
      var t := g.value.value;
      if t.filePath != "" {
        var _ := fs.RemoveIfExists(t.filePath);
      }
      var _ := fs.RemoveIfExists(M.ResultFile(transcriptionDir, id));
      var raised := RemoveFromClientTasks(t.clientId, id);
      if raised {
        return Raises;
      }
      var _ := storage.Delete(id);
      return Ok(true);
    }

    /** `get_client_tasks`: looks up each id of the page in order, then sorts latest first. */
    method GetClientTasks(clientId: string, limit: int, offset: int) returns (r: Try<seq<Task>>)
      requires Valid()
      ensures r == M.GetClientTasks(State(), clientId, limit, offset)
    {
      var l := ClientList(clientId);
      var page := M.Page(l, offset, limit);
      if page.Raises? {
        return Raises;
      }
      var found := LookupAll(page.value);
      if found.Raises? {
        return Raises;
      }
      return Ok(M.SortByCreatedDesc(found.value));
    }

    /** The loop of `get_client_tasks` over the page of ids: each record in order, missing ones
        skipped, a raise from any lookup escaping. */
    method LookupAll(ids: seq<Json>) returns (r: Try<seq<Task>>)
      requires Valid()
      ensures r == M.LookupAll(State(), ids)
    {
      var tasks: seq<Task> := [];
      var i := 0;
      assert ids[0..] == ids;
      M.PrependNothing(M.LookupAll(State(), ids));
      while i < |ids|
        invariant 0 <= i <= |ids|
        invariant M.Prepend(tasks, M.LookupAll(State(), ids[i..])) == M.LookupAll(State(), ids)
      {
        assert ids[i..][1..] == ids[i + 1..];
        M.LookupAllStep(State(), ids[i..]);
        var task: Try<Option<Task>> := Ok(None);
        var key := M.IdText(ids[i]);
        if key.Some? {
          task := GetTask(key.value);
        }
        if task.Raises? {
          return Raises;
        }
        var head := if task.value.Some? then [task.value.value] else [];
        M.PrependTwice(tasks, head, M.LookupAll(State(), ids[i + 1..]));
        tasks := tasks + head;
        i := i + 1;
      }
      assert ids[i..] == [] && tasks + [] == tasks;
      return Ok(tasks);
    }

    /** `reset_task`. */
    method ResetTask(id: string) returns (r: Try<Option<Task>>)
      requires Valid()
      modifies storage.redis
      ensures M.Updated(State(), r) == M.ResetTask(old(State()), id)
    {
      var g := GetTask(id);
      if g.Raises? {
        return Raises;
      }
      if g.value.None? {
        return Ok(None);
      }
      r := UpdateTask(id, M.ResetUpdates);
    }

    /** The `except` branch of `process_task`. */
    method Fail(id: string, message: string) returns (raised: bool)
      requires Valid()
      modifies storage.redis
      ensures M.Processed(State(), true, false, raised) == M.Fail(old(State()), id, true, message)
    {
      var u := UpdateTask(id, M.FailedUpdate(message));
      raised := u.Raises?;
    }

    /** `process_task`: `run` is what the audio processor reports and returns, `clock` the clock
        readings, `invalidText` the text of a validation error. */
    method ProcessTask(id: string, run: M.AudioRun, clock: M.Clock, invalidText: string)
      returns (ran: bool, notified: bool, raised: bool)
      requires Valid()
      modifies storage.redis
      ensures M.Processed(State(), ran, notified, raised) ==
        M.ProcessTask(old(State()), fs.files, id, run, clock, invalidText)
    {
      var g := GetTask(id);
      if g.Raises? {
        return false, false, true;
      }
      if g.value.None? {
        return false, false, false;
      }
      var t := g.value.value;
      if !fs.Exists(t.filePath) {
        var u := UpdateTask(id, M.FailedUpdate(M.MissingAudioMessage));
        return false, false, u.Raises?;
      }
      var started := UpdateTask(id, M.StartedUpdate(clock));
      if started.Raises? {
        var u := UpdateTask(id, M.FailedUpdate(invalidText));
        return false, false, u.Raises?;
      }
      ghost var db1 := State();
      var i := 0;
      while i < |run.progress|
        invariant 0 <= i <= |run.progress|
        invariant M.ApplyProgress(db1, id, run.progress) == M.ApplyProgress(State(), id, run.progress[i..])
      {
        assert run.progress[i..][1..] == run.progress[i + 1..];
        var p := UpdateProgress(id, run.progress[i].0, run.progress[i].1);
        if p.Raises? {
          raised := Fail(id, invalidText);
          return true, false, raised;
        }
        i := i + 1;
      }
      match run.outcome
      case Threw(m) =>
        raised := Fail(id, m);
        return true, false, raised;
      case Produced(res, dur) =>
        var done := UpdateTask(id, M.CompletedUpdate(clock, res, dur));
        if done.Raises? {
          raised := Fail(id, invalidText);
          return true, false, raised;
        }
        return true, true, false;
    }
  }
}
