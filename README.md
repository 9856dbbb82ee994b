# Transcription task lifecycle — a Dafny model

This project models the core of a speech-to-text service. Clients upload audio through an HTTP
route. The route validates the parameters and the file, saves the upload, creates a task record
and enqueues it. A Celery worker (`process_transcription`) then runs the task. It checks that the
task and its input file exist, guards on the retry counter, marks the task `processing`, runs the
transcription engine and maps the outcome to a result record and an error code. A polling
endpoint turns the stored record into a status response.

Task records live in Redis in two forms:

- `RedisStorage` keeps JSON values under the prefix `transcription:`.
- The `RedisService` helpers keep `task:` hashes and per-user counters.

Around this core sit validators, parsers and formatters: the error-code table, the WhisperX
wrapper's progress and text join, the cloud-statistics sender, upload-file checks, content ids,
ECM audio parsing, time formatting, download URLs, the timestamp migration script and user quotas.

## How it is modelled

- **Redis.** Each backend is a class whose fields hold a map and an `up` flag. The flag stands
  for "the server answers"; when it is false, every call takes the error path the source has.
  - `Storage.Redis` holds `map<string, Json>` and a second flag, `writable`. While the server
    answers but is not writable (a read-only replica), `get` succeeds and `save` / `delete`
    return False and write nothing. `TranscriptionModel.Db` carries both flags, and
    `TranscriptionModel.Saves` says whether a write lands.
  - `RedisService.Server` holds strings and hashes.
- **Python exceptions.** They are `Try<T>` (`Ok` or `Raises`).
- **`TranscriptionService`.** Each operation is a specification function over
  `TranscriptionModel.Db` (for example `TranscriptionModel.UpdateTask`). The class method runs
  step by step (loops over the updates and over the client list) and is proved to leave exactly
  the state and reply that function gives. The lemmas prove what the source promises about those
  functions.
- **The worker.** `TranscriptionTasks.TranscriptionRun` is a specification function;
  `TranscriptionWorker.ProcessTranscription` is the imperative method proved equal to it.
- **The engine.** `process_task_sync` becomes a `Delivery`: what the engine does to the store
  (nothing, a merge that does not write `retry_count`, or removal of the record), what it answers
  (a result dict or an exception), whether the worker process was lost mid-call, and the server
  condition (`up`, `writable`) that delivery meets. Each delivery has its own condition.
- **The unchecked save.** `update_task` ignores the False that `save` returns, and the worker
  does not look at it either. `TranscriptionTasks.TranscriptionRun` takes a flag `checked`.
  With `checked` false it is the worker as written. With `checked` true it is the corrected
  worker, which stops before the engine when the increment was not saved (see "## Findings").
- **Celery redelivery.** `task_acks_late` / `task_reject_on_worker_lost` make redelivery a
  sequence of sequential calls: `TranscriptionTasks.Deliveries` and
  `TranscriptionWorker.Redeliver`.
- **Oracles.** The following are parameters:
  - the clock;
  - MD5, the Opus decoder, `datetime.fromtimestamp(...).isoformat()`, `repr` and password hashing;
  - the configuration constants that the source references but does not define (`MAX_RETRY_COUNT`,
    `MIN_UPLOAD_SIZE_BYTES`, `MAX_UPLOAD_SIZE_MB`, `ARCH_LIST`, `ERROR_FILE_TOO_SMALL`).
- **Task record.** It has the fields of the declared schema plus `code`, `message`,
  `retry_count`, `extra_params` and `result_path`, which the code reads and writes.
  `TaskSchema.FromDict` is `TranscriptionTask(**d)` with strict typing of each field.

## Model

| member | source | states |
|---|---|---|
| TranscriptionTasks.CreateTaskResult | app/tasks/transcription_tasks.py:50-66 | the result always holds `status`, `task_id`, `timestamp` and `code`; `error` and `timings` appear exactly when truthy; every key of `extra_data` wins over the base keys |
| TranscriptionTasks.Rejection | app/tasks/transcription_tasks.py:82-112 | a refused prerequisite leaves a `failed` result carrying the given code and error text |
| TranscriptionTasks.PrerequisitesOf | app/tasks/transcription_tasks.py:68-114 | `Found` only for a stored task whose input file exists; every refusal carries `code` and `error` |
| TranscriptionTasks.ExceptionCode | app/tasks/transcription_tasks.py:282-287 | the code written on an exception is never SUCCESS: the stored non-zero code, else ERROR_PROCESSING_FAILED |
| TranscriptionTasks.MissingTaskRun | app/tasks/transcription_tasks.py:82-91 | an absent task gives a `failed` result with ERROR_TASK_NOT_FOUND; the store is unchanged and the engine does not run |
| TranscriptionTasks.MissingFileRun | app/tasks/transcription_tasks.py:94-147 | a missing input file writes `failed` / ERROR_FILE_NOT_FOUND into the record and returns that code; the engine does not run and `retry_count` is unchanged |
| TranscriptionTasks.RetryLimitReached | app/tasks/transcription_tasks.py:150-194 | with `retry_count >= MAX_RETRY_COUNT` the record becomes `failed` / ERROR_MAX_RETRY_EXCEEDED; the counter is not incremented and the engine does not run |
| TranscriptionTasks.EngineSeesRaisedCounter | app/tasks/transcription_tasks.py:197-212 | below the cap the counter is raised by exactly one and then `processing` and `started_at` are written, both before the engine is called |
| TranscriptionTasks.RaisedCounterStored | app/tasks/transcription_tasks.py:197-209 | the two writes before the engine merge into the record and leave `retry_count + 1` stored |
| TranscriptionTasks.ReturnedCodes | app/tasks/transcription_tasks.py:214-275 | an engine reply `completed` gives code SUCCESS; any other gives the reply's `code` (default ERROR_PROCESSING_FAILED) with status `failed`; the mapping itself writes nothing |
| TranscriptionTasks.NotCompletedWritesNothing | app/tasks/transcription_tasks.py:247-275 | in the non-completed branch the store holds only what the engine itself did: no `failed` status is written |
| TranscriptionTasks.ExceptionRecordsFailure | app/tasks/transcription_tasks.py:277-307 | an exception re-reads the task and writes `failed`, the chosen code and the message into it, and returns that code |
| TranscriptionTasks.ExceptionAfterRemoval | app/tasks/transcription_tasks.py:282-296 | if the task vanished, the exception path writes nothing and reports ERROR_PROCESSING_FAILED |
| TranscriptionTasks.WebhooksCarryCallback | app/tasks/transcription_tasks.py:185-321 | once the prerequisites found the task, every webhook of the run, the exception path included, carries the task's `extra_params or {}` |
| TranscriptionTasks.LostWorker | app/core/celery.py:19-20 | a worker lost during the engine call leaves only the engine's effect and no reply or notification, so the message is delivered again |
| TranscriptionTasks.UpdateKeepsRetry | app/services/transcription.py:96-118 | an update that does not name `retry_count` leaves the stored counter as it was |
| TranscriptionTasks.GuardedStep | app/tasks/transcription_tasks.py:150-212 | from a counter within the cap, one pass of the guard keeps it within the cap and strictly lowers the remaining budget whenever the engine runs, provided the increment is stored (or the run is the checked one, which stops when it is not) |
| TranscriptionTasks.DeliveryStep | app/tasks/transcription_tasks.py:116-307 | a whole delivery under its own server condition, including its refusals, keeps the counter within the cap and never raises the remaining budget, provided writes land whenever the server answers (or the run is the checked one) |
| TranscriptionTasks.RetryBound | app/tasks/transcription_tasks.py:150-212 | over any sequence of redeliveries in which every increment is stored, `retry_count` stays at most MAX_RETRY_COUNT and the engine runs at most the remaining budget times |
| TranscriptionTasks.CheckedRetryBound | app/tasks/transcription_tasks.py:196-212 | the corrected worker, which stops before the engine when the increment is not saved, keeps the same bound under any server conditions: the counter stays within the cap and the engine runs at most the remaining budget times |
| TranscriptionTasks.UpdateUnsaved | app/services/transcription.py:104-118 | while writes are refused, `update_task` changes nothing yet answers as if the write had landed (the False of `save` is ignored) |
| TranscriptionTasks.UnsavedEngineRuns | app/tasks/transcription_tasks.py:196-212 | as written, on a server that refuses writes, a stored task below the cap whose file exists still reaches the engine |
| TranscriptionTasks.LostIncrementUnbounded | app/tasks/transcription_tasks.py:196-212 | as written, deliveries to a server that serves reads but refuses writes run the engine every time, leave the store unchanged, and so exceed the remaining budget once there are more of them than the budget |
| TranscriptionTasks.EngineRunsFromFreshTask | app/tasks/transcription_tasks.py:154-212 | starting from a stored counter `c <= MAX`, and with every delivery's writes landing, the engine runs at most `MAX - c <= MAX` times across redeliveries |
| TranscriptionTasks.TranscriptionWorker.CheckTaskPrerequisites | app/tasks/transcription_tasks.py:68-114 | the check leaves the state and answer `PrerequisitesOf` gives; a passing check writes nothing |
| TranscriptionTasks.TranscriptionWorker.RecordException | app/tasks/transcription_tasks.py:277-307 | the exception handler's writes and reply are those of the exception specification |
| TranscriptionTasks.TranscriptionWorker.ApplyEngine | app/tasks/transcription_tasks.py:212 | the store after the engine call is the engine's own effect on it |
| TranscriptionTasks.TranscriptionWorker.CallEngine | app/tasks/transcription_tasks.py:212-307 | the engine call and reply mapping leave the state, reply and events of `EngineRun` |
| TranscriptionTasks.TranscriptionWorker.ProcessTranscription | app/tasks/transcription_tasks.py:116-307 | one task invocation leaves exactly the state, reply, engine flag and events of `TranscriptionRun` |
| TranscriptionTasks.TranscriptionWorker.Redeliver | app/core/celery.py:19-20 | repeated sequential deliveries, each under its own server condition, end in `Deliveries`' state; when the engine never writes the counter and every increment lands, the counter stays within the cap and the engine runs at most the remaining budget times |
| Transcription.SetAll | app/services/transcription.py:111-113 | the assignment loop over the updates yields the old record overwritten by the updates |
| Transcription.TranscriptionService.constructor | app/services/transcription.py:25-35 | the service stores through `RedisStorage` with prefix `transcription:` |
| Transcription.TranscriptionService.GetTask | app/services/transcription.py:80-94 | the reply is `TranscriptionModel.GetTask` of the current store |
| Transcription.TranscriptionService.UpdateTask | app/services/transcription.py:96-118 | the new store and reply are those of `TranscriptionModel.UpdateTask` |
| Transcription.TranscriptionService.UpdateProgress | app/services/transcription.py:289-295 | `_update_progress` is `update_task` with `progress` and `progress_message` |
| Transcription.TranscriptionService.ClientList | app/services/transcription.py:297-302 | the stored client list (the value under `client:<id>`) |
| Transcription.TranscriptionService.AddToClientTasks | app/services/transcription.py:297-302 | the list is read, the id appended when absent, and the list saved, as `TranscriptionModel.AddToClientTasks` says |
| Transcription.TranscriptionService.RemoveFromClientTasks | app/services/transcription.py:304-309 | the first occurrence of the id is removed and the list saved, as `TranscriptionModel.RemoveFromClientTasks` says |
| Transcription.TranscriptionService.CreateTask | app/services/transcription.py:37-78 | the store and reply are those of `TranscriptionModel.CreateTask` |
| Transcription.TranscriptionService.DeleteTask | app/services/transcription.py:120-155 | the store, file system and reply are those of `TranscriptionModel.DeleteTask` |
| Transcription.TranscriptionService.GetClientTasks | app/services/transcription.py:157-185 | the reply is `TranscriptionModel.GetClientTasks` of the current store |
| Transcription.TranscriptionService.LookupAll | app/services/transcription.py:176-180 | the lookup loop over the page of ids replies `TranscriptionModel.LookupAll` |
| Transcription.TranscriptionService.ResetTask | app/services/transcription.py:187-212 | the store and reply are those of `TranscriptionModel.ResetTask` |
| Transcription.TranscriptionService.Fail | app/services/transcription.py:281-287 | the failure write of `process_task` is `TranscriptionModel.Fail` |
| Transcription.TranscriptionService.ProcessTask | app/services/transcription.py:214-287 | the store, processor flag, notification flag and exception flag are those of `TranscriptionModel.ProcessTask` |
| TranscriptionModel.CreateTaskStores | app/services/transcription.py:61-78 | `create_task` stores a `pending` record with progress 0 and retry 0 under the task id, returns it, and adds the id to the client list |
| TranscriptionModel.CreateTaskRaisesAfterSave | app/services/transcription.py:73-76 | when the client-list update raises, the record has already been saved |
| TranscriptionModel.AddIdempotent | app/services/transcription.py:297-302 | after adding, the id is in the list and adding it again changes nothing |
| TranscriptionModel.AddKeepsDistinct | app/services/transcription.py:297-302 | adding to a list without duplicates leaves a list without duplicates |
| TranscriptionModel.RemoveFirst | app/services/transcription.py:304-309 | `list.remove` drops exactly one occurrence when present and nothing otherwise |
| TranscriptionModel.RemoveFirstDistinct | app/services/transcription.py:304-309 | on a duplicate-free list, removal drops the id and keeps every other element |
| TranscriptionModel.RemoveDeletesId | app/services/transcription.py:304-309 | `_remove_from_client_tasks` removes the id from the stored list and keeps all other ids |
| TranscriptionModel.UpdateMissingWritesNothing | app/services/transcription.py:107-109 | `update_task` on a missing id returns None and leaves the store unchanged |
| TranscriptionModel.UpdateOverwrites | app/services/transcription.py:111-118 | `update_task` overwrites exactly the given keys; all other fields and all other records are unchanged; the reply is the validated record, and updates that fit the schema always validate |
| TranscriptionModel.WriteKeepsOthers | app/utils/storage.py:50-106 | a save or delete under one key leaves every other key's value unchanged |
| TranscriptionModel.ResetTaskResult | app/services/transcription.py:197-212 | `reset_task` merges the reset updates into the stored record and returns the reset task |
| TranscriptionModel.ResetReads | app/services/transcription.py:202-210 | the reset record reads as `pending`, progress 0, with no error message, result, start or completion; `retry_count`, `code` and every other field keep their values |
| TranscriptionModel.DeleteMissing | app/services/transcription.py:130-132 | deleting an absent task returns False and changes nothing |
| TranscriptionModel.DeleteRemoves | app/services/transcription.py:133-155 | deleting a stored task returns True, removes the record and the id from the client list, and removes the input and result files that can be removed; a failed file removal does not change the reply |
| TranscriptionModel.SliceBound | app/services/transcription.py:173 | a Python slice bound clamps into `[0, n]` |
| TranscriptionModel.PageAtMostLimit | app/services/transcription.py:173 | the page `ids[offset:offset+limit]` has at most `limit` ids and is the clamped sub-sequence |
| TranscriptionModel.NegativeLimitPage | app/services/transcription.py:173 | with a negative limit the slice can still be non-empty (Python counts a negative end from the back) |
| TranscriptionModel.LookupAllFound | app/services/transcription.py:176-180 | every returned task is the stored task of one of the page's ids, there are no more tasks than ids, and conversely every id of the page whose record is stored contributes its task |
| TranscriptionModel.SortByCreatedDescCorrect | app/services/transcription.py:183 | the sort by `created_at` descending is ordered and a permutation of its input |
| TranscriptionModel.GetClientTasksBounded | app/services/transcription.py:157-185 | `get_client_tasks` returns at most `limit` tasks, sorted newest first; each is the stored task of an id in the page, and every stored task of an id in the page is among them |
| TranscriptionModel.FittingUpdateKeepsTask | app/services/transcription.py:96-118 | an update that fits the schema keeps a valid task record under the id |
| TranscriptionModel.ApplyProgressKeepsTask | app/services/transcription.py:289-295 | any sequence of progress updates keeps a valid task and never raises |
| TranscriptionModel.ProgressKeepsStart | app/services/transcription.py:289-295 | progress updates change only `progress` and `progress_message` |
| TranscriptionModel.StatusAfter | app/services/transcription.py:96-118 | the task an update returns carries the status that was written |
| TranscriptionModel.ProcessMissingFile | app/services/transcription.py:229-236 | with no input file, `process_task` writes `failed` with the missing-file message and runs no processor |
| TranscriptionModel.CompletedRun | app/services/transcription.py:240-279 | a successful run goes through `processing` and the progress updates to the completed record, and notifies |
| TranscriptionModel.ProcessCompletes | app/services/transcription.py:262-269 | success writes `completed` with the result, duration, start time, completion time and processing time |
| TranscriptionModel.ProcessFailsOnThrow | app/services/transcription.py:281-287 | a processor exception writes `failed` with the exception's message, and no completion notice is sent |
| TaskSchema.FromToDict | app/schemas/transcription.py:21-39 | a record turned into a dict validates back to the same record |
| TaskSchema.ReadsIff | app/schemas/transcription.py:21-39 | `TranscriptionTask(**d)` gives a task exactly when each field of `d` reads as that task's field |
| TaskSchema.FromDictIff | app/schemas/transcription.py:21-39 | a dict validates exactly when every field has an admissible type |
| TaskSchema.MergeKeepsValid | app/services/transcription.py:111-118 | merging schema-fitting updates into a valid record keeps it valid |
| TaskStatus.FailedMessage | app/services/task_status_service.py:63-79 | codes -1, -2 and -3 get their fixed texts; any other code gets `task.message` if non-empty, else 处理失败 |
| TaskStatus.StatusResponse | app/services/task_status_service.py:32-93 | the response always has `task_id` and a `code`: 1 for `pending`, 2 for `processing`, and the stored code for the other statuses; `completed` carries the two result URLs as `data`, `pending` the waiting text, `processing` the progress and its text, `failed` the `FailedMessage` |
| TaskStatus.GetTaskStatus | app/services/task_status_service.py:11-99 | an absent task gives code -4 with `upload_url`, and only then; a read that raises gives HTTP 500 with the query-failed detail, and only then; otherwise the status response of the stored task |
| TaskStatus.CompletedUrls | app/services/task_status_service.py:38-51 | a completed task's response data has exactly `trans` and `summary`, each carrying the task id and a URL under the download base that ends in `/{task_id}.json` and `/{task_id}-summary.md` |
| TaskStatus.CreatedIsPending | app/services/task_status_service.py:52-56 | polling a just-created task answers code 1 (pending) |
| TaskStatus.ResetIsPending | app/services/task_status_service.py:52-56 | polling a just-reset task answers code 1 (pending) |
| Storage.RedisStorage.constructor | app/utils/storage.py:15-36 | the storage keeps its prefix and its client |
| Storage.RedisStorage.Key | app/utils/storage.py:38-48 | the full key is the prefix followed by the key |
| Storage.RedisStorage.KeyInjective | app/utils/storage.py:38-48 | distinct keys give distinct full keys |
| Storage.RedisStorage.Save | app/utils/storage.py:50-68 | a reachable backend stores the value under the full key and returns True; an error returns False and writes nothing |
| Storage.RedisStorage.Get | app/utils/storage.py:70-88 | the stored value under the full key; None when it is absent or the backend fails |
| Storage.RedisStorage.Delete | app/utils/storage.py:90-106 | a reachable backend removes the full key and returns True even if it was absent; an error returns False |
| Storage.RedisStorage.GetKeys | app/utils/storage.py:108-127 | the stored keys matching prefix plus pattern, with the prefix removed, each reported once when the prefix has no wildcard; `[]` on error |
| Storage.CollectKeys | app/utils/storage.py:119-124 | the scan over the keyspace collects exactly the matching keys with the prefix stripped, with no key twice when the prefix has no wildcard |
| Storage.GetAfterSave | app/utils/storage.py:62-85 | `get` after `save(k, d)` returns `d` |
| Storage.GetAfterDelete | app/utils/storage.py:100-103 | `get` after `delete(k)` returns None |
| Storage.OtherKeysUnchanged | app/utils/storage.py:50-106 | save and delete under one key do not change what any other key reads |
| Storage.KeysRestorePrefix | app/utils/storage.py:119-124 | each returned key with the prefix put back is a stored key |
| Storage.StripInjective | app/utils/storage.py:119-124 | two keys matching a wildcard-free prefix plus a pattern that strip to the same key are the same key |
| RedisService.HSet | app/services/redis_service.py:35 | `HSET` merges the fields into the key's hash, creating it if absent, and touches no other key; it fails on a string key or empty mapping |
| RedisService.TaskOf | app/services/redis_service.py:42-53 | `get_task` returns the `task:<id>` hash when it is non-empty, None when it is empty, absent or the read fails |
| RedisService.SaveTask | app/services/redis_service.py:28-40 | the fields are merged into `task:<id>` and True returned; False and no write on error |
| RedisService.GetTask | app/services/redis_service.py:42-53 | the reply is `TaskOf` of the current keyspace |
| RedisService.UpdateTaskStatus | app/services/redis_service.py:55-67 | `status` and the keyword fields are merged into `task:<id>`; False and no write on error |
| RedisService.DeleteTask | app/services/redis_service.py:69-80 | `task:<id>` is removed and True returned; False and no write on error |
| RedisService.Keys | app/services/redis_service.py:89 | `KEYS pattern` lists each matching key exactly once |
| RedisService.SecondSegment | app/services/redis_service.py:91-93 | `key.split(':')[1]` contains no `:` |
| RedisService.FirstColon | app/services/redis_service.py:91-93 | the index of the first `:`, or the length when there is none |
| RedisService.GetPendingTasks | app/services/redis_service.py:82-97 | the scan visits exactly the `task:*` keys and returns the pending scan of them; `[]` on error |
| RedisService.PendingScanExact | app/services/redis_service.py:89-94 | the scan returns exactly the records whose status is `pending`, each tagged with the id from its key |
| RedisService.EscapeStops | app/services/redis_service.py:89-97 | once a read in the scan raises, the whole call returns `[]` |
| RedisService.TaskPatternPrefix | app/services/redis_service.py:89 | every key matching `task:*` begins with `task:` |
| RedisService.PendingKeyShape | app/services/redis_service.py:91-93 | for a `task:` key the tag is the text between `task:` and the next `:` |
| RedisService.GetAfterSave | app/services/redis_service.py:34-50 | `get_task` after `save_task` returns the old hash merged with the saved fields |
| RedisService.UpdateKeepsOtherFields | app/services/redis_service.py:62-63 | `update_task_status` sets the status and keeps every field it does not name |
| RedisService.GetAfterDelete | app/services/redis_service.py:69-80 | `get_task` after `delete_task` returns None |
| RedisService.IncrementResult | app/services/redis_service.py:105-109 | the first increment of a user with no counter returns 1 |
| RedisService.IncrementUserRequestCount | app/services/redis_service.py:99-112 | `INCR` raises the counter and returns it; an error returns 0 and writes nothing |
| RedisService.GetUserRequestCount | app/services/redis_service.py:114-125 | the stored counter as an integer; 0 when absent or on error |
| RedisService.IncrementThenGet | app/services/redis_service.py:105-122 | after an increment, reading the count gives the value the increment returned |
| RedisService.IncrementTwice | app/services/redis_service.py:105-109 | two increments from `n` return `n + 1` and then `n + 2` |
| RedisService.SecondsText | app/services/redis_service.py:141 | the stored text is never empty, and it has a `.` exactly when the total is a `float` |
| RedisService.AddUserDuration | app/services/redis_service.py:127-149 | the stored duration, read with `float()`, plus the new one is written as `str` of the number and returned; an absent key keeps the new duration's type; 0 and no write on error |
| RedisService.GetUserDuration | app/services/redis_service.py:151-162 | the stored duration read with `float()` (`"18"` and `"18.0"` both give 18); 0 when absent or on error |
| RedisService.StoredDuration | app/services/redis_service.py:136-159 | a stored text `float()` reads as `v` reads back as `v`, and adding to it gives the `float` `v + d` |
| RedisService.SecondsTextReadsBack | app/services/redis_service.py:141-159 | a total written as `int` or `float` text reads back as its value |
| RedisService.AddThenGetDuration | app/services/redis_service.py:136-159 | the total is the previous value plus the duration; it is a `float` once a value was stored; reading it back gives the total |
| RedisService.AddAfterAdd | app/services/redis_service.py:136-141 | adding to a total the service wrote never fails and yields a `float` with the sum |
| RedisService.DurationTexts | app/services/redis_service.py:136-141 | adding 15, 3 and 3 to a fresh key stores `"15"`, `"18.0"` and `"21.0"`, and `"18.0"` reads as 18 |
| RedisService.KeysDistinct | app/services/redis_service.py:34-136 | task, request-count and duration keys never collide |
| Decimal.PyIntOfIntToStr | app/services/redis_service.py:122 | `int(str(n)) == n`: a counter written in decimal reads back as the same number |
| Decimal.PyWholeFloatOfIntToStr | app/services/redis_service.py:137 | `float(str(n)) == n` |
| Decimal.PyWholeFloatOfFloatText | app/services/redis_service.py:137 | `float(repr(float(n))) == n` for the `n.0` text of a whole float |
| Decimal.ParseCanonicalIff | app/services/redis_service.py:105-109 | Redis `INCR` accepts a stored string exactly when it is the canonical text of a 64-bit integer |
| ErrorCodes.GetErrorMessage | app/utils/error_codes.py:44-59 | a non-empty custom message is returned as is; otherwise a known code gives its table entry and an unknown code gives 未知错误 (代码: code); never empty |
| ErrorCodes.CodesDistinct | app/utils/error_codes.py:6-27 | SUCCESS is 0 and all error codes are distinct and non-zero |
| ErrorCodes.EveryCodeHasMessage | app/utils/error_codes.py:30-42 | the message table has an entry for exactly the defined codes |
| ErrorCodes.UnknownIsDistinct | app/utils/error_codes.py:59 | the unknown-code text is never one of the table's messages |
| WhisperX.DetectedLanguage | app/core/whisperx.py:74 | the detected language, or the requested one when none was detected |
| WhisperX.Duration | app/core/whisperx.py:75 | the last segment's `end`, or 0 with no segments |
| WhisperX.JoinSkipsTextless | app/core/whisperx.py:133-136 | segments without `text` do not change the joined text |
| WhisperX.JoinedOfTexts | app/core/whisperx.py:133-136 | the join of text segments is each text followed by a space, concatenated |
| WhisperX.JoinTexts | app/core/whisperx.py:133-136 | the accumulation loop yields the joined text, or the exception of a non-string text |
| WhisperX.JoinStops | app/core/whisperx.py:133-136 | once a segment's text is not a string, the join raises whatever follows |
| WhisperX.ResultOf | app/core/whisperx.py:139-143 | the result holds the stripped text, the language and the unchanged segments, and nothing else |
| WhisperX.Reports | app/core/whisperx.py:53-156 | progress starts 10 then 20, strictly increases, and reaches 100 exactly on success |
| WhisperX.SuccessReports | app/core/whisperx.py:53-156 | a successful run reports 10, 20, 50, 80, 90, 100 |
| WhisperX.ReportsArePrefixes | app/core/whisperx.py:146-162 | a run that raises reports a prefix of the success sequence and never 100 |
| WhisperX.WhisperXProcessor.constructor | app/core/whisperx.py:22-28 | the model cache starts empty |
| WhisperX.WhisperXProcessor.GetModel | app/core/whisperx.py:164-183 | a cached size returns the cached model with no load; an uncached size is loaded once and cached |
| WhisperX.WhisperXProcessor.ClearCache | app/core/whisperx.py:185-192 | the cache is empty afterwards |
| WhisperX.WhisperXProcessor.ProcessAudio | app/core/whisperx.py:30-162 | the `tiny` model is cached afterwards: served from the cache with nothing else changed, or loaded once and appended to the loads; the reported progress is the stage's sequence; any failure raises; success returns the result and duration of the transcript |
| WhisperX.LoadsMatchCache | app/core/whisperx.py:174-183 | each cached size was loaded exactly once since the last clear |
| CloudStats.CloudStatsService.constructor | app/services/cloud_stats.py:16-21 | enabled exactly when both the API URL and key are non-empty; 3 retries, delay 2 |
| CloudStats.CloudStatsService.SendData | app/services/cloud_stats.py:23-64 | disabled: False with no request; enabled: True exactly when some attempt within `max_retries` gets 200, each POST goes to `url/endpoint` with the bearer key, and the waits are those of `Waits` |
| CloudStats.FirstOk | app/services/cloud_stats.py:44-51 | the first attempt that answers 200, if any within the bound |
| CloudStats.AttemptsMade | app/services/cloud_stats.py:44-61 | at most `max_retries` POSTs are made |
| CloudStats.Waits | app/services/cloud_stats.py:59-61 | the wait after failed attempt k is `retry_delay * k`, and there is no wait after the last attempt |
| CloudStats.DefaultSchedule | app/services/cloud_stats.py:20-64 | with the defaults, an all-failing send makes 3 attempts and waits 2 s then 4 s |
| CloudStats.FirstAttemptSucceeds | app/services/cloud_stats.py:49-51 | a 200 on the first try ends the loop with no further attempt or wait |
| CloudStats.FirstOkStable | app/services/cloud_stats.py:49-51 | the first success does not depend on how many more attempts were allowed |
| CloudStats.CloudStatsService.ReportTaskCompletion | app/services/cloud_stats.py:66-87 | schedules the `stats/task` send exactly when enabled |
| CloudStats.CloudStatsService.ReportClientStatistics | app/services/cloud_stats.py:89-112 | schedules the `stats/client` send exactly when enabled |
| CloudStats.CompletionPayload | app/services/cloud_stats.py:77-84 | the payload has `client_id`, `timestamp`, `event_type` `task_completion` and `data.audio_duration` |
| CloudStats.ClientStatsPayload | app/services/cloud_stats.py:101-109 | the payload has `client_id`, `timestamp`, `event_type` `client_stats` and the count and duration in `data` |
| UploadRoutes.ServerIdOf | app/routes/api/transcription.py:65-93 | code 0 exactly when the stored content id is non-empty and equal to the given one, with `data` the stored `server_id` or ""; otherwise the code -1 refusal |
| UploadRoutes.GetServerId | app/routes/api/transcription.py:35-93 | an absent task is refused; a failed read raises; code 0 only for a stored task whose content id matches |
| UploadRoutes.EmptyContentIdRefused | app/routes/api/transcription.py:66-78 | an empty content id is always refused |
| UploadRoutes.NoExtraParamsRefused | app/routes/api/transcription.py:65-78 | a task without extra parameters is always refused |
| UploadRoutes.ParseParams | app/routes/api/transcription.py:149-195 | undecodable JSON or a missing required field is a 400 with ERROR_PROCESSING_FAILED; a non-object crashes; otherwise the parameters, with an unknown `whisper_arch` replaced by the default and `language` defaulting to `auto` |
| UploadRoutes.Screen | app/routes/api/transcription.py:149-280 | the checks run in order (parameters, format, too small, too large with 413); the first failure is the answer; admission exactly when all pass |
| UploadRoutes.MissingParamFirst | app/routes/api/transcription.py:168-195 | a missing required parameter is reported before any file check |
| UploadRoutes.TooLargeInBytes | app/routes/api/transcription.py:225-256 | "more than MAX MB" is "more than MAX × 1024 × 1024 bytes" |
| UploadRoutes.ResultPath | app/routes/api/transcription.py:288 | the result path ends in `{task_id}.json` |
| UploadRoutes.UploadRoute.CreateTranscriptionTask | app/routes/api/transcription.py:116-328 | a refused upload changes nothing and returns its error; an admitted one saves the file; a non-string `task_id`, or a `language` that is neither a string nor null, then gives a server error with nothing else changed; otherwise the task is created with the raw id and language and enqueued exactly when creation succeeded |
| UploadRoutes.NumericTaskIdRefused | app/routes/api/transcription.py:149-166 | a request with `task_id` 123 and `language` `["zh"]` has its required values, but neither field suits the task record |
| UploadRoutes.UploadRoute.Admit | app/routes/api/transcription.py:271-306 | the file is saved under `str(task_id)` first; a `task_id` or `language` that `TranscriptionTask` refuses gives a server error with the store and the queue unchanged; otherwise the store is `CreateTask`'s, and the id is enqueued exactly when creation succeeded |
| UploadRoutes.AdmittedTaskIsPending | app/routes/api/transcription.py:288-306 | the task created for an admitted upload is stored `pending` with retry 0 and its result path |
| UploadRoutes.DownloadName | app/routes/api/transcription.py:343-346 | the task id if it has a `.`, else the id plus `.json` |
| UploadRoutes.DownloadResultFile | app/routes/api/transcription.py:330-375 | a missing file is a 404 with ERROR_RESULT_NOT_FOUND; otherwise the file's bytes as an attachment named by `DownloadName` |
| UploadRoutes.DownloadServesResultPath | app/routes/api/transcription.py:288-348 | for an id without `.`, the download serves the path the upload recorded as `result_path` |
| UploadRoutes.DownloadNameIdempotent | app/routes/api/transcription.py:343-346 | applying the name rule twice is applying it once |
| Files.Ext | app/utils/files.py:23 | the extension is empty or a `.`-led suffix of the name |
| Files.ExtOfLower | app/utils/files.py:23 | the extension of the lowercased name is the lowercased extension |
| Files.ValidAudioFile | app/utils/files.py:22-33 | a listed audio MIME type is always accepted; a name with no extension is accepted exactly when the MIME type is listed |
| Files.ExtOfStemAndSuffix | app/utils/files.py:23 | the extension of `stem + e` is `e` when `e` is a dot and no further dot or `/`, and the stem's last component is not all dots |
| Files.HiddenFileHasNoExt | app/utils/files.py:23-33 | a name like `.mp3` has no extension, so it is accepted exactly when the MIME type is listed |
| Files.ListedExtensionAccepted | app/utils/files.py:22-33 | a listed extension in any letter case is accepted whatever the content type |
| Files.UnlistedRefused | app/utils/files.py:22-33 | an unlisted extension with an unlisted content type is refused |
| Files.UpperCaseExtensionExample | app/utils/files.py:22-33 | `song.MP3` sent as `application/octet-stream` is accepted |
| Files.UnlistedExample | app/utils/files.py:22-33 | `notes.txt` sent as `text/plain` is refused |
| Files.HiddenFileExample | app/utils/files.py:22-33 | `.mp3` sent as `application/octet-stream` is refused, as a name with no extension |
| Files.ValidAudioFileCaseInsensitive | app/utils/files.py:22-33 | names differing only in letter case are accepted alike |
| Files.Upload.SizeMb | app/utils/files.py:35-56 | the size in MB of the upload, with the stream position restored |
| Files.Upload.SaveTo | app/utils/files.py:58-86 | the file is written at `UPLOAD_DIR/{task_id}{ext}` with the upload's bytes |
| Files.DeleteFile | app/utils/files.py:88-104 | True exactly when the file existed and was removed; the file system changes only then |
| FileValidation.Sample | app/utils/file_validation.py:22-23 | the sample is the first `min(len, CONTENT_ID_MAX_SAMPLE_SIZE)` bytes |
| FileValidation.GenerateContentId | app/utils/file_validation.py:22-30 | the id of content no longer than the sample limit is the digest of the decimal user id and the whole content; of longer content, of the user id and its first limit bytes |
| FileValidation.DigestInput | app/utils/file_validation.py:22-30 | the hashed bytes are the decimal user id followed by the sample |
| FileValidation.TailIgnored | app/utils/file_validation.py:22-30 | bytes beyond the sample limit do not change the id |
| FileValidation.UserIdBoundaryShared | app/utils/file_validation.py:26-30 | without a separator, user 1 with a file starting `2` and user 12 with the rest of it get the same id |
| FileValidation.ValidateContentId | app/utils/file_validation.py:40-61 | always True when verification is off; otherwise True exactly when the computed id equals the given one |
| FileValidation.OwnIdValidates | app/utils/file_validation.py:40-61 | the id the server computes always validates |
| EcmToWav.Marker | app/utils/ecm_to_wav.py:43 | the marker is 60 bytes: EE EE EE and 57 zero bytes |
| EcmToWav.CheckHeader | app/utils/ecm_to_wav.py:18-34 | the file passes exactly when it starts `ECM` and the header has its type bytes |
| EcmToWav.VersionIgnored | app/utils/ecm_to_wav.py:24-34 | the version and audio-type bytes never change the outcome |
| EcmToWav.Frames | app/utils/ecm_to_wav.py:53-56 | the body splits into `len / 60` full frames from offset 0, and a trailing partial frame is dropped |
| EcmToWav.PcmAppend | app/utils/ecm_to_wav.py:57-62 | decoding is frame by frame with the decoder's state carried along: the frames of two parts decode to the first part's PCM then the second's, the second starting from the state the first ends in; a frame that fails adds nothing and does not stop the rest |
| EcmToWav.PcmLength | app/utils/ecm_to_wav.py:53-62 | with a decoder yielding 640 bytes per frame from every state, the PCM holds 640 bytes per full frame |
| EcmToWav.DecodeBody | app/utils/ecm_to_wav.py:53-62 | the loop over 60-byte offsets, keeping one decoder across the frames, extends the buffer with each decodable full chunk, in order |
| EcmToWav.EcmToPcm | app/utils/ecm_to_wav.py:18-62 | a refused header is refused; otherwise the body after the header, with markers removed, is decoded by one decoder from its initial state |
| EcmToWav.NoMarkerUnchanged | app/utils/ecm_to_wav.py:43-46 | a body without the marker is decoded as it is |
| EcmToWav.MarkerCanReform | app/utils/ecm_to_wav.py:43-46 | one pass of `replace` can leave a marker behind |
| TimeFormat.RoundHalfEven | app/utils/time.py:5 | `timedelta(seconds=x)` rounds to the nearest microsecond: within half a unit, down below the half, up above it, and to the even count on a tie |
| TimeFormat.WholeSeconds | app/utils/time.py:8 | `int(total_seconds())` truncates a microsecond count toward zero, for negative counts too |
| TimeFormat.Split | app/utils/time.py:9-10 | `hours*3600 + minutes*60 + seconds` is the total, with minutes and seconds in [0, 59] |
| TimeFormat.ConvertToTimeFormat | app/utils/time.py:3-13 | the text always ends `:MM:SS`, with two-character minutes and seconds and at least two characters of hours |
| TimeFormat.EightCharacters | app/utils/time.py:5-13 | from 0 up to the half microsecond below 100 hours, the text is exactly `HH:MM:SS` |
| TimeFormat.Pad2Width | app/utils/time.py:13 | each field below 100 is padded to exactly two digits |
| TimeFormat.FractionsDropped | app/utils/time.py:5-8 | a fraction of a second that stays at least half a microsecond short of the next second does not change the text |
| TimeFormat.NearlyWholeRoundsUp | app/utils/time.py:5-8 | within half a microsecond of the next whole second the value is rounded up to it first (59.9999996 seconds is `00:01:00`) |
| UrlUtils.FileName | app/utils/url_utils.py:15-16 | the part after the last `/`, or the whole name without `/`; it holds no `/` |
| UrlUtils.GetDownloadUrl | app/utils/url_utils.py:3-18 | the URL is the download base, `/`, and the file name |
| UrlUtils.PathOrName | app/utils/url_utils.py:15-18 | a path and its last component give the same URL |
| MigrateTimestamps.ConvertTimestamp | scripts/migrate_timestamps.py:18-22 | numbers become their ISO text; any other value is returned unchanged; the result is never a number |
| MigrateTimestamps.ConvertIdempotent | scripts/migrate_timestamps.py:18-22 | converting twice is converting once |
| MigrateTimestamps.ConvertFields | scripts/migrate_timestamps.py:66-69 | only truthy `started_at`, `completed_at` and `created_at` are converted; every other field is unchanged |
| MigrateTimestamps.ConvertTimestampFields | scripts/migrate_timestamps.py:66-69 | the field loop yields `ConvertFields` of the three timestamp fields |
| MigrateTimestamps.FixExtraParams | scripts/migrate_timestamps.py:24-32 | `whisper_arch` is added only to truthy extra parameters lacking it; all other keys are unchanged |
| MigrateTimestamps.FixIdempotent | scripts/migrate_timestamps.py:24-32 | fixing twice is fixing once |
| MigrateTimestamps.MigrateRecord | scripts/migrate_timestamps.py:56-88 | falsy and non-dict values are skipped, and only they; a saved record has the same keys and validates as a task |
| MigrateTimestamps.MigrateOne | scripts/migrate_timestamps.py:56-88 | the per-record body gives `MigrateRecord` |
| MigrateTimestamps.RecordMigrationIdempotent | scripts/migrate_timestamps.py:56-88 | migrating a migrated record saves it unchanged |
| MigrateTimestamps.CountsBounded | scripts/migrate_timestamps.py:53-92 | success plus errors is at most the number of ids, and neither counter decreases |
| MigrateTimestamps.WritesValidate | scripts/migrate_timestamps.py:75-88 | every stored value afterwards is the one there before or a record that validates |
| MigrateTimestamps.MigrateKey | scripts/migrate_timestamps.py:56-88 | one record is read, migrated, and written back exactly when it is to be saved |
| MigrateTimestamps.Migrate | scripts/migrate_timestamps.py:34-94 | the migration lists every key and ends in the state and counts of `MigrateAll` over them |
| UserService.CreateUser | app/services/user_service.py:46-62 | the given limits, or the configured defaults when absent; the hashed password |
| UserService.LimitMessage | app/services/user_service.py:83-92 | over the count limit gives the count message even if the duration is over too; under it and over the duration limit gives the duration message; None exactly when both are under |
| UserService.CheckUserLimits | app/services/user_service.py:75-92 | the decision of `LimitMessage` on the counters stored for the user |
| UserService.MessagesDiffer | app/services/user_service.py:85-90 | the two limit messages never coincide |
| UserService.OutageReadsZero | app/services/user_service.py:83-90 | while Redis is unreachable the counters read 0, so only a non-positive limit refuses |
| UserService.NewUserPasses | app/services/user_service.py:55-56 | a new user with default limits and no usage passes exactly when the defaults are positive |

## Findings

| source | as written | input that shows it | evidently intended | confidence | as-written member | corrected member |
|---|---|---|---|---|---|---|
| app/tasks/transcription_tasks.py:196-212 | the counter increment goes through `update_task`, which ignores the False of `save` (app/services/transcription.py:115-118, app/utils/storage.py:66-68); the engine runs whether or not the new count was stored | MAX_RETRY_COUNT 3, a stored task with `retry_count` 0 and its input file present, and a Redis that serves GET but refuses SET (a read-only replica): every redelivery reads 0 and runs the engine again, without end | stop before the engine when the increment is not stored, so the retry cap bounds the engine runs | not executed | TranscriptionTasks.LostIncrementUnbounded | TranscriptionTasks.CheckedRetryBound |

## Left out

- Stored JSON text: `RedisStorage` keeps JSON values, so `json.dumps`/`json.loads` and its float text are not modelled.
- TTL: the 24-hour `expire` in `save_task` and similar TTLs are not modelled.
- Bytes and text: the decode of Redis replies as UTF-8 is not modelled, and neither is Unicode case folding beyond ASCII in `Text.Lower`.
- Concurrency: the Celery prefork pool, `asyncio.create_task` in the cloud-statistics methods, and the lack of atomicity of the read-modify-write updates across workers. Only sequential runs are modelled.
- Notifications: MQTT, webhooks and the cloud-statistics report are events with no effect on the store. A webhook event carries the callback parameters, the result URL and the code; its `use_time` (elapsed whole seconds from the clock) is not modelled. As written, the source would fail at some of these call sites:
  - `get_mqtt_service` is not defined;
  - `cloud_stats_service.report_task_completion` (`app/tasks/transcription_tasks.py:218`) calls `asyncio.create_task` (`app/services/cloud_stats.py:87`) from the synchronous Celery task, where no event loop runs. So when statistics are enabled it raises `RuntimeError` inside the `try`, and a completed task goes to the exception handler;
  - the webhook call passes `code=` where the function takes `duration`;
  - `send_transcription_complete` is called with arguments it does not declare.
- `app/services/transcription_service.py` is commented out in full. The worker's import of it is read as the live class in `app/services/transcription.py`.
- `process_task_sync` is not part of this model; the engine is a parameter.
- I/O and scheduling: WAV and MP3 writing and Opus decoding in `ecm_to_wav`, the printed warnings, the cleanup sweep, and the route's file reads.
- Floats: file sizes in MB, transcript durations and progress percentages are reals or integers. User durations in the counters are whole seconds, held as an `int` or a whole-valued `float` (`RedisService.Seconds`), so `:.2f` prints them with `.00`.
- RedisService.GetUserDuration: `float()` is modelled on whole-number texts only (an `int()` text, or one followed by `.` and zeros). A stored text with a nonzero fraction, an exponent, `inf`/`nan`, or trailing whitespace after a dotted number reads as 0 in the model, where Python gives its value. The service itself writes only whole-number texts.
- RedisService.SecondsText: a `float` is written as `n.0`, which is Python's `repr` below 10^16; the exponent form Python uses from 10^16 seconds up is not modelled.
- UploadRoutes.CreateTranscriptionTask:
  - it measures the upload by its byte length, because `get_file_size_bytes` is not defined in the shown files;
  - it passes `create_task` only the parameters that method declares (the route's extra keyword arguments would raise a `TypeError` as written);
  - the simplified reply object is modelled by the created task;
  - the `task_id` and `language` checks follow pydantic 2, which accepts no number, boolean, list or dict for a `str` field. `client_id` is `str(u_id)` and is always a string.
- FileValidation: the fallback of `generate_content_id` when encoding fails is not modelled (the user id is an integer, whose text always encodes).
- CloudStats: settings that are None are not modelled; an unset URL or key is the empty string.
- WhisperX.WhisperXProcessor.ProcessAudio:
  - model loading never fails, and the callback never raises;
  - the transcription itself is an oracle (a transcript, or None where it raises).
- Pydantic: models are read as pydantic 2 validates them. A `str` field takes no other JSON type. Pydantic's lax coercions into numeric fields (a numeric string accepted as an `int`, and so on) are not modelled: `TaskSchema.FromDict` accepts each field only at its own type.
- UserService.CreateUser: `user_data.get("limit_count", default)` yields None when the key is present with the value None, as a schema's `.dict()` gives for an unset `Optional[int]` field. `UserData`'s `Option` fields cannot say "present but None", so the model always gives a number there.
- Users: password hashing and JWT creation are parameters or left out, and so are the user queries over SQLAlchemy.
- The older route layer `app/api/routes/transcription.py` only delegates to the service and is not modelled.
- TranscriptionModel.PageAtMostLimit: requires `limit >= 0`, because with a negative limit Python's slice can be longer than the limit (`NegativeLimitPage` shows one).
- EcmToWav.EcmToPcm: stops at the PCM bytes; the output file formats are not modelled.
- UploadRoutes.ParseParams: the `repr` used for `str()` of non-string parameters is a parameter.
- Server condition within a delivery: each delivery meets one fixed condition (`up`, `writable`). A server that changes condition between the writes of a single delivery (one lost save among landed ones) is not modelled.
- TranscriptionTasks.RetryBound: holds only when every delivery's writes land whenever the server answers. As written the source does not keep the bound otherwise (`LostIncrementUnbounded`); the corrected worker keeps it unconditionally (`CheckedRetryBound`).
- MigrateTimestamps.Migrate: as written, `scripts/migrate_timestamps.py:7` imports a class `RedisService` that `app/services/redis_service.py` does not define (it has only module-level functions), and `get_client` (:38-39) exists nowhere, so the script fails at import. The model runs the migration over `Storage.RedisStorage` with the prefix `transcription:`, which is what :38-39 evidently mean.
- TranscriptionModel.IdText: a listed id that is a float, a list or a dict is looked up as having no record. The key Python would build from its `str()` is not modelled.
- TimeFormat.ConvertToTimeFormat: `total_seconds()` is a float and loses whole microseconds only beyond about 2^53 microseconds (about 285 years); that rounding is not modelled. Python's `timedelta` overflow for more than 999999999 days is not modelled either.

