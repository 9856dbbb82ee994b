/** `CloudStatsService`: the rule that enables it, the bounded retry loop of `_send_data`, and
    the payloads of the two reports. The HTTP exchange is an oracle: what each POST attempt gets
    back is a parameter, and waiting is recorded rather than done. */
module CloudStats {
  import opened Wrappers
  import opened Json

  /** What one POST attempt got: a response with a status, or an exception (a connection error). */
  datatype Attempt = Status(code: int) | Failed

  /** One POST: the URL, the `Authorization` header and the JSON body. */
  datatype Request = Request(url: string, authorization: string, body: Json)

  /** A report handed to the event loop to send in the background. */
  datatype Scheduled = Scheduled(endpoint: string, payload: Json)

  /** The outcome of attempt `i`: taken from `outcomes`, a failure past its end. */
  function OutcomeAt(outcomes: seq<Attempt>, i: nat): Attempt {
    if i < |outcomes| then outcomes[i] else Failed
  }

  /** The index of the first of the first `n` attempts that gets HTTP 200, if any. */
  function FirstOk(outcomes: seq<Attempt>, n: nat): (r: Option<nat>)
    ensures r.Some? ==> r.value < n && OutcomeAt(outcomes, r.value) == Status(200)
    ensures r.Some? ==> forall i :: 0 <= i < r.value ==> OutcomeAt(outcomes, i) != Status(200)
    ensures r.None? ==> forall i :: 0 <= i < n ==> OutcomeAt(outcomes, i) != Status(200)
  {
    if n == 0 then None
    else match FirstOk(outcomes, n - 1)
      case Some(i) => Some(i)
      case None => if OutcomeAt(outcomes, n - 1) == Status(200) then Some(n - 1) else None
  }

  /** How many attempts `_send_data` makes: up to and including the first success, at most
      `maxRetries`. */
  function AttemptsMade(outcomes: seq<Attempt>, maxRetries: nat): (n: nat)
    ensures n <= maxRetries
  {
    match FirstOk(outcomes, maxRetries)
    case Some(i) => i + 1
    case None => maxRetries
  }

  /** The waits `_send_data` makes: `retryDelay * k` after failed attempt `k`, none after the last. */
  function Waits(outcomes: seq<Attempt>, maxRetries: nat, retryDelay: int): (w: seq<int>)
    ensures |w| < AttemptsMade(outcomes, maxRetries) || (|w| == 0 && maxRetries == 0)
    ensures forall k :: 0 <= k < |w| ==> w[k] == retryDelay * (k + 1)
  {
    var n := AttemptsMade(outcomes, maxRetries);
    var waited := if n == 0 then 0 else n - 1;
    seq(waited, k requires 0 <= k < waited => retryDelay * (k + 1))
  }

  class CloudStatsService {
    const enabled: bool
    const apiUrl: string
    const apiKey: string
    const maxRetries: nat
    const retryDelay: int

    /** Enabled exactly when both the API URL and the key are non-empty; three attempts, two
        seconds of base delay. */
    constructor(apiUrl: string, apiKey: string)
      ensures enabled <==> apiUrl != "" && apiKey != ""
      ensures this.apiUrl == apiUrl && this.apiKey == apiKey && maxRetries == 3 && retryDelay == 2
    {
      enabled := apiUrl != "" && apiKey != "";
      this.apiUrl := apiUrl;
      this.apiKey := apiKey;
      maxRetries := 3;
      retryDelay := 2;
    }

    /** `_send_data`: True at the first HTTP 200; otherwise keeps trying, waiting longer each time,
        until `maxRetries` attempts have failed. Disabled, it sends nothing. */
    method SendData(endpoint: string, data: Json, outcomes: seq<Attempt>)
      returns (ok: bool, posts: seq<Request>, waits: seq<int>)
      ensures !enabled ==> !ok && posts == [] && waits == []
      ensures enabled ==> ok == FirstOk(outcomes, maxRetries).Some?
      ensures enabled ==> |posts| == AttemptsMade(outcomes, maxRetries) && waits == Waits(outcomes, maxRetries, retryDelay)
      ensures forall k :: 0 <= k < |posts| ==>
        posts[k] == Request(apiUrl + "/" + endpoint, "Bearer " + apiKey, data)
    {
      posts := [];
      waits := [];
      if !enabled {
        return false, posts, waits;
      }
      var url := apiUrl + "/" + endpoint;
      var retries: nat := 0;
      while retries < maxRetries
        invariant retries <= maxRetries
        invariant FirstOk(outcomes, retries).None?
        invariant |posts| == retries
        invariant |waits| == (if retries == maxRetries && retries > 0 then retries - 1 else retries)
        invariant forall k :: 0 <= k < |waits| ==> waits[k] == retryDelay * (k + 1)
        invariant forall k :: 0 <= k < |posts| ==> posts[k] == Request(url, "Bearer " + apiKey, data)
      {
        posts := posts + [Request(url, "Bearer " + apiKey, data)];
        if OutcomeAt(outcomes, retries) == Status(200) {
          assert FirstOk(outcomes, retries + 1) == Some(retries);
          return true, posts, waits;
        }
        retries := retries + 1;
        if retries < maxRetries {
          waits := waits + [retryDelay * retries];
        }
      }
      return false, posts, waits;
    }

    /** `report_task_completion`: nothing when disabled; otherwise the payload for `stats/task`. */
    method ReportTaskCompletion(clientId: string, audioDuration: Json, now: string) returns (s: Option<Scheduled>)
      ensures s.Some? <==> enabled
      ensures s.Some? ==> s.value == Scheduled("stats/task", CompletionPayload(clientId, audioDuration, now))
    {
      if !enabled {
        return None;
      }
      return Some(Scheduled("stats/task", CompletionPayload(clientId, audioDuration, now)));
    }

    /** `report_client_statistics`: nothing when disabled; otherwise the payload for `stats/client`. */
    method ReportClientStatistics(clientId: string, taskCount: int, totalDuration: Json, now: string) returns (s: Option<Scheduled>)
      ensures s.Some? <==> enabled
      ensures s.Some? ==> s.value == Scheduled("stats/client", ClientStatsPayload(clientId, taskCount, totalDuration, now))
    {
      if !enabled {
        return None;
      }
      return Some(Scheduled("stats/client", ClientStatsPayload(clientId, taskCount, totalDuration, now)));
    }
  }

  /** The completion report: the client, the time, the event type and the audio duration. */
  function CompletionPayload(clientId: string, audioDuration: Json, now: string): (p: Json)
    ensures p.JObj? && p.fields.Keys == {"client_id", "timestamp", "event_type", "data"}
    ensures p.fields["client_id"] == JStr(clientId) && p.fields["event_type"] == JStr("task_completion")
    ensures p.fields["data"] == JObj(map["audio_duration" := audioDuration])
  {
    JObj(map["client_id" := JStr(clientId), "timestamp" := JStr(now), "event_type" := JStr("task_completion"),
             "data" := JObj(map["audio_duration" := audioDuration])])
  }

  /** The client statistics report. */
  function ClientStatsPayload(clientId: string, taskCount: int, totalDuration: Json, now: string): (p: Json)
    ensures p.JObj? && p.fields.Keys == {"client_id", "timestamp", "event_type", "data"}
    ensures p.fields["client_id"] == JStr(clientId) && p.fields["event_type"] == JStr("client_stats")
    ensures p.fields["data"] == JObj(map["task_count" := JInt(taskCount), "total_duration" := totalDuration])
  {
    JObj(map["client_id" := JStr(clientId), "timestamp" := JStr(now), "event_type" := JStr("client_stats"),
             "data" := JObj(map["task_count" := JInt(taskCount), "total_duration" := totalDuration])])
  }

  /** With the service's own settings: at most three attempts, and when all fail the waits are
      2 and then 4 seconds. */
  lemma DefaultSchedule(outcomes: seq<Attempt>)
    ensures AttemptsMade(outcomes, 3) <= 3
    ensures FirstOk(outcomes, 3).None? ==> AttemptsMade(outcomes, 3) == 3 && Waits(outcomes, 3, 2) == [2, 4]
  {
  }

  /** A first attempt that succeeds is the only one, with no wait. */
  lemma FirstAttemptSucceeds(outcomes: seq<Attempt>, maxRetries: nat)
    requires maxRetries > 0 && |outcomes| > 0 && outcomes[0] == Status(200)
    ensures AttemptsMade(outcomes, maxRetries) == 1 && Waits(outcomes, maxRetries, 2) == []
  {
    assert FirstOk(outcomes, 1) == Some(0);
    FirstOkStable(outcomes, 1, maxRetries);
  }

  /** Looking at more attempts does not move an earlier first success. */
  lemma {:induction false} FirstOkStable(outcomes: seq<Attempt>, n: nat, m: nat)
    requires n <= m && FirstOk(outcomes, n).Some?
    ensures FirstOk(outcomes, m) == FirstOk(outcomes, n)
    decreases m - n
  {
    if n < m {
      FirstOkStable(outcomes, n, m - 1);
    }
  }
}
