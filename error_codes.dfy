/** The service's numeric result codes and their user-facing messages. */
module ErrorCodes {
  import opened Wrappers
  import Decimal

  const SUCCESS := 0
  const ERROR_FILE_NOT_FOUND := 1001
  const ERROR_PROCESSING_FAILED := 1002
  const ERROR_INVALID_FILE_FORMAT := 1003
  const ERROR_FILE_TOO_LARGE := 1004
  const ERROR_TASK_NOT_FOUND := 1101
  const ERROR_TASK_NOT_COMPLETED := 1102
  const ERROR_RESULT_NOT_FOUND := 1103
  const ERROR_MAX_RETRY_EXCEEDED := 1104
  const ERROR_SERVICE_UNAVAILABLE := 1201
  const ERROR_RATE_LIMIT_EXCEEDED := 1202

  /** Every code the module defines, success first. */
  const AllCodes: seq<int> := [
    SUCCESS, ERROR_FILE_NOT_FOUND, ERROR_PROCESSING_FAILED, ERROR_INVALID_FILE_FORMAT,
    ERROR_FILE_TOO_LARGE, ERROR_TASK_NOT_FOUND, ERROR_TASK_NOT_COMPLETED, ERROR_RESULT_NOT_FOUND,
    ERROR_MAX_RETRY_EXCEEDED, ERROR_SERVICE_UNAVAILABLE, ERROR_RATE_LIMIT_EXCEEDED
  ]

  /** The message table. */
  const Messages: map<int, string> := map[
    SUCCESS := "file upload success",
    ERROR_FILE_NOT_FOUND := "音频文件不存在",
    ERROR_PROCESSING_FAILED := "处理失败",
    ERROR_INVALID_FILE_FORMAT := "无效的音频文件。支持的格式：MP3, WAV, FLAC, M4A, OGG",
    ERROR_FILE_TOO_LARGE := "文件大小超过限制",
    ERROR_TASK_NOT_FOUND := "任务不存在",
    ERROR_TASK_NOT_COMPLETED := "任务尚未完成",
    ERROR_RESULT_NOT_FOUND := "任务结果不存在",
    ERROR_MAX_RETRY_EXCEEDED := "任务重试次数超限，任务已被取消",
    ERROR_SERVICE_UNAVAILABLE := "服务不可用",
    ERROR_RATE_LIMIT_EXCEEDED := "超出速率限制"
  ]

  /** The fallback text for a code with no table entry. */
  function UnknownMessage(code: int): string {
    "未知错误 (代码: " + Decimal.IntToStr(code) + ")"
  }

  /** `get_error_message(code, custom_message)`: a non-empty custom message wins, then the table,
      then the fallback; `None` and `""` are both falsy. */
  function GetErrorMessage(code: int, custom: Option<string>): (r: string)
    ensures custom.Some? && custom.value != "" ==> r == custom.value
    ensures (custom.None? || custom.value == "") && code in Messages ==> r == Messages[code]
    ensures (custom.None? || custom.value == "") && code !in Messages ==> r == UnknownMessage(code)
    ensures r != ""
  {
    if custom.Some? && custom.value != "" then custom.value
    else if code in Messages then Messages[code]
    else UnknownMessage(code)
  }

  /** Success is 0 and the error codes are pairwise distinct and non-zero. */
  lemma CodesDistinct()
    ensures AllCodes[0] == SUCCESS == 0
    ensures forall i :: 1 <= i < |AllCodes| ==> AllCodes[i] != 0
    ensures forall i, j :: 0 <= i < j < |AllCodes| ==> AllCodes[i] != AllCodes[j]
  {
  }

  /** Every defined code has a message, and the table holds nothing else. */
  lemma EveryCodeHasMessage()
    ensures forall c :: c in Messages <==> c in AllCodes
  {
  }

  /** The fallback never collides with a table entry, so without a custom message the caller
      gets a table message exactly when the code is known. */
  lemma UnknownIsDistinct(code: int)
    ensures forall c :: c in Messages ==> Messages[c] != UnknownMessage(code)
  {
    var u := UnknownMessage(code);
    assert u[0] == '未';
    assert forall c :: c in Messages ==> Messages[c][0] != '未';
  }
}
