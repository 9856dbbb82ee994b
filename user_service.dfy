/** The quota check on a user's request count and processed duration, and the limits a new user
    gets. Counters come from the Redis helpers; durations are whole seconds (an `int` or a whole-valued `float`), so `:.2f` prints
    them with `.00`. Password hashing is a parameter. */
module UserService {
  import opened Wrappers
  import Decimal
  import RedisService

  datatype User = User(id: int, username: string, email: string, hashedPassword: string,
                       limitCount: int, limitDuration: int)

  /** The fields of a sign-up; the two limits may be left out. */
  datatype UserData = UserData(username: string, email: string, password: string,
                               limitCount: Option<int>, limitDuration: Option<int>)

  /** `DEFAULT_USER_LIMIT_COUNT` and `DEFAULT_USER_LIMIT_DURATION`. */
  datatype Defaults = Defaults(limitCount: int, limitDuration: int)

  /** `create_user`: the limits given, or the configured defaults; the id comes from the
      database. */
  function CreateUser(id: int, data: UserData, defaults: Defaults, hash: string -> string): (u: User)
    ensures u.limitCount == (if data.limitCount.Some? then data.limitCount.value else defaults.limitCount)
    ensures u.limitDuration == (if data.limitDuration.Some? then data.limitDuration.value else defaults.limitDuration)
    ensures u.hashedPassword == hash(data.password) && u.username == data.username && u.email == data.email
  {
    User(id, data.username, data.email, hash(data.password),
         data.limitCount.GetOr(defaults.limitCount), data.limitDuration.GetOr(defaults.limitDuration))
  }

  function CountMessage(current: int, limit: int): string {
    "超出调用次数限制 (" + Decimal.IntToStr(current) + "/" + Decimal.IntToStr(limit) + ")"
  }

  function DurationMessage(current: int, limit: int): string {
    "超出处理时长限制 (" + Decimal.IntToStr(current) + ".00/" + Decimal.IntToStr(limit) + "秒)"
  }

  /** The decision of `check_user_limits` on the fetched counters: the count is checked first,
      then the duration; None when both are under their limits. */
  function LimitMessage(count: int, duration: int, u: User): (r: Option<string>)
    ensures count >= u.limitCount ==> r == Some(CountMessage(count, u.limitCount))
    ensures count < u.limitCount && duration >= u.limitDuration ==> r == Some(DurationMessage(duration, u.limitDuration))
    ensures r.None? <==> count < u.limitCount && duration < u.limitDuration
  {
    if count >= u.limitCount then Some(CountMessage(count, u.limitCount))
    else if duration >= u.limitDuration then Some(DurationMessage(duration, u.limitDuration))
    else None
  }

  /** `check_user_limits`: reads the request count, then (only if it is under the limit) the
      duration, from the server. */
  method CheckUserLimits(server: RedisService.Server, u: User) returns (r: Option<string>)
    ensures r == LimitMessage(RedisService.CountOf(server.store, server.up, RedisService.CountKey(u.id)),
                              RedisService.DurationOf(server.store, server.up, RedisService.DurationKey(u.id)), u)
  {
    var count := RedisService.GetUserRequestCount(server, u.id);
    if count >= u.limitCount {
      return Some(CountMessage(count, u.limitCount));
    }
    var duration := RedisService.GetUserDuration(server, u.id);
    if duration >= u.limitDuration {
      return Some(DurationMessage(duration, u.limitDuration));
    }
    return None;
  }

  /** The two messages never coincide, so the caller can tell which limit was hit. */
  lemma MessagesDiffer(a: int, b: int, c: int, d: int)
    ensures CountMessage(a, b) != DurationMessage(c, d)
  {
    assert CountMessage(a, b)[4] != DurationMessage(c, d)[4];
  }

  /** While Redis is unreachable both counters read 0, so only a non-positive limit refuses. */
  lemma OutageReadsZero(store: map<string, RedisService.Value>, u: User)
    ensures var r := LimitMessage(RedisService.CountOf(store, false, RedisService.CountKey(u.id)),
                                  RedisService.DurationOf(store, false, RedisService.DurationKey(u.id)), u);
      r.None? <==> u.limitCount > 0 && u.limitDuration > 0
  {
  }

  /** A new user with no usage yet passes exactly when the limits it was given are positive. */
  lemma NewUserPasses(id: int, data: UserData, defaults: Defaults, hash: string -> string)
    requires data.limitCount.None? && data.limitDuration.None?
    ensures LimitMessage(0, 0, CreateUser(id, data, defaults, hash)).None? <==>
      defaults.limitCount > 0 && defaults.limitDuration > 0
  {
  }
}
