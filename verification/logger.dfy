/** The logger: log-entry construction, the context-building helpers, request
    context extraction, and the `PerformanceMonitor` map of start times. Writing
    entries out (console, JSON, external service) is output and is not modelled. */
module Logger {
  import opened Wrappers
  import opened Js

  /** A context value: a string, a number, or a key that is present but holds
      `undefined` (as `{ testId, tokensUsed }` does when `tokensUsed` is not given). */
  datatype CtxValue = Text(s: string) | Number(n: real) | Undefined

  type LogContext = map<string, CtxValue>

  datatype LogLevel = Debug | Info | Warn | ErrorLevel

  /** An `Error` passed to the logger. */
  datatype LoggedError = LoggedError(name: string, message: string, stack: Option<string>)

  /** The error as an entry records it: the given error's name and message, with the stack kept only in development. */
  datatype ErrorInfo = ErrorInfo(name: string, message: string, stack: Option<string>)

  datatype LogEntry = LogEntry(
    timestamp: string,
    level: LogLevel,
    message: string,
    context: Option<LogContext>,
    error: Option<ErrorInfo>)

  /** What the logger reads from its surroundings: the clock as an ISO string and
      whether `NODE_ENV` is `development`. */
  datatype LoggerEnv = LoggerEnv(timestamp: string, isDevelopment: bool)

  /** `createLogEntry`: the context only when one is given, the error's stack
      only in development. */
  function CreateLogEntry(env: LoggerEnv, level: LogLevel, message: string,
                          context: Option<LogContext>, error: Option<LoggedError>): (e: LogEntry)
    ensures e.timestamp == env.timestamp && e.level == level && e.message == message
    ensures e.context == context
    ensures e.error.Some? <==> error.Some?
    ensures error.Some? ==> e.error.value.name == error.value.name && e.error.value.message == error.value.message
    ensures error.Some? && !env.isDevelopment ==> e.error.value.stack.None?
    ensures error.Some? && env.isDevelopment ==> e.error.value.stack == error.value.stack
  {
    LogEntry(env.timestamp, level, message, context,
             if error.Some? then
               Some(ErrorInfo(error.value.name, error.value.message,
                              if env.isDevelopment then error.value.stack else None))
             else None)
  }

  /** `if (x !== undefined) context[key] = x`. */
  function WithOptional(context: LogContext, key: string, x: Option<string>): (c: LogContext)
    ensures x.Some? ==> c == context[key := Text(x.value)]
    ensures x.None? ==> c == context
  {
    if x.Some? then context[key := Text(x.value)] else context
  }

  /** The key `WithOptional` adds: `{key}` when a value is given, none otherwise. */
  function OptionalKey(key: string, x: Option<string>): set<string> {
    if x.Some? then {key} else {}
  }

  // ---------------------------------------------------------------------------
  // The helpers; each returns the entry it writes.

  function TestStarted(env: LoggerEnv, testId: string, url: string, userId: Option<string>): (e: LogEntry)
    ensures e.level == Info && e.message == "Performance test started" && e.error.None?
    ensures e.context.Some? && e.context.value.Keys == {"testId", "url"} + OptionalKey("userId", userId)
    ensures e.context.Some? && e.context.value["testId"] == Text(testId) && e.context.value["url"] == Text(url)
    ensures userId.Some? ==> e.context.Some? && e.context.value["userId"] == Text(userId.value)
  {
    CreateLogEntry(env, Info, "Performance test started",
                   Some(WithOptional(map["testId" := Text(testId), "url" := Text(url)], "userId", userId)), None)
  }

  function TestCompleted(env: LoggerEnv, testId: string, url: string, duration: real, userId: Option<string>): (e: LogEntry)
    ensures e.level == Info && e.message == "Performance test completed" && e.error.None?
    ensures e.context.Some? && e.context.value.Keys == {"testId", "url", "duration"} + OptionalKey("userId", userId)
    ensures e.context.Some? && e.context.value["duration"] == Number(duration)
    ensures e.context.Some? && e.context.value["testId"] == Text(testId) && e.context.value["url"] == Text(url)
    ensures userId.Some? ==> e.context.Some? && e.context.value["userId"] == Text(userId.value)
  {
    CreateLogEntry(env, Info, "Performance test completed",
                   Some(WithOptional(map["testId" := Text(testId), "url" := Text(url), "duration" := Number(duration)],
                                     "userId", userId)), None)
  }

  function TestFailed(env: LoggerEnv, testId: string, url: string, error: LoggedError, userId: Option<string>): (e: LogEntry)
    ensures e.level == ErrorLevel && e.message == "Performance test failed"
    ensures e.context.Some? && e.context.value.Keys == {"testId", "url"} + OptionalKey("userId", userId)
    ensures e.error.Some? && e.error.value.name == error.name && e.error.value.message == error.message
    ensures e.context.Some? && e.context.value["testId"] == Text(testId) && e.context.value["url"] == Text(url)
    ensures userId.Some? ==> e.context.Some? && e.context.value["userId"] == Text(userId.value)
  {
    CreateLogEntry(env, ErrorLevel, "Performance test failed",
                   Some(WithOptional(map["testId" := Text(testId), "url" := Text(url)], "userId", userId)), Some(error))
  }

  function ApiRequest(env: LoggerEnv, httpMethod: string, path: string, userId: Option<string>, ip: Option<string>): (e: LogEntry)
    ensures e.level == Info && e.message == "API request" && e.error.None?
    ensures e.context.Some? && e.context.value.Keys == {"method", "path"} + OptionalKey("userId", userId) + OptionalKey("ip", ip)
    ensures ip.Some? ==> e.context.Some? && e.context.value["ip"] == Text(ip.value)
    ensures e.context.Some? && e.context.value["method"] == Text(httpMethod) && e.context.value["path"] == Text(path)
    ensures userId.Some? ==> e.context.Some? && e.context.value["userId"] == Text(userId.value)
  {
    CreateLogEntry(env, Info, "API request",
                   Some(WithOptional(WithOptional(map["method" := Text(httpMethod), "path" := Text(path)], "userId", userId),
                                     "ip", ip)), None)
  }

  function ApiError(env: LoggerEnv, httpMethod: string, path: string, error: LoggedError,
                    userId: Option<string>, ip: Option<string>): (e: LogEntry)
    ensures e.level == ErrorLevel && e.message == "API error" && e.error.Some?
    ensures e.error.value.name == error.name && e.error.value.message == error.message
    ensures e.context.Some? && e.context.value.Keys == {"method", "path"} + OptionalKey("userId", userId) + OptionalKey("ip", ip)
    ensures e.context.Some? && e.context.value["method"] == Text(httpMethod) && e.context.value["path"] == Text(path)
    ensures userId.Some? ==> e.context.Some? && e.context.value["userId"] == Text(userId.value)
    ensures ip.Some? ==> e.context.Some? && e.context.value["ip"] == Text(ip.value)
  {
    CreateLogEntry(env, ErrorLevel, "API error",
                   Some(WithOptional(WithOptional(map["method" := Text(httpMethod), "path" := Text(path)], "userId", userId),
                                     "ip", ip)), Some(error))
  }

  function UserAuthenticated(env: LoggerEnv, userId: string, authMethod: string): (e: LogEntry)
    ensures e.level == Info && e.message == "User authenticated"
    ensures e.context == Some(map["userId" := Text(userId), "authMethod" := Text(authMethod)])
  {
    CreateLogEntry(env, Info, "User authenticated", Some(map["userId" := Text(userId), "authMethod" := Text(authMethod)]), None)
  }

  function UserRegistered(env: LoggerEnv, userId: string, email: string): (e: LogEntry)
    ensures e.level == Info && e.message == "User registered"
    ensures e.context == Some(map["userId" := Text(userId), "email" := Text(email)])
  {
    CreateLogEntry(env, Info, "User registered", Some(map["userId" := Text(userId), "email" := Text(email)]), None)
  }

  function BetterAuthLogin(env: LoggerEnv, userId: string, provider: Option<string>): (e: LogEntry)
    ensures e.level == Info && e.message == "Better Auth login"
    ensures e.context.Some? && e.context.value.Keys == {"userId"} + OptionalKey("provider", provider)
    ensures e.context.Some? && e.context.value["userId"] == Text(userId)
    ensures provider.Some? ==> e.context.Some? && e.context.value["provider"] == Text(provider.value)
  {
    CreateLogEntry(env, Info, "Better Auth login", Some(WithOptional(map["userId" := Text(userId)], "provider", provider)), None)
  }

  function BetterAuthError(env: LoggerEnv, stage: string, error: LoggedError, userId: Option<string>): (e: LogEntry)
    ensures e.level == ErrorLevel && e.message == "Better Auth error" && e.error.Some?
    ensures e.error.value.name == error.name && e.error.value.message == error.message
    ensures e.context.Some? && e.context.value.Keys == {"stage"} + OptionalKey("userId", userId)
    ensures e.context.Some? && e.context.value["stage"] == Text(stage)
    ensures userId.Some? ==> e.context.Some? && e.context.value["userId"] == Text(userId.value)
  {
    CreateLogEntry(env, ErrorLevel, "Better Auth error", Some(WithOptional(map["stage" := Text(stage)], "userId", userId)), Some(error))
  }

  function PageSpeedApiCall(env: LoggerEnv, endpoint: string, url: Option<string>): (e: LogEntry)
    ensures e.level == Debug && e.message == "PageSpeed Insights API call"
    ensures e.context.Some? && e.context.value.Keys == {"endpoint"} + OptionalKey("url", url)
    ensures e.context.Some? && e.context.value["endpoint"] == Text(endpoint)
    ensures url.Some? ==> e.context.Some? && e.context.value["url"] == Text(url.value)
  {
    CreateLogEntry(env, Debug, "PageSpeed Insights API call", Some(WithOptional(map["endpoint" := Text(endpoint)], "url", url)), None)
  }

  function PageSpeedApiError(env: LoggerEnv, endpoint: string, error: LoggedError, url: Option<string>): (e: LogEntry)
    ensures e.level == ErrorLevel && e.message == "PageSpeed Insights API error" && e.error.Some?
    ensures e.error.value.name == error.name && e.error.value.message == error.message
    ensures e.context.Some? && e.context.value.Keys == {"endpoint"} + OptionalKey("url", url)
    ensures e.context.Some? && e.context.value["endpoint"] == Text(endpoint)
    ensures url.Some? ==> e.context.Some? && e.context.value["url"] == Text(url.value)
  {
    CreateLogEntry(env, ErrorLevel, "PageSpeed Insights API error",
                   Some(WithOptional(map["endpoint" := Text(endpoint)], "url", url)), Some(error))
  }

  function AiAnalysisStarted(env: LoggerEnv, testId: string): (e: LogEntry)
    ensures e.level == Info && e.message == "AI analysis started"
    ensures e.context == Some(map["testId" := Text(testId)])
  {
    CreateLogEntry(env, Info, "AI analysis started", Some(map["testId" := Text(testId)]), None)
  }

  /** Unlike the helpers above, `tokensUsed` is always a key, holding
      `undefined` when no count is given. */
  function AiAnalysisCompleted(env: LoggerEnv, testId: string, tokensUsed: Option<real>): (e: LogEntry)
    ensures e.level == Info && e.message == "AI analysis completed"
    ensures e.context.Some? && e.context.value.Keys == {"testId", "tokensUsed"}
    ensures e.context.Some? && (e.context.value["tokensUsed"] == Undefined <==> tokensUsed.None?)
    ensures e.context.Some? && e.context.value["testId"] == Text(testId)
    ensures tokensUsed.Some? ==> e.context.Some? && e.context.value["tokensUsed"] == Number(tokensUsed.value)
  {
    CreateLogEntry(env, Info, "AI analysis completed",
                   Some(map["testId" := Text(testId),
                            "tokensUsed" := if tokensUsed.Some? then Number(tokensUsed.value) else Undefined]), None)
  }

  function AiAnalysisError(env: LoggerEnv, testId: string, error: LoggedError): (e: LogEntry)
    ensures e.level == ErrorLevel && e.message == "AI analysis failed" && e.error.Some?
    ensures e.error.value.name == error.name && e.error.value.message == error.message
    ensures e.context == Some(map["testId" := Text(testId)])
  {
    CreateLogEntry(env, ErrorLevel, "AI analysis failed", Some(map["testId" := Text(testId)]), Some(error))
  }

  // ---------------------------------------------------------------------------
  // getRequestContext.

  /** `request.headers`, keyed by lower-case header name. */
  type Headers = map<string, string>

  /** `getRequestContext`: `userAgent` when the header exists; `ip` from
      `x-forwarded-for` unless that is missing or empty, then from `x-real-ip`,
      and unset when the fallback is missing too. */
  function GetRequestContext(headers: Headers): (c: LogContext)
    ensures c.Keys <= {"userAgent", "ip"}
    ensures "userAgent" in c <==> "user-agent" in headers
    ensures "userAgent" in c ==> c["userAgent"] == Text(headers["user-agent"])
    ensures "ip" in c <==> ("x-forwarded-for" in headers && headers["x-forwarded-for"] != "") || "x-real-ip" in headers
    ensures "x-forwarded-for" in headers && headers["x-forwarded-for"] != "" ==> c["ip"] == Text(headers["x-forwarded-for"])
    ensures ("x-forwarded-for" !in headers || headers["x-forwarded-for"] == "") && "x-real-ip" in headers ==>
              c["ip"] == Text(headers["x-real-ip"])
  {
    var ua := if "user-agent" in headers then Some(headers["user-agent"]) else None;
    var forwarded := if "x-forwarded-for" in headers then Some(headers["x-forwarded-for"]) else None;
    var realIp := if "x-real-ip" in headers then Some(headers["x-real-ip"]) else None;
    var ip := if forwarded.Some? && forwarded.value != "" then forwarded else realIp;
    WithOptional(WithOptional(map[], "userAgent", ua), "ip", ip)
  }

  // ---------------------------------------------------------------------------
  // PerformanceMonitor.

  /** Start times per operation id. The clock is passed to each call. */
  class PerformanceMonitor {
    var startTimes: map<string, int>

    constructor()
      ensures startTimes == map[]
    {
      startTimes := map[];
    }

    /** Records (or overwrites) the start time of `operationId`. */
    method Start(operationId: string, now: int)
      modifies this
      ensures startTimes == old(startTimes)[operationId := now]
    {
      startTimes := startTimes[operationId := now];
    }

    /** Returns the elapsed time and forgets the start time. With no start time,
        or a start time of 0 (falsy), it returns 0 and changes nothing. */
    method End(operationId: string, now: int) returns (duration: int)
      modifies this
      ensures operationId !in old(startTimes) || old(startTimes)[operationId] == 0 ==>
                duration == 0 && startTimes == old(startTimes)
      ensures operationId in old(startTimes) && old(startTimes)[operationId] != 0 ==>
                duration == now - old(startTimes)[operationId] && startTimes == old(startTimes) - {operationId}
    {
      if operationId !in startTimes || startTimes[operationId] == 0 {
        return 0;
      }
      var startTime := startTimes[operationId];
      duration := now - startTime;
      startTimes := startTimes - {operationId};
    }

    /** Brackets an operation with `Start` and `End`. The operation's outcome is
        passed in; it is returned on success and rethrown on failure. */
    method Measure<T>(operationId: string, startNow: int, outcome: Result<T, Thrown>, endNow: int)
      returns (r: Result<T, Thrown>)
      modifies this
      ensures r == outcome
      ensures startNow != 0 ==> startTimes == old(startTimes) - {operationId}
      ensures startNow == 0 ==> startTimes == old(startTimes)[operationId := 0]
    {
      Start(operationId, startNow);
      var _ := End(operationId, endNow);
      r := outcome;
    }
  }
}
