/**
 * One run of the scheduled task: fetch the configuration, launch the
 * browser, log in, check the account and unlock it when it is locked,
 * report a changed password, sign in again to remove devices, and choose the
 * delay before the next run. Every external answer (the configuration, the
 * proxy fetch, the browser launch, the pages, the random draws and the
 * unexpected errors) is part of the run's environment.
 */
module Task {
  import opened Wrappers
  import opened Strings
  import Password
  import Locales
  import AppleId
  import Notification

  /** The task configuration served by the API; an absent optional text is `''`, an absent flag `false`. */
  datatype TaskConfig = TaskConfig(
    id: string,
    username: string,
    password: string,
    dob: string,
    q1: string, a1: string,
    q2: string, a2: string,
    q3: string, a3: string,
    checkInterval: int,
    webdriver: string,
    proxyProtocol: string,
    proxyContent: string,
    tgChatId: string,
    tgBotToken: string,
    wxPusherId: string,
    webhook: string,
    checkPasswordCorrect: bool,
    enableDeleteDevices: bool,
    taskHeadless: bool,
    failRetry: bool,
    enable: bool
  )

  /** The delay, in minutes, used before any configuration is known and after a missing or disabled one. */
  const DefaultMinutes: int := 10
  /** The delay after a failed run when `fail_retry` is set. */
  const RetryMinutes: int := 5

  // ---------------------------------------------------------------------
  // The security-answer object

  /** The keys of an object are distinct. */
  predicate DistinctKeys(m: AppleId.Answers) {
    forall i, j :: 0 <= i < j < |m| ==> m[i].0 != m[j].0
  }

  /** The position of `key` among the keys of `m`, or `|m|` when it is not one of them. */
  function IndexOf(m: AppleId.Answers, key: string): (i: nat)
    ensures i <= |m|
    ensures i < |m| ==> m[i].0 == key
    ensures forall j :: 0 <= j < i ==> m[j].0 != key
  {
    if m == [] then 0 else if m[0].0 == key then 0 else 1 + IndexOf(m[1..], key)
  }

  /**
   * `obj[key] = value` on a plain object with string keys: a new key goes
   * last, an existing key keeps its place and takes the new value.
   */
  function Assign(m: AppleId.Answers, key: string, value: string): (r: AppleId.Answers)
    ensures r == if IndexOf(m, key) == |m| then m + [(key, value)] else m[IndexOf(m, key) := (key, value)]
  {
    if m == [] then [(key, value)]
    else if m[0].0 == key then [(key, value)] + m[1..]
    else [m[0]] + Assign(m[1..], key, value)
  }

  /** Assignment keeps the keys of an object distinct. */
  lemma AssignKeepsKeysDistinct(m: AppleId.Answers, key: string, value: string)
    requires DistinctKeys(m)
    ensures DistinctKeys(Assign(m, key, value))
  {
    var r := Assign(m, key, value);
    if IndexOf(m, key) < |m| {
      assert forall j :: 0 <= j < |m| ==> r[j].0 == m[j].0;
    }
  }

  /** `{[q1]: a1, [q2]: a2, [q3]: a3}`. */
  function BuildAnswers(c: TaskConfig): AppleId.Answers {
    Assign(Assign(Assign([], c.q1, c.a1), c.q2, c.a2), c.q3, c.a3)
  }

  /** The answer object never holds a question twice. */
  lemma AnswersHaveDistinctKeys(c: TaskConfig)
    ensures DistinctKeys(BuildAnswers(c))
  {
    AssignKeepsKeysDistinct([], c.q1, c.a1);
    AssignKeepsKeysDistinct(Assign([], c.q1, c.a1), c.q2, c.a2);
    AssignKeepsKeysDistinct(Assign(Assign([], c.q1, c.a1), c.q2, c.a2), c.q3, c.a3);
  }

  /** Three different questions give three entries in configuration order. */
  lemma AnswersOfDistinctQuestions(c: TaskConfig)
    requires c.q1 != c.q2 && c.q1 != c.q3 && c.q2 != c.q3
    ensures BuildAnswers(c) == [(c.q1, c.a1), (c.q2, c.a2), (c.q3, c.a3)]
  {
    var m1 := Assign([], c.q1, c.a1);
    assert IndexOf(m1, c.q2) == 1;
    var m2 := Assign(m1, c.q2, c.a2);
    assert m2 == [(c.q1, c.a1), (c.q2, c.a2)];
    assert IndexOf(m2, c.q3) == 2;
  }

  /** A repeated question keeps its first place but takes the later answer. */
  lemma AnswersOfRepeatedQuestion(c: TaskConfig)
    requires c.q1 == c.q2 && c.q1 != c.q3
    ensures BuildAnswers(c) == [(c.q1, c.a2), (c.q3, c.a3)]
  {
    var m1 := Assign([], c.q1, c.a1);
    assert m1 == [(c.q1, c.a1)];
    var m2 := Assign(m1, c.q2, c.a2);
    assert m2 == [(c.q1, c.a2)];
    assert Assign(m2, c.q3, c.a3) == m2 + [(c.q3, c.a3)];
  }

  // ---------------------------------------------------------------------
  // The proxy

  /**
   * The proxy string for the browser: none in debug mode or without both a
   * protocol and a content; for a protocol mentioning `url` the content is an
   * address whose response body is the proxy, and the scheme is the protocol
   * up to its first `+`; a failed fetch leaves no proxy.
   */
  function ProxyString(debug: bool, c: TaskConfig, fetched: Option<string>): (proxy: string)
    ensures debug || c.proxyContent == "" || c.proxyProtocol == "" ==> proxy == ""
    ensures !debug && c.proxyContent != "" && c.proxyProtocol != "" && !Contains(c.proxyProtocol, "url") ==>
              proxy == c.proxyProtocol + "://" + c.proxyContent
    ensures !debug && c.proxyContent != "" && c.proxyProtocol != "" && Contains(c.proxyProtocol, "url") ==>
              proxy == (if fetched.Some? then BeforeFirst(c.proxyProtocol, '+') + "://" + fetched.value else "")
  {
    if debug || c.proxyContent == "" || c.proxyProtocol == "" then ""
    else if Contains(c.proxyProtocol, "url") then
      match fetched
      case None => ""
      case Some(body) => BeforeFirst(c.proxyProtocol, '+') + "://" + body
    else c.proxyProtocol + "://" + c.proxyContent
  }

  /** A protocol such as `socks5+url` fetches the proxy address and keeps `socks5` as its scheme. */
  lemma ProxyFromUrl(c: TaskConfig, scheme: string, body: string)
    requires c.proxyProtocol == scheme + "+url" && '+' !in scheme && c.proxyContent != ""
    ensures ProxyString(false, c, Some(body)) == scheme + "://" + body
  {
    assert scheme + "+url" == scheme + ['+'] + "url";
    BeforeFirstOfJoin(scheme, '+', "url");
    ContainsInfix(scheme + "+", "url", "");
    assert scheme + "+" + "url" + "" == c.proxyProtocol;
  }

  // ---------------------------------------------------------------------
  // What a run does

  /** A message whose text comes from the locale table. */
  datatype Notice = WebDriverFailed | UnlockFailed | PasswordUpdated(newPassword: string)

  /** The account operations a run invokes. */
  datatype Step = LoginStep | TwoFactorProbe | LockProbe | UnlockStep | SignInStep | DeleteDevicesStep

  datatype Event =
    | BrowserLaunch(headless: bool, proxy: string, webdriver: string)
    | MessageUpdated(username: string, notice: Notice)   // `apiService.updateMessage`
    | AccountUpdated(username: string, password: string) // `updateAccount`; `''` when the password is unchanged
    | Notified(target: Notification.NotificationConfig, notice: Notice)
    | Called(step: Step)
    | BrowserClosed

  /**
   * The environment of one run. An error inside an account step is that
   * step's failure, as the page says; every step catches its own errors.
   */
  datatype RunEnv = RunEnv(
    config: Option<TaskConfig>,  // `getTaskConfig`, None when it yields nothing
    proxyBody: Option<string>,   // the body fetched from a `url` proxy address, None when the fetch fails
    launchOk: bool,              // `browserService.launch`
    page: AppleId.Page,
    random: seq<real>            // the draws of `Math.random()` for a new password
  )

  /** `sendNotification` passes the contact fields and no proxy. */
  function NotifyTarget(c: TaskConfig): (t: Notification.NotificationConfig)
    ensures t.username == c.username
    ensures t.tgBotToken == c.tgBotToken && t.tgChatId == c.tgChatId
    ensures t.wxPusherId == c.wxPusherId && t.webhook == c.webhook
    ensures Notification.ProxyFor(t) == None
  {
    Notification.NotificationConfig(c.username, c.tgBotToken, c.tgChatId, c.wxPusherId, c.webhook, "")
  }

  /**
   * How the body of the `try` block ends, with the task's whole event log so
   * far: an early `return`, or the end of the block with the job's success.
   * No step it calls lets an error escape, so it never ends in the `catch` block.
   */
  datatype Flow = Returned(events: seq<Event>) | Finished(events: seq<Event>, success: bool)

  /** The generated password, when a reset asks for one. */
  function NewPassword(env: RunEnv): string
    requires Password.Yields(env.random)
  {
    Password.Generated(env.random).value
  }

  /** The account password after the status check: the new one only when an unlock reset it. */
  function PasswordAfterCheck(c: TaskConfig, env: RunEnv): string
    requires Password.Yields(env.random)
  {
    if !AppleId.Check2FA(env.page) && !AppleId.Check(env.page) && AppleId.UnlockResets(c.dob, BuildAnswers(c), env.page)
    then NewPassword(env)
    else c.password
  }

  /** Reporting the password, then the optional sign-in and device removal, after `log`. */
  function Report(c: TaskConfig, env: RunEnv, log: seq<Event>, password: string): (f: Flow)
    ensures f.Finished?
  {
    var reported :=
      if password != c.password then log + [AccountUpdated(c.username, password)] + [Notified(NotifyTarget(c), PasswordUpdated(password))]
      else log + [AccountUpdated(c.username, "")];
    if !(c.enableDeleteDevices || c.checkPasswordCorrect) then Finished(reported, true)
    else
      var signIn := reported + [Called(SignInStep)];
      if !AppleId.SignInRun(c.username, password, env.page).ok then Finished(signIn, false)
      else if !c.enableDeleteDevices then Finished(signIn, true)
      else Finished(signIn + [Called(DeleteDevicesStep)], true)
  }

  /** From the two-factor probe to the unlock, after a successful login, then reporting. */
  function Status(c: TaskConfig, env: RunEnv, log: seq<Event>): Flow
    requires Password.Yields(env.random)
  {
    var page := env.page;
    var twoFactor := log + [Called(TwoFactorProbe)];
    if AppleId.Check2FA(page) then Report(c, env, twoFactor, c.password)
    else
      var lock := twoFactor + [Called(LockProbe)];
      if AppleId.Check(page) then Report(c, env, lock, c.password)
      else Unlocking(c, env, lock)
  }

  /**
   * The unlock of an account found locked, then reporting: `unlock()`
   * succeeds when its own probe finds the account unlocked or when its reset
   * chain goes through (`AppleId.UnlockSucceedsIff`), and only the latter
   * gives the account the new password.
   */
  function Unlocking(c: TaskConfig, env: RunEnv, log: seq<Event>): Flow
    requires Password.Yields(env.random)
  {
    var unlock := log + [Called(UnlockStep)];
    if AppleId.Recheck(env.page) then Report(c, env, unlock, c.password)
    else if !AppleId.UnlockResets(c.dob, BuildAnswers(c), env.page) then
      Returned(unlock + [Notified(NotifyTarget(c), UnlockFailed)])
    else Report(c, env, unlock, NewPassword(env))
  }

  /** The body of the `try` block. */
  function Session(c: TaskConfig, env: RunEnv, log: seq<Event>): Flow
    requires Password.Yields(env.random)
  {
    var login := log + [Called(LoginStep)];
    if !AppleId.LoginRun(c.username, env.page).ok then Returned(login)
    else Status(c, env, login)
  }

  /** The scheduling block: `check_interval`, or five minutes after a failure when `fail_retry` is set. */
  function NextDelay(c: TaskConfig, success: bool): int {
    if c.failRetry then (if success then c.checkInterval else RetryMinutes) else c.checkInterval
  }

  /** The browser launch a configuration asks for: headed and the local driver in debug mode. */
  function LaunchOf(debug: bool, c: TaskConfig, fetched: Option<string>): Event {
    BrowserLaunch(!debug && c.taskHeadless, ProxyString(debug, c, fetched), if debug then "local" else c.webdriver)
  }

  /** The event log after a run, the delay it leaves behind and the configuration it leaves stored. */
  datatype RunResult = RunResult(events: seq<Event>, next: int, config: Option<TaskConfig>)

  /** `executeTask()`, from the previous delay, stored configuration and event log. */
  function Run(env: RunEnv, debug: bool, prev: int, prevConfig: Option<TaskConfig>, log: seq<Event>): RunResult
    requires Password.Yields(env.random)
  {
    match env.config
    case None => RunResult(log, DefaultMinutes, prevConfig)
    case Some(c) =>
      if !c.enable && !debug then RunResult(log, DefaultMinutes, Some(c))
      else
        var launched := log + [LaunchOf(debug, c, env.proxyBody)];
        if !env.launchOk then
          RunResult(launched + [MessageUpdated(c.username, WebDriverFailed)] + [Notified(NotifyTarget(c), WebDriverFailed)], prev, Some(c))
        else
          match Session(c, env, launched)
          case Returned(evs) => RunResult(evs + [BrowserClosed], prev, Some(c))
          case Finished(evs, success) => RunResult(evs + [BrowserClosed], NextDelay(c, success), Some(c))
  }

  // ---------------------------------------------------------------------
  // Properties of a run

  /** Without a configuration the delay is ten minutes and nothing is launched or sent. */
  lemma NoConfigNoActivity(env: RunEnv, debug: bool, prev: int, prevConfig: Option<TaskConfig>, log: seq<Event>)
    requires Password.Yields(env.random) && env.config.None?
    ensures Run(env, debug, prev, prevConfig, log) == RunResult(log, DefaultMinutes, prevConfig)
  {
  }

  /** A disabled task waits ten minutes without launching anything, unless debug mode runs it anyway. */
  lemma DisabledTask(env: RunEnv, prev: int, prevConfig: Option<TaskConfig>, log: seq<Event>)
    requires Password.Yields(env.random) && env.config.Some? && !env.config.value.enable
    ensures Run(env, false, prev, prevConfig, log) == RunResult(log, DefaultMinutes, env.config)
  {
  }

  /** A failed launch reports the driver failure and returns before scheduling: the previous delay stays. */
  lemma LaunchFailureKeepsDelay(env: RunEnv, debug: bool, prev: int, prevConfig: Option<TaskConfig>, log: seq<Event>)
    requires Password.Yields(env.random) && env.config.Some?
    requires env.config.value.enable || debug
    requires !env.launchOk
    ensures var c := env.config.value;
            Run(env, debug, prev, prevConfig, log) ==
              RunResult(log + [LaunchOf(debug, c, env.proxyBody)] + [MessageUpdated(c.username, WebDriverFailed)]
                        + [Notified(NotifyTarget(c), WebDriverFailed)], prev, env.config)
  {
  }

  /** A failed login returns before scheduling, after closing the browser. */
  lemma LoginFailureKeepsDelay(env: RunEnv, debug: bool, prev: int, prevConfig: Option<TaskConfig>, log: seq<Event>)
    requires Password.Yields(env.random) && env.config.Some?
    requires env.config.value.enable || debug
    requires env.launchOk && !AppleId.LoginRun(env.config.value.username, env.page).ok
    ensures Run(env, debug, prev, prevConfig, log) ==
              RunResult(log + [LaunchOf(debug, env.config.value, env.proxyBody)] + [Called(LoginStep)] + [BrowserClosed],
                        prev, env.config)
  {
  }

  /** Any early return from the session keeps the previous delay, after closing the browser. */
  lemma EarlyReturnKeepsDelay(env: RunEnv, debug: bool, prev: int, prevConfig: Option<TaskConfig>, log: seq<Event>)
    requires Password.Yields(env.random) && env.config.Some?
    requires env.config.value.enable || debug
    requires env.launchOk
    requires Session(env.config.value, env, log + [LaunchOf(debug, env.config.value, env.proxyBody)]).Returned?
    ensures var s := Session(env.config.value, env, log + [LaunchOf(debug, env.config.value, env.proxyBody)]);
            Run(env, debug, prev, prevConfig, log) == RunResult(s.events + [BrowserClosed], prev, env.config)
  {
  }

  /** A locked account whose unlock fails gets the unlock-failure notice, and the session returns early. */
  lemma UnlockFailureReturns(c: TaskConfig, env: RunEnv, log: seq<Event>)
    requires Password.Yields(env.random)
    requires AppleId.LoginRun(c.username, env.page).ok
    requires !AppleId.Check2FA(env.page) && !AppleId.Check(env.page) && !AppleId.Recheck(env.page)
    requires !AppleId.UnlockResets(c.dob, BuildAnswers(c), env.page)
    ensures Session(c, env, log) ==
              Returned(log + [Called(LoginStep)] + [Called(TwoFactorProbe)] + [Called(LockProbe)] + [Called(UnlockStep)]
                       + [Notified(NotifyTarget(c), UnlockFailed)])
  {
    var lock := log + [Called(LoginStep)] + [Called(TwoFactorProbe)] + [Called(LockProbe)];
    assert Unlocking(c, env, lock) == Returned(lock + [Called(UnlockStep)] + [Notified(NotifyTarget(c), UnlockFailed)]);
  }

  /**
   * When the task's probe finds the account locked but the probe with which
   * `unlock()` starts does not, the unlock succeeds without a step, no
   * failure is notified, and reporting goes on with the unchanged password.
   */
  lemma RecheckSkipsUnlock(c: TaskConfig, env: RunEnv, log: seq<Event>)
    requires Password.Yields(env.random)
    requires AppleId.LoginRun(c.username, env.page).ok
    requires !AppleId.Check2FA(env.page) && !AppleId.Check(env.page) && AppleId.Recheck(env.page)
    ensures Session(c, env, log) ==
              Report(c, env, log + [Called(LoginStep)] + [Called(TwoFactorProbe)] + [Called(LockProbe)] + [Called(UnlockStep)],
                     c.password)
    ensures PasswordAfterCheck(c, env) == c.password
  {
    var lock := log + [Called(LoginStep)] + [Called(TwoFactorProbe)] + [Called(LockProbe)];
    assert Unlocking(c, env, lock) == Report(c, env, lock + [Called(UnlockStep)], c.password);
  }

  /**
   * A launched run always ends by closing the browser, whether the session
   * returned early or finished: the `finally` block.
   */
  lemma LaunchedRunClosesBrowser(env: RunEnv, debug: bool, prev: int, prevConfig: Option<TaskConfig>, log: seq<Event>)
    requires Password.Yields(env.random) && env.config.Some?
    requires env.config.value.enable || debug
    requires env.launchOk
    ensures var s := Session(env.config.value, env, log + [LaunchOf(debug, env.config.value, env.proxyBody)]);
            Run(env, debug, prev, prevConfig, log).events == s.events + [BrowserClosed]
  {
    var s := Session(env.config.value, env, log + [LaunchOf(debug, env.config.value, env.proxyBody)]);
    if s.Returned? {
      assert Run(env, debug, prev, prevConfig, log).events == s.events + [BrowserClosed];
    } else {
      assert Run(env, debug, prev, prevConfig, log).events == s.events + [BrowserClosed];
    }
  }

  /**
   * Once the account is usable (two-factor, unlocked, found unlocked by
   * `unlock()`, or unlocked now) the run reaches scheduling; the job fails
   * only when the follow-up sign-in is asked for and rejected, and then
   * `fail_retry` shortens the delay to five minutes.
   */
  lemma DelayPolicy(env: RunEnv, debug: bool, prev: int, prevConfig: Option<TaskConfig>, log: seq<Event>)
    requires Password.Yields(env.random) && env.config.Some?
    requires env.config.value.enable || debug
    requires env.launchOk && AppleId.LoginRun(env.config.value.username, env.page).ok
    requires AppleId.Check2FA(env.page) || AppleId.Check(env.page) || AppleId.Recheck(env.page) ||
             AppleId.UnlockResets(env.config.value.dob, BuildAnswers(env.config.value), env.page)
    ensures var c := env.config.value;
            var success := !(c.enableDeleteDevices || c.checkPasswordCorrect) ||
                           AppleId.SignInRun(c.username, PasswordAfterCheck(c, env), env.page).ok;
            Run(env, debug, prev, prevConfig, log).next == (if c.failRetry && !success then RetryMinutes else c.checkInterval)
  {
    var c := env.config.value;
    var launched := log + [LaunchOf(debug, c, env.proxyBody)];
    var twoFactor := launched + [Called(LoginStep)] + [Called(TwoFactorProbe)];
    var lock := twoFactor + [Called(LockProbe)];
    if AppleId.Check2FA(env.page) {
      ReportOutcome(c, env, twoFactor, c.password);
      assert Session(c, env, launched) == Report(c, env, twoFactor, c.password);
    } else if AppleId.Check(env.page) {
      ReportOutcome(c, env, lock, c.password);
      assert Session(c, env, launched) == Report(c, env, lock, c.password);
    } else if AppleId.Recheck(env.page) {
      var unlock := lock + [Called(UnlockStep)];
      ReportOutcome(c, env, unlock, c.password);
      assert Unlocking(c, env, lock) == Report(c, env, unlock, c.password);
      assert Session(c, env, launched) == Report(c, env, unlock, c.password);
    } else {
      var unlock := lock + [Called(UnlockStep)];
      ReportOutcome(c, env, unlock, NewPassword(env));
      assert Unlocking(c, env, lock) == Report(c, env, unlock, NewPassword(env));
      assert Session(c, env, launched) == Report(c, env, unlock, NewPassword(env));
    }
  }

  /** Reporting fails only on a rejected sign-in that was asked for. */
  lemma ReportOutcome(c: TaskConfig, env: RunEnv, log: seq<Event>, password: string)
    ensures Report(c, env, log, password).success <==>
              !(c.enableDeleteDevices || c.checkPasswordCorrect) || AppleId.SignInRun(c.username, password, env.page).ok
  {
  }

  /** The events `Report` adds after the log it is given. */
  function ReportTail(c: TaskConfig, env: RunEnv, password: string): seq<Event> {
    Report(c, env, [], password).events
  }

  lemma ReportKeepsPrefix(c: TaskConfig, env: RunEnv, log: seq<Event>, password: string)
    ensures Report(c, env, log, password).events == log + ReportTail(c, env, password)
  {
    var changed: seq<Event> :=
      if password != c.password then [AccountUpdated(c.username, password)] + [Notified(NotifyTarget(c), PasswordUpdated(password))]
      else [AccountUpdated(c.username, "")];
    ConcatAssoc(log, [AccountUpdated(c.username, password)], [Notified(NotifyTarget(c), PasswordUpdated(password))]);
    ConcatAssoc(log, changed, [Called(SignInStep)]);
    ConcatAssoc(log, changed + [Called(SignInStep)], [Called(DeleteDevicesStep)]);
  }

  /** Reporting invokes only the sign-in and device steps. */
  lemma ReportTailSteps(c: TaskConfig, env: RunEnv, password: string)
    ensures forall s :: Called(s) in ReportTail(c, env, password) ==> s == SignInStep || s == DeleteDevicesStep
  {
  }

  /** With two-factor authentication detected, neither the lock probe nor the unlock runs. */
  lemma TwoFactorSkipsUnlock(c: TaskConfig, env: RunEnv, log: seq<Event>)
    requires Password.Yields(env.random)
    requires AppleId.LoginRun(c.username, env.page).ok && AppleId.Check2FA(env.page)
    ensures Session(c, env, log).events == log + [Called(LoginStep), Called(TwoFactorProbe)] + ReportTail(c, env, c.password)
    ensures Called(LockProbe) !in ReportTail(c, env, c.password)
    ensures Called(UnlockStep) !in ReportTail(c, env, c.password)
  {
    ReportKeepsPrefix(c, env, log + [Called(LoginStep)] + [Called(TwoFactorProbe)], c.password);
    ReportTailSteps(c, env, c.password);
  }

  /**
   * The new password is reported and announced exactly when it differs from
   * the configured one; otherwise `''` is reported and nothing is announced.
   */
  lemma PasswordChangeReported(c: TaskConfig, env: RunEnv, password: string)
    ensures var evs := ReportTail(c, env, password);
            password != c.password ==>
              evs[0] == AccountUpdated(c.username, password) &&
              evs[1] == Notified(NotifyTarget(c), PasswordUpdated(password))
    ensures var evs := ReportTail(c, env, password);
            password == c.password ==>
              evs[0] == AccountUpdated(c.username, "") &&
              forall p :: Notified(NotifyTarget(c), PasswordUpdated(p)) !in evs
  {
  }

  /** The password changes only through an accepted reset, and then it is the generated one. */
  lemma PasswordChangesOnlyByReset(c: TaskConfig, env: RunEnv)
    requires Password.Yields(env.random)
    ensures PasswordAfterCheck(c, env) != c.password ==>
              PasswordAfterCheck(c, env) == NewPassword(env) &&
              AppleId.UnlockResets(c.dob, BuildAnswers(c), env.page)
  {
  }

  /**
   * The sign-in runs only when device removal or a password check is asked
   * for; device removal only after a successful sign-in and only when asked
   * for; a failed sign-in fails the job.
   */
  lemma DeviceStepConditions(c: TaskConfig, env: RunEnv, log: seq<Event>, password: string)
    ensures !(c.enableDeleteDevices || c.checkPasswordCorrect) ==> Called(SignInStep) !in ReportTail(c, env, password)
    ensures Called(DeleteDevicesStep) in ReportTail(c, env, password) <==>
              c.enableDeleteDevices && AppleId.SignInRun(c.username, password, env.page).ok
    ensures (c.enableDeleteDevices || c.checkPasswordCorrect) && !AppleId.SignInRun(c.username, password, env.page).ok ==>
              Report(c, env, log, password) == Finished(log + ReportTail(c, env, password), false)
  {
    ReportKeepsPrefix(c, env, log, password);
  }

  /**
   * The two ways the unlock goes on: a failed `unlock()` returns after the
   * failure notice; a successful one goes on to reporting with the password
   * the account then has.
   */
  lemma UnlockingSteps(c: TaskConfig, env: RunEnv, log: seq<Event>, ok: bool, password: string)
    requires Password.Yields(env.random)
    requires ok == (AppleId.Recheck(env.page) || AppleId.UnlockResets(c.dob, BuildAnswers(c), env.page))
    requires password == if AppleId.UnlockResets(c.dob, BuildAnswers(c), env.page) then NewPassword(env) else c.password
    ensures !ok ==> Unlocking(c, env, log) == Returned(log + [Called(UnlockStep)] + [Notified(NotifyTarget(c), UnlockFailed)])
    ensures ok ==> Unlocking(c, env, log) == Report(c, env, log + [Called(UnlockStep)], password)
  {
  }

  // ---------------------------------------------------------------------
  // The service

  class TaskService {
    const taskId: string
    const lang: string
    const debug: bool
    /** The message table chosen from `lang` once, at construction. */
    const locale: Locales.Table
    var nextRunMinutes: int
    /** The last configuration fetched; None until one arrives. */
    var taskConfig: Option<TaskConfig>
    /** Everything the runs did outside the browser page, in order. */
    var events: seq<Event>

    constructor (taskId: string, lang: string, debug: bool)
      ensures this.taskId == taskId && this.lang == lang && this.debug == debug
      ensures locale == Locales.GetLocale(lang)
      ensures nextRunMinutes == DefaultMinutes && taskConfig == None && events == []
    {
      this.taskId := taskId;
      this.lang := lang;
      this.debug := debug;
      locale := Locales.GetLocale(lang);
      nextRunMinutes := DefaultMinutes;
      taskConfig := None;
      events := [];
    }

    /** `sendNotification(content)`: nothing before a configuration is known. */
    method SendNotification(notice: Notice)
      modifies this`events
      ensures taskConfig.None? ==> events == old(events)
      ensures taskConfig.Some? ==> events == old(events) + [Notified(NotifyTarget(taskConfig.value), notice)]
    {
      if taskConfig.None? {
        return;
      }
      events := events + [Notified(NotifyTarget(taskConfig.value), notice)];
    }

    /** `getNextRunMinutes()`. */
    function GetNextRunMinutes(): int
      reads this
    {
      nextRunMinutes
    }

    /**
     * Reporting the password, then the optional sign-in and device removal.
     * The page actions it appends to `svc.actions` are specified by the
     * `AppleId.AppleIdService` methods it calls; here only the run's events,
     * password and outcome are stated.
     */
    method ReportAndRemove(svc: AppleId.AppleIdService, c: TaskConfig, env: RunEnv) returns (success: bool)
      requires svc.username == c.username && svc.page == env.page
      requires taskConfig == Some(c)
      modifies this`events, svc`actions
      ensures var f := Report(c, env, old(events), old(svc.password));
              events == f.events && success == f.success
    {
      var newPassword := svc.password;
      if newPassword != c.password {
        events := events + [AccountUpdated(c.username, newPassword)];
        SendNotification(PasswordUpdated(newPassword));
      } else {
        events := events + [AccountUpdated(c.username, "")];
      }
      success := true;
      if c.enableDeleteDevices || c.checkPasswordCorrect {
        events := events + [Called(SignInStep)];
        var signedIn := svc.LoginAppleId();
        if signedIn {
          if c.enableDeleteDevices {
            events := events + [Called(DeleteDevicesStep)];
            var _ := svc.DeleteDevices();
          }
        } else {
          success := false;
        }
      }
    }

    /**
     * The two-factor and lock probes, the unlock when needed, then reporting.
     * The page actions it appends to `svc.actions` are specified by the
     * `AppleId.AppleIdService` methods it calls; here only the run's events,
     * password and outcome are stated.
     */
    method CheckAndUnlock(svc: AppleId.AppleIdService, c: TaskConfig, env: RunEnv)
      returns (returned: bool, success: bool)
      requires Password.Yields(env.random)
      requires svc.username == c.username && svc.password == c.password && svc.dob == c.dob
      requires svc.answers == BuildAnswers(c) && svc.page == env.page
      requires taskConfig == Some(c)
      modifies this`events, svc`actions, svc`password
      ensures var f := Status(c, env, old(events));
              events == f.events && returned == f.Returned? && (f.Finished? ==> success == f.success)
    {
      var page := env.page;
      ghost var log := events;
      returned := false;
      events := events + [Called(TwoFactorProbe)];
      if AppleId.Check2FA(page) {
        assert Status(c, env, log) == Report(c, env, events, c.password);
        success := ReportAndRemove(svc, c, env);
        return;
      }
      events := events + [Called(LockProbe)];
      if AppleId.Check(page) {
        assert Status(c, env, log) == Report(c, env, events, c.password);
        success := ReportAndRemove(svc, c, env);
        return;
      }
      returned, success := UnlockAndReport(svc, c, env);
    }

    /** `unlock()`: success, and the new password only after an accepted reset. */
    method UnlockAccount(svc: AppleId.AppleIdService, c: TaskConfig, env: RunEnv) returns (ok: bool)
      requires Password.Yields(env.random)
      requires svc.password == c.password && svc.dob == c.dob && svc.answers == BuildAnswers(c) && svc.page == env.page
      modifies svc`actions, svc`password
      ensures ok == (AppleId.Recheck(env.page) || AppleId.UnlockResets(c.dob, BuildAnswers(c), env.page))
      ensures svc.password == if AppleId.UnlockResets(c.dob, BuildAnswers(c), env.page) then NewPassword(env) else c.password
    {
      ok := svc.Unlock(env.random);
      AppleId.UnlockSucceedsIff(c.dob, BuildAnswers(c), env.page, NewPassword(env));
    }

    /**
     * The unlock of a locked account, then reporting.
     * The page actions it appends to `svc.actions` are specified by the
     * `AppleId.AppleIdService` methods it calls; here only the run's events,
     * password and outcome are stated.
     */
    method UnlockAndReport(svc: AppleId.AppleIdService, c: TaskConfig, env: RunEnv)
      returns (returned: bool, success: bool)
      requires Password.Yields(env.random)
      requires svc.username == c.username && svc.password == c.password && svc.dob == c.dob
      requires svc.answers == BuildAnswers(c) && svc.page == env.page
      requires taskConfig == Some(c)
      modifies this`events, svc`actions, svc`password
      ensures var f := Unlocking(c, env, old(events));
              events == f.events && returned == f.Returned? && (f.Finished? ==> success == f.success)
    {
      ghost var log := events;
      events := events + [Called(UnlockStep)];
      var unlocked := UnlockAccount(svc, c, env);
      UnlockingSteps(c, env, log, unlocked, svc.password);
      if !unlocked {
        SendNotification(UnlockFailed);
        return true, false;
      }
      returned := false;
      success := ReportAndRemove(svc, c, env);
    }

    /**
     * The body of the `try` block, on a freshly bound account service.
     * The page actions it appends to `svc.actions` are specified by the
     * `AppleId.AppleIdService` methods it calls; here only the run's events,
     * password and outcome are stated.
     */
    method TrySession(svc: AppleId.AppleIdService, c: TaskConfig, env: RunEnv)
      returns (returned: bool, success: bool)
      requires Password.Yields(env.random)
      requires svc.username == c.username && svc.password == c.password && svc.dob == c.dob
      requires svc.answers == BuildAnswers(c) && svc.page == env.page
      requires taskConfig == Some(c)
      modifies this`events, svc`actions, svc`password
      ensures var f := Session(c, env, old(events));
              events == f.events && returned == f.Returned? && (f.Finished? ==> success == f.success)
    {
      events := events + [Called(LoginStep)];
      var loggedIn := svc.Login();
      if !loggedIn {
        return true, false;
      }
      returned, success := CheckAndUnlock(svc, c, env);
    }

    /** `executeTask()`. */
    method ExecuteTask(env: RunEnv)
      requires Password.Yields(env.random)
      modifies this`nextRunMinutes, this`taskConfig, this`events
      ensures var r := Run(env, debug, old(nextRunMinutes), old(taskConfig), old(events));
              events == r.events && nextRunMinutes == r.next && taskConfig == r.config
    {
      if env.config.None? {
        nextRunMinutes := DefaultMinutes;
        return;
      }
      var config := env.config.value;
      taskConfig := Some(config);
      if !config.enable && !debug {
        nextRunMinutes := DefaultMinutes;
        return;
      }
      var proxy := ProxyString(debug, config, env.proxyBody);
      events := events + [BrowserLaunch(!debug && config.taskHeadless, proxy, if debug then "local" else config.webdriver)];
      if !env.launchOk {
        events := events + [MessageUpdated(config.username, WebDriverFailed)];
        SendNotification(WebDriverFailed);
        return;
      }
      var svc := new AppleId.AppleIdService(config.username, config.password, config.dob, BuildAnswers(config), env.page);
      var returned, jobSuccess := TrySession(svc, config, env);
      events := events + [BrowserClosed];
      if returned {
        return;
      }
      if config.failRetry {
        nextRunMinutes := if jobSuccess then config.checkInterval else RetryMinutes;
      } else {
        nextRunMinutes := config.checkInterval;
      }
    }
  }
}
