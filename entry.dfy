/**
 * The entry point: resolving the options from the environment and the
 * command line, refusing to start without the required ones, and running the
 * task once immediately and then again each time the timer it re-arms fires.
 */
module Entry {
  import opened Wrappers
  import opened Strings
  import Password
  import Locales
  import Task

  /** The process environment; a variable that is not set is not in the map. */
  type Environment = map<string, string>

  /** `process.env[name]`, with `''` for an unset variable (both are falsy). */
  function EnvValue(env: Environment, name: string): string {
    if name in env then env[name] else ""
  }

  /** `argv.find(arg => arg.startsWith(prefix))`. */
  function FindArg(argv: seq<string>, prefix: string): (r: Option<string>)
    ensures r.None? <==> forall i :: 0 <= i < |argv| ==> !(prefix <= argv[i])
    ensures r.Some? ==> exists i :: 0 <= i < |argv| && argv[i] == r.value && prefix <= argv[i] &&
                                   forall j :: 0 <= j < i ==> !(prefix <= argv[j])
  {
    if argv == [] then None
    else if prefix <= argv[0] then Some(argv[0])
    else
      var r := FindArg(argv[1..], prefix);
      if r.Some? then
        var i :| 0 <= i < |argv[1..]| && argv[1..][i] == r.value && prefix <= argv[1..][i] &&
                 forall j :: 0 <= j < i ==> !(prefix <= argv[1..][j]);
        assert argv[i + 1] == r.value;
        r
      else r
  }

  /** `arg.split('=')[1]`: the text between the first and the second `=`; `''` (undefined) without any `=`. */
  function SecondField(arg: string): (r: string)
    ensures '=' !in r
    ensures '=' !in arg ==> r == ""
  {
    var head := BeforeFirst(arg, '=');
    if head == arg then "" else BeforeFirst(arg[|head| + 1..], '=')
  }

  /** The value of the first `prefix` flag, `''` when there is none. */
  function FlagValue(argv: seq<string>, prefix: string): string {
    match FindArg(argv, prefix)
    case None => ""
    case Some(arg) => SecondField(arg)
  }

  /** `process.env[name] || <flag value>`. */
  function Setting(env: Environment, argv: seq<string>, name: string, prefix: string): string {
    if EnvValue(env, name) != "" then EnvValue(env, name) else FlagValue(argv, prefix)
  }

  /** The language used when neither the environment nor the command line gives one. */
  const DefaultLang: string := "zh_cn"

  datatype AppConfig = AppConfig(apiUrl: string, apiKey: string, taskId: string, lang: string, debug: bool)

  /** Either the process exits with a code before any run, or it starts with a configuration. */
  datatype Startup = Exit(code: int) | Start(config: AppConfig)

  /** The option resolution and the required-option check of `bootstrap()`. */
  function Resolve(env: Environment, argv: seq<string>): (s: Startup)
    ensures s.Exit? <==> Setting(env, argv, "API_URL", "-api_url=") == "" ||
                         Setting(env, argv, "API_KEY", "-api_key=") == "" ||
                         Setting(env, argv, "TASK_ID", "-taskid=") == ""
    ensures s.Exit? ==> s.code == 1
    ensures s.Start? ==> s.config.apiUrl != "" && s.config.apiKey != "" && s.config.taskId != "" && s.config.lang != ""
    ensures s.Start? ==> s.config.apiUrl == Setting(env, argv, "API_URL", "-api_url=") &&
                         s.config.apiKey == Setting(env, argv, "API_KEY", "-api_key=") &&
                         s.config.taskId == Setting(env, argv, "TASK_ID", "-taskid=")
    ensures s.Start? && Setting(env, argv, "LANG", "-lang=") != "" ==> s.config.lang == Setting(env, argv, "LANG", "-lang=")
  {
    var apiUrl := Setting(env, argv, "API_URL", "-api_url=");
    var apiKey := Setting(env, argv, "API_KEY", "-api_key=");
    var taskId := Setting(env, argv, "TASK_ID", "-taskid=");
    var lang := if Setting(env, argv, "LANG", "-lang=") != "" then Setting(env, argv, "LANG", "-lang=") else DefaultLang;
    var debug := EnvValue(env, "DEBUG") == "true" || "-debug" in argv;
    if apiUrl == "" || apiKey == "" || taskId == "" then Exit(1)
    else Start(AppConfig(apiUrl, apiKey, taskId, lang, debug))
  }

  /** A set environment variable wins over the flag; an unset or empty one leaves the flag's value. */
  lemma EnvironmentFirst(env: Environment, argv: seq<string>, name: string, prefix: string)
    ensures name in env && env[name] != "" ==> Setting(env, argv, name, prefix) == env[name]
    ensures (name !in env || env[name] == "") ==> Setting(env, argv, name, prefix) == FlagValue(argv, prefix)
  {
  }

  /** Only the first flag with the prefix counts, and its value stops at the next `=`. */
  lemma FlagValueTruncated(argv: seq<string>, prefix: string, value: string, rest: string)
    requires |argv| > 0 && argv[0] == prefix + value + "=" + rest
    requires prefix != [] && prefix[|prefix| - 1] == '=' && '=' !in prefix[..|prefix| - 1] && '=' !in value
    ensures FlagValue(argv, prefix) == value
  {
    var name := prefix[..|prefix| - 1];
    assert prefix == name + ['='];
    var arg := argv[0];
    assert prefix <= arg;
    assert arg == name + ['='] + (value + "=" + rest);
    BeforeFirstOfJoin(name, '=', value + "=" + rest);
    assert arg[|name| + 1..] == value + ['='] + rest;
    BeforeFirstOfJoin(value, '=', rest);
  }

  /** A flag without a further `=` gives its whole value. */
  lemma FlagValueWhole(argv: seq<string>, prefix: string, value: string)
    requires |argv| > 0 && argv[0] == prefix + value
    requires prefix != [] && prefix[|prefix| - 1] == '=' && '=' !in prefix[..|prefix| - 1] && '=' !in value
    ensures FlagValue(argv, prefix) == value
  {
    var name := prefix[..|prefix| - 1];
    assert prefix == name + ['='];
    var arg := argv[0];
    assert prefix <= arg;
    assert arg == name + ['='] + value;
    BeforeFirstOfJoin(name, '=', value);
    assert arg[|name| + 1..] == value;
    assert BeforeFirst(value, '=') == value;
  }

  /** Without `LANG` and without a `-lang=` value the language is `zh_cn`. */
  lemma LangDefaults(env: Environment, argv: seq<string>)
    requires EnvValue(env, "LANG") == "" && FlagValue(argv, "-lang=") == ""
    requires Resolve(env, argv).Start?
    ensures Resolve(env, argv).config.lang == DefaultLang
  {
  }

  /**
   * A system `LANG` such as `en_US.UTF-8` overrides `-lang=en_us`, and since
   * it is not a key of the locale table the messages fall back to Chinese.
   */
  lemma SystemLangOverridesFlag(env: Environment, argv: seq<string>)
    requires "LANG" in env && env["LANG"] == "en_US.UTF-8"
    requires Resolve(env, argv).Start?
    ensures Resolve(env, argv).config.lang == "en_US.UTF-8"
    ensures Locales.GetLocale(Resolve(env, argv).config.lang) == Locales.ZhCn
  {
  }

  /** Debug mode is on exactly when `DEBUG` is `true` or `-debug` is an argument. */
  lemma DebugSwitch(env: Environment, argv: seq<string>)
    requires Resolve(env, argv).Start?
    ensures Resolve(env, argv).config.debug <==> ("DEBUG" in env && env["DEBUG"] == "true") || "-debug" in argv
  {
  }

  // ---------------------------------------------------------------------
  // The run loop

  /** The milliseconds in a minute: the timer is armed with `minutes * 60 * 1000`. */
  const MinuteMillis: int := 60 * 1000

  /** The largest delay a Node.js timer honours: 2^31 - 1 milliseconds. */
  const MaxTimerDelay: int := 0x7FFF_FFFF

  /**
   * The delay a Node.js timer actually waits for `ms`: a delay below one
   * millisecond or above `MaxTimerDelay` is replaced by one millisecond.
   */
  function TimerDelay(ms: int): (d: int)
    ensures 1 <= d <= MaxTimerDelay
    ensures 1 <= ms <= MaxTimerDelay <==> d == ms
    ensures d != ms ==> d == 1
  {
    if 1 <= ms <= MaxTimerDelay then ms else 1
  }

  predicate AllYield(runs: seq<Task.RunEnv>) {
    forall k :: 0 <= k < |runs| ==> Password.Yields(runs[k].random)
  }

  /**
   * The timer delays waited after each of `runs`, in order: each is the delay
   * its run left behind, as the timer clamps it, and each run starts from the
   * state the previous one left.
   */
  function Schedule(runs: seq<Task.RunEnv>, debug: bool, next: int, config: Option<Task.TaskConfig>,
                    log: seq<Task.Event>): (delays: seq<int>)
    requires AllYield(runs)
    ensures |delays| == |runs|
    ensures runs != [] ==> delays[0] == TimerDelay(Task.Run(runs[0], debug, next, config, log).next * MinuteMillis)
  {
    if runs == [] then []
    else
      var r := Task.Run(runs[0], debug, next, config, log);
      [TimerDelay(r.next * MinuteMillis)] + Schedule(runs[1..], debug, r.next, r.config, r.events)
  }

  /** The first delay of a schedule, then the schedule of the remaining runs. */
  lemma ScheduleUnfold(runs: seq<Task.RunEnv>, debug: bool, next: int, config: Option<Task.TaskConfig>,
                       log: seq<Task.Event>)
    requires AllYield(runs) && runs != []
    ensures AllYield(runs[1..])
    ensures var r := Task.Run(runs[0], debug, next, config, log);
            Schedule(runs, debug, next, config, log)
            == [TimerDelay(r.next * MinuteMillis)] + Schedule(runs[1..], debug, r.next, r.config, r.events)
  {
    forall k | 0 <= k < |runs[1..]| ensures Password.Yields(runs[1..][k].random) {
      assert runs[1..][k] == runs[k + 1];
    }
  }

  /** Every delay of a schedule is one a Node.js timer honours. */
  lemma {:induction false} ScheduleDelaysInRange(runs: seq<Task.RunEnv>, debug: bool, next: int,
                                                 config: Option<Task.TaskConfig>, log: seq<Task.Event>)
    requires AllYield(runs)
    ensures forall k :: 0 <= k < |runs| ==> 1 <= Schedule(runs, debug, next, config, log)[k] <= MaxTimerDelay
  {
    if runs != [] {
      var r := Task.Run(runs[0], debug, next, config, log);
      ScheduleUnfold(runs, debug, next, config, log);
      ScheduleDelaysInRange(runs[1..], debug, r.next, r.config, r.events);
    }
  }

  /** While no configuration arrives, the timer is always armed for ten minutes. */
  lemma {:induction false} NoConfigTenMinutes(runs: seq<Task.RunEnv>, debug: bool, next: int,
                                              config: Option<Task.TaskConfig>, log: seq<Task.Event>)
    requires AllYield(runs)
    requires forall k :: 0 <= k < |runs| ==> runs[k].config.None?
    ensures forall k :: 0 <= k < |runs| ==> Schedule(runs, debug, next, config, log)[k] == 10 * MinuteMillis
  {
    if runs != [] {
      var r := Task.Run(runs[0], debug, next, config, log);
      assert r.next == Task.DefaultMinutes;
      ScheduleUnfold(runs, debug, next, config, log);
      NoConfigTenMinutes(runs[1..], debug, r.next, r.config, r.events);
      var d := Schedule(runs, debug, next, config, log);
      forall k | 0 <= k < |runs| ensures d[k] == 10 * MinuteMillis {
        if k > 0 {
          assert d[k] == Schedule(runs[1..], debug, r.next, r.config, r.events)[k - 1];
        }
      }
    }
  }

  /**
   * The `scheduleNextRun` chain: run the task, read its delay, arm the timer,
   * and only when it fires run again; a run never starts before the previous
   * one has finished.
   */
  method RunLoop(task: Task.TaskService, runs: seq<Task.RunEnv>) returns (delays: seq<int>)
    requires AllYield(runs)
    modifies task
    ensures delays == Schedule(runs, task.debug, old(task.nextRunMinutes), old(task.taskConfig), old(task.events))
  {
    ghost var expected := Schedule(runs, task.debug, task.nextRunMinutes, task.taskConfig, task.events);
    delays := [];
    var k := 0;
    while k < |runs|
      invariant 0 <= k <= |runs|
      invariant AllYield(runs[k..])
      invariant delays + Schedule(runs[k..], task.debug, task.nextRunMinutes, task.taskConfig, task.events) == expected
    {
      ghost var r := Task.Run(runs[k], task.debug, task.nextRunMinutes, task.taskConfig, task.events);
      ghost var rest := Schedule(runs[k + 1..], task.debug, r.next, r.config, r.events);
      ScheduleUnfold(runs[k..], task.debug, task.nextRunMinutes, task.taskConfig, task.events);
      assert runs[k..][0] == runs[k] && runs[k..][1..] == runs[k + 1..];
      task.ExecuteTask(runs[k]);
      var minutes := task.GetNextRunMinutes();
      var delay := TimerDelay(minutes * MinuteMillis);
      ConcatAssoc(delays, [delay], rest);
      delays := delays + [delay];
      k := k + 1;
    }
  }

  /**
   * `bootstrap()`: exit with code 1 before any run when a required option is
   * missing; otherwise build the task service from the options and run it.
   */
  method Bootstrap(env: Environment, argv: seq<string>, runs: seq<Task.RunEnv>)
    returns (exitCode: Option<int>, delays: seq<int>)
    requires AllYield(runs)
    ensures Resolve(env, argv).Exit? ==> exitCode == Some(1) && delays == []
    ensures Resolve(env, argv).Start? ==>
              exitCode == None &&
              delays == Schedule(runs, Resolve(env, argv).config.debug, Task.DefaultMinutes, None, [])
  {
    var startup := Resolve(env, argv);
    if startup.Exit? {
      return Some(startup.code), [];
    }
    var app := startup.config;
    var task := new Task.TaskService(app.taskId, app.lang, app.debug);
    delays := RunLoop(task, runs);
    exitCode := None;
  }
}
