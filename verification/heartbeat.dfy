/**
 * The heartbeat decision: one call of the plugin's send-heartbeat routine
 * as a pure step from the process-wide throttle state and an event to the
 * new state and the command line handed to the process launcher.
 */
module Heartbeat {
  import opened Wrappers
  import Cli

  /** Seconds during which repeated views of the same file are not reported again. */
  const HeartbeatFrequency: int := 120

  /**
   * The plugin's process-wide memory: the file of the last heartbeat that
   * was launched (absent at start-up and after cleanup) and the clock
   * reading, in seconds, when it was launched.
   */
  datatype State = State(lastFile: Option<string>, lastHeartbeat: int)

  /** The state when the plugin is loaded. */
  const Initial: State := State(None, 0)

  /** One request to report activity: the document's file (absent for an unsaved document), whether it was a save, and the clock reading. */
  datatype Event = Event(file: Option<string>, isWrite: bool, now: int)

  /** The outside world at the moment of the event: filesystem and PATH probes, and whether launching the tool succeeds. */
  datatype Env = Env(host: Cli.Host, spawnSucceeds: bool)

  /** Why a step ended where it did; every status but `Sent` is a skipped heartbeat. */
  datatype Status = NoFile | Throttled | CliNotFound | NoApiKey | SpawnFailed | Sent

  /**
   * The result of one step: the new state, the command line handed to the
   * launcher (present exactly when a launch was attempted) and the status.
   */
  datatype Outcome = Outcome(state: State, argv: Option<seq<string>>, status: Status)

  /** The plugin's drop test: a view of the file last reported, less than the frequency after the last heartbeat. */
  predicate IsThrottled(s: State, path: string, now: int, isWrite: bool)
  {
    s.lastFile.Some? && s.lastFile.value == path
    && now - s.lastHeartbeat < HeartbeatFrequency && !isWrite
  }

  /**
   * The reporting policy stated positively: a heartbeat may go out for a
   * save, for the first report, for a change of file, or once the
   * frequency has elapsed.
   */
  predicate PassesThrottle(s: State, path: string, now: int, isWrite: bool)
  {
    || isWrite
    || s.lastFile.None?
    || s.lastFile.value != path
    || now - s.lastHeartbeat >= HeartbeatFrequency
  }

  /** The drop test is exactly the negation of the policy, in both directions. */
  lemma ThrottleIsPolicyNegation(s: State, path: string, now: int, isWrite: bool)
    ensures IsThrottled(s, path, now, isWrite) <==> !PassesThrottle(s, path, now, isWrite)
  {
  }

  /** The tool's command line: the tool, `--entity` and the file, then `--write` for a save. */
  function BuildArgv(cli: string, path: string, isWrite: bool): (argv: seq<string>)
    ensures |argv| == if isWrite then 4 else 3
    ensures argv[0] == cli && argv[1] == "--entity" && argv[2] == path
    ensures isWrite <==> |argv| == 4 && argv[3] == "--write"
  {
    [cli, "--entity", path] + if isWrite then ["--write"] else []
  }

  /** The command line determines the tool, the file and the kind of event it reports. */
  lemma BuildArgvInjective(cli1: string, path1: string, w1: bool, cli2: string, path2: string, w2: bool)
    requires BuildArgv(cli1, path1, w1) == BuildArgv(cli2, path2, w2)
    ensures cli1 == cli2 && path1 == path2 && w1 == w2
  {
  }

  /**
   * One call of the send-heartbeat routine. In order: an event without a
   * file is ignored; a throttled view is dropped; the tool is located; the
   * configuration file must exist; the command line is built and launched;
   * the state records the heartbeat only when the launch succeeded.
   */
  function Step(s: State, e: Event, env: Env): (o: Outcome)
    ensures e.file.None? ==> o == Outcome(s, None, NoFile)
    ensures o.status == Throttled <==> e.file.Some? && !PassesThrottle(s, e.file.value, e.now, e.isWrite)
    ensures o.status == Sent <==>
      && e.file.Some?
      && PassesThrottle(s, e.file.value, e.now, e.isWrite)
      && Cli.ResolveCliPath(env.host).Some?
      && Cli.HasApiKey(env.host)
      && env.spawnSucceeds
    ensures o.status == Sent ==> o.state == State(e.file, e.now)
    ensures o.status != Sent ==> o.state == s
    ensures o.argv.Some? <==> o.status == Sent || o.status == SpawnFailed
    ensures o.argv.Some? <==>
      && e.file.Some?
      && PassesThrottle(s, e.file.value, e.now, e.isWrite)
      && Cli.ResolveCliPath(env.host).Some?
      && Cli.HasApiKey(env.host)
    ensures o.status == SpawnFailed <==> o.argv.Some? && !env.spawnSucceeds
    ensures o.argv.Some? ==>
      && e.file.Some?
      && Cli.ResolveCliPath(env.host).Some?
      && o.argv.value == BuildArgv(Cli.ResolveCliPath(env.host).value, e.file.value, e.isWrite)
  {
    match e.file
    case None => Outcome(s, None, NoFile)
    case Some(path) =>
      if IsThrottled(s, path, e.now, e.isWrite) then
        Outcome(s, None, Throttled)
      else
        match Cli.ResolveCliPath(env.host)
        case None => Outcome(s, None, CliNotFound)
        case Some(cli) =>
          if !Cli.HasApiKey(env.host) then
            Outcome(s, None, NoApiKey)
          else
            var argv := BuildArgv(cli, path, e.isWrite);
            if env.spawnSucceeds then
              Outcome(State(Some(path), e.now), Some(argv), Sent)
            else
              Outcome(s, Some(argv), SpawnFailed)
  }

  /** A view of the last reported file within the frequency window launches nothing and leaves the state alone. */
  lemma RepeatedViewIsDropped(s: State, path: string, now: int, env: Env)
    requires s.lastFile == Some(path) && now - s.lastHeartbeat < HeartbeatFrequency
    ensures Step(s, Event(Some(path), false, now), env) == Outcome(s, None, Throttled)
  {
  }

  /** A save is never throttled, whatever the file and however little time has passed. */
  lemma WriteIsNeverThrottled(s: State, path: string, now: int, env: Env)
    ensures Step(s, Event(Some(path), true, now), env).status !in {NoFile, Throttled}
  {
  }

  /** A view gets past the throttle when there is no last file, the file changed, or the frequency has elapsed. */
  lemma ViewPassesThrottle(s: State, path: string, now: int, env: Env)
    requires s.lastFile.None? || s.lastFile.value != path || now - s.lastHeartbeat >= HeartbeatFrequency
    ensures Step(s, Event(Some(path), false, now), env).status != Throttled
  {
  }

  /** Without a tool or without the configuration file nothing is launched and the state is unchanged. */
  lemma GatesLaunchNothing(s: State, e: Event, env: Env)
    requires e.file.Some? && PassesThrottle(s, e.file.value, e.now, e.isWrite)
    requires Cli.ResolveCliPath(env.host).None? || !Cli.HasApiKey(env.host)
    ensures Step(s, e, env).argv.None? && Step(s, e, env).state == s
    ensures Step(s, e, env).status == if Cli.ResolveCliPath(env.host).None? then CliNotFound else NoApiKey
  {
  }

  /**
   * A step that did not launch a heartbeat is invisible to the next one:
   * the next event is decided exactly as if the failed step never happened.
   */
  lemma UnsentStepIsInvisible(s: State, e1: Event, env1: Env, e2: Event, env2: Env)
    requires Step(s, e1, env1).status != Sent
    ensures Step(Step(s, e1, env1).state, e2, env2) == Step(s, e2, env2)
  {
  }

  /** After a launched heartbeat, a view of the same file less than the frequency later is dropped. */
  lemma SentThenRepeatIsDropped(s: State, e: Event, env1: Env, later: int, env2: Env)
    requires Step(s, e, env1).status == Sent
    requires later - e.now < HeartbeatFrequency
    ensures Step(Step(s, e, env1).state, Event(e.file, false, later), env2).status == Throttled
  {
  }
}
