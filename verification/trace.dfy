/**
 * Sequences of events as the editor delivers them, one after another on
 * its single event thread, each with the outside world as it was at that
 * moment.
 */
module Trace {
  import opened Wrappers
  import opened Heartbeat
  import Cli

  /** One delivered event together with the environment it met. */
  datatype Input = Input(event: Event, env: Env)

  /** The state after handling every input in order. */
  function Run(s: State, inputs: seq<Input>): (r: State)
    decreases |inputs|
  {
    if |inputs| == 0 then s
    else Run(Step(s, inputs[0].event, inputs[0].env).state, inputs[1..])
  }

  /** The command lines of the heartbeats actually launched, in order. */
  function Launches(s: State, inputs: seq<Input>): (r: seq<seq<string>>)
    ensures |r| <= |inputs|
    decreases |inputs|
  {
    if |inputs| == 0 then []
    else
      var o := Step(s, inputs[0].event, inputs[0].env);
      Emitted(o) + Launches(o.state, inputs[1..])
  }

  /** The command line a step launched, as a list of zero or one elements. */
  function Emitted(o: Outcome): (r: seq<seq<string>>)
    requires o.status == Sent ==> o.argv.Some?
  {
    if o.status == Sent then [o.argv.value] else []
  }

  /**
   * Handling the suffix from position `i` is one step followed by the
   * suffix from `i + 1`, so the step's launch can move from the pending
   * suffix to the launches already collected.
   */
  lemma UnfoldAt(s: State, inputs: seq<Input>, i: int, launched: seq<seq<string>>)
    requires 0 <= i < |inputs|
    ensures
      var o := Step(s, inputs[i].event, inputs[i].env);
      && Run(s, inputs[i..]) == Run(o.state, inputs[i + 1..])
      && launched + Launches(s, inputs[i..]) == (launched + Emitted(o)) + Launches(o.state, inputs[i + 1..])
  {
  }

  /** A command line of the shape the plugin launches: tool, `--entity`, file, and optionally `--write`. */
  predicate HeartbeatCommand(argv: seq<string>)
  {
    (|argv| == 3 || (|argv| == 4 && argv[3] == "--write")) && argv[1] == "--entity"
  }

  /** Every launched command line has the heartbeat shape and names one of the events' files. */
  lemma {:induction false} LaunchesAreHeartbeatCommands(s: State, inputs: seq<Input>)
    ensures forall k :: 0 <= k < |Launches(s, inputs)| ==>
      HeartbeatCommand(Launches(s, inputs)[k])
      && exists j :: 0 <= j < |inputs| && inputs[j].event.file == Some(Launches(s, inputs)[k][2])
    decreases |inputs|
  {
    if |inputs| > 0 {
      var o := Step(s, inputs[0].event, inputs[0].env);
      var rest := Launches(o.state, inputs[1..]);
      LaunchesAreHeartbeatCommands(o.state, inputs[1..]);
      var all := Launches(s, inputs);
      assert all == Emitted(o) + rest;
      forall k | 0 <= k < |all|
        ensures HeartbeatCommand(all[k])
        ensures exists j :: 0 <= j < |inputs| && inputs[j].event.file == Some(all[k][2])
      {
        if k < |Emitted(o)| {
          assert all[k] == o.argv.value;
          assert inputs[0].event.file == Some(all[k][2]);
        } else {
          var m := k - |Emitted(o)|;
          assert all[k] == rest[m];
          var j :| 0 <= j < |inputs[1..]| && inputs[1..][j].event.file == Some(rest[m][2]);
          assert inputs[j + 1] == inputs[1..][j];
        }
      }
    }
  }

  /** Handles the inputs one by one, collecting the launched command lines. */
  method RunEvents(s0: State, inputs: seq<Input>) returns (s: State, launched: seq<seq<string>>)
    ensures s == Run(s0, inputs)
    ensures launched == Launches(s0, inputs)
  {
    s := s0;
    launched := [];
    var i := 0;
    while i < |inputs|
      invariant 0 <= i <= |inputs|
      invariant Run(s, inputs[i..]) == Run(s0, inputs)
      invariant launched + Launches(s, inputs[i..]) == Launches(s0, inputs)
    {
      var o := Step(s, inputs[i].event, inputs[i].env);
      UnfoldAt(s, inputs, i, launched);
      launched := launched + Emitted(o);
      s := o.state;
      i := i + 1;
    }
  }

  /** `e` views `path` less than the frequency after the heartbeat recorded in `s`. */
  predicate RepeatView(s: State, path: string, e: Event)
  {
    e.file == Some(path) && !e.isWrite && e.now - s.lastHeartbeat < HeartbeatFrequency
  }

  /**
   * Once `path` is the last reported file, any run of views of it inside
   * the frequency window launches nothing and changes nothing, whatever
   * the environment does.
   */
  lemma {:induction false} RepeatViewsAreSilent(s: State, path: string, inputs: seq<Input>)
    requires s.lastFile == Some(path)
    requires forall k :: 0 <= k < |inputs| ==> RepeatView(s, path, inputs[k].event)
    ensures Run(s, inputs) == s
    ensures Launches(s, inputs) == []
    decreases |inputs|
  {
    if |inputs| > 0 {
      assert RepeatView(s, path, inputs[0].event);
      assert Step(s, inputs[0].event, inputs[0].env).state == s;
      forall k | 0 <= k < |inputs[1..]|
        ensures RepeatView(s, path, inputs[1..][k].event)
      {
        assert inputs[1..][k] == inputs[k + 1];
      }
      RepeatViewsAreSilent(s, path, inputs[1..]);
    }
  }

  /** Event times never go backwards, starting no earlier than the last heartbeat. */
  predicate ClockForward(s: State, inputs: seq<Input>)
  {
    && (forall i, j :: 0 <= i < j < |inputs| ==> inputs[i].event.now <= inputs[j].event.now)
    && (|inputs| > 0 ==> s.lastHeartbeat <= inputs[0].event.now)
  }

  /** While the clock does not go backwards, the time of the last heartbeat never decreases. */
  lemma {:induction false} HeartbeatTimeMonotone(s: State, inputs: seq<Input>)
    requires ClockForward(s, inputs)
    ensures s.lastHeartbeat <= Run(s, inputs).lastHeartbeat
    ensures forall k :: 0 <= k < |inputs| ==>
      Run(s, inputs[..k]).lastHeartbeat <= Run(s, inputs[..k + 1]).lastHeartbeat
    decreases |inputs|
  {
    if |inputs| > 0 {
      var s' := Step(s, inputs[0].event, inputs[0].env).state;
      assert s.lastHeartbeat <= s'.lastHeartbeat <= inputs[0].event.now;
      var rest := inputs[1..];
      forall i, j | 0 <= i < j < |rest|
        ensures rest[i].event.now <= rest[j].event.now
      {
        assert rest[i] == inputs[i + 1] && rest[j] == inputs[j + 1];
      }
      if |rest| > 0 {
        assert rest[0] == inputs[1];
      }
      HeartbeatTimeMonotone(s', rest);
      forall k | 0 <= k < |inputs|
        ensures Run(s, inputs[..k]).lastHeartbeat <= Run(s, inputs[..k + 1]).lastHeartbeat
      {
        assert inputs[..k + 1][0] == inputs[0];
        assert inputs[..k + 1][1..] == rest[..k];
        assert Run(s, inputs[..k + 1]) == Run(s', rest[..k]);
        if k > 0 {
          assert inputs[..k][0] == inputs[0];
          assert inputs[..k][1..] == rest[..k - 1];
          assert Run(s, inputs[..k]) == Run(s', rest[..k - 1]);
        } else {
          assert Run(s, inputs[..k]) == s;
          assert Run(s', rest[..k]) == s';
        }
      }
    }
  }

  /** A heartbeat launched at a clock reading earlier than the last one records that earlier time, so the recorded time goes down. */
  lemma ClockSetBackLowersHeartbeatTime(s: State, e: Event, env: Env)
    requires Step(s, e, env).status == Sent
    requires e.now < s.lastHeartbeat
    ensures Step(s, e, env).state.lastHeartbeat == e.now < s.lastHeartbeat
  {
  }

  /**
   * With the clock set back to `now`, below the last heartbeat, the elapsed
   * time is negative, so views of the last file stay throttled for every
   * reading from `now` until the old heartbeat time plus the frequency: a
   * span longer than the frequency itself.
   */
  lemma ClockSetBackExtendsThrottle(s: State, path: string, now: int, env: Env)
    requires s.lastFile == Some(path) && now < s.lastHeartbeat
    ensures s.lastHeartbeat + HeartbeatFrequency - now > HeartbeatFrequency
    ensures forall t :: now <= t < s.lastHeartbeat + HeartbeatFrequency ==>
      Step(s, Event(Some(path), false, t), env) == Outcome(s, None, Throttled)
  {
  }

  /**
   * The reference scenario: views of one file at 0, 60 and 130 seconds and
   * a save at 131 seconds, with the tool and configuration in place, launch
   * heartbeats at 0, 130 and 131 but not at 60.
   */
  lemma ReferenceScenario(env: Env, f: string)
    requires Cli.ResolveCliPath(env.host).Some? && Cli.HasApiKey(env.host) && env.spawnSucceeds
    ensures
      var cli := Cli.ResolveCliPath(env.host).value;
      var inputs := [
        Input(Event(Some(f), false, 0), env),
        Input(Event(Some(f), false, 60), env),
        Input(Event(Some(f), false, 130), env),
        Input(Event(Some(f), true, 131), env)];
      && Launches(Initial, inputs[..2]) == [BuildArgv(cli, f, false)]
      && Run(Initial, inputs[..2]) == State(Some(f), 0)
      && Launches(Initial, inputs[..3]) == [BuildArgv(cli, f, false), BuildArgv(cli, f, false)]
      && Run(Initial, inputs[..3]) == State(Some(f), 130)
      && Launches(Initial, inputs) == [BuildArgv(cli, f, false), BuildArgv(cli, f, false), BuildArgv(cli, f, true)]
      && Run(Initial, inputs) == State(Some(f), 131)
  {
    var cli := Cli.ResolveCliPath(env.host).value;
    var inputs := [
      Input(Event(Some(f), false, 0), env),
      Input(Event(Some(f), false, 60), env),
      Input(Event(Some(f), false, 130), env),
      Input(Event(Some(f), true, 131), env)];
    var s1 := State(Some(f), 0);
    var s3 := State(Some(f), 130);
    assert Step(Initial, inputs[0].event, env).state == s1;
    assert Step(s1, inputs[1].event, env).status == Throttled;
    assert Step(s1, inputs[2].event, env).state == s3;
    assert inputs[1..][1..] == inputs[2..];
    assert inputs[2..][1..] == inputs[3..];
    assert inputs[3..][1..] == [];
    assert Launches(s3, inputs[3..]) == [BuildArgv(cli, f, true)];
    assert Launches(s1, inputs[2..]) == [BuildArgv(cli, f, false), BuildArgv(cli, f, true)];
    assert Launches(s1, inputs[1..]) == Launches(s1, inputs[2..]);
    assert Run(s3, inputs[3..]) == State(Some(f), 131);
    assert Run(s1, inputs[2..]) == Run(s3, inputs[3..]);
    assert Run(s1, inputs[1..]) == Run(s1, inputs[2..]);

    // The prefixes that stop after the 60 s and after the 130 s view.
    assert inputs[..2][0] == inputs[0] && inputs[..2][1..] == [inputs[1]];
    assert inputs[..3][0] == inputs[0] && inputs[..3][1..] == [inputs[1], inputs[2]];
    assert [inputs[1], inputs[2]][1..] == [inputs[2]];
    assert Step(s1, inputs[1].event, env) == Outcome(s1, None, Throttled);
    assert Run(s1, [inputs[1]]) == s1 && Launches(s1, [inputs[1]]) == [];
    assert Run(s3, [inputs[2]][1..]) == s3 && Launches(s3, [inputs[2]][1..]) == [];
    assert Run(s1, [inputs[2]]) == s3 && Launches(s1, [inputs[2]]) == [BuildArgv(cli, f, false)];
    assert Run(s1, [inputs[1], inputs[2]]) == s3;
    assert Launches(s1, [inputs[1], inputs[2]]) == [BuildArgv(cli, f, false)];
  }
}
