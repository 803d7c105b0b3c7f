/**
 * Locating the wakatime command-line tool and the configuration file that
 * marks the service as set up. The filesystem and the PATH search are not
 * performed here: a `Host` records what they would report.
 */
module Cli {
  import opened Wrappers
  import Paths

  /**
   * What the host would answer to the plugin's probes: the home directory,
   * the paths that pass an "is executable" test, the paths that exist, and
   * the result of searching PATH for a program named `wakatime`.
   */
  datatype Host = Host(
    home: string,
    executables: set<string>,
    existing: set<string>,
    wakatimeOnPath: Option<string>)

  /** `~/.wakatime/wakatime-cli`, the preferred location of the tool. */
  function HomeCliPath(home: string): (p: string)
  {
    Paths.Join(Paths.Join(home, ".wakatime"), "wakatime-cli")
  }

  /** `~/.wakatime.cfg`, whose presence is taken as "an API key is configured". */
  function ConfigPath(home: string): (p: string)
  {
    Paths.Join(home, ".wakatime.cfg")
  }

  /**
   * The home-directory tool path is the home directory, without trailing
   * separators, followed by `/.wakatime/wakatime-cli`; an empty home gives
   * the relative path `.wakatime/wakatime-cli`.
   */
  lemma HomeCliPathShape(home: string)
    ensures home == "" ==>
      HomeCliPath(home) == ".wakatime" + [Paths.Separator] + "wakatime-cli"
    ensures home != "" ==>
      HomeCliPath(home) == Paths.StripTrailing(home) + [Paths.Separator] + ".wakatime" + [Paths.Separator] + "wakatime-cli"
  {
    if home == "" {
      assert Paths.Join(home, ".wakatime") == ".wakatime";
      assert Paths.StripTrailing(".wakatime") == ".wakatime";
    }
  }

  /** The configuration path is the home directory, without trailing separators, followed by `/.wakatime.cfg`; an empty home gives the bare name. */
  lemma ConfigPathShape(home: string)
    ensures home == "" ==> ConfigPath(home) == ".wakatime.cfg"
    ensures home != "" ==> ConfigPath(home) == Paths.StripTrailing(home) + [Paths.Separator] + ".wakatime.cfg"
  {
  }

  /**
   * The tool to launch: `~/.wakatime/wakatime-cli` when it is executable,
   * otherwise whatever the PATH search for `wakatime` found, possibly nothing.
   */
  function ResolveCliPath(h: Host): (r: Option<string>)
    ensures HomeCliPath(h.home) in h.executables ==> r == Some(HomeCliPath(h.home))
    ensures HomeCliPath(h.home) !in h.executables ==> r == h.wakatimeOnPath
    ensures r.None? <==> HomeCliPath(h.home) !in h.executables && h.wakatimeOnPath.None?
  {
    var preferred := HomeCliPath(h.home);
    if preferred in h.executables then Some(preferred) else h.wakatimeOnPath
  }

  /** The first present entry of a list of candidate locations, searched in order. */
  function FirstPresent(candidates: seq<Option<string>>): (r: Option<string>)
    ensures r.None? <==> forall i :: 0 <= i < |candidates| ==> candidates[i].None?
    ensures r.Some? ==>
      exists i :: 0 <= i < |candidates| && candidates[i] == r && forall j :: 0 <= j < i ==> candidates[j].None?
    decreases |candidates|
  {
    if |candidates| == 0 then None
    else if candidates[0].Some? then candidates[0]
    else FirstPresent(candidates[1..])
  }

  /**
   * Resolution is a search over two candidates in priority order: the
   * home-directory tool (present only when executable), then the PATH result.
   */
  lemma ResolveIsFirstCandidate(h: Host)
    ensures ResolveCliPath(h) == FirstPresent([
      if HomeCliPath(h.home) in h.executables then Some(HomeCliPath(h.home)) else None,
      h.wakatimeOnPath])
  {
  }

  /** True when the configuration file exists; its contents are never read. */
  predicate HasApiKey(h: Host)
  {
    ConfigPath(h.home) in h.existing
  }
}
