/** File-name construction, as the plugin builds `~/.wakatime/...` paths with GLib. */
module Paths {

  /** The directory separator of the POSIX hosts the plugin targets. */
  const Separator: char := '/'

  /** `s` with every trailing separator removed. */
  function StripTrailing(s: string): (r: string)
    ensures |r| <= |s| && r == s[..|r|]
    ensures r == "" || r[|r| - 1] != Separator
    ensures forall k :: |r| <= k < |s| ==> s[k] == Separator
  {
    if s == "" || s[|s| - 1] != Separator then s else StripTrailing(s[..|s| - 1])
  }

  /**
   * Joins a directory and a single file name with exactly one separator
   * between them, the way `g_build_filename(dir, name, NULL)` does when
   * `name` carries no leading separator. An empty directory contributes
   * nothing.
   */
  function Join(dir: string, name: string): (r: string)
    ensures dir == "" ==> r == name
    ensures dir != "" ==>
      && |r| == |StripTrailing(dir)| + 1 + |name|
      && r[..|StripTrailing(dir)|] == StripTrailing(dir)
      && r[|StripTrailing(dir)|] == Separator
      && r[|StripTrailing(dir)| + 1..] == name
  {
    if dir == "" then name else StripTrailing(dir) + [Separator] + name
  }
}
