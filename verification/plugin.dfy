/**
 * The editor-facing side of the plugin: the three document handlers, the
 * heartbeat sent when the plugin starts, and the reset on cleanup. Each
 * handler is a thin wrapper that turns a document notification into a
 * heartbeat event.
 */
module Plugin {
  import opened Wrappers
  import opened Heartbeat

  /** An editor document; `fileName` is absent for a buffer that was never saved. */
  datatype Document = Document(fileName: Option<string>)

  /** The file a possibly-absent document refers to, if any. */
  function FileOf(doc: Option<Document>): (f: Option<string>)
  {
    if doc.Some? then doc.value.fileName else None
  }

  /** Handles a document notification: with a named document, one heartbeat step; otherwise nothing at all. */
  function Notify(s: State, doc: Option<Document>, isWrite: bool, now: int, env: Env): (o: Outcome)
    ensures o == Step(s, Event(FileOf(doc), isWrite, now), env)
    ensures FileOf(doc).None? ==> o.state == s && o.argv.None?
  {
    if doc.Some? && doc.value.fileName.Some? then
      Step(s, Event(doc.value.fileName, isWrite, now), env)
    else
      Outcome(s, None, NoFile)
  }

  /** Opening a document reports a view of its file. */
  function OnDocumentOpen(s: State, doc: Option<Document>, now: int, env: Env): (o: Outcome)
    ensures o == Step(s, Event(FileOf(doc), false, now), env)
  {
    Notify(s, doc, false, now, env)
  }

  /** Saving a document reports a write of its file. */
  function OnDocumentSave(s: State, doc: Option<Document>, now: int, env: Env): (o: Outcome)
    ensures o == Step(s, Event(FileOf(doc), true, now), env)
  {
    Notify(s, doc, true, now, env)
  }

  /** Switching to a document reports a view of its file. */
  function OnDocumentActivate(s: State, doc: Option<Document>, now: int, env: Env): (o: Outcome)
    ensures o == Step(s, Event(FileOf(doc), false, now), env)
  {
    Notify(s, doc, false, now, env)
  }

  /** At start-up the document already open, if it has a file, is reported as a view. */
  function OnInit(s: State, current: Option<Document>, now: int, env: Env): (o: Outcome)
    ensures o == Step(s, Event(FileOf(current), false, now), env)
  {
    Notify(s, current, false, now, env)
  }

  /** Cleanup forgets the last file but keeps the time of the last heartbeat. */
  function Cleanup(s: State): (r: State)
  {
    State(None, s.lastHeartbeat)
  }

  /**
   * After cleanup the throttle is open for every file, and the clock
   * reading of the last heartbeat is what it was before.
   */
  lemma CleanupReopensThrottle(s: State, path: string, isWrite: bool, now: int, env: Env)
    ensures Cleanup(s).lastHeartbeat == s.lastHeartbeat
    ensures PassesThrottle(Cleanup(s), path, now, isWrite)
    ensures Step(Cleanup(s), Event(Some(path), isWrite, now), env).status != Throttled
  {
  }

  /** A save right after a view of the same file is still reported when the tool and configuration are available. */
  lemma SaveAfterOpenIsReported(s: State, doc: Document, t1: int, t2: int, env: Env)
    requires doc.fileName.Some?
    requires Cli.ResolveCliPath(env.host).Some? && Cli.HasApiKey(env.host) && env.spawnSucceeds
    ensures OnDocumentSave(OnDocumentOpen(s, Some(doc), t1, env).state, Some(doc), t2, env).status == Sent
  {
  }
}
