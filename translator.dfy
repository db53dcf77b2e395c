/**
 * The translation cache (`PdfTranslator` in src/pdfTranslator.ts): it derives
 * where the translated copy of a PDF goes, runs the external tool only when
 * no file is there yet, remembers the derived path, and deletes that file
 * when disposed.
 */
module Translator {
  import opened Wrappers
  import opened Paths
  import opened Environment

  /** How the promise returned by `translatePdf` settles. */
  datatype Completion = Resolved | Rejected(reason: string)

  const FAILURE_PREFIX: string := "Translation failed: "

  /** Number of runs of the external tool recorded in a trace. */
  function ToolRuns(events: seq<Event>): nat
  {
    if events == [] then 0
    else ToolRuns(events[..|events| - 1]) + (if events[|events| - 1].ToolRun? then 1 else 0)
  }

  /**
   * What `dispose` does to the host: the file at the remembered path is
   * deleted when there is one; a failed deletion is only logged.
   */
  function DisposeEffect(uri: Option<Path>, w: World): (r: World)
    ensures r.locked == w.locked
    ensures uri.None? ==> r == w
    ensures uri.Some? ==> w.files - {uri.value} <= r.files <= w.files
  {
    if uri.Some? && uri.value in w.files then UnlinkEffect(w, uri.value) else w
  }

  /**
   * What `translatePdf(source, dest)` does to the host and how its promise
   * settles, when a run of the tool would end with `tool`.
   */
  function TranslateEffect(source: Path, dest: Path, tool: ToolOutcome, w: World): (res: (Completion, World))
    ensures res.0 == Resolved <==> TranslationPath(source, dest) in w.files || tool.Success?
    ensures res.1.locked == w.locked && w.events <= res.1.events
  {
    var p := TranslationPath(source, dest);
    if p in w.files then (Resolved, w)
    else
      var w1 := RunToolEffect(w, source, dest, tool);
      if tool.Success? then (Resolved, w1)
      else (Rejected(FAILURE_PREFIX + tool.stderr), DisposeEffect(Some(p), w1))
  }

  /** A file already at the derived path is a cache hit: nothing runs and nothing changes. */
  lemma CacheHit(source: Path, dest: Path, tool: ToolOutcome, w: World)
    requires TranslationPath(source, dest) in w.files
    ensures TranslateEffect(source, dest, tool, w) == (Resolved, w)
  {
  }

  /** Appending one event adds one run exactly when that event is a run. */
  lemma ToolRunsExtend(a: seq<Event>, e: Event)
    ensures ToolRuns(a + [e]) == ToolRuns(a) + (if e.ToolRun? then 1 else 0)
  {
    assert (a + [e])[..|a + [e]| - 1] == a;
  }

  /** The tool runs once on a cache miss and never on a hit; the trace only grows. */
  lemma ToolRunsOnlyOnMiss(source: Path, dest: Path, tool: ToolOutcome, w: World)
    ensures var w' := TranslateEffect(source, dest, tool, w).1;
      && w.events <= w'.events
      && ToolRuns(w'.events) == ToolRuns(w.events) + (if TranslationPath(source, dest) in w.files then 0 else 1)
  {
    var p := TranslationPath(source, dest);
    if p !in w.files {
      var w1 := RunToolEffect(w, source, dest, tool);
      ToolRunsExtend(w.events, ToolRun(source, dest));
      if !tool.Success? && p in w1.files {
        var e := if p in w1.locked then UnlinkFailed(p) else Unlinked(p);
        assert UnlinkEffect(w1, p).events == w1.events + [e];
        ToolRunsExtend(w1.events, e);
      }
    }
  }

  /**
   * The promise resolves exactly on a hit or a successful run, and then the
   * translated file exists; otherwise it rejects with the tool's error text
   * and the file is gone unless it cannot be deleted.
   */
  lemma TranslateOutcome(source: Path, dest: Path, tool: ToolOutcome, w: World)
    ensures var (r, w') := TranslateEffect(source, dest, tool, w);
      var p := TranslationPath(source, dest);
      && (r == Resolved <==> p in w.files || tool.Success?)
      && (r == Resolved ==> p in w'.files)
      && (r.Rejected? ==> r.reason == FAILURE_PREFIX + tool.stderr)
      && (r.Rejected? && p !in w.locked ==> p !in w'.files)
  {
  }

  /**
   * Only the derived path can appear or disappear, and a run that succeeds
   * deletes nothing.
   */
  lemma TranslateFrame(source: Path, dest: Path, tool: ToolOutcome, w: World)
    ensures var w' := TranslateEffect(source, dest, tool, w).1;
      && w'.locked == w.locked
      && (forall q :: q != TranslationPath(source, dest) ==> (q in w'.files <==> q in w.files))
      && (tool.Success? ==> w.files <= w'.files)
  {
  }

  /** Once a request has resolved, repeating it is a cache hit, whatever the tool would do. */
  lemma RepeatIsCacheHit(source: Path, dest: Path, tool1: ToolOutcome, tool2: ToolOutcome, w: World)
    requires TranslateEffect(source, dest, tool1, w).0 == Resolved
    ensures var w1 := TranslateEffect(source, dest, tool1, w).1;
      TranslateEffect(source, dest, tool2, w1) == (Resolved, w1)
  {
    TranslateOutcome(source, dest, tool1, w);
  }

  /**
   * Disposing deletes the remembered file unless it cannot be deleted, and
   * nothing else; a failed deletion is only logged on the console.
   */
  lemma DisposeRemoves(uri: Option<Path>, w: World)
    requires uri.Some?
    ensures uri.value !in w.locked ==> DisposeEffect(uri, w).files == w.files - {uri.value}
    ensures uri.value in w.locked ==> DisposeEffect(uri, w).files == w.files
    ensures uri.value in w.files ==>
      DisposeEffect(uri, w).events == w.events + [if uri.value in w.locked then UnlinkFailed(uri.value) else Unlinked(uri.value)]
  {
  }

  /** Without a remembered path, or without a file there, `dispose` does nothing. */
  lemma DisposeNoOp(uri: Option<Path>, w: World)
    requires uri.None? || uri.value !in w.files
    ensures DisposeEffect(uri, w) == w
  {
  }

  /** A second `dispose` deletes nothing more, and changes nothing at all when the first one succeeded. */
  lemma DisposeIdempotent(uri: Option<Path>, w: World)
    ensures DisposeEffect(uri, DisposeEffect(uri, w)).files == DisposeEffect(uri, w).files
    ensures uri.None? || uri.value !in w.locked ==> DisposeEffect(uri, DisposeEffect(uri, w)) == DisposeEffect(uri, w)
  {
  }

  /**
   * No ownership is tracked: a file that was already there and served as a
   * cache hit is still deleted by the next `dispose`.
   */
  lemma DisposeDeletesCacheHit(source: Path, dest: Path, tool: ToolOutcome, w: World)
    requires TranslationPath(source, dest) in w.files && TranslationPath(source, dest) !in w.locked
    ensures var (r, w1) := TranslateEffect(source, dest, tool, w);
      && r == Resolved && w1 == w
      && TranslationPath(source, dest) !in DisposeEffect(Some(TranslationPath(source, dest)), w1).files
  {
  }

  class PdfTranslator {
    var translationUri: Option<Path>
    /** The (source, destination) pairs of every `translatePdf` call, in order. */
    ghost var requests: seq<(Path, Path)>

    ghost predicate Valid()
      reads this
    {
      translationUri == if requests == [] then None
        else Some(TranslationPath(requests[|requests| - 1].0, requests[|requests| - 1].1))
    }

    constructor ()
      ensures Valid() && requests == []
    {
      translationUri := None;
      requests := [];
    }

    /** The `translationUri` getter: unset before the first request, then the path derived from the latest one. */
    function TranslationUri(): (u: Option<Path>)
      reads this
      requires Valid()
      ensures u.None? <==> requests == []
      ensures requests != [] ==>
        u == Some(TranslationPath(requests[|requests| - 1].0, requests[|requests| - 1].1))
    {
      translationUri
    }

    method TranslatePdf(host: Host, source: Path, dest: Path, tool: ToolOutcome) returns (r: Completion)
      requires Valid()
      modifies this, host
      ensures Valid() && requests == old(requests) + [(source, dest)]
      ensures translationUri == Some(TranslationPath(source, dest))
      ensures (r, host.Snapshot()) == TranslateEffect(source, dest, tool, old(host.Snapshot()))
    {
      var p := TranslationPath(source, dest);
      translationUri := Some(p);
      requests := requests + [(source, dest)];
      var present := host.Exists(p);
      if present {
        return Resolved;
      }
      host.RunTool(source, dest, tool);
      match tool
      case Success =>
        r := Resolved;
      case Failure(stderr, _) =>
        Dispose(host);
        r := Rejected(FAILURE_PREFIX + stderr);
    }

    method Dispose(host: Host)
      modifies host
      ensures host.Snapshot() == DisposeEffect(translationUri, old(host.Snapshot()))
    {
      if translationUri.Some? {
        var present := host.Exists(translationUri.value);
        if present {
          host.Unlink(translationUri.value);
        }
      }
    }
  }
}
