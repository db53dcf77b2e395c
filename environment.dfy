/**
 * The host around the extension, reduced to what the coordination core can
 * observe: the set of files that exist, the files whose deletion fails, and
 * a trace of the effects the core causes (runs of the external translation
 * tool, deletions, console and user-visible messages, creation and disposal
 * of previews).
 */
module Environment {
  import opened Paths

  /** A `PdfPreview` object, known only by the order in which it was created. */
  type PreviewId = nat
  /** A webview panel. */
  type PanelId = nat

  /**
   * How a run of the external translation tool ends. A successful run writes
   * the translated file at `TranslationPath(source, dest)`; a failed one
   * reports its standard error and may have left a partial file there.
   */
  datatype ToolOutcome = Success | Failure(stderr: string, partial: bool)

  datatype Event =
    | ToolRun(source: Path, dest: Path)
    | Unlinked(path: Path)
      /** The deletion failed; the message "Failed to delete file: <path>" went to the console. */
    | UnlinkFailed(path: Path)
      /** A message shown to the user with `showErrorMessage`. */
    | ErrorShown(message: string)
    | PreviewCreated(preview: PreviewId, uri: Path, panel: PanelId)
    | PreviewDisposed(preview: PreviewId)

  /** A snapshot of the host. */
  datatype World = World(files: set<Path>, locked: set<Path>, events: seq<Event>)

  /** `fs.unlink(p)` on an existing file: removed, or logged on the console when it cannot be. */
  function UnlinkEffect(w: World, p: Path): (r: World)
    ensures r.locked == w.locked
    ensures r.files == if p in w.locked then w.files else w.files - {p}
    ensures r.events == w.events + [if p in w.locked then UnlinkFailed(p) else Unlinked(p)]
  {
    if p in w.locked then w.(events := w.events + [UnlinkFailed(p)])
    else w.(files := w.files - {p}, events := w.events + [Unlinked(p)])
  }

  /** One run of the external tool on `source` with output directory `dest`. */
  function RunToolEffect(w: World, source: Path, dest: Path, outcome: ToolOutcome): (r: World)
    ensures r.locked == w.locked && r.events == w.events + [ToolRun(source, dest)]
    ensures w.files <= r.files <= w.files + {TranslationPath(source, dest)}
    ensures TranslationPath(source, dest) in r.files
        <==> TranslationPath(source, dest) in w.files || outcome.Success? || outcome.partial
  {
    var w1 := w.(events := w.events + [ToolRun(source, dest)]);
    if outcome.Success? || outcome.partial then w1.(files := w1.files + {TranslationPath(source, dest)})
    else w1
  }

  /** Appends one effect to the trace. */
  function RecordEffect(w: World, e: Event): (r: World)
    ensures r.files == w.files && r.locked == w.locked && r.events == w.events + [e]
  {
    w.(events := w.events + [e])
  }

  class Host {
    var files: set<Path>
    var locked: set<Path>
    var events: seq<Event>

    function Snapshot(): World
      reads this
    {
      World(files, locked, events)
    }

    constructor (files: set<Path>, locked: set<Path>)
      ensures Snapshot() == World(files, locked, [])
    {
      this.files := files;
      this.locked := locked;
      this.events := [];
    }

    /** `fs.existsSync(p)`. */
    method Exists(p: Path) returns (b: bool)
      ensures b <==> p in files
    {
      b := p in files;
    }

    method Unlink(p: Path)
      modifies this
      ensures Snapshot() == UnlinkEffect(old(Snapshot()), p)
    {
      if p in locked {
        events := events + [UnlinkFailed(p)];
      } else {
        files := files - {p};
        events := events + [Unlinked(p)];
      }
    }

    /** Runs the external tool, whose outcome the caller decides. */
    method RunTool(source: Path, dest: Path, outcome: ToolOutcome)
      modifies this
      ensures Snapshot() == RunToolEffect(old(Snapshot()), source, dest, outcome)
    {
      events := events + [ToolRun(source, dest)];
      if outcome.Success? || outcome.partial {
        files := files + {TranslationPath(source, dest)};
      }
    }

    method Record(e: Event)
      modifies this
      ensures Snapshot() == RecordEffect(old(Snapshot()), e)
    {
      events := events + [e];
    }
  }
}
