/**
 * The preview coordinator (`PdfCustomProvider` in src/pdfProvider.ts). It
 * tracks one URI and at most one active preview, rebinds the panel to a new
 * preview on request, routes translate requests through the translation
 * cache, and reacts to the panel's view-state and dispose events.
 */
module Provider {
  import opened Wrappers
  import opened Paths
  import opened Environment
  import opened Translator

  /** The coordinator's fields, with the path its translator remembers. */
  datatype Coord = Coord(
    trackedUri: Option<Path>,
    active: Option<PreviewId>,
    nextPreview: PreviewId,
    translationUri: Option<Path>)

  /** How the panel's dispose handler ends: normally, or with a TypeError. */
  datatype HandlerResult = Completed | Threw

  /** `createPreview(uri, panel)`: the active preview, if any, is disposed before the new one is created. */
  function CreatePreviewEffect(c: Coord, w: World, uri: Path, panel: PanelId): (res: (Coord, World))
    ensures res.0.trackedUri == Some(uri) && res.0.active == Some(c.nextPreview)
    ensures res.0.nextPreview == c.nextPreview + 1 && res.0.translationUri == c.translationUri
    ensures res.1.files == w.files && res.1.locked == w.locked && w.events <= res.1.events
    ensures |res.1.events| > 0 && res.1.events[|res.1.events| - 1] == PreviewCreated(c.nextPreview, uri, panel)
  {
    var w1 := if c.active.Some? then RecordEffect(w, PreviewDisposed(c.active.value)) else w;
    (c.(trackedUri := Some(uri), active := Some(c.nextPreview), nextPreview := c.nextPreview + 1),
     RecordEffect(w1, PreviewCreated(c.nextPreview, uri, panel)))
  }

  /**
   * `translateAndLoadPdf(uri, panel)` with the extension root as output
   * directory, when a run of the tool would end with `tool`.
   */
  function TranslateAndLoadEffect(c: Coord, w: World, root: Path, uri: Path, panel: PanelId, tool: ToolOutcome): (res: (Coord, World))
    ensures res.1.locked == w.locked && w.events <= res.1.events
    ensures c.trackedUri != Some(uri) ==> res.0.trackedUri == Some(uri) && res.0.translationUri == c.translationUri
    ensures c.trackedUri == Some(uri) ==> res.0.translationUri == Some(TranslationPath(uri, root))
  {
    if c.trackedUri == Some(uri) then
      var (r, w1) := TranslateEffect(uri, root, tool, w);
      var c1 := c.(translationUri := Some(TranslationPath(uri, root)));
      if r == Resolved then CreatePreviewEffect(c1, w1, TranslationPath(uri, root), panel)
      else (c1, RecordEffect(w1, ErrorShown(r.reason)))
    else CreatePreviewEffect(c, w, uri, panel)
  }

  /** The `onDidChangeViewState` handler. */
  function ViewStateEffect(c: Coord, w: World, panelActive: bool, panel: PanelId): (res: (Coord, World))
    requires panelActive ==> c.trackedUri.Some?
    ensures res.0.trackedUri == c.trackedUri && res.0.translationUri == c.translationUri
    ensures res.0.active.Some? <==> panelActive
    ensures !panelActive ==> res.1 == w
  {
    if panelActive then CreatePreviewEffect(c, w, c.trackedUri.value, panel)
    else (c.(active := None), w)
  }

  /** The `onDidDispose` handler; it changes no field of the coordinator. */
  function PanelDisposedEffect(c: Coord, w: World): (res: (HandlerResult, World))
    ensures res.0 == Completed <==> c.active.Some?
    ensures res.1.locked == w.locked && w.events <= res.1.events
  {
    var w1 := DisposeEffect(c.translationUri, w);
    if c.active.Some? then (Completed, RecordEffect(w1, PreviewDisposed(c.active.value)))
    else (Threw, w1)
  }

  predicate IsPreviewEvent(e: Event) {
    e.PreviewCreated? || e.PreviewDisposed?
  }

  /** `events` extends `prefix` without creating or disposing any preview. */
  ghost predicate QuietExtension(prefix: seq<Event>, events: seq<Event>) {
    prefix <= events && forall i :: |prefix| <= i < |events| ==> !IsPreviewEvent(events[i])
  }

  ghost predicate Created(events: seq<Event>, id: PreviewId) {
    exists i :: 0 <= i < |events| && events[i].PreviewCreated? && events[i].preview == id
  }

  /** A preview that was created and has not been disposed. */
  ghost predicate Live(events: seq<Event>, id: PreviewId) {
    Created(events, id) && PreviewDisposed(id) !in events
  }

  /** Every preview the trace mentions was numbered below `nextPreview`, so the next one is fresh. */
  ghost predicate IdsIssued(c: Coord, w: World) {
    && (c.active.Some? ==> c.active.value < c.nextPreview)
    && forall i :: 0 <= i < |w.events| && IsPreviewEvent(w.events[i]) ==> w.events[i].preview < c.nextPreview
  }

  /** The coordinator's invariant: ids are fresh and the active preview, if any, is live. */
  ghost predicate Inv(c: Coord, w: World) {
    IdsIssued(c, w) && (c.active.Some? ==> Live(w.events, c.active.value))
  }

  /** Running the translator adds no preview events to the trace. */
  lemma TranslateIsQuiet(source: Path, dest: Path, tool: ToolOutcome, w: World)
    ensures QuietExtension(w.events, TranslateEffect(source, dest, tool, w).1.events)
  {
    var p := TranslationPath(source, dest);
    if p !in w.files {
      var w1 := RunToolEffect(w, source, dest, tool);
      assert w1.events == w.events + [ToolRun(source, dest)];
      if !tool.Success? {
        DisposeIsQuiet(Some(p), w1);
      }
    }
  }

  /** Disposing the translator adds no preview events to the trace. */
  lemma DisposeIsQuiet(uri: Option<Path>, w: World)
    ensures QuietExtension(w.events, DisposeEffect(uri, w).events)
  {
    if uri.Some? && uri.value in w.files {
      var e := if uri.value in w.locked then UnlinkFailed(uri.value) else Unlinked(uri.value);
      assert DisposeEffect(uri, w).events == w.events + [e];
    }
  }

  /** Quiet additions to the trace keep the ids fresh. */
  lemma IdsAfterQuiet(c: Coord, w: World, w': World)
    requires IdsIssued(c, w)
    requires QuietExtension(w.events, w'.events)
    ensures IdsIssued(c, w')
  {
    forall i | 0 <= i < |w.events|
      ensures w'.events[i] == w.events[i]
    {
    }
  }

  /** Quiet additions to the trace keep the invariant. */
  lemma InvAfterQuiet(c: Coord, w: World, w': World)
    requires Inv(c, w)
    requires QuietExtension(w.events, w'.events)
    ensures Inv(c, w')
  {
    var n := |w.events|;
    IdsAfterQuiet(c, w, w');
    forall i | 0 <= i < n
      ensures w'.events[i] == w.events[i]
    {
    }
    if c.active.Some? {
      var id := c.active.value;
      var k :| 0 <= k < n && w.events[k].PreviewCreated? && w.events[k].preview == id;
      assert w'.events[k] == w.events[k];
    }
  }

  /**
   * `createPreview` restores the invariant, binds a fresh preview to `uri`,
   * and tears the previously active preview down before creating the new
   * one. It needs only fresh ids: the active preview may already have been
   * disposed by the handler of a closed panel, and is then disposed again.
   */
  lemma CreatePreviewReplaces(c: Coord, w: World, uri: Path, panel: PanelId)
    requires IdsIssued(c, w)
    ensures var (c', w') := CreatePreviewEffect(c, w, uri, panel);
      && Inv(c', w')
      && c'.trackedUri == Some(uri) && c'.active == Some(c.nextPreview)
      && c'.translationUri == c.translationUri
      && !Created(w.events, c.nextPreview)
      && w'.files == w.files && w.events <= w'.events
      && w'.events[|w'.events| - 1] == PreviewCreated(c.nextPreview, uri, panel)
      && (c.active.Some? ==>
            && w'.events[|w'.events| - 2] == PreviewDisposed(c.active.value)
            && !Live(w'.events, c.active.value))
      && (c.active.None? ==> w'.events == w.events + [PreviewCreated(c.nextPreview, uri, panel)])
      && (forall id: PreviewId :: Some(id) != c.active && Live(w.events, id) ==> Live(w'.events, id))
  {
    var (c', w') := CreatePreviewEffect(c, w, uri, panel);
    var id := c.nextPreview;
    var n := |w'.events|;
    assert w'.events[n - 1] == PreviewCreated(id, uri, panel);
    forall i | 0 <= i < n
      ensures i < |w.events| ==> w'.events[i] == w.events[i]
    {
    }
    forall other: PreviewId | Some(other) != c.active && Live(w.events, other)
      ensures Live(w'.events, other)
    {
      var k :| 0 <= k < |w.events| && w.events[k].PreviewCreated? && w.events[k].preview == other;
      assert w'.events[k] == w.events[k];
    }
  }

  /** A request for a URI other than the tracked one skips the translator and rebinds the panel to that URI. */
  lemma StaleRequestRebinds(c: Coord, w: World, root: Path, uri: Path, panel: PanelId, tool: ToolOutcome)
    requires IdsIssued(c, w) && c.trackedUri != Some(uri)
    ensures var (c', w') := TranslateAndLoadEffect(c, w, root, uri, panel, tool);
      && Inv(c', w')
      && c'.trackedUri == Some(uri) && c'.active == Some(c.nextPreview)
      && c'.translationUri == c.translationUri
      && w'.files == w.files
      && ToolRuns(w'.events) == ToolRuns(w.events)
      && w'.events[|w'.events| - 1] == PreviewCreated(c.nextPreview, uri, panel)
  {
    CreatePreviewReplaces(c, w, uri, panel);
    PreviewsRunNoTool(c, w, uri, panel);
  }

  /** Creating a preview runs no tool. */
  lemma PreviewsRunNoTool(c: Coord, w: World, uri: Path, panel: PanelId)
    ensures ToolRuns(CreatePreviewEffect(c, w, uri, panel).1.events) == ToolRuns(w.events)
  {
    var w1 := if c.active.Some? then RecordEffect(w, PreviewDisposed(c.active.value)) else w;
    if c.active.Some? {
      ToolRunsExtend(w.events, PreviewDisposed(c.active.value));
    }
    ToolRunsExtend(w1.events, PreviewCreated(c.nextPreview, uri, panel));
  }

  /**
   * A request for the tracked URI that resolves rebinds the panel to the
   * translated file, which exists and becomes the tracked URI.
   */
  lemma TranslatedRequestRebinds(c: Coord, w: World, root: Path, uri: Path, panel: PanelId, tool: ToolOutcome)
    requires IdsIssued(c, w) && c.trackedUri == Some(uri)
    requires TranslateEffect(uri, root, tool, w).0 == Resolved
    ensures var (c', w') := TranslateAndLoadEffect(c, w, root, uri, panel, tool);
      && Inv(c', w')
      && c'.trackedUri == Some(TranslationPath(uri, root))
      && c'.translationUri == Some(TranslationPath(uri, root))
      && c'.active == Some(c.nextPreview)
      && TranslationPath(uri, root) in w'.files
      && w'.events[|w'.events| - 1] == PreviewCreated(c.nextPreview, TranslationPath(uri, root), panel)
  {
    var (r, w1) := TranslateEffect(uri, root, tool, w);
    TranslateOutcome(uri, root, tool, w);
    TranslateIsQuiet(uri, root, tool, w);
    IdsAfterQuiet(c, w, w1);
    var c1 := c.(translationUri := Some(TranslationPath(uri, root)));
    CreatePreviewReplaces(c1, w1, TranslationPath(uri, root), panel);
  }

  /**
   * A request for the tracked URI whose translation fails shows the error,
   * keeps the binding, and leaves no translated file behind unless it cannot
   * be deleted.
   */
  lemma FailedRequestKeepsBinding(c: Coord, w: World, root: Path, uri: Path, panel: PanelId, tool: ToolOutcome)
    requires IdsIssued(c, w) && c.trackedUri == Some(uri)
    requires TranslationPath(uri, root) !in w.files && tool.Failure?
    ensures var (c', w') := TranslateAndLoadEffect(c, w, root, uri, panel, tool);
      && IdsIssued(c', w') && (Inv(c, w) ==> Inv(c', w'))
      && c'.trackedUri == c.trackedUri && c'.active == c.active && c'.nextPreview == c.nextPreview
      && c'.translationUri == Some(TranslationPath(uri, root))
      && w'.events[|w'.events| - 1] == ErrorShown(FAILURE_PREFIX + tool.stderr)
      && (TranslationPath(uri, root) !in w.locked ==> TranslationPath(uri, root) !in w'.files)
      && ToolRuns(w'.events) == ToolRuns(w.events) + 1
  {
    var (r, w1) := TranslateEffect(uri, root, tool, w);
    TranslateOutcome(uri, root, tool, w);
    TranslateIsQuiet(uri, root, tool, w);
    ToolRunsOnlyOnMiss(uri, root, tool, w);
    var w2 := RecordEffect(w1, ErrorShown(r.reason));
    assert w2.events == w1.events + [ErrorShown(r.reason)];
    assert QuietExtension(w.events, w2.events);
    IdsAfterQuiet(c, w, w2);
    if Inv(c, w) {
      InvAfterQuiet(c, w, w2);
    }
    ToolRunsExtend(w1.events, ErrorShown(r.reason));
  }

  /**
   * The translate button toggles: a request that resolves shows the
   * translated file; the next request for the same document is stale (the
   * tracked URI is now the translated file) and shows the original again;
   * the one after that translates again, as a cache hit. The tool runs at
   * most once in all three.
   */
  lemma TranslateToggles(c: Coord, w: World, root: Path, doc: Path, panel: PanelId,
                         tool1: ToolOutcome, tool2: ToolOutcome, tool3: ToolOutcome)
    requires IdsIssued(c, w) && c.trackedUri == Some(doc)
    requires TranslateEffect(doc, root, tool1, w).0 == Resolved
    ensures var (c1, w1) := TranslateAndLoadEffect(c, w, root, doc, panel, tool1);
      var (c2, w2) := TranslateAndLoadEffect(c1, w1, root, doc, panel, tool2);
      var (c3, w3) := TranslateAndLoadEffect(c2, w2, root, doc, panel, tool3);
      && c1.trackedUri == Some(TranslationPath(doc, root))
      && c2.trackedUri == Some(doc)
      && c3.trackedUri == Some(TranslationPath(doc, root))
      && w3.events[|w3.events| - 1] == PreviewCreated(c2.nextPreview, TranslationPath(doc, root), panel)
      && ToolRuns(w3.events) == ToolRuns(w.events) + (if TranslationPath(doc, root) in w.files then 0 else 1)
  {
    var p := TranslationPath(doc, root);
    var (c1, w1) := TranslateAndLoadEffect(c, w, root, doc, panel, tool1);
    TranslatedRequestRebinds(c, w, root, doc, panel, tool1);
    var (r, w0) := TranslateEffect(doc, root, tool1, w);
    ToolRunsOnlyOnMiss(doc, root, tool1, w);
    PreviewsRunNoTool(c.(translationUri := Some(p)), w0, p, panel);
    TranslationNeverSource(doc, root);
    var (c2, w2) := TranslateAndLoadEffect(c1, w1, root, doc, panel, tool2);
    StaleRequestRebinds(c1, w1, root, doc, panel, tool2);
    CacheHit(doc, root, tool3, w2);
    TranslatedRequestRebinds(c2, w2, root, doc, panel, tool3);
    PreviewsRunNoTool(c2.(translationUri := Some(p)), w2, p, panel);
  }

  /**
   * Becoming active rebinds the panel to the tracked URI, which does not
   * change; this holds also for a panel that regains focus after another
   * panel of the same provider was closed.
   */
  lemma ReactivationRebinds(c: Coord, w: World, panel: PanelId)
    requires IdsIssued(c, w) && c.trackedUri.Some?
    ensures var (c', w') := ViewStateEffect(c, w, true, panel);
      && Inv(c', w')
      && c'.trackedUri == c.trackedUri && c'.active == Some(c.nextPreview)
      && w'.events[|w'.events| - 1] == PreviewCreated(c.nextPreview, c.trackedUri.value, panel)
  {
    CreatePreviewReplaces(c, w, c.trackedUri.value, panel);
  }

  /** Becoming inactive forgets the active preview without disposing it and keeps the tracked URI. */
  lemma DeactivationForgets(c: Coord, w: World, panel: PanelId)
    requires IdsIssued(c, w)
    ensures var (c', w') := ViewStateEffect(c, w, false, panel);
      && Inv(c', w')
      && c'.trackedUri == c.trackedUri && c'.active.None? && w' == w
  {
  }

  /**
   * Deactivating and reactivating the panel leaves the earlier preview live
   * beside the new one: nothing ever disposes it.
   */
  lemma DeactivationLeaksPreview(c: Coord, w: World, panel: PanelId)
    requires Inv(c, w) && c.trackedUri.Some? && c.active.Some?
    ensures var (c1, w1) := ViewStateEffect(c, w, false, panel);
      var (c2, w2) := ViewStateEffect(c1, w1, true, panel);
      && c2.active == Some(c.nextPreview) && c.active.value != c.nextPreview
      && Live(w2.events, c.active.value) && Live(w2.events, c.nextPreview)
  {
    var c1 := c.(active := None);
    var (c2, w2) := CreatePreviewEffect(c1, w, c.trackedUri.value, panel);
    CreatePreviewReplaces(c1, w, c.trackedUri.value, panel);
    var id := c.active.value;
    var k :| 0 <= k < |w.events| && w.events[k].PreviewCreated? && w.events[k].preview == id;
    assert w2.events[k] == w.events[k];
    forall i | 0 <= i < |w2.events|
      ensures i < |w.events| ==> w2.events[i] == w.events[i]
    {
    }
  }

  /**
   * Closing the panel disposes the translator first and then the active
   * preview. The handler completes exactly when a preview is active;
   * otherwise it throws after the translator was disposed. Either way the
   * translated file is gone unless it cannot be deleted, and a completed run
   * leaves the coordinator pointing at a disposed preview.
   */
  lemma PanelDisposedOrder(c: Coord, w: World)
    requires IdsIssued(c, w)
    ensures var (r, w') := PanelDisposedEffect(c, w);
      && (r == Completed <==> c.active.Some?)
      && IdsIssued(c, w')
      && (r == Completed ==>
            && w'.events == DisposeEffect(c.translationUri, w).events + [PreviewDisposed(c.active.value)]
            && !Live(w'.events, c.active.value))
      && (r == Threw ==> w' == DisposeEffect(c.translationUri, w))
      && (c.translationUri.Some? && c.translationUri.value !in w.locked ==> c.translationUri.value !in w'.files)
  {
    var w1 := DisposeEffect(c.translationUri, w);
    DisposeIsQuiet(c.translationUri, w);
    IdsAfterQuiet(c, w, w1);
    var (r, w') := PanelDisposedEffect(c, w);
    if c.active.Some? {
      assert w'.events[|w'.events| - 1] == PreviewDisposed(c.active.value);
      forall i | 0 <= i < |w'.events| && IsPreviewEvent(w'.events[i])
        ensures w'.events[i].preview < c.nextPreview
      {
        if i < |w1.events| {
          assert w'.events[i] == w1.events[i];
        }
      }
    }
  }

  /** Closing the panel after it became inactive throws: the dispose handler finds no active preview. */
  lemma CloseAfterDeactivationThrows(c: Coord, w: World, panel: PanelId)
    requires IdsIssued(c, w)
    ensures var (c1, w1) := ViewStateEffect(c, w, false, panel);
      PanelDisposedEffect(c1, w1).0 == Threw
  {
    DeactivationForgets(c, w, panel);
    PanelDisposedOrder(c.(active := None), w);
  }

  /**
   * One provider serves every panel. Opening `a`, closing its panel and then
   * opening `b` disposes preview 0 twice: the close handler disposes it and
   * leaves it active, and the next `createPreview` disposes it again. In
   * between, the coordinator's invariant does not hold.
   */
  lemma OpenCloseOpenDisposesTwice(files: set<Path>, locked: set<Path>, a: Path, b: Path, p1: PanelId, p2: PanelId)
    ensures var c0, w0 := Coord(None, None, 0, None), World(files, locked, []);
      var (c1, w1) := CreatePreviewEffect(c0, w0, a, p1);
      var (r, w2) := PanelDisposedEffect(c1, w1);
      var (c3, w3) := CreatePreviewEffect(c1, w2, b, p2);
      && Inv(c1, w1) && r == Completed && !Inv(c1, w2) && c1.active == Some(0)
      && w3.events == [PreviewCreated(0, a, p1), PreviewDisposed(0), PreviewDisposed(0), PreviewCreated(1, b, p2)]
      && Inv(c3, w3)
  {
    var c0, w0 := Coord(None, None, 0, None), World(files, locked, []);
    var (c1, w1) := CreatePreviewEffect(c0, w0, a, p1);
    CreatePreviewReplaces(c0, w0, a, p1);
    var (r, w2) := PanelDisposedEffect(c1, w1);
    PanelDisposedOrder(c1, w1);
    CreatePreviewReplaces(c1, w2, b, p2);
  }

  /**
   * Two panels of one provider: `a` opens on panel `p1`, then `b` on panel
   * `p2`. Closing `p1` while it is in the background disposes preview 1,
   * the one `p2` shows, and leaves it active; closing `p2` later disposes it
   * a second time.
   */
  lemma BackgroundCloseDisposesForegroundPreview(files: set<Path>, locked: set<Path>, a: Path, b: Path, p1: PanelId, p2: PanelId)
    ensures var c0, w0 := Coord(None, None, 0, None), World(files, locked, []);
      var (c1, w1) := CreatePreviewEffect(c0, w0, a, p1);
      var (c2, w2) := CreatePreviewEffect(c1, w1, b, p2);
      var (r3, w3) := PanelDisposedEffect(c2, w2);
      var (r4, w4) := PanelDisposedEffect(c2, w3);
      && Inv(c2, w2) && c2.active == Some(1) && c2.trackedUri == Some(b)
      && r3 == Completed
      && w3.events == [PreviewCreated(0, a, p1), PreviewDisposed(0), PreviewCreated(1, b, p2), PreviewDisposed(1)]
      && IdsIssued(c2, w3) && !Inv(c2, w3)
      && r4 == Completed && w4.events == w3.events + [PreviewDisposed(1)]
  {
    var c0, w0 := Coord(None, None, 0, None), World(files, locked, []);
    var (c1, w1) := CreatePreviewEffect(c0, w0, a, p1);
    CreatePreviewReplaces(c0, w0, a, p1);
    var (c2, w2) := CreatePreviewEffect(c1, w1, b, p2);
    CreatePreviewReplaces(c1, w1, b, p2);
    PanelDisposedOrder(c2, w2);
  }

  /**
   * The translator is shared by all panels: once a request on panel `shown`
   * has put the translated file on screen, closing any panel deletes that
   * file unless it cannot be deleted.
   */
  lemma ClosingAnyPanelDeletesShownTranslation(c: Coord, w: World, root: Path, doc: Path, shown: PanelId, tool: ToolOutcome)
    requires IdsIssued(c, w) && c.trackedUri == Some(doc)
    requires TranslateEffect(doc, root, tool, w).0 == Resolved && TranslationPath(doc, root) !in w.locked
    ensures var (c1, w1) := TranslateAndLoadEffect(c, w, root, doc, shown, tool);
      var (r, w2) := PanelDisposedEffect(c1, w1);
      && w1.events[|w1.events| - 1] == PreviewCreated(c.nextPreview, TranslationPath(doc, root), shown)
      && TranslationPath(doc, root) in w1.files
      && r == Completed && TranslationPath(doc, root) !in w2.files
  {
    var (c1, w1) := TranslateAndLoadEffect(c, w, root, doc, shown, tool);
    TranslatedRequestRebinds(c, w, root, doc, shown, tool);
    TranslateFrame(doc, root, tool, w);
    PanelDisposedOrder(c1, w1);
  }

  class PdfCustomProvider {
    const extensionRoot: Path
    const translator: PdfTranslator
    var activePreviewUri: Option<Path>
    var activePreview: Option<PreviewId>
    /** Number of previews created so far; a new preview takes this number. */
    var nextPreview: PreviewId

    ghost predicate Valid()
      reads this, translator
    {
      translator.Valid()
    }

    function State(): Coord
      reads this, translator
    {
      Coord(activePreviewUri, activePreview, nextPreview, translator.translationUri)
    }

    constructor (extensionRoot: Path)
      ensures Valid() && fresh(translator) && this.extensionRoot == extensionRoot
      ensures State() == Coord(None, None, 0, None)
    {
      this.extensionRoot := extensionRoot;
      translator := new PdfTranslator();
      activePreviewUri := None;
      activePreview := None;
      nextPreview := 0;
    }

    method CreatePreview(host: Host, uri: Path, panel: PanelId) returns (preview: PreviewId)
      requires Valid()
      modifies this, host
      ensures Valid()
      ensures (State(), host.Snapshot()) == CreatePreviewEffect(old(State()), old(host.Snapshot()), uri, panel)
      ensures activePreview == Some(preview)
    {
      ghost var expected := CreatePreviewEffect(State(), host.Snapshot(), uri, panel);
      if activePreview.Some? {
        host.Record(PreviewDisposed(activePreview.value));
      }
      preview := nextPreview;
      host.Record(PreviewCreated(preview, uri, panel));
      assert host.Snapshot() == expected.1;
      nextPreview := nextPreview + 1;
      activePreviewUri := Some(uri);
      SetActivePreview(Some(preview));
      assert unchanged(translator);
      assert State() == expected.0;
    }

    method SetActivePreview(value: Option<PreviewId>)
      modifies this`activePreview
      ensures activePreview == value
    {
      activePreview := value;
    }

    /** Opening a document binds the panel to it; the event handlers are the methods below. */
    method ResolveCustomEditor(host: Host, documentUri: Path, panel: PanelId)
      requires Valid()
      modifies this, host
      ensures Valid()
      ensures (State(), host.Snapshot()) == CreatePreviewEffect(old(State()), old(host.Snapshot()), documentUri, panel)
    {
      var _ := CreatePreview(host, documentUri, panel);
    }

    method TranslateAndLoadPdf(host: Host, uri: Path, panel: PanelId, tool: ToolOutcome)
      requires Valid()
      modifies this, translator, host
      ensures Valid()
      ensures (State(), host.Snapshot())
        == TranslateAndLoadEffect(old(State()), old(host.Snapshot()), extensionRoot, uri, panel, tool)
      ensures translator.requests == if old(activePreviewUri) == Some(uri)
        then old(translator.requests) + [(uri, extensionRoot)] else old(translator.requests)
    {
      if activePreviewUri == Some(uri) {
        var r := translator.TranslatePdf(host, uri, extensionRoot, tool);
        match r
        case Resolved =>
          var _ := CreatePreview(host, translator.TranslationUri().value, panel);
        case Rejected(message) =>
          host.Record(ErrorShown(message));
      } else {
        var _ := CreatePreview(host, uri, panel);
      }
    }

    /** The handlers are registered only after the first `createPreview`, so a URI is tracked. */
    method OnDidChangeViewState(host: Host, panelActive: bool, panel: PanelId)
      requires Valid() && activePreviewUri.Some?
      modifies this, host
      ensures Valid()
      ensures (State(), host.Snapshot()) == ViewStateEffect(old(State()), old(host.Snapshot()), panelActive, panel)
    {
      if panelActive {
        var _ := CreatePreview(host, activePreviewUri.value, panel);
      } else {
        SetActivePreview(None);
      }
    }

    method OnDidDispose(host: Host) returns (r: HandlerResult)
      modifies host
      ensures (r, host.Snapshot()) == PanelDisposedEffect(State(), old(host.Snapshot()))
    {
      translator.Dispose(host);
      if activePreview.Some? {
        host.Record(PreviewDisposed(activePreview.value));
        r := Completed;
      } else {
        r := Threw;
      }
    }

    /** The process 'exit' handler. */
    method OnProcessExit(host: Host)
      modifies host
      ensures host.Snapshot() == DisposeEffect(translator.translationUri, old(host.Snapshot()))
    {
      translator.Dispose(host);
    }
  }
}
