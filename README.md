# PDF viewer translation core in Dafny

This project models the coordination core of a VS Code PDF viewer extension. The extension shows a PDF in a webview panel. On request it runs an external tool (`pdf2zh`) that writes a translated copy of the PDF, and then shows that copy in the panel. The model covers two classes.

- **`PdfTranslator`** (src/pdfTranslator.ts) is the translation cache. It derives the path of the translated file: the extension root, then the source's base name without `.pdf`, then `-mono.pdf`. If a file already exists at that path it skips the tool. It remembers the path, and `dispose` deletes the file there. It also calls `dispose` itself when the tool fails.
- **`PdfCustomProvider`** (src/pdfProvider.ts) is the preview coordinator. It tracks one URI (`_activePreviewUri`) and at most one active preview (`_activePreview`). `createPreview` disposes the active preview before it creates a new one. A translate request runs the translator only when the requested URI is the tracked one. If the translation succeeds, it rebinds the panel to the translated file. If it fails, it shows the error and keeps the binding. A request for a URI that is not the tracked one runs no translation and rebinds the panel to the requested URI. The panel's view-state and dispose events move the coordinator between having an active preview and having none.

## How the model is built

- **Host.** The host is the class `Environment.Host`. Its fields are:
  - `files`: the set of paths that exist;
  - `locked`: the existing paths whose deletion fails;
  - `events`: a trace of every effect the core causes. The effects are tool runs, deletions, console messages, error messages shown to the user, and preview creation and disposal.
- **Tool outcome.** The outcome of a run of the external tool is a parameter, `ToolOutcome`:
  - `Success` means the tool wrote `TranslationPath(source, dest)`. The model assumes the tool's own output naming matches this rule.
  - `Failure(stderr, partial)` means the run failed. `partial` says whether it left a partial file at that path.
- **Method contracts.** Each class method is proved equal to a pure effect function on the coordinator's fields (`Provider.Coord`) and a host snapshot (`Environment.World`). These functions are `TranslateEffect`, `DisposeEffect`, `CreatePreviewEffect`, `TranslateAndLoadEffect`, `ViewStateEffect` and `PanelDisposedEffect`. The source's promises are proved as lemmas about these functions.
- **Previews.** A `PdfPreview` is a number, taken from a counter. Two predicates describe the coordinator:
  - `Provider.IdsIssued` says that every preview in the trace was numbered below the counter, so a new preview is fresh. The initial state satisfies it, and every operation keeps it from any state where it holds: `createPreview` (`Provider.CreatePreviewReplaces`), both translate branches, both view-state branches and the dispose handler (`Provider.PanelDisposedOrder`).
  - `Provider.Inv` adds that the active preview, when there is one, has been created and not yet disposed. `createPreview` restores it from any state where `IdsIssued` holds, and so do a stale translate request and reactivation. Deactivation and a translate request for the tracked URI keep it. The dispose handler does not. It disposes the active preview but leaves it active (`Provider.PanelDisposedOrder`).
  - One provider serves every panel (src/extension.ts:7-11). The next `createPreview`, from another panel or a newly opened document, therefore starts from a state where `Inv` fails. It disposes that preview a second time (`Provider.OpenCloseOpenDisposesTwice`). A panel in the background can also be closed while another panel stays active, and then the active panel's next event starts outside `Inv` too (`Provider.BackgroundCloseDisposesForegroundPreview`). For this reason the lemmas about single operations require only `IdsIssued`. `Inv` appears only in their conclusions, and in `Provider.DeactivationLeaksPreview`, which is about a preview that is still live.
- **URI comparison.** The guard `this._activePreviewUri === uri` (src/pdfProvider.ts:72) compares `vscode.Uri` objects by reference. The model compares URIs as path strings instead. Two different `Uri` objects for the same file therefore count as equal here, although the code treats them as different. The toggle behaviour does not depend on this simplification: `Paths.TranslationNeverSource` proves that a translated path never equals its source path.
- **Dispose handler throws.** The `onDidDispose` handler calls `this._activePreview.dispose()` without checking for `undefined`. After an inactive view-state change there is no active preview. The model returns `Threw` in that case, and `Provider.CloseAfterDeactivationThrows` shows that this case is reachable.

In several places the code does something other than what one would expect of such an extension. The model follows the code:

- The derived name is `<stem>-mono.pdf`. It names neither the target language nor the original extension, although one might expect `<stem>-<language>.<ext>`.
- A file that already existed and was served as a cache hit is still deleted by `dispose`. No ownership is tracked (`Translator.DisposeDeletesCacheHit`).
- A stale translate request rebinds the panel to the requested URI (`Provider.StaleRequestRebinds`). One might expect it to leave the binding unchanged.
- When the panel becomes inactive, the preview is forgotten but not disposed. A later reactivation leaves two live previews (`Provider.DeactivationLeaksPreview`).
- After a panel is disposed, `_activePreview` still refers to the disposed preview (`Provider.PanelDisposedOrder`). The next `createPreview` disposes it again (`Provider.OpenCloseOpenDisposesTwice`).
- Closing a panel in the background disposes the preview that the panel in the foreground shows, and leaves that preview active. Closing the foreground panel later disposes it again (`Provider.BackgroundCloseDisposesForegroundPreview`).
- The translator is shared by all panels. Closing any panel deletes the translated file that another panel may be showing (`Provider.ClosingAnyPanelDeletesShownTranslation`).

## Model

| member | source | states |
|---|---|---|
| Paths.LastSegment | src/pdfTranslator.ts:13 | The base name of a path contains no separator. |
| Paths.LastSegmentIsSuffix | src/pdfTranslator.ts:13 | The base name is a suffix of the path, and the character before it, if any, is a separator, so it is the longest separator-free suffix. |
| Paths.StripPdfExt | src/pdfTranslator.ts:13 | The ".pdf" suffix is removed exactly when the name ends with ".pdf" and is longer than it; otherwise the name is kept. |
| Paths.Stem | src/pdfTranslator.ts:13 | `basename(p, '.pdf')` contains no separator. |
| Paths.AsDirectory | src/pdfTranslator.ts:16 | The directory that `path.join` appends to ends with a separator (or is empty) and extends the given directory. |
| Paths.LastSegmentAppend | src/pdfTranslator.ts:16 | Appending separator-free text to a path extends its base name by exactly that text. |
| Paths.SplitJoin | src/pdfTranslator.ts:15-17 | Joining a directory and a file name can be undone: the result's base name is the file name, and its parent is the directory. |
| Paths.StripMonoName | src/pdfTranslator.ts:14 | The base name of a translated file, without ".pdf", is the source stem followed by "-mono". |
| Paths.Join | src/pdfTranslator.ts:15-17 | `path.join(dir, name)` starts with the directory and ends with the name, with at most one separator added between them. `Paths.SplitJoin` proves that a joined path splits back into the two. |
| Paths.TranslationPath | src/pdfTranslator.ts:13-17 | The naming rule: the derived path lies in the output directory and ends with `-mono.pdf`. `Paths.TranslationName`, `Paths.TranslationPathInjective` and `Paths.TranslationNeverSource` state the rest. |
| Paths.TranslationName | src/pdfTranslator.ts:13-17 | The derived path lies directly in the output directory. It is named `<stem>-mono.pdf`, and its own stem is `<stem>-mono`. |
| Paths.TranslationPathInjective | src/pdfTranslator.ts:13-17 | Two requests derive the same path if and only if their stems and output directories agree. |
| Paths.TranslationNeverSource | src/pdfTranslator.ts:13-17 | A derived path is never the path of its own source. |
| Environment.UnlinkEffect | src/pdfTranslator.ts:40-46 | Unlinking removes the file unless its deletion fails. It appends `Unlinked(p)`, or on failure only the console event `UnlinkFailed(p)`. The failure is not propagated. |
| Environment.RunToolEffect | src/pdfTranslator.ts:24-26 | A tool run is recorded. It can add only the derived path, and it does add it on success or when it leaves a partial file. |
| Environment.Host.Exists | src/pdfTranslator.ts:18 | `existsSync` is true exactly for the paths in the file set. |
| Environment.Host.Unlink | src/pdfTranslator.ts:40-46 | The host changes as `UnlinkEffect` says. |
| Environment.Host.RunTool | src/pdfTranslator.ts:24-34 | The host changes as `RunToolEffect` says for the given outcome. |
| Translator.DisposeEffect | src/pdfTranslator.ts:38-48 | `dispose` changes nothing without a remembered path. Otherwise it can delete only the remembered path, and never creates files. |
| Translator.TranslateEffect | src/pdfTranslator.ts:9-35 | `translatePdf`: the promise resolves if and only if there is a cache hit or the tool succeeds. The locked set does not change and the trace only grows. `Translator.TranslateOutcome`, `Translator.TranslateFrame` and `Translator.ToolRunsOnlyOnMiss` state the rest. |
| Translator.CacheHit | src/pdfTranslator.ts:18-20 | If a file exists at the derived path, the call resolves, runs no tool and changes nothing. |
| Translator.ToolRunsOnlyOnMiss | src/pdfTranslator.ts:18-26 | The tool runs exactly once on a cache miss and never on a hit. The trace only grows. |
| Translator.TranslateOutcome | src/pdfTranslator.ts:18-32 | The call resolves if and only if there is a hit or the tool succeeds, and then the file exists. Otherwise it rejects with "Translation failed: " + stderr, and no file remains unless it cannot be deleted. |
| Translator.TranslateFrame | src/pdfTranslator.ts:15-35 | Only the derived path can appear or disappear, and a successful run deletes nothing. |
| Translator.RepeatIsCacheHit | src/pdfTranslator.ts:18-20 | After a call resolves, repeating it is a cache hit, whatever the tool would do. |
| Translator.DisposeRemoves | src/pdfTranslator.ts:38-47 | `dispose` deletes exactly the remembered file, unless its deletion fails. When there is a file, it appends `Unlinked`, or on a failed deletion only the console event `UnlinkFailed`. |
| Translator.DisposeNoOp | src/pdfTranslator.ts:39 | With no remembered path, or no file at it, `dispose` is a no-op. |
| Translator.DisposeIdempotent | src/pdfTranslator.ts:38-47 | A second `dispose` deletes nothing more. It changes nothing at all when the first one succeeded. |
| Translator.DisposeDeletesCacheHit | src/pdfTranslator.ts:38-41 | A file that already existed and was served as a cache hit is still deleted by the next `dispose`. |
| Translator.PdfTranslator.constructor | src/pdfTranslator.ts:7 | A new translator has no remembered path and has seen no request. |
| Translator.PdfTranslator.TranslationUri | src/pdfTranslator.ts:50-52 | The getter is undefined before the first request. After that it is the path derived from the latest request. |
| Translator.PdfTranslator.TranslatePdf | src/pdfTranslator.ts:9-36 | The remembered path becomes the derived path, whatever the outcome. The result and the new host are those of `TranslateEffect`. |
| Translator.PdfTranslator.Dispose | src/pdfTranslator.ts:38-48 | The host changes as `DisposeEffect` says for the remembered path. |
| Provider.CreatePreviewEffect | src/pdfProvider.ts:84-96 | `createPreview`: the tracked URI becomes `uri`, a fresh preview becomes active and is the last event, and no file changes. `Provider.CreatePreviewReplaces` states the rest. |
| Provider.TranslateAndLoadEffect | src/pdfProvider.ts:68-82 | `translateAndLoadPdf`: a request for another URI tracks that URI and leaves the translator alone. A request for the tracked URI sets the translator's URI to the derived path. No file becomes locked, and the trace only grows. `Provider.StaleRequestRebinds`, `Provider.TranslatedRequestRebinds`, `Provider.FailedRequestKeepsBinding` and `Provider.TranslateToggles` state the rest. |
| Provider.ViewStateEffect | src/pdfProvider.ts:39-45 | The view-state handler never changes the tracked URI or the translator. A preview is active afterwards exactly when the panel is active, and deactivation leaves the host untouched. `Provider.ReactivationRebinds` and `Provider.DeactivationForgets` state the rest. |
| Provider.PanelDisposedEffect | src/pdfProvider.ts:34-37 | The dispose handler completes exactly when a preview is active. The locked set does not change, and the trace only grows. `Provider.PanelDisposedOrder` states the rest. |
| Provider.CreatePreviewReplaces | src/pdfProvider.ts:84-96 | From any state with fresh ids, including one that a closed panel left behind, the invariant is restored. The tracked URI becomes `uri` and the active preview becomes a fresh one. The old active preview is disposed immediately before the new one is created, and it is no longer live. When no preview was active, nothing is disposed. Every other live preview stays live. No file changes. |
| Provider.StaleRequestRebinds | src/pdfProvider.ts:79-81 | From any state with fresh ids, a request for a URI other than the tracked one runs no tool and changes no file. It rebinds the panel to a fresh preview of that URI, which becomes the tracked URI. |
| Provider.TranslatedRequestRebinds | src/pdfProvider.ts:72-75 | From any state with fresh ids, a request for the tracked URI that resolves makes the translated path the tracked URI and the translator's URI. That file exists, and a fresh preview of it is created. |
| Provider.FailedRequestKeepsBinding | src/pdfProvider.ts:76-78 | A failed translation shows "Translation failed: " + stderr. The tracked URI and the active preview stay as they were, the tool ran once, and the translated file is gone unless it cannot be deleted. Fresh ids stay fresh, and the invariant is kept when it held before. |
| Provider.TranslateToggles | src/pdfProvider.ts:68-82 | From any state with fresh ids, three requests for the same document show the translation, then the original, then the translation again (as a cache hit). The tool runs at most once in all three. |
| Provider.ReactivationRebinds | src/pdfProvider.ts:39-41 | From any state with fresh ids, including one after another panel closed, becoming active creates a fresh preview of the tracked URI and restores the invariant. The tracked URI does not change. |
| Provider.DeactivationForgets | src/pdfProvider.ts:42-44 | From any state with fresh ids, becoming inactive clears the active preview without disposing it, which establishes the invariant. The tracked URI and the host are unchanged. |
| Provider.DeactivationLeaksPreview | src/pdfProvider.ts:39-44 | After deactivation and reactivation, the earlier preview and the new one are both live. |
| Provider.PanelDisposedOrder | src/pdfProvider.ts:34-37 | From any state with fresh ids, which may be one where the active preview was already disposed, closing a panel keeps the ids fresh. It disposes the translator and then the active preview. The handler completes if and only if a preview is active, otherwise it throws. The translated file is gone unless it cannot be deleted. |
| Provider.CloseAfterDeactivationThrows | src/pdfProvider.ts:34-44 | From any state with fresh ids, closing the panel after it became inactive makes the dispose handler throw. |
| Provider.OpenCloseOpenDisposesTwice | src/pdfProvider.ts:32-37 | Opening a document, closing its panel and opening another document through the same provider disposes preview 0 twice. The invariant fails between the close and the second open, and holds again after it. |
| Provider.BackgroundCloseDisposesForegroundPreview | src/pdfProvider.ts:32-37 | With two panels of one provider, closing the panel in the background disposes preview 1, which the panel in the foreground shows, and leaves it active. The ids stay fresh, but the invariant fails. Closing the panel in the foreground then disposes preview 1 a second time. |
| Provider.ClosingAnyPanelDeletesShownTranslation | src/pdfProvider.ts:34-35 | From any state with fresh ids, after a translate request on one panel shows the translated file, closing any panel of the same provider deletes that file, unless it cannot be deleted. |
| Provider.PdfCustomProvider.constructor | src/pdfProvider.ts:8-12 | A new coordinator tracks nothing, has no active preview, and owns a fresh translator. |
| Provider.PdfCustomProvider.CreatePreview | src/pdfProvider.ts:84-96 | The fields and the host change as `CreatePreviewEffect` says, and the returned preview is the active one. |
| Provider.PdfCustomProvider.SetActivePreview | src/pdfProvider.ts:102-104 | The active preview becomes the given value, and nothing else changes. |
| Provider.PdfCustomProvider.ResolveCustomEditor | src/pdfProvider.ts:28-32 | Opening a document binds the panel to a preview of that document. |
| Provider.PdfCustomProvider.TranslateAndLoadPdf | src/pdfProvider.ts:68-82 | The fields, the translator's URI and the host change as `TranslateAndLoadEffect` says. The output directory is the extension root. The translator's request history gains `(uri, extensionRoot)` exactly when `uri` is the tracked URI. |
| Provider.PdfCustomProvider.OnDidChangeViewState | src/pdfProvider.ts:39-45 | The view-state handler changes the fields and the host as `ViewStateEffect` says. |
| Provider.PdfCustomProvider.OnDidDispose | src/pdfProvider.ts:34-37 | The dispose handler's result and the new host are those of `PanelDisposedEffect`, and no field changes. |
| Provider.PdfCustomProvider.OnProcessExit | src/pdfProvider.ts:13-15 | On process exit the translator is disposed. |

## Left out

- Running `pdf2zh`: the command line, the `-lo zh` language argument and the resolution of the tool's path (src/pdfTranslator.ts:22-25) are not modelled. The tool is reduced to a `ToolOutcome` chosen by the caller.
- Asynchrony: `fs.unlink` runs as an immediate deletion, and all `async`/`await` calls are treated as serialised. Interleavings of two translate requests are not modelled.
- Paths: only POSIX separators are handled. Node's normalisation of `..`, `.` and repeated separators inside the directory is not modelled, and neither is the `Uri.file(...).fsPath` round trip. A trailing separator on the source path is not stripped. A source path that is exactly ".pdf" keeps that name, whereas Node's `basename` returns the empty string.
- URIs are compared as strings, not as object references (see above).
- `PdfPreview` is an id that is created and disposed. Its own behaviour (src/pdfPreview.ts) is not part of this model.
- `setWebviewContent`, the injected script, and the `onDidReceiveMessage` handler that calls `translateAndLoadPdf` with the document's URI (src/pdfProvider.ts:47-65) are UI content. `TranslateAndLoadPdf` covers the call that the handler makes.
- OnProcessExit: Node runs `exit` listeners synchronously and then ends the process. The asynchronous `fs.unlink` that `dispose` starts there may therefore never complete, and its error callback never runs. The model treats that deletion as immediate, like every other.
- The SIGINT and SIGTERM handlers only call `process.exit`. Only the `exit` handler's call to the translator's `dispose` is modelled (`OnProcessExit`).
- `openCustomDocument`, the `activePreview` getter and `src/extension.ts` are registration and accessor code with no logic of their own.
