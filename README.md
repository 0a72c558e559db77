# OncoVision front end — a Dafny model

OncoVision is a browser demo of a breast-cancer diagnosis portal. A clinician
signs in with the one demo account. They pick a scan, or type clinical markers,
and start an analysis. A mock engine walks through five processing stages. It
labels the case Malignant, Benign or Normal and attaches a fixed table of
feature contributions (SHAP values) for that label. The result panel can publish
a result under a share link `?reportId=<id>`. Anyone who opens that link gets a
read-only report, which the shell rebuilds from the id alone.

The model covers four components:

- `diagnosis.dfy` (module `Diagnosis`) covers the diagnostic workspace.
  - The input guard, the label rules (file-name length mod 3; a clinical draw
    against 0.33 and 0.66), the per-label SHAP tables, the result record and
    the order in which a run shows its stages.
  - The class `Workspace` holds the mode, file, stage, result and clinical
    form. Its methods are the file, drop, reset, mode and analysis handlers.
  - A ghost `trace` records every (stage, result) state the workspace has
    shown. This lets the contract of `StartAnalysis` state the full sequence a
    run goes through.
- `app.dfy` (module `App`) covers the application shell.
  - The shared-report decoder and the choice of page from (view, signed-in,
    report).
  - The class `AppShell`, with page load, logout, "Back to Portal", sign-in
    and navigation.
  - Lemmas that link the share link to the decoder.
- `results.dfy` (module `Results`) covers the result panel.
  - The share link and the colour choices.
  - The class `ResultsPanel`, with the published flag, the public link and the
    copied flag.
- `login.dfy` (module `Login`) covers the login form: the class `LoginForm`,
  with the submit and its delayed credential check.
- `types.dfy` holds the shared record and enumeration types. `urls.dfy` holds
  the page address as origin, path, ordered query parameters and fragment,
  with `URLSearchParams`-style `get`, serialisation and parsing. `wrappers.dfy`
  holds `Option`.

Everything outside the program's own logic is passed in as a parameter:

- random draws, as `real` values in [0, 1);
- `Math.random().toString(36)`, as a string;
- the clock;
- the object URL of a file;
- whether the clipboard write succeeded;
- the reply of the text-generation service, where `None` stands for a failed
  call.

Each delayed callback is a separate method: the login check is
`ResolveSubmit` and the end of the copy timer is `CopyTimerElapsed`.

## Model

| member | source | states |
|---|---|---|
| Types.Ordinal | types.ts:16-24 | The seven stages in their declared order: IDLE is first, COMPLETE last. |
| Urls.Get | App.tsx:18-19 | The value of the first parameter with the key. None exactly when no parameter has that key. |
| Urls.SearchString | components/ResultsView.tsx:59-61 | The search text is empty exactly when there are no parameters. |
| Urls.ParseSearchRoundTrip | components/ResultsView.tsx:60-61 | Parsing the serialised query gives back the same parameter list, in order, when keys and values are URL-safe. |
| Urls.PathOnly | App.tsx:46-48 | Replacing the address with its bare path keeps origin and path and leaves no query, fragment or `reportId`. |
| Diagnosis.WithField | components/DiagnosisDashboard.tsx:214-221 | Editing one clinical field sets that field and keeps every other field, including smoothness. |
| Diagnosis.InputReady | components/DiagnosisDashboard.tsx:60-61 | In image mode a run may start exactly when a file is set; in clinical mode exactly when radius_mean is non-empty. |
| Diagnosis.IsProcessing | components/DiagnosisDashboard.tsx:129 | Processing holds exactly for the stages strictly between IDLE and COMPLETE. |
| Diagnosis.SubmitDisabled | components/DiagnosisDashboard.tsx:232 | The button is disabled exactly when processing or when the input guard of lines 60-61 fails. An enabled button therefore never hits an early return. |
| Diagnosis.Utf16Length | components/DiagnosisDashboard.tsx:79 | The length JavaScript reports, in UTF-16 code units: between the character count and twice it. |
| Diagnosis.Utf16LengthBasicPlane | components/DiagnosisDashboard.tsx:79 | For a name with no character above U+FFFF, the code-unit length equals the character count. |
| Diagnosis.Utf16LengthAstral | components/DiagnosisDashboard.tsx:79 | One character above U+FFFF makes the code-unit length exceed the character count. |
| Diagnosis.ImageLabel | components/DiagnosisDashboard.tsx:78-80 | The label is Malignant, Benign or Normal exactly when the name's code-unit length mod 3 is 0, 1 or 2. |
| Diagnosis.ClinicalLabel | components/DiagnosisDashboard.tsx:82-83 | The label is Normal below 0.33, Benign in [0.33, 0.66) and Malignant from 0.66 up. |
| Diagnosis.DerivePrediction | components/DiagnosisDashboard.tsx:77-84 | The file-name rule applies in image mode with a file. The draw rule applies otherwise. |
| Diagnosis.ImageLabelDependsOnLengthMod3 | components/DiagnosisDashboard.tsx:78-80 | Two names whose code-unit lengths agree mod 3 get the same label. |
| Diagnosis.EveryLabelReachable | components/DiagnosisDashboard.tsx:77-84 | Each label is produced by some file name and by some draw in [0, 1). |
| Diagnosis.ClinicalLabelMonotone | components/DiagnosisDashboard.tsx:82-83 | A larger draw never gives a less severe label. |
| Diagnosis.ScanExampleIsMalignant | components/DiagnosisDashboard.tsx:78-80 | `scanA.png` is 9 code units long and is labelled Malignant. |
| Diagnosis.AstralNameCountsTwice | components/DiagnosisDashboard.tsx:79-80 | `😀.png` has 5 characters but 6 code units, so it is labelled Malignant rather than Normal. |
| Diagnosis.ShapTable | components/DiagnosisDashboard.tsx:86-105 | Three entries over radius_mean, texture_worst and concavity_mean. Every impact matches its value's sign. The entries are all positive exactly for Malignant and all negative exactly for Normal. |
| Diagnosis.ShapTableInjective | components/DiagnosisDashboard.tsx:86-105 | Distinct labels get distinct tables. |
| Diagnosis.DashboardConfidence | components/DiagnosisDashboard.tsx:114 | Confidence lies in [0.85, 0.99) for every draw in [0, 1). |
| Diagnosis.Interpretation | components/DiagnosisDashboard.tsx:47-56 | The service's reply when there is one; otherwise the fixed fallback sentence. |
| Diagnosis.UpperChar | components/DiagnosisDashboard.tsx:110 | A lower-case ASCII letter becomes its capital (32 code points lower); any other character is kept; the result is never a lower-case ASCII letter. |
| Diagnosis.Upper | components/DiagnosisDashboard.tsx:110 | Same length. Every lower-case ASCII letter becomes its capital at the same position, every other character is kept, and no lower-case ASCII letter is left. |
| Diagnosis.UpperIdempotent | components/DiagnosisDashboard.tsx:110 | Upper-casing an upper-cased text changes nothing. |
| Diagnosis.Substr | components/DiagnosisDashboard.tsx:110 | At most n characters, copied from position start, cut short at the end of the text; empty when start is past the end. |
| Diagnosis.IdFromDraw | components/DiagnosisDashboard.tsx:110 | The id is `ONCO-` followed by at most six upper-cased characters from position 2 of the draw. It is URL-safe when the draw is base-36 text. |
| Diagnosis.BuildResult | components/DiagnosisDashboard.tsx:109-118 | The record has the run's mode, label and timestamp, the label's table and the `ONCO-` id made from the id draw. It has an image URL exactly when there is a file, confidence in [0.85, 0.99), the given interpretation, and no published flag or link. |
| Diagnosis.RunTraceForward | components/DiagnosisDashboard.tsx:63-74 | A run shows six states, PREPROCESSING first. Stage ordinals strictly increase. No result is shown while processing. The last state is COMPLETE with the result. |
| Diagnosis.Workspace.constructor | components/DiagnosisDashboard.tsx:9-20 | Image mode, no file, IDLE, no result, all five clinical fields empty. |
| Diagnosis.Workspace.HandleFileChange | components/DiagnosisDashboard.tsx:22-28 | With no files nothing changes. Otherwise the first file is taken, the result is cleared, the stage returns to IDLE, and mode and form are kept. |
| Diagnosis.Workspace.HandleDrop | components/DiagnosisDashboard.tsx:31-38 | A drop behaves exactly like picking the same files. |
| Diagnosis.Workspace.EditClinical | components/DiagnosisDashboard.tsx:214-221 | Typing in a field replaces that field of the form and nothing else. |
| Diagnosis.Workspace.Reset | components/DiagnosisDashboard.tsx:122-127 | No file, no result, IDLE, all five clinical fields empty; the mode is kept. The "Remove Scan" button at line 193 calls it. |
| Diagnosis.Workspace.SelectMode | components/DiagnosisDashboard.tsx:140-157 | The mode becomes the chosen one and the workspace is reset. |
| Diagnosis.Workspace.ShowStage | components/DiagnosisDashboard.tsx:63-74 | Sets the stage and records the shown state, leaving the result alone. |
| Diagnosis.Workspace.ShowProcessingStages | components/DiagnosisDashboard.tsx:63-74 | Clears the result and shows PREPROCESSING, CNN_EXTRACTION, ML_CLASSIFICATION, XAI_CALCULATION and AI_INSIGHTS in that order, each without a result. |
| Diagnosis.Workspace.StartAnalysis | components/DiagnosisDashboard.tsx:59-120 | Without a file in image mode, or without radius_mean in clinical mode, nothing changes. Otherwise the run shows the five stages with no result, then ends at COMPLETE. The result is built from the run's mode, file and label, its id is URL-safe, and the workspace invariant is kept. |
| Results.ShareUrl | components/ResultsView.tsx:57-60 | Same origin, path and fragment. The query is exactly `reportId=<id>`, so every earlier parameter is gone. |
| Results.ShareLink | components/ResultsView.tsx:55-61 | The link text is origin, path, `?reportId=<id>` and the fragment. |
| Results.FallbackShareLink | components/ResultsView.tsx:62-63 | The hand-built link writes the same `?reportId=<id>`. It is the primary link without the fragment. |
| Results.ShareLinkIgnoresEarlierQuery | components/ResultsView.tsx:58-59 | Two addresses that differ only in their query give the same link. |
| Results.ShareLinkNonEmpty | components/ResultsView.tsx:67-71 | A share link is never empty, so a published panel always shows its link. |
| Results.StatusTone | components/ResultsView.tsx:17-50 | Red exactly for Malignant, amber exactly for Benign, green exactly for Normal. |
| Results.BarColour | components/ResultsView.tsx:218 | A zero value is blue. For a sign-consistent entry, the bar is red exactly when the impact is positive. |
| Results.HeatmapOverlay | components/ResultsView.tsx:180-183 | The overlay is red exactly when the status tone is red, which is exactly Malignant. |
| Results.ResultsPanel.constructor | components/ResultsView.tsx:12-15 | Published exactly when the result arrives published. The mount effect of lines 84-89 then holds the share link; otherwise the link is empty. The heat map is on and shows when there is a scan. |
| Results.ResultsPanel.HandlePublish | components/ResultsView.tsx:67-71 | Published with the share link of the current address. The link panel shows and the publish button is hidden; the panel invariant is kept. |
| Results.ResultsPanel.HandleCopyLink | components/ResultsView.tsx:73-82 | Copies the held link, or a fresh share link when none is held. The copied flag is raised on success and unchanged on failure. |
| Results.ResultsPanel.CopyTimerElapsed | components/ResultsView.tsx:78 | The timer lowers the copied flag. |
| Login.Accepts | components/Login.tsx:21 | An accepted pair has a non-empty email and password of the demo pair's lengths, so blank fields never sign in. |
| Login.OnlyDemoPairAccepted | components/Login.tsx:21-22 | Exactly the demo email and password pair is accepted; changing either half is rejected. |
| Login.LoginForm.constructor | components/Login.tsx:9-12 | Empty fields, no error, not loading, no pending check. |
| Login.LoginForm.EditEmail | components/Login.tsx:60 | Typing sets the email. |
| Login.LoginForm.EditPassword | components/Login.tsx:77 | Typing sets the password. |
| Login.LoginForm.HandleSubmit | components/Login.tsx:14-18 | Loading is raised and the error cleared before any check, which disables the button. The check is scheduled with the submitted values. |
| Login.LoginForm.ResolveSubmit | components/Login.tsx:20-27 | Success exactly on the demo pair, and then loading stays up with no error. On a mismatch the fixed message is shown and loading drops. |
| App.DecodedLabel | App.tsx:26 | Malignant exactly when the id has an `M`; Benign exactly when it has a `B` and no `M`; otherwise Normal. |
| App.MalignantTakesPrecedence | App.tsx:26 | An id with both letters decodes as Malignant. |
| App.DecodedShap | App.tsx:29-33 | Three entries over the chart features with sign-consistent impacts. All positive when the id has an `M`, all negative otherwise. |
| App.DecodedConfidence | App.tsx:27 | Confidence lies in [0.92, 0.97) for every draw in [0, 1). |
| App.DecodeReport | App.tsx:22-35 | The report carries the given id and timestamp, image mode, published true, and the label and table from the id's letters. Confidence is in [0.92, 0.97), with the fixed interpretation and no image or link. |
| App.GetReportFromUrl | App.tsx:17-36 | None exactly when `reportId` is missing or empty; otherwise the report decoded from that id. |
| App.DecodedLabelDependsOnlyOnId | App.tsx:22-35 | For one id, the decoded label and table are the same whatever the draw and the clock. |
| App.DecodedTablesAgainstWorkspace | App.tsx:29-33 | Decoded Benign and Normal reports share one table, while the workspace gives them different ones. Only the Malignant tables agree. |
| App.SharedXM1IsMalignant | App.tsx:19-26 | Opening `?reportId=XM1` shows a Malignant report with id XM1. |
| App.ShareRoundTrip | App.tsx:19-23 | The parameters of a share address decode to a report carrying the shared id. |
| App.ShareLinkTextRoundTrip | App.tsx:18-23 | For a URL-safe id, the share link's query text parses back to its parameters. Decoding that gives a report with the shared id. |
| App.WorkspaceResultSurvivesSharing | App.tsx:17-36 | A workspace id built from a base-36 draw survives publishing and reopening; the reopened label is the one its letters give. |
| App.SharedLabelCanDiffer | App.tsx:26 | A Normal workspace result with id `ONCO-M12345` reopens as Malignant. |
| App.RenderView | App.tsx:51-104 | The public-report page shows exactly when the view is PUBLIC_REPORT with a report, whatever the sign-in state. Outside that, a signed-out visitor gets exactly the login form, and every other page needs sign-in. |
| App.RenderViewSwitch | App.tsx:88-104 | Signed in, each view has its own page, and any other view falls back to the hero. |
| App.NavbarHiddenExactlyOnPublicReport | App.tsx:109-111 | In a reachable state the navigation bar is hidden exactly while the public report is shown. |
| App.FallbackUnreachable | App.tsx:102-103 | In a reachable state the hero-only fallback is never rendered. |
| App.AppShell.constructor | App.tsx:38-40 | Signed out. The public-report view with the decoded report when the address holds a non-empty `reportId`; home otherwise. |
| App.AppShell.HandleLogout | App.tsx:42-49 | Signed out, on the home view, with the address reduced to its path and no `reportId`. |
| App.AppShell.BackToPortal | App.tsx:61-67 | Home view, no public report, and the address reduced to its path; the sign-in state is kept. |
| App.AppShell.OnLogin | App.tsx:85 | From the login page the shell becomes signed in. |
| App.AppShell.SetView | App.tsx:110 | A navigation link sets the chosen view and keeps the shell reachable. |
| App.AppShell.StartDiagnosis | App.tsx:92 | The hero's start button opens the workspace page. |

## Left out

- The text-generation service call (components/DiagnosisDashboard.tsx:40-57) is a network client. Its reply is a parameter, and `None` stands for the error path that returns the fallback sentence.
- The pauses (800, 1000, 800, 900, 1200 and 2000 ms) carry no timing. Each run is one atomic method. The delayed login check and the copy timer are separate methods.
- Interleaving during a run is not modelled. While a run is paused the source leaves the mode buttons (components/DiagnosisDashboard.tsx:141, 150), the drop zone (line 176) and "Remove Scan" (line 193, which calls `reset`) live; the file input itself is not rendered while a file is set (lines 183, 204). An event in that window keeps its new `mode` or `file`, and the run's later writes overwrite only `step` and `result`. The run can then end at COMPLETE showing a result whose mode differs from the current mode, or whose image URL is set while no file is held. `Workspace.Valid()` rules out exactly these states, so the model, which runs each analysis atomically on the mode and file of the moment it starts, does not capture them.
- Diagnosis.Workspace.StartAnalysis: the run's label, id, confidence and reply come from the parameters `labelDraw`, `idDraw`, `confidenceDraw` and `reply`; `idDraw` is required to be base-36 text, as `Math.random().toString(36)` always is. `Math.random`, `Date.now` and `URL.createObjectURL` are not modelled otherwise.
- Diagnosis.IdFromDraw: `Math.random().toString(36)` is taken as a string parameter. The contract states the id only in terms of that string.
- Percent-encoding of query text is not modelled. The round-trip lemmas are stated for URL-safe keys and values (letters, digits, `*`, `-`, `.`, `_`), which covers every id the workspace builds.
- The `catch` branch of the share-link builder (components/ResultsView.tsx:62-63) fires when the address cannot be parsed. Addresses are always well formed here, so the panel always uses the primary link. `Results.FallbackShareLink` states how the fallback text compares with it.
- Results.ResultsPanel.constructor: the mount effect is modelled once, at construction. Its re-run when `result.id` changes cannot happen, because the panel's result is fixed.
- Results.ResultsPanel.CopyTimerElapsed: overlapping timers from several quick copies are not modelled. Each elapsed timer lowers the flag.
- The heat-map toggle has no setter in the source, so `showHeatmap` is always true.
- Browser form validation (`required`, `type=email`) runs before `handleSubmit` and is not modelled.
- The markup, CSS classes, chart rendering, number formatting (`toFixed`, percentages) and React's re-render timing are not modelled. `Tone`, `BarFill` and `Overlay` stand for the colour classes.
- components/Navbar.tsx, components/Hero.tsx, components/About.tsx and components/Architecture.tsx are presentational. Only their callbacks into the shell are modelled, as `SetView` and `StartDiagnosis`. The Navbar's "share app" clipboard copy is not modelled.
- Confidence and SHAP values are `real`, not IEEE doubles.
- File names are labelled by their length in UTF-16 code units, as JavaScript counts it (`Diagnosis.Utf16Length`); `scanA.png` has 9, so the code labels it Malignant (`Diagnosis.ScanExampleIsMalignant`).
