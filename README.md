# chunlian wizard core, modelled in Dafny

The project models the client-side logic of a three-stage marketing wizard for
Spring Festival couplets (春联).

- **Session.** `App` holds one session record, `AppState`. It moves from Upload
  to Visualize to Final, and back or reset.
- **Upload.** The stage collects the couplet image, an optional door image and
  a title and content. These can be typed, or extracted from a pasted link. The
  link is cleaned down to a URL, the same-origin `/extract-body` proxy is asked
  for the page's `#detail-title` and `#detail-desc`, and one of two AI
  extractors may then be asked.
- **Visualize.** The stage issues a batch of N identical image requests and one
  copy request, joins them like `Promise.all`, and lets the user pick an image,
  edit the copy and confirm.
- **Copywrite.** StepCopywrite is an alternative copy stage. It has its own
  proxy merge, a generate action and copy edits.
- **Settings.** The settings dialog stores the API key in the `localStorage`
  slot `SCW_API_KEY`.
- **Utils.** `stripBase64Prefix` removes a data-URL header.

Layout: one module per source file, plus `Common` (shared values) and `Text`
(`String.prototype.trim` over the JavaScript white-space set).
- Pure code becomes functions and lemmas: `Utils`, the URL cleaning and merge
  chain of `Upload`, and the updaters of `Session`.
- Code that mutates component state becomes classes whose methods have
  `modifies this`: `Session.App`, `Settings.SettingsModal`,
  `Visualize.VisualizeStage`, `Upload.UploadStage` and
  `Copywrite.CopywriteStage`.
- Every handler states its complete new state. The classes of `Visualize`,
  `Upload` and `Copywrite` do so against `old(View())`, a ghost snapshot of
  their fields. `Session.App` has one field, `state`, and states it against
  `old(state)`. `Settings.SettingsModal` states each of its four fields.
- The AI service, the proxy and the file reader are not part of the model.
  - How each call settles is a parameter: `Outcome`, or `ProxyReply`, whose
    shape is the proxy's JSON `{content, elements: {detailTitle, detailDesc}}`.
  - Each handler returns the requests it issues.
  - Visualize's `handleGenerate` awaits mid-way, so it is split in two:
    `BeginGenerate` runs up to the `await` and `SettleGenerate` runs after
    `Promise.all` settles. A ghost field `pending` holds the batch in flight,
    so `SettleGenerate` can only commit the answers to that batch.

Three behaviours of the code are easy to misread:
- A generation batch first clears the previous images and copy. A failed batch
  therefore leaves them empty; they are not preserved.
- The AI step of the Upload extraction is not a chain tried in order. Exactly
  one extractor is asked: the content extractor when the proxy returned page
  content, the search extractor otherwise. A miss is not retried with the
  other.
- Upload's `handleNext` does not itself check for an API key; only its button
  is disabled without one.

## Model

| member | source | states |
|---|---|---|
| `Text.IsSpace` | components/StepUpload.tsx:60-62 | the characters `\s` matches and `trim()` removes: the JavaScript WhiteSpace and LineTerminator code points; stated through `Text.TrimSpan` and `Text.TrimBlank` |
| `Text.StartsWith` | components/StepUpload.tsx:64 | `s.startsWith(p)` holds exactly when `p` is the first `\|p\|` characters of `s` |
| `Text.SkipSpace` | components/StepUpload.tsx:62 | the leading white-space run ends at the first character that is not white space |
| `Text.SkipSpaceBack` | components/StepUpload.tsx:62 | the trailing white-space run starts just after the last character that is not white space |
| `Text.Trim` | components/StepUpload.tsx:62 | `trim()` never lengthens a string, and its result has white space at neither end |
| `Text.TrimSpan` | components/StepUpload.tsx:62 | `trim()` removes white space at the ends and nothing else: the result is the slice of the input after its leading white-space run, with only white space after it |
| `Text.TrimUnpadded` | components/SettingsModal.tsx:21-22 | a string with white space at neither end is its own trim |
| `Text.TrimIdempotent` | components/SettingsModal.tsx:21-22 | trimming twice equals trimming once |
| `Text.TrimBlank` | components/SettingsModal.tsx:21-24 | `trim()` is empty exactly when the input is all white space, which decides between storing and removing the key |
| `Utils.LowerRun` | services/utils.ts:11 | `[a-z]+` runs greedily: every counted character is lower case, and the next one is not |
| `Utils.HeaderLength` | services/utils.ts:11 | the anchored header the pattern matches is no longer than the input and, when present, longer than `data:image/` and `;base64,` together; its meaning is stated by `Utils.StripRoundTrip` and `Utils.StripChangesOnlyPrefixed` |
| `Utils.StripBase64Prefix` | services/utils.ts:10-12 | the result is always a suffix of the input |
| `Utils.LowerRunStops` | services/utils.ts:11 | a lower-case run followed by a non-letter has exactly that run's length |
| `Utils.StripRoundTrip` | services/utils.ts:10-12 | stripping the header `data:image/<t>;base64,` of a lower-case subtype `t` gives back the payload unchanged |
| `Utils.StripChangesOnlyPrefixed` | services/utils.ts:10-12 | the string changes exactly when it starts with a header of some lower-case subtype |
| `Utils.StripKeepsNonSubtypes` | services/utils.ts:11 | a header whose subtype is not `[a-z]+` and holds no `;` is not removed, whatever the payload |
| `Utils.StripKeepsOtherSubtypes` | services/utils.ts:11 | instances: the `PNG` and `svg+xml` headers are not removed, whatever the payload |
| `Utils.StripRemovesOneHeader` | services/utils.ts:11 | only one header is removed per call (no `g` flag), so a doubled header needs two calls |
| `Settings.StoredKey` | components/SettingsModal.tsx:14-18 | opening shows the stored value, or "" when the slot is absent |
| `Settings.SaveKey` | components/SettingsModal.tsx:20-25 | a non-blank input is stored trimmed, a blank one removes the slot, and no other slot changes |
| `Settings.ClearKey` | components/SettingsModal.tsx:32-33 | the slot is removed and no other slot changes |
| `Settings.SlotWellFormed` | components/SettingsModal.tsx:21-24 | what the dialog writes: the slot is absent or holds a non-empty value equal to its own trim; preserved by `Settings.SaveKeepsSlotWellFormed` and `Settings.ClearKeepsSlotWellFormed`, and relied on by `Settings.CustomKeyIffStored` |
| `Settings.SaveKeepsSlotWellFormed` | components/SettingsModal.tsx:20-25 | after a save from any store, even one whose slot held "" or a padded key, the slot is absent or holds a non-empty value equal to its own trim |
| `Settings.ClearKeepsSlotWellFormed` | components/SettingsModal.tsx:32-33 | after a clear from any store the slot is well formed |
| `Settings.SaveThenOpen` | components/SettingsModal.tsx:14-25 | round trip: after a save, reopening shows the trimmed input |
| `Settings.SaveTwice` | components/SettingsModal.tsx:20-25 | saving the same input twice equals saving it once |
| `Settings.SaveReopenedIsStable` | components/SettingsModal.tsx:14-25 | saving again the text shown after a save changes nothing |
| `Settings.HasCustomKey` | App.tsx:27-29 | `!!localStorage.getItem('SCW_API_KEY')`: the slot is present and non-empty; stated by `Settings.CustomKeyIffStored` and `Settings.SaveSetsFlag` |
| `Settings.SaveSetsFlag` | components/SettingsModal.tsx:20-28 | after a save from any store, `hasCustomKey` holds exactly when the trimmed input is non-empty |
| `Settings.CustomKeyIffStored` | App.tsx:27-29 | on a slot the dialog wrote, `hasCustomKey` holds exactly when the slot is present |
| `Settings.SettingsModal.Valid` | App.tsx:25-33 | the dialog invariant: the parent's `hasCustomKey` agrees with the store, as `checkKeyStatus` on mount and as `onSettingsChanged` (App.tsx:123) make it; established by the constructor and preserved by every method, so after any sequence of dialog actions the flag is `HasCustomKey(store)` |
| `Settings.SettingsModal.constructor` | App.tsx:24-33 | mounts closed over any store, including one whose slot holds "" or a padded key, with `hasCustomKey` computed from the store |
| `Settings.SettingsModal.Open` | components/SettingsModal.tsx:14-18 | the field loads the stored key; store and flag unchanged |
| `Settings.SettingsModal.Type` | components/SettingsModal.tsx:55 | only the field changes |
| `Settings.SettingsModal.Save` | components/SettingsModal.tsx:20-30 | the store becomes `SaveKey`, the parent's flag is refreshed to "trimmed input non-empty", the dialog closes, and afterwards the slot is well formed whatever it held before |
| `Settings.SettingsModal.Clear` | components/SettingsModal.tsx:32-37 | the slot is removed, the field is emptied, the flag is false, the dialog closes, and the slot is well formed |
| `Settings.SettingsModal.Close` | components/SettingsModal.tsx:46 | only the open flag changes |
| `Session.Initial` | App.tsx:10-22 | the initial session; stated by `Session.InitialState` and `Session.InitialConsistent` |
| `Session.InitialState` | App.tsx:10-22 | the initial session is on Upload with no images, an empty source copy, no results, not loading and no error |
| `Session.IndexOf` | App.tsx:67 | `indexOf` gives the first position of the element, or -1 exactly when it is absent |
| `Session.StepNumber` | App.tsx:67 | the header's step number is between 1 and 3; `Session.StepNumbers` gives each value |
| `Session.StepNumbers` | App.tsx:67 | the header shows 1, 2 and 3 for Upload, Visualize and Final (types.ts order) |
| `Session.GoBack` | App.tsx:35-44 | Visualize goes to Upload, Final to Visualize, and Upload stays; only `step` changes, and the step number drops by one |
| `Session.OnNext` | App.tsx:76-82 | records the couplet, door and copy and moves to Visualize; the generated fields are unchanged |
| `Session.OnConfirm` | App.tsx:92-97 | keeps just the chosen image and the final copy and moves to Final; nothing else changes |
| `Session.OnReset` | App.tsx:105-115 | the reset updater; stated by `Session.ResetIsInitial` |
| `Session.ResetIsInitial` | App.tsx:105-115 | reset yields the initial state from any state |
| `Session.UploadPayloadOk` | components/StepUpload.tsx:120-124 | the `handleNext` guard: a couplet image, a non-empty title and a non-empty content; `Upload.UploadStage.Next` ensures it of what it passes, and `Session.WiredKeepsConsistent` relies on it |
| `Session.Wired` | App.tsx:74-117 | which callback each rendered step passes, with the render guards on the couplet image and on the first image and copy; stated by `Session.WiredMovesAdjacent` and `Session.WiredKeepsConsistent` |
| `Session.Apply` | App.tsx:35-115 | the state updater behind each callback; stated by `Session.WiredMovesAdjacent` and `Session.WiredKeepsConsistent` |
| `Session.Run` | App.tsx:74-117 | a sequence of callbacks applied in order; stated by `Session.RunKeepsConsistent` |
| `Session.Consistent` | App.tsx:74-117 | past Upload a truthy couplet and both halves of the source copy; on Final exactly one image and a copy; established by `Session.InitialConsistent` and preserved by `Session.WiredKeepsConsistent` and `Session.RunKeepsConsistent` |
| `Session.WiredMovesAdjacent` | App.tsx:74-101 | every callback wired on the rendered step moves to an adjacent step, except reset, which goes to Upload; Upload never reaches Final directly |
| `Session.InitialConsistent` | App.tsx:10-22 | the initial state satisfies the session invariant |
| `Session.WiredKeepsConsistent` | App.tsx:74-117 | each wired callback keeps the invariant: past Upload, a couplet and both halves of the source copy are there; on Final, exactly one image and a copy |
| `Session.RunKeepsConsistent` | App.tsx:74-117 | any sequence of wired callbacks keeps the invariant |
| `Session.App.constructor` | App.tsx:10-22 | App starts in the initial state |
| `Session.App.GoBackStep` | App.tsx:35-44 | the back button applies `goBack` |
| `Session.App.UploadNext` | App.tsx:76-82 | the Upload callback applies `OnNext` and keeps the invariant |
| `Session.App.VisualizeConfirm` | App.tsx:92-97 | the Visualize callback applies `OnConfirm` and keeps the invariant |
| `Session.App.FinalReset` | App.tsx:105-115 | the reset callback restores the initial state |
| `Visualize.StyleList` | components/StepVisualize.tsx:47-56 | the door styles offered; stated by `Visualize.StyleListShape` |
| `Visualize.SelectedStyle` | components/StepVisualize.tsx:47-56 | the style selected on mount; stated by `Visualize.StyleListShape` |
| `Visualize.StylePrompt` | components/StepVisualize.tsx:65-66 | the prompt sent for a style; stated by `Visualize.MissingStyleExactly` |
| `Visualize.MissingStyle` | components/StepVisualize.tsx:65-70 | the fail-fast check; stated by `Visualize.MissingStyleExactly` |
| `Visualize.StyleListShape` | components/StepVisualize.tsx:47-56 | with a door image, "自家大门" comes before the six defaults and is selected; without one, the defaults are shown with the first selected; the selection is always listed |
| `Visualize.MissingStyleExactly` | components/StepVisualize.tsx:65-70 | a run is refused exactly when "自定义" is chosen with empty custom text |
| `Visualize.AllOk` | components/StepVisualize.tsx:81-84 | `Promise.all` resolves exactly when every outcome is Ok, with the values in issue order; otherwise it rejects with one of the errors |
| `Visualize.JoinRun` | components/StepVisualize.tsx:81-84 | the outer join resolves exactly when every image and the copy resolved, giving the images in order and the copy |
| `Visualize.VisualizeStage.Valid` | components/StepVisualize.tsx:28-42 | the stage invariant over the state declared there: the chosen style is listed, the count is in 1..4 (the buttons of line 171), the selected image is one of the results whenever results exist (lines 88 and 218), at most four results are shown, and a run is in flight exactly when a batch of one to four image requests is pending, then holding no results, copy or error; established by the constructor, preserved by every method, and relied on by `Next` to index the selected image and by `SettleGenerate` to bound what it commits |
| `Visualize.VisualizeStage.constructor` | components/StepVisualize.tsx:28-56 | the initial local state after the style effect has run, satisfying the stage invariant |
| `Visualize.VisualizeStage.ChooseStyle` | components/StepVisualize.tsx:138 | only the selected style changes, to a listed one |
| `Visualize.VisualizeStage.TypeCustomStyle` | components/StepVisualize.tsx:152 | only the custom text changes |
| `Visualize.VisualizeStage.ChooseCount` | components/StepVisualize.tsx:171 | only the count changes, within 1..4 |
| `Visualize.VisualizeStage.BeginGenerate` | components/StepVisualize.tsx:58-79 | previous results are cleared; a missing custom style fails with its message and no request; otherwise `imageCount` identical image requests and one copy request for the source copy are issued, and the run is in flight with that batch pending |
| `Visualize.VisualizeStage.SettleGenerate` | components/StepVisualize.tsx:81-94 | settles the batch the run issued (the ghost `pending`); on full success its one to four images in order and the copy are committed with the first selected; otherwise the results stay empty and the error message is shown; the run ends either way |
| `Visualize.VisualizeStage.RegenerateCopy` | components/StepVisualize.tsx:97-109 | nothing happens when both halves of the source copy are empty; otherwise one request is made, a success replaces the copy and a failure keeps it; nothing else changes |
| `Visualize.VisualizeStage.SelectImage` | components/StepVisualize.tsx:218 | only the selection changes, to a shown image |
| `Visualize.VisualizeStage.EditTitle` | components/StepVisualize.tsx:290 | only the copy's title changes |
| `Visualize.VisualizeStage.EditContent` | components/StepVisualize.tsx:295 | only the copy's content changes |
| `Visualize.VisualizeStage.Next` | components/StepVisualize.tsx:111-115 | `onConfirm` is called exactly when images and a copy exist, with the selected image and the copy |
| `Upload.UrlChar` | components/StepUpload.tsx:60 | the class `[^\s\u4e00-\u9fa5,，;；"']`; stated through `Upload.RunEnd` and `Upload.MatchedUrlShape` |
| `Upload.MatchesAt` | components/StepUpload.tsx:60 | the pattern anchored at a position: a scheme and at least one accepted character; stated through `Upload.FirstMatch`, `Upload.UrlMatch` and `Upload.MatchedUrlShape` |
| `Upload.SchemeLength` | components/StepUpload.tsx:60 | `https?://` matches `https://` when present, and `http://` only otherwise |
| `Upload.RunEnd` | components/StepUpload.tsx:60 | the character class is repeated greedily up to the first refused character |
| `Upload.FirstMatch` | components/StepUpload.tsx:60-61 | the first position where the pattern matches, and no earlier one |
| `Upload.UrlMatch` | components/StepUpload.tsx:60-61 | `match` finds nothing exactly when the pattern matches nowhere; otherwise the leftmost match, extended as far as accepted characters go |
| `Upload.CleanUrl` | components/StepUpload.tsx:60-62 | the match, or else the trimmed text; stated by `Upload.MatchedUrlShape`, `Upload.FailsFastExactly` and `Upload.CleanUrlExample` |
| `Upload.MatchedUrlShape` | components/StepUpload.tsx:60-62 | a matched URL is `http://` or `https://` followed by one or more characters that are not white space, CJK ideographs, commas, semicolons or quotes |
| `Upload.FailsFastExactly` | components/StepUpload.tsx:62-66 | the flow fails before any call exactly when nothing matched and the trimmed text does not start with "http" |
| `Upload.CleanUrlExample` | components/StepUpload.tsx:60-62 | a shared text is cut down to its URL, which ends at a full-width comma; `Upload.ExampleMatchStart` shows the pattern first matches at position 2 and `Upload.ExampleMatch` that the match spans `http://a` |
| `Upload.ProxyTitle` | components/StepUpload.tsx:82 | `data.elements?.detailTitle`: present only on an ok reply; used by `Upload.ProxyComplete`, `Upload.Extraction` and `Upload.FetchProxyWins` |
| `Upload.ProxyDesc` | components/StepUpload.tsx:83 | `data.elements?.detailDesc`: present only on an ok reply; used by `Upload.ProxyComplete`, `Upload.Extraction` and `Upload.FetchProxyWins` |
| `Upload.ProxyComplete` | components/StepUpload.tsx:85-89 | both elements found, the early return; stated by `Upload.FetchAsksAi` (no AI call exactly then) and `Upload.FetchProxyWins` |
| `Upload.ProxyField` | components/StepUpload.tsx:82-83 | a non-empty proxy element replaces the field as is; an absent or empty one leaves it |
| `Upload.AiField` | components/StepUpload.tsx:105-106 | an AI field replaces the current value only when it is non-empty and not its "nothing found" sentinel |
| `Upload.Extractor` | components/StepUpload.tsx:90-102 | the content extractor runs exactly when an ok proxy reply carried page content; otherwise the search extractor runs on the cleaned URL |
| `Upload.MergeKeepsValues` | components/StepUpload.tsx:82-106 | neither merge step empties a field that had a value |
| `Upload.Extraction` | components/StepUpload.tsx:70-109 | what follows the URL check; stated by the `Upload.Fetch*` lemmas, through `Upload.FetchResult` |
| `Upload.FetchResult` | components/StepUpload.tsx:53-118 | one whole `handleFetchUrl`; stated by `Upload.FetchFrame`, `Upload.FetchKeepsValues`, `Upload.FetchAsksProxy`, `Upload.FetchAsksAi`, `Upload.FetchErrors` and `Upload.FetchProxyWins` |
| `Upload.FetchFrame` | components/StepUpload.tsx:53-118 | a fetch never touches the images or the link; an empty link does nothing; any other attempt ends on the manual tab with the spinner off |
| `Upload.FetchKeepsValues` | components/StepUpload.tsx:53-118 | a fetch never empties a title or content that had a value |
| `Upload.FetchAsksProxy` | components/StepUpload.tsx:54-78 | the proxy is asked exactly when the link is non-empty and contains a URL or trims to something starting with "http", and it is asked for the cleaned URL |
| `Upload.FetchAsksAi` | components/StepUpload.tsx:85-102 | an AI extractor is asked exactly when the proxy was asked and did not return both elements; the content extractor exactly when it also returned content |
| `Upload.FetchErrors` | components/StepUpload.tsx:56-113 | the failure text is shown for a non-URL link or a failed extractor; the empty-result text when the extractor found neither field; no error otherwise |
| `Upload.FetchProxyWins` | components/StepUpload.tsx:82-89 | when both elements come from the proxy, they fill the fields whatever the AI would answer |
| `Upload.UploadStage.constructor` | components/StepUpload.tsx:13-22 | no images, manual tab, empty link, and the default title and content |
| `Upload.UploadStage.SetImage` | components/StepUpload.tsx:41-51 | a successful read fills its own slot only; a failed read changes nothing |
| `Upload.UploadStage.ClearImage` | components/StepUpload.tsx:134 | only its own slot is emptied |
| `Upload.UploadStage.SelectTab` | components/StepUpload.tsx:176-182 | only the tab changes |
| `Upload.UploadStage.TypeLink` | components/StepUpload.tsx:192-199 | only the link changes |
| `Upload.UploadStage.TypeTitle` | components/StepUpload.tsx:214 | only the title changes |
| `Upload.UploadStage.TypeContent` | components/StepUpload.tsx:220 | only the content changes |
| `Upload.UploadStage.FetchUrl` | components/StepUpload.tsx:53-118 | the new state and the calls issued are exactly `FetchResult` of the old state and the settled replies |
| `Upload.UploadStage.Extract` | components/StepUpload.tsx:70-109 | after the URL check, the new state and the calls are exactly `Extraction` of the old state, the cleaned URL and the settled replies |
| `Upload.UploadStage.Next` | components/StepUpload.tsx:120-124 | `onNext` is called exactly with a couplet image, a non-empty title and a non-empty content, and what it passes meets the precondition of App's Upload callback |
| `Copywrite.Adopted` | components/StepCopywrite.tsx:37-41 | a non-empty element replaces its template with its trimmed text; otherwise the template is kept |
| `Copywrite.BlankElementEmptiesTemplate` | components/StepCopywrite.tsx:40-41 | an element of only white space is truthy and empties its template |
| `Copywrite.AdoptedIdempotent` | components/StepCopywrite.tsx:37-41 | applying the same reply twice changes nothing further |
| `Copywrite.AdoptedIsTrimFixpoint` | components/StepCopywrite.tsx:40-41 | a template filled from the page is its own trim |
| `Copywrite.CopywriteStage.constructor` | components/StepCopywrite.tsx:13-20 | manual tab, empty link, the default templates and no copy |
| `Copywrite.CopywriteStage.SelectTab` | components/StepCopywrite.tsx:82-88 | only the tab changes |
| `Copywrite.CopywriteStage.TypeLink` | components/StepCopywrite.tsx:100 | only the link changes |
| `Copywrite.CopywriteStage.TypeTitleTemplate` | components/StepCopywrite.tsx:118 | only the title template changes |
| `Copywrite.CopywriteStage.TypeContentTemplate` | components/StepCopywrite.tsx:127 | only the content template changes |
| `Copywrite.CopywriteStage.FetchUrl` | components/StepCopywrite.tsx:22-54 | an empty link does nothing; the raw link is posted; a failed or non-2xx reply raises an alert with templates and tab unchanged; each found element replaces its template trimmed; with neither found, an alert and the tab stays, otherwise the manual tab |
| `Copywrite.CopywriteStage.Generate` | components/StepCopywrite.tsx:56-66 | one request from the current templates; success replaces the copy, failure keeps it and raises an alert; the run ends |
| `Copywrite.CopywriteStage.EditTitle` | components/StepCopywrite.tsx:142 | only the copy's title changes |
| `Copywrite.CopywriteStage.EditContent` | components/StepCopywrite.tsx:153 | only the copy's content changes |
| `Copywrite.CopywriteStage.Confirm` | components/StepCopywrite.tsx:171 | the copy shown is the copy passed on |

## Left out

- Network, AI service and file reading are not modelled as calls; they appear
  only as settled outcomes. The calls are `extractInfoFromUrl*`,
  `generateDoorVisualization`, `generateSocialCopy`, the fetch to
  `/extract-body` and `fileToBase64`. server.js is not part of this model
  beyond its response shape.
- `getApiKey` and the one-second polling of `hasApiKey` in the Upload stage
  (a timer) are left out. This state only disables the Upload "next" button.
- Concurrency: the model does not interleave promises.
  - `Promise.all` rejects with whichever rejection comes first in time. The
    model uses the first in issue order (image requests, then the copy
    request), so which message is shown may differ.
  - Visualize.VisualizeStage.RegenerateCopy: it is atomic and requires that
    no batch is running. In the code, "全部重做"
    (components/StepVisualize.tsx:303) stays enabled while "换一版" runs;
    only "换一版" is disabled, by `isGeneratingCopy`
    (components/StepVisualize.tsx:259-261). So a late `handleRegenerateCopy`
    answer (components/StepVisualize.tsx:101-102) can land during or after a
    new batch, for example leaving a copy after a failed batch. The model does
    not capture that interleaving. The stage invariant's
    `isGenerating ==> generatedCopy == None`, and the statement above that a
    failed batch leaves the copy empty, hold only under this atomicity.
  - Other late answers are not modelled. Both batch buttons are disabled or
    hidden while a batch runs (components/StepVisualize.tsx:185, 303), and
    the fetch and generate buttons are disabled while their own run is in
    flight.
- Visualize.VisualizeStage.SettleGenerate: a rejection that is not an `Error`
  object shows "生成失败，请重试". The model treats every rejection as carrying
  a message.
- Visualize's local state is not tracked across mounts. The stage is modelled
  from a fresh mount, because unmounting discards it.
- Clipboard, toasts, the zoom modal, rendering, Button.tsx, StepFinal.tsx and
  StepVideo.tsx are presentation or browser I/O.
- Regular expressions are modelled only as the two patterns the code uses, in
  the one mode each is used. The whitespace class is the fixed set of
  JavaScript white-space and line-terminator code points. No Unicode
  normalisation is done.
- `console.log`/`console.error` output is left out.
