# Micro-annotator viewer: window offsets, annotation lists and the search box

This project models the core of react-micro-annotator's viewer. The viewer shows a
*window* of a larger text resource: the range `[beginRange, endRange]` of one text
version. Annotations in the remote store are anchored with absolute offsets into the
whole resource, and the viewer lists them with offsets relative to the window start.

The model covers:

- the two offset conversions, `setRelativeOffsets` and `setAbsoluteOffsets`. They are
  modelled as pure functions (`Relative`, `Absolute`) and as in-place methods on a mutable
  annotation object (`AnnotationRef`).
- the list refresh, which fetches by creator or by range, drops structural annotations
  (`line`, `textregion`, `column`, `scanpage`) and those outside the window, converts the
  rest to relative offsets and replaces the list.
- `searchAnnotation`, which reads a found record's image links, its version id (the
  first UUID of the last `/w3c/<uuid>/<uuid>` in the record id) and its first text
  target, then loads that window.
- `addAnnotation`, which shifts the draft to absolute offsets, submits it and appends the
  store's reply in relative offsets.
- the search box's state (`id`, `input`, `items`), its handlers and its suggestion list:
  body ids, deduplicated in first-occurrence order, without empty ones, the first ten,
  sorted.

Remote calls are not modelled: each remote response is a method parameter. Each
state-changing method returns the request it would send (`Fetch`, `TextRequest`,
`CreateRequest`, the looked-up prefix). That way its contract says what the viewer asks
the store for.

Files: `wrappers.dfy` (Option), `annotations.dfy`, `elucidate.dfy` (record shapes),
`target_resolution.dfy`, `annotation_lists.dfy`, `app.dfy`, `suggestions.dfy`,
`search_box.dfy`.

Where the viewer's intended behaviour and its code differ, the model follows the code:

- A record without a text target, or whose text target has no selector, is not reported
  as an error. Reading `selector.start` throws and nothing handles the exception. The
  model has an explicit `Unhandled` outcome for it: the image links have already been
  replaced, and the error message and the window are unchanged.
- The version id is not necessarily the first UUID of the record id. The pattern starts
  with a greedy `.*`, so the last `/w3c/<uuid>/<uuid>` occurrence is the one chosen
  (`VersionIdOfSuffix`).
- A failed version-id lookup does not leave the previous state intact: `regionLinks` is
  already replaced by then.
- A window that starts at offset 0 is never refreshed, because `beginRange` is tested for
  truthiness.
- A successful operation never clears an earlier error message.
- There is no staleness guard for late responses. A response is combined with the values
  the request's closure captured when it was sent, not with the current state. The result
  then overwrites the current state. `addAnnotation` appends the created record to the
  `annotations` and `beginRange` it captured before `Elucidate.create`, so a refresh that
  lands while `create` is pending is lost. The refresh converts with the `beginRange` and
  `endRange` it started with.

## Model

| member | source | states |
|---|---|---|
| `Annotations.Relative` | gui/src/App.tsx:199-203 | the relative conversion keeps the span width `end - begin` and changes no field but the two anchors |
| `Annotations.Absolute` | gui/src/App.tsx:205-209 | the absolute conversion keeps the span width and changes no field but the two anchors |
| `Annotations.RoundTrip` | gui/src/App.tsx:199-209 | converting to absolute and back, or to relative and back, with one offset restores the annotation exactly |
| `Annotations.RelativeInjective` | gui/src/App.tsx:199-203 | two annotations have the same relative form for an offset iff they are equal |
| `Annotations.AnnotationRef.constructor` | gui/src/App.tsx:199-209 | the mutable annotation object the two setters update in place; an object built from a value holds exactly that value |
| `Annotations.SetRelativeOffsets` | gui/src/App.tsx:199-203 | mutates the given object in place to its relative form and returns that same object |
| `Annotations.SetAbsoluteOffsets` | gui/src/App.tsx:205-209 | mutates the given object in place to its absolute form and returns that same object |
| `Annotations.AbsoluteThenRelative` | gui/src/App.tsx:199-209 | the two in-place conversions with one offset, applied in turn, leave the object as it was |
| `TargetResolution.ImageLinks` | gui/src/App.tsx:131-133 | every image link is the source of a target with type `Image` and no selector; there are at most as many links as targets |
| `TargetResolution.IsImageTarget` | gui/src/App.tsx:132 | a target is an image region iff it has no selector and its type is `Image`; its use is stated by `ImageLinks` and `ImageLinksComplete` |
| `TargetResolution.ImageLinksComplete` | gui/src/App.tsx:131-133 | the source of every selector-less `Image` target is among the links |
| `TargetResolution.ImageLinksAppend` | gui/src/App.tsx:131-133 | collecting the links of two target lists joined is joining their links, so target order is kept |
| `TargetResolution.FindTextTargetFrom` | gui/src/App.tsx:142 | from a start index, yields the first index whose type is undefined or `Text`, or none when no later target has such a type |
| `TargetResolution.FindTextTarget` | gui/src/App.tsx:142 | yields the first target index whose type is undefined or `Text`, or none when no target has such a type |
| `TargetResolution.IsTextTarget` | gui/src/App.tsx:142 | a target is a text target iff its type is undefined or `Text`; its use is stated by `FindTextTarget` |
| `TargetResolution.MatchesAt` | gui/src/App.tsx:136 | the pattern `/w3c/([0-9a-f-]{36})/([0-9a-f-]{36})` occurs at a position; `LastMatchBelow`, `LastMatch`, `VersionIdOf` and `VersionIdOfSuffix` give its use |
| `TargetResolution.LastMatchBelow` | gui/src/App.tsx:136 | yields the greatest position below a bound where `/w3c/<36 of [0-9a-f-]>/<36 of [0-9a-f-]>` occurs, or none when it occurs nowhere below it |
| `TargetResolution.LastMatch` | gui/src/App.tsx:136 | yields the last position of the id pattern (the one the greedy `.*` prefix selects), or none when the pattern does not occur |
| `TargetResolution.VersionIdOf` | gui/src/App.tsx:136-137 | a version id is found iff the pattern occurs; it is 36 characters of `[0-9a-f-]` |
| `TargetResolution.VersionIdOfLastMatch` | gui/src/App.tsx:136 | when the pattern's last occurrence is at `i`, the version id is the 36 characters after the `/w3c/` at `i` |
| `TargetResolution.VersionIdOfSuffix` | gui/src/App.tsx:136 | an id ending in `/w3c/<v>/<a>` with `v`, `a` of 36 characters of `[0-9a-f-]` yields `v`, whatever precedes it, even an earlier occurrence of the pattern |
| `TargetResolution.VersionIdExample` | gui/src/App.tsx:136 | `http://x/w3c/<v>/<a>` yields version id `v` |
| `TargetResolution.NoVersionIdExample` | gui/src/App.tsx:136-137 | an id without the `/w3c/` pattern yields no version id |
| `AnnotationLists.Kept` | gui/src/App.tsx:92-93 | every survivor of both filters is a fetched annotation, is not structural and lies in `[beginRange, endRange]` |
| `AnnotationLists.IsStructural` | gui/src/App.tsx:92 | an entity type is structural iff it is `line`, `textregion`, `column` or `scanpage`; used by `Keep` |
| `AnnotationLists.Keep` | gui/src/App.tsx:92-93 | the conjunction of the two filters: not structural, `begin >= beginRange` and `end <= endRange`; its meaning in the pipeline is given by `Kept`, `KeptComplete` and `VisibleExactly` |
| `AnnotationLists.KeptComplete` | gui/src/App.tsx:92-93 | every fetched annotation that is not structural and lies in the window survives |
| `AnnotationLists.KeptAppend` | gui/src/App.tsx:92-93 | filtering distributes over concatenation, so survivors stay in fetched order |
| `AnnotationLists.RelativeAll` | gui/src/App.tsx:94 | each entry of the result is the relative form of the entry at the same position, and the length is kept |
| `AnnotationLists.Visible` | gui/src/App.tsx:90-94 | the whole map/filter/filter/map chain; it keeps no more entries than were fetched, and `VisibleExactly`, `VisibleFromFound`, `VisibleAppend` and `VisibleWithinWindow` give its meaning |
| `AnnotationLists.VisibleWithinWindow` | gui/src/App.tsx:93-94 | every listed annotation has `0 <= begin` and `end <= endRange - beginRange` |
| `AnnotationLists.VisibleExactly` | gui/src/App.tsx:90-94 | an annotation's relative form is listed iff it was fetched, is not structural and lies in the window |
| `AnnotationLists.VisibleFromFound` | gui/src/App.tsx:90-94 | everything listed is the relative form of a fetched annotation that passed both filters |
| `AnnotationLists.VisibleAppend` | gui/src/App.tsx:90-94 | the whole pipeline distributes over concatenation of the fetched list, so order is kept |
| `AnnotationLists.WindowExample` | gui/src/App.tsx:90-94 | in window `[10,50]`, of annotations at `{5,9}`, `{12,40}`, `{45,55}` and a `line` at `{20,30}` only the second is listed, at `{2,30}` |
| `App.AppState.constructor` | gui/src/App.tsx:22-79 | the initial state: no error, no links, text, selection, annotations, annotation id or version id, empty target id, range `0..0`, `USER` mode, the configured creator |
| `App.AppState.RefreshRequest` | gui/src/App.tsx:83-89 | a query is sent iff target id and creator are non-empty, both range ends are non-zero and the text is non-empty; it is by creator in `USER` mode and by target id and range otherwise |
| `App.AppState.RefreshAnnotations` | gui/src/App.tsx:81-100 | without a query the list is unchanged; with one the list is replaced by the visible part of the response, which lies inside the window in relative offsets |
| `App.AppState.SetAnnotationType` | gui/src/App.tsx:190 | the list mode becomes the chosen one and nothing else changes |
| `App.AppState.SetCurrentCreator` | gui/src/App.tsx:164 | the creator becomes the typed one and nothing else changes |
| `App.AppState.SetAnnotationId` | gui/src/App.tsx:102-106 | the annotation id is stored; a search runs iff the id is non-empty and differs from the stored one |
| `App.AppState.SearchAnnotation` | gui/src/App.tsx:120-151 | a missing record or a string target sets its error and changes nothing else. Otherwise the links become the image sources. A missing version id then sets its error. A missing text target or selector changes nothing further. On success the window is the first text target's source, start and end, the text and the version id |
| `App.AppState.AddAnnotation` | gui/src/App.tsx:108-117 | with no version id it sets the error and changes nothing else. Otherwise it submits the draft shifted by `+beginRange` (mutating the draft object), clears the selection and appends exactly the reply shifted by `-beginRange` |
| `Suggestions.IsTruthyId` | gui/src/components/Search.tsx:53 | an id is truthy iff it is present and non-empty, the test of `find(b => b.id)` and of `.filter(i => i)` at line 61; `FirstTruthyId`, `TruthyIdsSound` and `TruthyIdsComplete` give its use |
| `Suggestions.FirstTruthyId` | gui/src/components/Search.tsx:52-53 | yields the id of the first body with a non-empty id, or none when no body has one |
| `Suggestions.BodyIds` | gui/src/components/Search.tsx:51-57 | one id per record, the record's body id |
| `Suggestions.BodyId` | gui/src/components/Search.tsx:51-57 | an array body yields the first truthy body id (`FirstTruthyId`), a single body its own id, possibly missing or empty |
| `Suggestions.Dedupe` | gui/src/components/Search.tsx:50-58 | the result has no duplicates and holds exactly the values of the input |
| `Suggestions.DedupeOrder` | gui/src/components/Search.tsx:50-58 | values of the result come in the order of their first occurrence in the input |
| `Suggestions.TruthyIdsSound` | gui/src/components/Search.tsx:61 | every id the filter keeps is non-empty and present in its input |
| `Suggestions.TruthyIds` | gui/src/components/Search.tsx:61 | the filter keeps no more ids than it is given; `TruthyIdsSound`, `TruthyIdsComplete`, `TruthyIndexIncreasing` and `TruthyIdsDistinct` give its meaning |
| `Suggestions.TruthyIndex` | gui/src/components/Search.tsx:61 | each kept id stands at some position of the filter's input |
| `Suggestions.TruthyIndexIncreasing` | gui/src/components/Search.tsx:61 | the filter keeps input order |
| `Suggestions.TruthyIdsComplete` | gui/src/components/Search.tsx:61 | every present non-empty id survives the filter |
| `Suggestions.TruthyIdsDistinct` | gui/src/components/Search.tsx:61 | filtering a list without duplicates leaves no duplicates |
| `Suggestions.Take` | gui/src/components/Search.tsx:62 | the result is the prefix of the list of length `n`, or the whole list when it is no longer than `n` |
| `Suggestions.LessEqTotal` | gui/src/components/Search.tsx:63 | the string order used by `sort` is total |
| `Suggestions.LessEq` | gui/src/components/Search.tsx:63 | the default comparator of `sort` on strings: character by character from the left, a prefix first; `LessEqTotal`, `LessEqTransitive` and `LessEqAntisymmetric` prove it a total order |
| `Suggestions.LessEqTransitive` | gui/src/components/Search.tsx:63 | the string order is transitive |
| `Suggestions.LessEqAntisymmetric` | gui/src/components/Search.tsx:63 | the string order is antisymmetric |
| `Suggestions.Insert` | gui/src/components/Search.tsx:63 | inserting into a sorted list gives a sorted list holding one more copy of the value |
| `Suggestions.Sort` | gui/src/components/Search.tsx:63 | `sort` returns an ascending permutation of its input |
| `Suggestions.DistinctIds` | gui/src/components/Search.tsx:50-61 | `Array.from(new Set(found.map(...))).filter(i => i)`: the distinct truthy body ids in first-occurrence order, as `DistinctIdsProperties` and `DistinctIdsOrder` state |
| `Suggestions.DistinctIdsProperties` | gui/src/components/Search.tsx:50-61 | the distinct ids have no duplicates, and a string is among them iff it is non-empty and a record's body id |
| `Suggestions.DistinctIdsOrder` | gui/src/components/Search.tsx:50-61 | the distinct ids come in the order of their first occurrence among the records' body ids |
| `Suggestions.SuggestionsProperties` | gui/src/components/Search.tsx:50-66 | suggestions have no duplicates or empty values, number at most ten, ascend, and are a permutation of the first ten distinct ids (truncation before sorting) |
| `Suggestions.SuggestionsFor` | gui/src/components/Search.tsx:50-63 | the suggestions for a list of records: sorted, at most ten, and a permutation of the first ten distinct truthy body ids; `SuggestionsProperties` adds distinctness and non-emptiness |
| `SearchBox.SearchState.constructor` | gui/src/components/Search.tsx:15-17 | id and input start as the placeholder id, with no items |
| `SearchBox.SearchState.SubmitDisabled` | gui/src/components/Search.tsx:94-95 | the search button is disabled iff `id != input` |
| `SearchBox.SearchState.OnSubmit` | gui/src/components/Search.tsx:21-27 | with an empty id nothing is searched; otherwise exactly one search, for the id |
| `SearchBox.SearchState.HandleTyping` | gui/src/components/Search.tsx:29-31 | only the input changes; the button is then disabled iff the typed text differs from the id |
| `SearchBox.SearchState.HandleSelected` | gui/src/components/Search.tsx:72-79 | selecting the current id changes nothing; otherwise id and input become the selection, the items empty, and the button is enabled |
| `SearchBox.SearchState.SuggestionEffect` | gui/src/components/Search.tsx:34-44 | an unchanged debounced input changes nothing. One equal to the id empties the items without a lookup. Otherwise it looks up that prefix and leaves the items as they are |
| `SearchBox.SearchState.ReceiveSuggestions` | gui/src/components/Search.tsx:44-68 | no response empties the items; otherwise the items are the suggestion list. Either way they are distinct, non-empty, at most ten and ascending |

## Left out

- Rendering: the JSX of the viewer (gui/src/App.tsx:153-196) and of the search box
  (gui/src/components/Search.tsx:81-98). Only the disabled rule at 94-95 is kept, as
  `SubmitDisabled`. The expanded-annotation state `selectedAnnotation`
  (gui/src/App.tsx:47) and the presentational components src/components/AnnotationList.js
  and gui/src/components/poc/RecogitoRoot.tsx are display only.
- Remote calls (`Elucidate.getByCreator`, `getByRange`, `getByBodyId`,
  `getByBodyIdPrefix`, `create`, `TextRepo.getByVersionIdAndRange`). They are network
  I/O: their responses are parameters and their requests are return values. Failures of
  these calls (rejected promises) are not modelled.
- `toAnnotation` and `convertToRecogitoAnno` are not part of this model, because their
  files are not in it. The refresh receives the list `toAnnotation` produced and lists
  `Annotation` values before the Recogito conversion.
- Timing: the 250 ms debounce, `usePrevious`, React's effect scheduling, and the
  interleaving of outstanding requests. The debounced and previous values are parameters
  of `SuggestionEffect`. Each method treats a request and its response as one atomic step
  on the state the request was sent from. What the model therefore does not capture is
  another step landing in between and then being overwritten by the late response.
- `TargetResolution.VersionIdOf`: the regular expression's `.` does not cross line
  terminators, and the model does not model that restriction. A record id is a URI and
  contains none.
- `Suggestions.Sort`: JavaScript's default `sort` compares UTF-16 code units. The model
  compares Unicode characters, which gives the same order except for characters outside
  the Basic Multilingual Plane.
- Numbers: offsets are JavaScript doubles. The model uses unbounded integers, and
  `NaN` or fractional offsets are not modelled.
- The optional `selected` flag of an annotation, and the body's content beyond its id,
  are not modelled.
