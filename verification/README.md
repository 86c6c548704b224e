# zotcraft sync core in Dafny

zotcraft copies papers from a Zotero collection into Craft as structured notes. This
project models the heart of it: one run of `POST /api/sync-now` and the in-memory dedup
record the run reads and writes. The model also covers the pure helpers the run relies
on: author and year formatting from the Zotero client, and the gating of the
summary-generation client.

The run works as follows:

1. It reads the request body, with `maxItems` defaulting to 10 and `skipProcessed` to
   true.
2. It takes the process-wide dedup record and fetches one batch of items.
3. It walks the batch in order. For each item it does one of three things:
   - Skips it, if skipping is on and the key is already recorded.
   - Builds the note and creates it in Craft, then marks the key and logs `created`.
     The note holds the authors, year, journal, link, `#tag` line, a summary and four
     empty scaffold sections. It goes into the configured collection, or otherwise
     becomes a sub-page with the hashtags.
   - Logs `error` with the thrown message, if the Craft call throws, and goes on to the
     next item.
4. An unreadable body or a failed fetch ends the run with the single error
   `Sync process failed`.

Files, one module each:

- `js_strings.dfy` (`JsStrings`): the ECMAScript string operations the code uses, with
  their JavaScript meaning:
  - `a || d` on an optional string;
  - `trim()`, over the ECMAScript WhiteSpace and LineTerminator set;
  - `replace(/\s+/g, '_')`;
  - `join`.

  It also defines `Split` on a single character. The code never calls `split`; `Split`
  is here only as the inverse of `join`, so that the tag line's round trip can be stated
  (`SplitJoin`, `TagLineSplits`).
- `zotero.dfy` (`Zotero`): the item record and the static helpers `formatAuthors` and
  `extractYear`.
- `ai.dfy` (`Ai`): `testConnection` and `generateSummary`. The HTTP outcome is an input
  (`ChatResponse`), and the request that would be sent is part of the result.
- `state.dfy` (`State`): the dedup record.
  - `SyncState` is the record as a value, and `Marked` is the meaning of one mark.
  - `MemoryStore` is the process-wide record, a class whose methods update its fields in
    place.
- `note.dfy` (`Note`): the reported title, the hashtags and tag line, and the markdown
  template.
- `sync_now.dfy` (`SyncNow`): the run.
  - `ProcessItem` is one loop iteration as a value.
  - `Fold` is the loop over a batch for any loop body, and `RunSpec` is that fold with
    `ProcessItem` as the body.
  - `SyncNow` is the route handler as an imperative method with a `for` loop. It reads
    and marks the live `MemoryStore`, and its postcondition ties the outcome to
    `RunSpec`.
  - The lemmas state what every run guarantees.

The outside world enters as inputs:

- the fetch result (`FetchResult`);
- for each item, an `ItemOracle` with:
  - the summary service's response;
  - how the Craft create call ended;
  - the clock reading a mark would store.

What the run sends out is recorded per item, aligned with the batch:

- the Craft call, if any (`SinkCall`);
- the summary request, if any (`ChatRequest`).

So "no call was made for this item" is a statement about the model.

A creator with parts "J" and "Doe" is shown as "J Doe": the parts are joined by one
space and no period is added (src/lib/zotero.ts:83), as `FormatAuthorsNameThenParts`
states. Marking a key that is already recorded leaves `lastSync` unchanged
(src/lib/state.ts:21-24).

## Model

| member | source | states |
|---|---|---|
| JsStrings.Trim | src/lib/ai.ts:70 | `trim()`: the input is a whitespace prefix, then the result, then a whitespace suffix, and the result neither starts nor ends with whitespace |
| JsStrings.TrimIdempotent | src/lib/ai.ts:70 | trimming twice is trimming once |
| JsStrings.TrimOfAllWhitespace | src/lib/zotero.ts:83 | a string made only of whitespace trims to "" |
| JsStrings.CollapseWhitespace | src/app/api/sync-now/route.ts:48 | `replace(/\s+/g, '_')` leaves no whitespace and never lengthens the string |
| JsStrings.CollapseRun | src/app/api/sync-now/route.ts:48 | a word, a whitespace run and the rest: the word is kept, the whole run becomes one `_` |
| JsStrings.SplitJoin | src/app/api/sync-now/route.ts:51 | splitting on the separator undoes `join` when no part contains the separator |
| Zotero.DisplayNames | src/lib/zotero.ts:82-83 | one display name per creator, in order |
| Zotero.FormatAuthors | src/lib/zotero.ts:80-85 | "Unknown Author" for an absent or empty list; a single creator is shown by its display name |
| Zotero.DisplayNameByName | src/lib/zotero.ts:83 | a non-empty `name` wins over the name parts |
| Zotero.DisplayNameWithoutParts | src/lib/zotero.ts:83 | a creator with no name and no parts is shown as "" |
| Zotero.DisplayNameFromParts | src/lib/zotero.ts:83 | trimmed first and last parts are shown as "first last" |
| Zotero.FormatAuthorsSnoc | src/lib/zotero.ts:82-84 | adding a creator at the end adds ", " and its display name at the end |
| Zotero.FormatAuthorsPair | src/lib/zotero.ts:82-84 | two creators are shown as their display names separated by ", " |
| Zotero.FormatAuthorsNameThenParts | src/lib/zotero.ts:83-84 | a named creator, then one with parts, gives "name, first last" with no period inserted |
| Zotero.FindYear | src/lib/zotero.ts:92 | `/\d{4}/`: the leftmost position of four consecutive digits at or after a start, or none at all |
| Zotero.ExtractYear | src/lib/zotero.ts:90-94 | "" for an absent or empty date; otherwise the leftmost four-digit run (four digits long), or the date unchanged when it has no such run |
| Zotero.ExtractYearIsoDate | src/lib/zotero.ts:92-93 | "2023-05-10" gives "2023" |
| Zotero.ExtractYearInText | src/lib/zotero.ts:92-93 | "circa 1990s" gives "1990": the run may start anywhere and only its first four digits are kept |
| Zotero.ExtractYearWithoutDigits | src/lib/zotero.ts:93 | "n.d." is returned as it is |
| Ai.TestConnection | src/lib/ai.ts:10-31 | true with no request when disabled; otherwise one probe to `<endpoint>/chat/completions` with the configured model or "gpt-3.5-turbo", and true exactly when the response was ok |
| Ai.GenerateSummary | src/lib/ai.ts:33-75 | "" when disabled and the no-abstract placeholder for an empty abstract, both with no request; otherwise exactly one request for the title and abstract; any failure gives the failure placeholder, and success gives the trimmed content, or "" when it is absent |
| State.MarkedKeepsNoDuplicates | src/lib/state.ts:20-22 | marking never introduces a duplicate key |
| State.MarkedGrows | src/lib/state.ts:22 | the old keys keep their places, the key is present afterwards, and at most that key is appended at the end |
| State.MarkedIdempotent | src/lib/state.ts:21-24 | marking a key twice equals marking it once, whatever the second clock reading |
| State.MarkedStampsOnlyNewKeys | src/lib/state.ts:21-23 | the key list changes exactly when the key was absent; `lastSync` then takes the mark's clock reading and otherwise stays as it was |
| State.MemoryStore.constructor | src/lib/state.ts:11-13 | the record starts with no keys and no `lastSync` |
| State.MemoryStore.MarkAsProcessed | src/lib/state.ts:20-25 | the new record is the old one marked with the key; duplicate-freedom is kept and the old keys remain a prefix |
| State.MemoryStore.ClearSyncState | src/lib/state.ts:27-31 | back to no keys and no `lastSync`, whatever the record held, so clearing twice equals clearing once |
| Note.ItemTitle | src/app/api/sync-now/route.ts:31 | the title, or "Untitled" when it is absent or empty; never empty |
| Note.FormatTag | src/app/api/sync-now/route.ts:47-50 | a hashtag starts with "#" and holds no whitespace |
| Note.FormatTags | src/app/api/sync-now/route.ts:46-50 | one hashtag per tag, in order |
| Note.TagLine | src/app/api/sync-now/route.ts:51 | "" when there are no tags |
| Note.FormatTagOfWord | src/app/api/sync-now/route.ts:48-49 | a tag without whitespace is kept as it is after the "#" |
| Note.FormatTagOfTwoWords | src/app/api/sync-now/route.ts:48-49 | two words separated by any whitespace run become "#first_second" |
| Note.TagLineSplits | src/app/api/sync-now/route.ts:51-52 | the tag line splits on single spaces back into exactly the hashtags that are passed to `createNote` |
| Note.NoteOf | src/app/api/sync-now/route.ts:40-54 | the note's link is the URL when non-empty, else the DOI when non-empty, else ""; its journal is the venue when non-empty, else ""; it carries the formatted authors, the extracted year, the tag line and the given summary |
| Note.Render | src/app/api/sync-now/route.ts:65-86 | the body is the metadata block, then exactly the summary, then the four empty scaffold sections |
| SyncNow.Placement | src/app/api/sync-now/route.ts:89-94 | a collection entry exactly when a non-empty target collection is configured; otherwise a sub-page with the hashtags |
| SyncNow.ChooseSummary | src/app/api/sync-now/route.ts:57-62 | the disabled placeholder with no request when summaries are off; otherwise what `generateSummary` answers |
| SyncNow.ProcessItem | src/app/api/sync-now/route.ts:30-103 | one iteration: the entry is titled with the item title; it is skipped exactly when skipping is on and the key is recorded, and then makes no call and no request and leaves the record alone; otherwise it makes the placement call with the rendered note; it is created exactly when that call returned, and then the key is marked; on a throw, the entry holds the message and the record is unchanged; the key list only grows |
| SyncNow.Fold | src/app/api/sync-now/route.ts:30-104 | one log entry, one call slot and one request slot per item |
| SyncNow.FoldAt | src/app/api/sync-now/route.ts:30-104 | item `i` is handled by the loop body from the record the earlier items left |
| SyncNow.FoldGrows | src/app/api/sync-now/route.ts:30-104 | with a loop body that keeps keys, the key list only grows through a run |
| SyncNow.RunAt | src/app/api/sync-now/route.ts:30-103 | item `i`'s entry, call, request and next record are `ProcessItem` from the record before it |
| SyncNow.StatesGrow | src/lib/state.ts:22 | the key list before an item is a prefix of the key list before any later item |
| SyncNow.RunGrows | src/lib/state.ts:22 | the initial keys keep their places through a whole run |
| SyncNow.RunLogFollowsItems | src/app/api/sync-now/route.ts:30-31 | exactly one log entry per fetched item, in fetch order, titled with the item title or "Untitled" |
| SyncNow.RunSkipsProcessed | src/app/api/sync-now/route.ts:33-36 | with skipping on, a recorded key gives `{skipped, "Already processed"}`, no Craft call, no summary request and an unchanged record |
| SyncNow.RunMarksOnlyAfterCreate | src/app/api/sync-now/route.ts:89-102 | an item that is not skipped gets its Craft call; it is created exactly when the call returned, and only then is its key marked; a throw gives the error entry with the message and an unchanged record |
| SyncNow.RunPlacement | src/app/api/sync-now/route.ts:89-94 | every call is a collection entry in the target collection when one is configured, and otherwise a sub-page carrying the item's hashtags |
| SyncNow.RunWithSummariesDisabled | src/app/api/sync-now/route.ts:57-62 | with summaries off there are no summary requests, and every note's summary is the disabled placeholder |
| SyncNow.RunAddsCreatedKeys | src/app/api/sync-now/route.ts:96-99 | the final key set is the initial keys plus the keys of the items logged as created, and nothing else |
| SyncNow.RunAppendsCreatedKeys | src/app/api/sync-now/route.ts:96-99 | with skipping on, the final key list is the initial list followed by the created keys in creation order |
| SyncNow.RunKeepsNoDuplicates | src/lib/state.ts:21-22 | a run never introduces a duplicate key |
| SyncNow.RunStampsOnlyWhenAdding | src/lib/state.ts:21-23 | a run that adds no key leaves `lastSync` as it was |
| SyncNow.RunCreatesEachKeyOnce | src/app/api/sync-now/route.ts:33 | the record is read live, so once a key is created, a later item with that key in the same batch is skipped with no call |
| SyncNow.KeyStaysRecorded | src/lib/state.ts:17 | a key recorded at any point of a run is in the final record |
| SyncNow.SecondRunSkips | src/app/api/sync-now/route.ts:33-36 | running the same batch again with skipping on skips, with no Craft call, every item the first run created or skipped |
| SyncNow.SyncNow | src/app/api/sync-now/route.ts:10-114 | an unreadable body or a failed fetch gives `Sync process failed` with no calls and an unchanged record; otherwise the fetch limit is `maxItems` (default 10), and the log, the calls, the requests and the final record are those of `RunSpec` from the record held before the run (skipping by default); the record stays duplicate-free |

Helpers without a contract of their own have no row:

- `OrElse`, `Option.GetOr`, `Join`, `LeadingWhitespace` (its only `ensures` is a bound);
- `DisplayName`, `ModelOf`, `CompletionsUrl`;
- `Journal`, `Link`, `AbstractOf`, `TagsOf`, `Metadata`;
- `HasTarget`, `CallFor`, `Body`, `RunSpec`, `StateBefore`, `FoldBefore`, `CreatedKeys`, `Marked`.

`TrimStart`, `TrimEnd` and `Split` have contracts that serve `Trim` and `SplitJoin`;
they are stated through those rows.

## Left out

- HTTP and the external clients:
  - The request and response formats of the Zotero, Craft and summary APIs are not
    modelled. The batch fetch, each Craft call's outcome and each summary response are
    inputs.
  - `ZoteroClient.getCollectionItems` is modelled only through the limit it is given.
  - `ZoteroClient.testConnection` and `getCollections` are not modelled: they are
    network probes.
  - The Craft client (`@/lib/craft`) is not part of this model. Its create calls either
    return or throw with a message.
- Summary client details:
  - The prompt wording and the sampling temperature are not modelled. A summary
    request records only the URL, the model, the title and the abstract.
  - The API key header is not modelled.
  - A non-string first-choice `content` is not modelled. A truthy one makes `trim()`
    throw and gives the failure placeholder. A falsy one reads as `""`, like an absent
    one (`Ok(None)`).
- The clock is an input. `new Date().toISOString()` becomes the `now` of each item's
  oracle.
- Concurrency:
  - Asynchrony and overlapping runs are not modelled; the run is sequential.
  - `clearSyncState` replaces the module-level record with a fresh object. Here it
    resets the one `MemoryStore` in place. The two differ only for a run still holding
    the old object, which needs overlapping requests.
- `SyncNow.SyncNow`: the request body is either well-formed (`RequestBody`) or unreadable
  (`None`). A `config` without its `craft` or `ai` part is not modelled. In the route,
  such a config makes every item that is not skipped throw inside the per-item
  `try`, at `ai.enabled` (src/app/api/sync-now/route.ts:58) or at
  `craft.targetCollectionId` (route.ts:89). Whether `new CraftClient(undefined)`
  (route.ts:24) throws first depends on the Craft client, which is not part of this
  model.
- `SyncNow.SyncNow`: a `maxItems` or `skipProcessed` of another JSON type is not
  modelled. Only absent or well-typed values are.
- `SyncNow.ProcessItem`: a thrown value without a `message` (logged with no details in
  the route) is not modelled. Every throw carries a message string.
- The error-level console logging is not modelled.
- The UI page, the configuration hook and the other API routes are not part of this
  model.
