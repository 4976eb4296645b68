# Attachment uploader and API helpers: a Dafny model

This project models two parts of a React front end backed by the Cenit API.

The first is the attachment uploader in `src/components/FileUploader.js`:

- the file statuses and their two predicates (active, error);
- the queue reducer: `add`, `submit`, `next`, `delete`, `currentProgress`, `refresh` and `error`;
- the per-item cancel, delete and rename handlers;
- the upload driver effect, which starts one transfer at a time and turns its progress, success and error callbacks into entry updates;
- how `max` and `multiple` are normalised, and the drag-over accept/deny verdict with its wording;
- `computeFilesValue` and the two effects that report it: on submit completion and on change.

The second is the request helper in `src/services/ApiService.js`:

- how `ApiResource` splits its variadic arguments into a URL path and a request config;
- how response data is tagged with the HTTP status;
- how `API.get`, `API.post` and `API.delete` route a failure to the registered callbacks and then either rethrow or yield `null`.

Layout, one module per file:

- `common.dfy`: `Option`, `Join`, number formatting.
- `entries.dfy`: statuses and the per-file record.
- `result.dfy`: the reported files value.
- `admission.dfy`: max/multiple normalisation and drag-over verdicts.
- `queue_support.dfy`: the pure list operations the reducer uses.
- `queue.dfy`: the `Queue` class with the reducer, the item handlers and the driver effect.
- `api.dfy`: `ApiResource` and the error routing.
- `scenario.dfy`: a client that runs a two-file submission end to end through the method contracts.

## How the uploader is represented

**Entries and identity.** The source keeps picked `File` objects and compares them by identity:

- `indexOf` in `delete`;
- the `current` captured by the driver's closures.

The model gives each entry a key:

- `store: map<Key, Entry>` holds the objects;
- `files: seq<Key>` is the list of references.

An entry deleted from the list stays in `store`, just as the object stays reachable from `current`.

**Timestamps.** The `Date().getTime()` tokens in `filesUpdated` are drawn from a counter `clock`; `filesUpdated == 0` stands for `false`.

**The driver effect.** Its subscription belongs to `live`:

- `Sync` is the effect re-running after `current` changed;
- `OnProgress` is the `onUploadProgress` option handed to the upload collaborator, and `OnSuccess` and `OnError` are the subscription's callbacks;
- `Unmount` is the final cleanup.

Requests handed to the upload collaborator are recorded in `uploads`. Cancel-token cancellations are recorded in `aborts`.

**The central invariant.** `Queue.Valid()` holds that every active (uploading or finishing) entry is the current one, so at most one transfer is in flight. Every method that keeps the queue in use preserves it. It holds because:

- `next` never replaces an active current;
- only the driver makes an entry uploading;
- in the model, an entry the driver is running is always the current one.

The invariant is proved for a cancel button that sees the entry's live status. In the source the button acts on the status of the last render, and that can be stale: see `UploadQueue.Queue.Cancel` under "## Left out".

## Model

| member | source | states |
|---|---|---|
| Entries.IsActive | src/components/FileUploader.js:33-35 | uploading or finishing; with StatusClasses, never an error status, waiting or success |
| Entries.IsError | src/components/FileUploader.js:37-39 | cancelled or failed; with StatusClasses, disjoint from the active statuses |
| Entries.StatusClasses | src/components/FileUploader.js:25-40 | active and error statuses are disjoint, and every status is waiting, active, success or error |
| Entries.StatusNamesDistinct | src/components/FileUploader.js:25-31 | the six status strings are pairwise distinct |
| Entries.NewEntry | src/components/FileUploader.js:166 | an added file is waiting, with no custom name, id, message or cancel token |
| FilesResult.RecordOf | src/components/FileUploader.js:339-345 | the filename is the custom name when set, else the name; the id is present iff the entry has a non-empty id |
| FilesResult.RecordsAt | src/components/FileUploader.js:339 | mapping keeps the length and the order: record i belongs to entry i |
| FilesResult.ComputeFilesValue | src/components/FileUploader.js:335-354 | no entries give `{}`, one entry gives its record unwrapped, two or more give a list of the same length with record i for entry i |
| FilesResult.ComputeFilesValueItems | src/components/FileUploader.js:335-354 | the value holds exactly one record per entry in arrival order, is canonical, and is the wrapping of those records |
| FilesResult.WrapItems | src/components/FileUploader.js:346-351 | unwrapping a canonical value and wrapping its records again gives the value back |
| FilesResult.ItemsWrap | src/components/FileUploader.js:346-351 | wrapping records gives a canonical value whose records are exactly those records; with WrapItems, wrap and unwrap are inverse |
| FilesResult.ComputeFilesValueDeterminedByRecords | src/components/FileUploader.js:407 | lists with equal records compute equal values, so comparing values detects only real changes |
| FilesResult.SubmitDoneValue | src/components/FileUploader.js:372-382 | `undefined` iff some entry did not succeed; otherwise all entries succeeded and the value is canonical (`{}`, an unwrapped record, or a list of two or more) and holds their records in order |
| FilesResult.ChangeNotice | src/components/FileUploader.js:403-411 | `onChange` fires iff the list was touched and the computed value differs from the bound value; it receives a canonical value with the list's records |
| FilesResult.ChangeNoticeIdempotent | src/components/FileUploader.js:403-411 | after the host adopts the notified value, the same list notifies nothing |
| Admission.NormaliseMax | src/components/FileUploader.js:384 | a missing, zero or negative max is unbounded; a positive one is kept |
| Admission.Normalise | src/components/FileUploader.js:384-388 | several files per drop iff `multiple` is not set to false and max > count + 1; an unbounded single-file uploader is capped at count + 1 |
| Admission.Remaining | src/components/FileUploader.js:470 | the remaining room plus the count is the max; unbounded stays unbounded |
| Admission.DropAccepted | src/components/FileUploader.js:477-480 | the drag-over predicate; DropAcceptedIffFits and DragOverMessage relate it to the `add` gate and to the wording |
| Admission.Overflows | src/components/FileUploader.js:168 | the count gate of `add`; Queue.Add sets `dropOverflow` to it and DropAcceptedIffFits relates it to the drag-over predicate |
| Admission.NormaliseRoom | src/components/FileUploader.js:385-388 | with several files allowed at least two more fit; an unbounded cap survives only with `multiple` |
| Admission.DropAcceptedIffFits | src/components/FileUploader.js:477-480 | a drag is accepted iff the `add` count gate would not overflow and either several files are allowed or one is dragged |
| Admission.DeniedMessage | src/components/FileUploader.js:487-491 | "enough" iff no room is left, quoting the count; otherwise the room is quoted, plural iff it exceeds one |
| Admission.MessageText | src/components/FileUploader.js:488-490 | the denial text starts "Please select just ", ends in "files!" exactly when plural, or ends " files is enough!" |
| Admission.SelectJustQuotesRemaining | src/components/FileUploader.js:488-489 | the "select just" wording quotes the remaining room between "Please select just " and " file(s)!", and a finite room reads back as that number |
| Admission.EnoughQuotesCount | src/components/FileUploader.js:490 | the "enough" wording is the decimal count followed by " files is enough!", and that number reads back as the count |
| Admission.DragOverMessage | src/components/FileUploader.js:477-491 | no denial iff the drop is accepted; otherwise the denial wording for the remaining room |
| Admission.SingleModeAdmitsOneMore | src/components/FileUploader.js:384-388 | with `multiple` off and no max, one more file is always admissible and two more never |
| QueueSupport.AppendFreshDistinct | src/components/FileUploader.js:167 | appending newly picked files to a list without repeats keeps it without repeats |
| QueueSupport.FirstWaitingIndex | src/components/FileUploader.js:190 | the index found is waiting and no earlier entry is; -1 iff none is waiting |
| QueueSupport.FirstWaiting | src/components/FileUploader.js:190 | the entry found is listed and waiting; none iff no listed entry waits |
| QueueSupport.FirstWaitingIsEarliest | src/components/FileUploader.js:190 | the chosen entry is listed no later than any waiting entry |
| QueueSupport.NextCurrent | src/components/FileUploader.js:187-193 | an active current is kept; otherwise the first waiting entry, or none |
| QueueSupport.ResetErrors | src/components/FileUploader.js:176-180 | the `forEach` reset of `submit`; ResetErrorsExactly and ResetErrorsKeepsActive state what it changes |
| QueueSupport.ResetErrorsExactly | src/components/FileUploader.js:176-180 | exactly the listed cancelled or failed entries become waiting; every other entry and field is unchanged |
| QueueSupport.ResetErrorsKeepsActive | src/components/FileUploader.js:176-191 | the reset changes no entry's activity, so an active current is still kept afterwards |
| QueueSupport.IndexOf | src/components/FileUploader.js:206 | the first position holding the key, -1 iff it is absent |
| QueueSupport.DeleteKey | src/components/FileUploader.js:204-212 | an absent key leaves the list unchanged; a present one shortens it by one |
| QueueSupport.RemoveAtIndex | src/components/FileUploader.js:208-209 | after the splice, the keys before the position come first, then the keys after it |
| QueueSupport.RemoveAtDistinct | src/components/FileUploader.js:208-209 | splicing out of a list without repeats leaves no repeats and removes the key |
| QueueSupport.RemoveAtKeepsOthers | src/components/FileUploader.js:208-209 | every other key stays listed after the splice |
| QueueSupport.DeleteKeyExactly | src/components/FileUploader.js:204-212 | the deleted key is gone, every other key stays, no repeats, and the multiset is the old one minus that key |
| QueueSupport.Percent | src/components/FileUploader.js:420 | the rounded percentage: the nearest integer to loaded*100/total, halves rounded up |
| QueueSupport.PercentRange | src/components/FileUploader.js:420-423 | within the total the percentage is 0..100, and it reaches 100 (finishing) iff at least 99.5% is sent |
| UploadQueue.Admit | src/components/FileUploader.js:165-166 | each incoming file becomes a waiting entry under a fresh key; stored entries are kept |
| UploadQueue.Queue.constructor | src/components/FileUploader.js:357-360 | the initial state has no files, is not done, and satisfies the invariant |
| UploadQueue.Queue.Stamp | src/components/FileUploader.js:159-164 | a list-touching step drops `error` (:160) and takes a fresh `filesUpdated` token (:164, and likewise :185, :201, :205), and keeps the invariant |
| UploadQueue.Queue.Add | src/components/FileUploader.js:163-173 | new entries are waiting even when rejected; `dropOverflow` iff count + incoming exceeds max; the list is unchanged on overflow and otherwise has the batch appended in order |
| UploadQueue.Queue.Next | src/components/FileUploader.js:184-194 | the current entry is the choice of `next`; done iff none; the single-transfer invariant holds afterwards |
| UploadQueue.Queue.Submit | src/components/FileUploader.js:175-194 | the store is the error-reset store, then the current entry is chosen as `next` would on it |
| UploadQueue.Queue.Delete | src/components/FileUploader.js:204-213 | the list loses the first occurrence of the entry and nothing else; nothing is aborted and the current entry is kept |
| UploadQueue.Queue.Refresh | src/components/FileUploader.js:200-202 | only a fresh `filesUpdated` token |
| UploadQueue.Queue.SetCurrentProgress | src/components/FileUploader.js:196-198 | records the value and resets `filesUpdated` to false |
| UploadQueue.Queue.RaiseError | src/components/FileUploader.js:215-217 | raises the error flag and resets `filesUpdated` to false |
| UploadQueue.Queue.Cancel | src/components/FileUploader.js:233-241 | an uploading entry is only aborted through its token; a waiting entry becomes cancelled; then a refresh; every other field is kept |
| UploadQueue.Queue.Rename | src/components/FileUploader.js:248-251 | only the custom name of that entry changes, then a refresh; every other field, `dropOverflow` and `currentProgress` included, is kept |
| UploadQueue.Queue.Sync | src/components/FileUploader.js:413-418 | a newly current entry becomes uploading, gets a token, and is sent under its display name; a change of current never finds a transfer to abort |
| UploadQueue.Queue.OnProgress | src/components/FileUploader.js:419-428 | the rounded percentage is stored and dispatched; 100 makes the entry finishing; every other field is kept |
| UploadQueue.Queue.OnSuccess | src/components/FileUploader.js:431-437 | the entry succeeds, with the response's id when there is a response; the next waiting entry (never the same one) becomes current; `dropOverflow` and `currentProgress` are kept |
| UploadQueue.Queue.OnError | src/components/FileUploader.js:438-447 | a cancel gives cancelled with "Cancelled by user"; another error gives failed with its message; then `next`; `dropOverflow` and `currentProgress` are kept |
| UploadQueue.Queue.Unmount | src/components/FileUploader.js:450-455 | the cleanup aborts the transfer iff the entry is still active; only `live` and `aborts` change |
| UploadQueue.Queue.SubmitDoneEffect | src/components/FileUploader.js:372-382 | reports only once done; the value reported is the completion value of the list; the error flag is raised and `filesUpdated` reset to false iff it is `undefined`; the list, `done`, `clock`, `dropOverflow` and `currentProgress` are kept |
| Scenario.PickAndSubmit | src/components/FileUploader.js:163-194 | two picked files and a submit leave the first uploading and the second waiting |
| Scenario.UploadBoth | src/components/FileUploader.js:413-447 | two successful uploads leave the queue done with both ids recorded |
| Scenario.TwoFileSubmission | src/components/FileUploader.js:372-382 | the completion effect reports both records, in order, with their ids |
| ApiService.Flat | src/services/ApiService.js:30 | `.flat()` with depth one; FlatWithoutArrays and FlatAppend state what it keeps |
| ApiService.FlatWithoutArrays | src/services/ApiService.js:30 | flattening leaves arguments without arrays unchanged |
| ApiService.FlatAppend | src/services/ApiService.js:30 | flattening distributes over concatenation |
| ApiService.Segments | src/services/ApiService.js:38-39 | the path segments are the flattened arguments, minus a trailing plain object |
| ApiService.Text | src/services/ApiService.js:68 | the text `join` gives each segment (`undefined`/`null` empty, arrays comma-joined); PathSnoc states how each segment extends the path |
| ApiService.HeadersKept | src/services/ApiService.js:49-51 | the two shapes in which headers survive; NewResource and HeadersOnlyMeansNoParams state their consequences |
| ApiService.NewResource | src/services/ApiService.js:28-68 | the path is "/" plus the segments joined by "/"; without options the config is `{}`/`{}`; the transport options move to the config; headers are kept only in the two allowed shapes; otherwise params is the options object without the transport keys and with every other property |
| ApiService.HeadersOnlyMeansNoParams | src/services/ApiService.js:48-52 | when the headers are the only property left, the params are empty |
| ApiService.PathOfPlainSegments | src/services/ApiService.js:68 | with only string and number arguments, every argument is a path segment |
| ApiService.PathSnoc | src/services/ApiService.js:68 | one more segment appends "/" and its text to the path; the first segment follows the leading "/" directly |
| ApiService.TagStatus | src/services/ApiService.js:73-78 | only plain-object data is tagged with the status; anything else passes through unchanged |
| ApiService.TagStatusKeepsNamedProperties | src/services/ApiService.js:91-97 | tagging changes no string-keyed property and adds none to `Object.keys` |
| ApiService.PostSplit | src/services/ApiService.js:124-126 | the last argument of `post` is the payload and the rest build the resource |
| ApiService.CatchError | src/services/ApiService.js:106-166 | error callbacks fire iff the response status is not silent for the method; connection-refused callbacks fire iff there is no response (or a cancelled post); null is yielded iff it is a non-cancel `get` failure or a `post` response other than 403/422 |
| ApiService.CancelAndDeleteRethrow | src/services/ApiService.js:147-166 | `get` and `delete` cancellations are silent and rethrown; every `delete` failure is rethrown |
| ApiService.Callbacks.constructor | src/services/ApiService.js:101-103 | both callback arrays start empty |
| ApiService.Callbacks.RegisterError | src/services/ApiService.js:169 | appends to the error callbacks only |
| ApiService.Callbacks.RegisterConnectionRefused | src/services/ApiService.js:171 | appends to the connection-refused callbacks only |
| ApiService.Callbacks.Invoked | src/services/ApiService.js:113-117 | a failure invokes all callbacks of its kind, in registration order, or none |

## Behaviour worth knowing

- **Every entry is reported.** `computeFilesValue` maps every entry, whatever its status (FileUploader.js:339).
- **A success can carry no id.** A success without a response leaves the id unset (FileUploader.js:432-435). "Has an id" implies success, but not the other way round.
- **Cancelling an upload only aborts it.** On an uploading entry the cancel button calls the token's `cancel` and nothing else (FileUploader.js:235-236). The status becomes cancelled when the driver reports the cancellation.
- **Single-file mode always admits one more file.** With `multiple` off and no `max`, the cap is the current count plus one (FileUploader.js:384-388). One more file therefore always fits, even once a file is listed (`Admission.SingleModeAdmitsOneMore`).
- **A cancelled `post` counts as a refused connection.** `post` has no cancellation check, and a cancelled request has no response (ApiService.js:127-142). It notifies the connection-refused callbacks and is rethrown.

## Left out

- Rendering, styling, Material-UI and dropzone wiring (`dropStyles`, `MultiIconButton`, JSX): presentation only.
- The dropzone's own enforcement of `multiple`, `noClick` and `disabled`: library behaviour outside the source.
- React effect scheduling and rxjs subscriptions: each effect run and callback is an explicit method call.
- The submitter subscription (FileUploader.js:364-370): it only dispatches `submit`, which is `Queue.Submit`.
- The item's delete button (FileUploader.js:243-246): it only dispatches `delete`, which is `Queue.Delete`.
- UploadQueue.Queue.OnProgress: requires `live == current`; a callback arriving between a change of `current` and the effect's re-run is not modelled.
- UploadQueue.Queue.OnSuccess: requires `live == current`, for the same reason.
- UploadQueue.Queue.OnError: requires `live == current`, for the same reason.
- UploadQueue.Queue.Submit: requires `live == current`, meaning the driver effect has caught up with the last `next`.
- UploadQueue.Queue.Next: requires `live == current`, for the same reason.
- UploadQueue.Queue.Cancel: branches on the entry's live status, not on the status captured at the last render (FileUploader.js:233-241, closures made at :260 and :270). The driver's start sets the entry uploading in place and dispatches nothing (FileUploader.js:415), so the item keeps its waiting-state cancel button until the first progress dispatch (FileUploader.js:424). A click in that window marks a running upload cancelled without aborting it, and the transfer later overwrites that status. That path is not modelled, and `SingleTransfer` is proved only for clicks that see the live status.
- UploadQueue.Queue.Cancel: requires a waiting or uploading entry, because the item offers cancel only for those two (a finishing entry has no cancel action).
- UploadQueue.Queue.Unmount: does not promise the invariant afterwards, because the queue is not used after the component is gone.
- QueueSupport.Percent: requires `total > 0` and integer byte counts; a progress event without a known total is not modelled.
- The axios transport, the request interceptor adding credentials (ApiService.js:7-24) and the upload collaborator `dataType.upload`: foreign calls, recorded only as the requests and aborts they receive.
- The `delete` response mapping (ApiService.js:85): axios always resolves with a response object, so the result is its data unchanged.
- ApiService.Text: numbers are integers only (`Number(int)`); a fractional path segment such as 1.5, or a fractional status, is not modelled.
- Admission.NormaliseMax: takes `max` as an integer or unset; fractional and string values of `max` are not modelled.
- The `JSON.stringify` comparison in the change effect is structural equality of the files value. Key order and serialisation details are not modelled.
- Two `Date().getTime()` tokens within one millisecond are equal in the source but distinct in the model.
- `ApiResource` deletes the transport keys from the caller's own options object. The model builds a new map, so that side effect on the caller is not modelled.
- `src/components/EmbeddedApp.js`, `src/actions/Alert.js`, `src/actions/New.js` and `src/config/dataTypes/*` are not part of this model: message plumbing, UI registration and static configuration.
