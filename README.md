# bitrix_to_superset: the sync engine and the plugin registry, in Dafny

This project models two parts of the bitrix_to_superset repository and proves
properties of the models.

The first part is the backend's synchronisation engine (`backend/app.py`). The
`sync_status` registry holds, per entity (deals, tasks, projects), the flags
`running`, `progress`, `total`, `last_run` and `stop_requested`. The
`/sync`, `/stop_sync` and `/clear` routes are guarded by `running`.
`sync_entity` pages records from the Bitrix24 REST source into a PostgreSQL
table, in rounds of at most `max_workers` concurrent fetches. Other model
pieces: `insert_batch`, the id-keyed upsert; `clear_table`; the soft-failing
`fetch_batch`; `get_count_from_bitrix` with its page-counting loop for
projects; and `convert_yn_to_bool`.

The second part is the script `update_superset_plugins.py`. It walks
`plugins/`, reads each plugin's class name from its index file, and derives a
package name and a key from the directory name. It then adds any missing
import and registration lines to `MainPreset.js`, and any missing dependency
entries to `package.json`.

Modules (one file each):

- `wrappers.dfy` (Wrappers): `Option`.
- `json.dfy` (Json): decoded JSON values, Python truthiness, `d.get`, and how a value behaves in `start + i*batch_size`.
- `entities.dfy` (Entities): the three entity names.
- `store.dfy` (Store): row mapping and the upsert of `insert_batch`, keyed by id.
- `remote.dfy` (Remote): the shaping of `fetch_batch` pages and the remote counts.
- `sync_trace.dfy` (SyncTrace): one sync session as a trace of events.
  - `Run` gives the state a trace leads to: buffer, cursor, flushed count, table, current round.
  - `Allowed` is the protocol: which event may come next.
  - The lemmas derive the session's guarantees from these two.
- `sync.dfy` (Sync): the registry and the tables as objects updated in place (`SyncState`, `DbTable`, held by `App`).
  - It holds the route handlers and `insert_batch`/`clear_table`.
  - `sync_entity` is split into methods, one per part of its loop.
  - Each session method carries a ghost trace, states the events it appends to it, and is proved to follow the SyncTrace protocol. The SyncTrace lemmas are therefore statements about the history of every session these methods run.
- `text.dfy` (Text): the Python string operations the script uses.
  - `in` on strings and `str.replace(pat, '')`.
  - `split('/')[-1]` and the regex class `\w`.
- `plugins.dfy` (PluginRegistry): `find_plugins`, `extract_plugin_name`, the two line generators, the main block's derivation, `update_main_preset` and `update_package_json`.

Concurrency is modelled as follows:

- A round's futures complete in any order: `as_completed` becomes a nondeterministic choice of the next pending slot.
- A stop request from the `/stop_sync` route may arrive before any read of `stop_requested`.
- Whether the database accepts a transaction is a nondeterministic boolean.

Environment inputs:

- Remote page replies are a function from a request to a decoded body, or None when the request raised. A request names the round, the slot within the round, the start and the resume id. A page that fails in one round may therefore succeed when it is requested again in a later round.
- The local count and the maximum id are inputs of the session.
- The clock reading for `last_run` is a string input.

Behaviours of the code worth knowing, which the model keeps as they are:

- **Cursor.** After each non-empty page, `start` becomes that page's `next` when it is truthy (app.py:186-187). So the cursor is the `next` of the most recently consumed such page, not the largest one seen in the round (`SyncTrace.CursorIsLatest`). Completion order decides.
- **Progress on a failed insert.** `insert_batch` catches every exception (app.py:367). After each flush, inside the loop (app.py:183) and after it (app.py:192-195), progress grows by the buffer length. This holds whether the transaction committed or not, and whether or not items were dropped (`Sync.App.FlushBuffer`). The session goes on.
- **Progress above the total.** Nothing bounds progress by the total: a flush adds the whole buffer (app.py:183, 194). So the model proves no such bound.
- **Duplicate lines in `MainPreset.js`.** `update_main_preset` tests each line against the file as it was read from disk, not against the text being built. So two plugins with the same import line would both add it in one run (`PluginRegistry.UpdatedPreset` models exactly this). The file is still unchanged by a second run (`PluginRegistry.PresetUpdateIdempotent`).

## Model

| member | source | states |
|---|---|---|
| Json.AsNumber | backend/app.py:167 | a value works in `start + i*batch_size` exactly when it is an int or a bool (Python's bool is an int); an int stands for itself |
| Entities.ParseEntity | backend/app.py:542 | a route's entity name is accepted only as the name of the entity it yields |
| Entities.ParseName | backend/app.py:29-33 | each of the three registry keys is accepted and yields its own entity |
| Entities.ParseEntityExact | backend/app.py:542 | a name is accepted exactly when it is one of the three registry keys |
| Store.YnToBool | backend/app.py:385-390 | the result is true exactly for "Y" |
| Store.DealAmount | backend/app.py:223 | a missing or falsy OPPORTUNITY counts as 0; the conversion fails exactly on a truthy list or dict |
| Store.NestedId | backend/app.py:306-307 | a missing creator/responsible gives "0"; a present one yields an id exactly when it is a dict |
| Store.MapRow | backend/app.py:223-363 | a deal row exists exactly when TITLE, STAGE_ID and a convertible amount exist, and it carries them; a project row exactly when SUBJECT_ID, NAME and INITIATE_PERMS exist; a task row exactly when creator and responsible give ids (the deal tuple at lines 223-224, the task tuple at 279-311, the project tuple at 348-363) |
| Store.KeptItems | backend/app.py:310 | the kept items are exactly the input's dicts that carry the id key (`id` for tasks, `ID` otherwise), and there are no more of them than inputs |
| Store.KeptItemsConcat | backend/app.py:310 | the filter distributes over concatenation |
| Store.KeptItemsAt | backend/app.py:310 | the kept items are those of the items before position i, then item i when it is keyed, then those of the items after it: an order-preserving filter |
| Store.MapRows | backend/app.py:279-311 | the comprehension succeeds exactly when every kept item maps to a row; it then has exactly as many pairs as there are kept items |
| Store.MapRowsPairs | backend/app.py:279-311 | the i-th pair carries the id and the row of the i-th kept item |
| Store.RowIdKept | backend/app.py:279-311 | every id in the rows is the id of a kept item |
| Store.KeptIdRow | backend/app.py:279-311 | every kept item's id is the id of some row |
| Store.ApplyRows | backend/app.py:225 | no contract of its own: `execute_batch` as the upserts applied one by one; `Store.ApplyRowsIsUnion` states its meaning |
| Store.UpsertBatch | backend/app.py:204-368 | an empty batch, a failing row or a refused transaction leave the table unchanged; otherwise the table is the old one overridden by the batch's rows by id |
| Store.ApplyRowsIsUnion | backend/app.py:225 | executing the upserts one by one equals merging the batch's by-id map into the table |
| Store.RowsMapKeys | backend/app.py:217-218 | the ids a batch writes are exactly the ids of its rows |
| Store.RowsMapLastWins | backend/app.py:217-221 | for an id repeated within a batch, the last row with that id wins |
| Store.UpsertIdempotent | backend/app.py:217-221 | upserting the same batch twice leaves the table as upserting it once |
| Store.MapRowsIgnoresUnkeyed | backend/app.py:362 | items that are not dicts or lack the id key do not change the rows built |
| Store.UpsertDropsUnkeyed | backend/app.py:310 | a batch has the same effect as the batch of its kept items alone |
| Store.UpsertLookup | backend/app.py:215-224 | after a committed batch, an id is present exactly when it was present before or a keyed item of the batch carries it; an id no keyed item carries keeps its old row |
| Store.UpsertLastWins | backend/app.py:215-225 | after a committed batch, the row under an id is the row of the last kept item carrying that id |
| Remote.ResultField | backend/app.py:133-135 | for deals and projects the field is present exactly when the body is a dict with `result`, and it is that value; for tasks exactly when `result` is also a dict with `tasks`, and it is `result.tasks` |
| Remote.FetchBatch | backend/app.py:112-140 | a failed request gives an empty page with no `next`; items come only from a list result field; `next` comes only from the body's `next` |
| Remote.FetchFailureIsEmptyPage | backend/app.py:138-140 | a request that raises, or a body without the result field, is absorbed as an empty page with no continuation |
| Remote.ChainTally | backend/app.py:96-105 | no contract of its own: the page-counting loop as a recursion over the `next` chain; `Remote.CountProjects`, `Remote.TallyStable` and `Remote.FailureZeroesCount` state its meaning |
| Remote.TallyStable | backend/app.py:96-105 | the page count does not depend on the page bound once the chain ends inside it |
| Remote.FailureZeroesCount | backend/app.py:108-110 | a failed request on any page reached makes the projects count 0 |
| Remote.CountProjects | backend/app.py:91-107 | the loop returns the sum of result lengths along the `next` chain from start 0, stopping at an empty result or a page without `next` |
| Remote.RemoteCount | backend/app.py:71-110 | the count is the reply's `total` (absent is 0) for deals and tasks, and the chain tally for projects; a failed request is 0 |
| SyncTrace.Run | backend/app.py:160-195 | no contract of its own: the state (buffer, cursor, flushed count, table, round, open slots) a trace of session events leads to; the SyncTrace lemmas state its meaning |
| SyncTrace.Allowed | backend/app.py:164-195 | no contract of its own: which event may come next. A due flush must come next; a round dispatches only while the loop condition holds and the pool has workers; an exception happens only at the pool's head with no workers or at a non-number start; a stop is seen only where the code reads `stop_requested` (`SyncTrace.MayPollStop`: not after an empty round with nothing buffered, nor once the total is reached before the first round); `SyncTrace.FlushForced`, `SyncTrace.NoWorkersFails`, `SyncTrace.StopOnlyWherePolled` and the other SyncTrace lemmas state its consequences |
| SyncTrace.TerminalEventsAreLast | backend/app.py:189-195 | after a stop is observed, an exception escapes, or the final flush, nothing else happens in the session |
| SyncTrace.DispatchedSlices | backend/app.py:164-170 | a round starts only while progress is below the total; it dispatches at most `max_workers` offsets `cursor + i*batch_size`, each below the total, from the cursor the session has reached |
| SyncTrace.FlushJustified | backend/app.py:178-185 | a flush inside a round comes right after a non-empty page, writes exactly the buffer, and happens only at twice the batch size or on a page without `next` |
| SyncTrace.Conservation | backend/app.py:180-185 | every item consumed from a page has been flushed or is still in the buffer |
| SyncTrace.FlushedGrows | backend/app.py:183 | the flushed count never decreases from a prefix of a trace to the whole trace; the session methods only extend the trace and keep progress at the resume count plus the flushed count, so progress never decreases during a session |
| SyncTrace.StopOnlyWherePolled | backend/app.py:164-192 | a stop is observed only inside a round with futures left, after a round that submitted futures, in a `while` test made while progress is below the total, or before the final flush of a non-empty buffer |
| SyncTrace.FlushForced | backend/app.py:180-185 | after a non-empty page that brings the buffer to twice the batch size, or that has no `next`, the next event is the flush of exactly the buffer |
| SyncTrace.NoWorkersFails | backend/app.py:163 | with `max_workers` at most 0 the only possible session is a single exception |
| SyncTrace.CursorIsLatest | backend/app.py:186-187 | the cursor is the `next` of the latest consumed page that had items and a truthy `next` |
| SyncTrace.CursorStartsAtZero | backend/app.py:160 | until such a page is consumed the cursor is 0 |
| SyncTrace.RoundExtent | backend/app.py:166-169 | the last offset of a round is below the total, and a round smaller than the pool reaches the total |
| SyncTrace.OffsetsIncrease | backend/app.py:167 | with a positive batch size the offsets of a round are distinct and increasing |
| SyncTrace.ScenarioOffsets | backend/app.py:166-170 | with 120 records, batch size 50 and 8 workers, the first round fetches offsets 0, 50 and 100 |
| Sync.SyncState.constructor | backend/app.py:30-32 | a registry entry starts not running, with progress and total 0, no last run and no stop request |
| Sync.App.constructor | backend/app.py:29-33 | the registry has a separate fresh idle entry per entity, over the three tables |
| Sync.SubmitRound | backend/app.py:165-170 | the offsets are the `range(max_workers)` slices below the total; the loop raises exactly when there are workers and the start is not a number |
| Sync.App.StopSync | backend/app.py:549-556 | an unknown entity or a sync that is not running is rejected with nothing changed; otherwise only `stop_requested` becomes true |
| Sync.App.StartSync | backend/app.py:540-547 | an unknown entity or a running sync is rejected with nothing changed; otherwise the worker's result is everything `Sync.App.SyncEntity` states, for batch size 50 and 8 workers: in particular `running` is left true only when a bound ran out |
| Sync.App.ClearEntity | backend/app.py:558-565 | an unknown entity or a running sync is rejected with nothing changed; otherwise `clear_table` runs |
| Sync.App.ClearTable | backend/app.py:370-383 | a committed TRUNCATE empties the table and sets progress to 0 and changes nothing else; a failed one changes nothing |
| Sync.App.InsertBatch | backend/app.py:204-368 | the table becomes `UpsertBatch` of the old table, the items, and whether the transaction committed |
| Sync.App.PollStop | backend/app.py:173 | a read of `stop_requested` sees a request made earlier; a new request from the route may arrive first; nothing else changes |
| Sync.App.ObserveStop | backend/app.py:173-175 | a read of the flag, made only where the code reads it; a stop seen ends the session's trace; otherwise the trace is unchanged |
| Sync.App.Consume | backend/app.py:176-187 | consuming one completed future appends its fetched page (the reply to this round and slot) and, when the flush is due, the flush of the buffer plus the page's items; the registry, the table and the locals stay in step with the trace, and the slot is closed |
| Sync.App.NextFuture | backend/app.py:172-187 | one turn of the `as_completed` loop: a stop seen is the one event appended and ends the round; otherwise one pending future is consumed and leaves the pending set |
| Sync.App.FlushBuffer | backend/app.py:181-185 | the table becomes the upsert of the buffer; progress grows by the buffer length whether or not the insert committed; the buffer empties |
| Sync.App.RunRound | backend/app.py:172-187 | a round ends with every slot consumed, or with a stop seen as the last event, which only a round with futures can see |
| Sync.App.BeginRound | backend/app.py:165-170 | a round dispatches its offsets as the trace's next event, or an exception is recorded when the start is not a number |
| Sync.App.Round | backend/app.py:165-190 | one pass ends in a stop or an exception as the last event, or exits normally after an empty round, or goes on after a round that dispatched offsets; a stop is seen only after a round that had futures, since `not futures` short-circuits the flag |
| Sync.App.Pass | backend/app.py:164-190 | one test of the `while` condition: once progress reaches the total it exits normally without reading the flag and appends nothing; otherwise it stops on a stop request, ends Unfinished only when no rounds are left, and else runs a round |
| Sync.App.SessionLoop | backend/app.py:163-190 | the loop is left normally with no future open once the total is reached or a round came back empty; otherwise the session ended inside it as its last event says, and Unfinished only after exactly `rounds` rounds |
| Sync.App.FlushRest | backend/app.py:192-195 | after the loop the buffer is written unless a stop is seen first; in that case the partial buffer is dropped |
| Sync.App.Conclude | backend/app.py:192-195 | the loop ends as finished (buffer written) or stopped (the stop is the last event), never by an exception |
| Sync.App.RunSession | backend/app.py:160-195 | the session follows the protocol; it stops exactly when a stop is the last event, fails exactly when an exception is; with no workers it fails at once, its trace the single exception of the pool's head; it is Unfinished only after exactly `rounds` rounds; a finished session has no future left open and an empty buffer, and reached the total or an empty round |
| Sync.App.Prepare | backend/app.py:143-158 | the flags are set and the count taken; the resume progress is the local count when a max id exists and 0 otherwise; the total is the count snapshot |
| Sync.App.SyncEntity | backend/app.py:142-202 | the count is taken once and becomes `total`, which stays the snapshot; the session's configuration is the given batch size and workers, the count, the resume point and the old table; progress and table are what the session's trace leads to; the outcome matches the trace; with no workers the session fails at once; the outcome is Unfinished, leaving `running` true, only when the count's page bound or the `rounds` bound ran out; on every other exit `running` and `stop_requested` are false |
| Text.Contains | update_superset_plugins.py:34-37 | no contract of its own: `line in content` as an occurrence at some index; `PluginRegistry.ContainsBefore`, `PluginRegistry.ContainsAfter` and `Text.OccursInside` state how it behaves under concatenation |
| Text.RemoveAll | update_superset_plugins.py:103 | no contract of its own: `replace(pat, '')` left to right; `Text.RemoveAllAbsent` and `PluginRegistry.ChartKey` state its meaning |
| Text.LastSegment | update_superset_plugins.py:101 | no contract of its own: `split('/')[-1]`, also used at line 79; `Text.LastSegmentSuffix` and `Text.LastSegmentAfterSlash` state its meaning |
| Text.RemoveAllAbsent | update_superset_plugins.py:103 | removing a prefix that does not occur leaves the name as it is |
| Text.LastSegmentSuffix | update_superset_plugins.py:79 | `split('/')[-1]` is the longest suffix without '/', and is all of the string or follows a '/' |
| Text.LastSegmentAfterSlash | update_superset_plugins.py:101 | the last segment of `prefix + "/" + seg` is `seg` when `seg` has no '/' |
| Text.WordRun | update_superset_plugins.py:20 | the greedy `\w*` match is a prefix of word characters that cannot be extended |
| PluginRegistry.PluginDirs | update_superset_plugins.py:6-11 | the entries are exactly the walked directories holding `index.js` or `index.ts`, and there are no more of them than walked directories |
| PluginRegistry.PluginDirsConcat | update_superset_plugins.py:6-11 | the filter distributes over concatenation of walks |
| PluginRegistry.PluginDirsAt | update_superset_plugins.py:6-11 | the plugin directories are those walked before position i, then directory i when it holds an index file, then those walked after it: an order-preserving filter |
| PluginRegistry.FindPlugins | update_superset_plugins.py:6-11 | the loop collects exactly the plugin directories, in order |
| PluginRegistry.FirstClass | update_superset_plugins.py:20 | the leftmost position where `export default class ` is followed by a word character |
| PluginRegistry.ClassName | update_superset_plugins.py:20-23 | no name exactly when the pattern does not match; otherwise the non-empty maximal `\w+` run after the leftmost match |
| PluginRegistry.ExtractPluginName | update_superset_plugins.py:14-23 | the class name is read from `index.js` when present, else from `index.ts` |
| PluginRegistry.ImportStatement | update_superset_plugins.py:26-27 | no contract of its own: the import line; `PluginRegistry.ImportRoundTrip` states that it can be parsed back |
| PluginRegistry.RegistrationStatement | update_superset_plugins.py:30-31 | no contract of its own: the registration line; `PluginRegistry.RegistrationRoundTrip` states that it can be parsed back |
| PluginRegistry.ParseImport | update_superset_plugins.py:26-27 | a parsed import line regenerates exactly the line it came from |
| PluginRegistry.ParseRegistration | update_superset_plugins.py:30-31 | a parsed registration line regenerates exactly the line it came from |
| PluginRegistry.ImportRoundTrip | update_superset_plugins.py:26-27 | an import line for a class name reads back to its class name and package |
| PluginRegistry.RegistrationRoundTrip | update_superset_plugins.py:30-31 | a registration line for a class name reads back to its class name and key |
| PluginRegistry.PluginOf | update_superset_plugins.py:99-104 | a directory yields an entry exactly when a class name is found in it |
| PluginRegistry.PluginsOf | update_superset_plugins.py:98-104 | at most one entry per directory |
| PluginRegistry.PluginsOfConcat | update_superset_plugins.py:98-104 | the entries of two lists of directories are the entries of the first, then those of the second |
| PluginRegistry.PluginsOfAt | update_superset_plugins.py:98-104 | the entries are those of the directories before position i, then directory i's entry when it has a class name, then those after it: walk order is kept |
| PluginRegistry.PluginsOfComplete | update_superset_plugins.py:99-104 | every directory with a class name contributes its entry |
| PluginRegistry.CollectPlugins | update_superset_plugins.py:96-104 | the loop builds exactly the entries of the directories with a class name |
| PluginRegistry.PluginsOfEntries | update_superset_plugins.py:99-104 | each entry comes from a directory with class name `name`, package `@superset-ui/` + last segment, and key the last segment with `superset-plugin-chart-` removed |
| PluginRegistry.PackageNamesDirectory | update_superset_plugins.py:79-80 | the dependency path of a derived package points back at the plugin's directory name |
| PluginRegistry.ChartKey | update_superset_plugins.py:103 | the key of `superset-plugin-chart-<name>` is `<name>` when the name holds no further prefix |
| PluginRegistry.AddedImports | update_superset_plugins.py:46-55 | no contract of its own: the import lines prepended, newest first; `PluginRegistry.ImportAdded` and `PluginRegistry.PresetTextStep` state its meaning |
| PluginRegistry.AddedRegistrations | update_superset_plugins.py:46-62 | no contract of its own: the registration blocks appended in order; `PluginRegistry.RegistrationAdded` and `PluginRegistry.PresetTextStep` state its meaning |
| PluginRegistry.UpdatedPreset | update_superset_plugins.py:40-62 | no contract of its own: the added imports, the original, then the added registrations; `PluginRegistry.ImportPresent`, `PluginRegistry.RegistrationPresent` and `PluginRegistry.PresetUpdateIdempotent` state its meaning |
| PluginRegistry.UpdateMainPreset | update_superset_plugins.py:40-66 | the text is the original with each missing import prepended and each missing registration block appended; it is rewritten exactly when some plugin's import or registration is missing from the original; otherwise it is the original |
| PluginRegistry.PresetTextStep | update_superset_plugins.py:50-58 | one more plugin puts its missing import in front of the text so far and its missing registration block at the end |
| PluginRegistry.ImportAdded | update_superset_plugins.py:50-51 | every import line missing from the original is among the added lines |
| PluginRegistry.RegistrationAdded | update_superset_plugins.py:57-58 | every registration line missing from the original is among the appended blocks |
| PluginRegistry.ImportPresent | update_superset_plugins.py:50-51 | after the update, every plugin's import line is in the text |
| PluginRegistry.RegistrationPresent | update_superset_plugins.py:57-58 | after the update, every plugin's registration line is in the text |
| PluginRegistry.NothingMissingNothingAdded | update_superset_plugins.py:64-66 | when no plugin is missing, nothing is added |
| PluginRegistry.PresetUpdateIdempotent | update_superset_plugins.py:40-66 | after one update no plugin is missing, and a second update returns the text unchanged |
| PluginRegistry.MergeDependencies | update_superset_plugins.py:77-86 | no contract of its own: the loop's additions to `dependencies`; `PluginRegistry.MergeKeys`, `PluginRegistry.MergeKeeps` and `PluginRegistry.MergeAdds` state its meaning |
| PluginRegistry.MergeKeys | update_superset_plugins.py:78-82 | the merged dependencies name exactly the old packages and the plugins' packages |
| PluginRegistry.MergeKeeps | update_superset_plugins.py:81 | entries already present are kept as they are |
| PluginRegistry.MergeAdds | update_superset_plugins.py:79-82 | a plugin package not present before maps to `file:./plugins/` plus its last path segment |
| PluginRegistry.MergeStep | update_superset_plugins.py:78-86 | one more plugin adds its package exactly when the merge so far lacks it |
| PluginRegistry.MergeKnown | update_superset_plugins.py:81-86 | when every package is already present, the dependencies are unchanged |
| PluginRegistry.PackageUpdateIdempotent | update_superset_plugins.py:69-90 | after one update every package is present, and a second update changes nothing |
| PluginRegistry.UpdatePackageJson | update_superset_plugins.py:69-90 | `dependencies` (created empty when absent) becomes the merge; the file is rewritten exactly when some package was missing |
| PluginRegistry.RegisterPlugins | update_superset_plugins.py:93-107 | the whole script: the entries are those of the walked plugin directories, in walk order; `MainPreset.js` and `package.json` get their updates from these entries, and each file is rewritten exactly when something in it was missing |

## Left out

- The HTTP layer: Flask, CORS, the JSON response bodies and status codes. A route's reply is a Rejected/Accepted value with its message.
- Routes and functions that only read or report: `check_bitrix_status`, the `/status`, `/sync_counts` and `/sync_status` routes, and `init_db`'s DDL.
- The internals of `requests` and `psycopg2`. Remote replies are input functions. Each SQL statement's effect is stated on the table map.
- Threads. A started thread is run to its end inside the route. The only interleaving modelled is a stop request for the same entity arriving before each read of `stop_requested`.
  - Not modelled: the race between two `/sync` requests before `running` is set, and a `/clear` during a sync.
  - Not modelled: HTTP timeouts.
- Inputs fixed for a session: the reply function for page requests, the count replies, and the local count and maximum id. The reply function is indexed by round and slot, so the same offset may return different records in different rounds. Changes in the remote data are represented only in that way.
- Logging; `datetime.now()`, which is an input string.
- Floating point: `float(OPPORTUNITY)` keeps the value. A string that `float` cannot parse is not detected.
- Columns: only a few are modelled (the required ones, some defaults, the Y/N coercion, the nested ids). `json.dumps` of nested fields is not.
- Remote.RemoteCount: count replies use restricted shapes. For deals and tasks the body is a dict whose `total` is an integer or absent. For projects each page is a result list plus an optional integer `next`. A failed request is the one error path, caught at app.py:108. Other bodies are not represented. In the code they behave as follows:
  - a number, boolean or null body makes the `in` test (app.py:79, 88, 100) raise a TypeError;
  - a string or list body passes the `in` test as a substring or element test. It counts 0 when it does not contain `"total"` (deals, tasks) or `"result"` (projects). When it does, the indexing `data["total"]` or `data["result"]` raises a TypeError;
  - each such TypeError escapes, since only `RequestException` is caught, and `sync_entity` ends as failed;
  - a `total` that is neither a number nor absent makes the comparison in the `while` condition raise.
- Sync.App.SyncEntity: the `rounds` bound on rounds and the page bound on the projects count chain stand in for loops that may never end. When a bound runs out the outcome is Unfinished, and `running` stays true; the contract states that this happens only then.
- Sync.App.SyncEntity: an exception inside the session is modelled where the code raises it: at the `with ThreadPoolExecutor(max_workers=...)` head when `max_workers` is at most 0, and at `start + i*batch_size` on a non-number start. `fetch_batch` and `insert_batch` catch everything. The count shapes that raise are listed above.
- Store: table keys are decoded JSON values. PostgreSQL converts an id to the column's type, so `5` and `"5"` are one row in the database but two keys in the model.
- File I/O and `os.walk`. The walk is a sequence of directories with their files' text, and `MainPreset.js` is a string. `package.json` is a decoded object. The JSON formatting of the output is not modelled.
- `re`: `\w` is the ASCII class (letters, digits, `_`). Python's Unicode word characters are not modelled.
- PluginRegistry.ExtractPluginName: requires the directory to hold `index.js` or `index.ts`. `open` on a missing file would raise, and every caller passes a directory from `find_plugins`.
- PluginRegistry.UpdatePackageJson: requires `dependencies`, when present, to be an object. A non-dict value makes the item assignment raise, and that path is not modelled.
- The React web client and the Superset chart plugins, which are outside the core.
