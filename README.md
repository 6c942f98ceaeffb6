# Zabbix batch provisioning, modelled in Dafny

Zabbix_Tool is a small web application that installs the Zabbix agent on Linux hosts over SSH
and registers those hosts with a Zabbix server through its JSON-RPC API. It handles one host at
a time or a batch of hosts uploaded as a spreadsheet. This project models the provisioning core
and proves properties of that model:

- the browser client's state: the batch table, its selection and results, the template and
  group pickers, and the payload `runBatch` sends;
- the reply envelope and how the client classifies replies;
- the service's host registration, template binding, web-scenario creation and remote install
  pipeline;
- the background batch worker and the batch endpoints;
- the SQLite-backed stores for batches, logs and configuration, and the in-memory task registry;
- the spreadsheet reader.

Python dicts and JSON values are modelled by `Json.Value`: an object is a sequence of
key/value pairs in insertion order. Python's truthiness, `or`, `str` and `strip`, and
JavaScript's truthiness, `String(v)`, `==` and `parseInt`, are written out in `PySem` and
`JsSem`. Everything outside the program is an input: SSH output, Zabbix API replies, the clock,
fresh ids, `fetch` replies and database answers. An object whose fields the source updates in
place is a class: the client `State`, the API session's token cache, and each store. Everything
else is a function. The source files map to modules as follows:

| source | module |
|---|---|
| utils/response.py | `Response` |
| static/js/app.js | `ClientApi`, `ClientRows`, `ClientWorkspace` |
| static_recover/static/js/app.js | `ClientApi`, `ClientRows`, `RecoverClient` |
| service.py | `ServiceModels`, `WebUrls`, `Templates`, `RemoteSteps`, `ZabbixApi`, `SafeLog`, `HostRegistration`, `WebScenario`, `Provisioning` |
| tasks/batch_worker.py | `BatchWorker`, `WebUrls` |
| api/agent.py | `AgentApi` |
| batch_store.py | `Batches`, `Sql` |
| log_store.py | `Logs`, `Sql` |
| db_config.py | `ConfigDb` |
| api/config.py | `ConfigApi` |
| tasks/task_store.py | `Tasks` |
| excel.py | `Excel` |

`Wrappers`, `Json`, `PySem`, `JsSem` and `Seqs` hold the language semantics and the generic
sequence facts the other modules share.

## Model

| member | source | states |
|---|---|---|
| Response.Ok | utils/response.py:1-2 | the envelope has exactly the keys code, msg, data in that order, with code 0 and the given msg and data |
| Response.Err | utils/response.py:5-6 | the same three keys, carrying the given code (default 1), msg and data |
| ClientApi.Api | static/js/app.js:76-97 | a thrown fetch and an unparseable body are failures; a body with a `code` key succeeds exactly when `code == 0` holds loosely and passes its `data` on; a failed response whose body is `null` throws on `json.msg` and is reported as a network error with no data; any other parsed body follows `res.ok` and is passed on whole; the message is never falsy |
| ClientApi.NullBodyIsNetworkError | static/js/app.js:93-95 | a failed response whose body parses to `null` gives exactly what a thrown fetch gives: the `TypeError` of `json.msg` is caught and reported as a network error with no data |
| ClientApi.OkEnvelopeIsSuccess | static/js/app.js:85-91 | whatever the HTTP status, every `ok(...)` envelope is classified as success and its data comes through unchanged |
| ClientApi.ErrEnvelopeIsFailure | static/js/app.js:85-91 | whatever the HTTP status, a default `err()` envelope, and any envelope with a non-zero code, is classified as failure with its data kept |
| ClientApi.EscapeChainIsPerChar | static/js/app.js:27-30 | the four chained global replacements, `&` first, equal escaping each character on its own |
| ClientApi.UnescapeEscape | static/js/app.js:27-30 | decoding the four entities undoes per-character escaping |
| ClientApi.EscapeTextInert | static/js/app.js:27-30 | escaped text contains no `<`, `>` or `"` |
| ClientApi.EscapeHtml | static/js/app.js:27-30 | falsy input gives ""; otherwise the result contains no `<`, `>` or `"`, and decoding it gives back `String(v)` |
| ClientRows.Toggled | static/js/app.js:358-363 | after checking, the id is in the list; after unchecking, it is gone; other ids stay as they were; a duplicate-free list stays duplicate-free; checking only appends |
| ClientRows.ToggledIdempotent | static/js/app.js:358-363 | repeating the same toggle changes nothing more |
| ClientRows.ToggleSet | static/js/app.js:636-640 | the id's membership flips and no other id is affected |
| ClientRows.ToggleSetInvolution | static/js/app.js:636-640 | toggling the same id twice restores the selection |
| ClientRows.IdsOf | static/js/app.js:848-851 | `(list \|\| [])` walked with `forEach`: a list gives the `String` of each element, in order; a falsy value gives no ids; any other value throws (None), since it has no `forEach` |
| ClientRows.ListField | static/js/app.js:909 | `data.hosts \|\| []` as the following `map`/`forEach` sees it: a list field is taken as is; a missing or falsy field reads as empty; any other value throws (None) |
| ClientRows.MergeResultsHit | static/js/app.js:969 | an id carried by some returned row ends up holding the last row that carries it |
| ClientRows.MergeResultsMiss | static/js/app.js:969 | an id no returned row carries keeps its old result, or stays absent |
| ClientRows.MergeResultsKeys | static/js/app.js:969 | the ids with results afterwards are the old ones plus the ids of the returned rows |
| ClientRows.JsParseInt | static/js/app.js:958 | `parseInt` is a number exactly when digits follow the leading whitespace and optional sign |
| ClientRows.JsParseIntOfDecimal | static/js/app.js:958 | `parseInt` of a number's decimal text gives back that number |
| ClientRows.JmxPortField | static/js/app.js:958 | an empty field sends 10052; otherwise the field is sent as null exactly when `parseInt` fails |
| ClientRows.RunPayload | static/js/app.js:950-963 | the payload's keys are distinct; it carries the batch id, the selected ids as strings, `register_server` false exactly for `agent_only`, and a null web URL when the field is empty |
| ClientRows.RunPayloadOf | static/js/app.js:947-963 | built from any duplicate-free listing of the selection, the payload satisfies the run-payload description |
| ClientRows.FindRow | static/js/app.js:657 | finds the first row whose `String(item_id)` is the key; finds nothing exactly when no row has it |
| ClientRows.SetFieldSpec | static/js/app.js:658 | the edited field reads back as the new value; every other field is unchanged |
| ClientRows.KeepUnselected | static/js/app.js:1005 | a row is kept exactly when its id is not selected |
| ClientRows.KeepUnselectedAppend | static/js/app.js:1005 | the filter keeps the surviving rows in their original order |
| ClientWorkspace.EmptyRow | static/js/app.js:778-793 | the new row's keys are distinct and its id is the given one |
| ClientWorkspace.EmptyRowDefaults | static/js/app.js:778-793 | the new row has SSH port "22", agent port "10050", JMX port "10052" and empty template and group lists |
| ClientWorkspace.FilterOptions | static/js/app.js:826-832 | an item is kept exactly when it matches the keyword by name or id; order is kept; an empty keyword keeps everything |
| ClientWorkspace.PickerSeed | static/js/app.js:848-851 | the seed comes from the first row with that id, taking its `group_ids` for 'grp' and its `template_ids` otherwise; no such row gives no ids; a truthy non-list value there throws |
| ClientWorkspace.SeedPicker | static/js/app.js:852 | the picker holds the seed ids in first-insertion order, without repeats |
| ClientWorkspace.Workspace.constructor | static/js/app.js:3-21 | the initial state: no rows, nothing selected, no results, no batch, nothing picked, the picker closed |
| ClientWorkspace.Workspace.OnToggleTpl | static/js/app.js:358-363 | only the picked template ids change, as `Toggled` says; no id is ever picked twice |
| ClientWorkspace.Workspace.OnToggleGrp | static/js/app.js:365-370 | the same for the picked group ids |
| ClientWorkspace.Workspace.OnSelectProxy | static/js/app.js:372-375 | only the selected proxy changes |
| ClientWorkspace.Workspace.RemoveTpl | static/js/app.js:388-392 | the template id is no longer picked; the others keep their order |
| ClientWorkspace.Workspace.RemoveGrp | static/js/app.js:393-397 | the same for a group id |
| ClientWorkspace.Workspace.ClearTemplates | static/js/app.js:398-402 | no template stays picked; nothing else changes |
| ClientWorkspace.Workspace.ClearGroups | static/js/app.js:403-407 | no group stays picked; nothing else changes |
| ClientWorkspace.Workspace.ClearProxy | static/js/app.js:409 | no proxy stays selected; nothing else changes |
| ClientWorkspace.Workspace.PruneSelection | static/js/app.js:554-557 | the selection shrinks to the ids that still name a row |
| ClientWorkspace.Workspace.ToggleBatchSelect | static/js/app.js:636-640 | only the selection changes, with the id toggled |
| ClientWorkspace.Workspace.ToggleAllBatchRows | static/js/app.js:1014-1021 | checking selects every row id; unchecking selects none |
| ClientWorkspace.Workspace.EditBatchField | static/js/app.js:656-659 | only the named field of the first row with that id changes; an unknown id changes nothing |
| ClientWorkspace.Workspace.AddRowsFromSelection | static/js/app.js:795-801 | one empty row is appended and its id joins the selection |
| ClientWorkspace.Workspace.ClearAllBatchRows | static/js/app.js:803-819 | an empty table or a refused confirmation changes nothing; otherwise rows, selection, results and the batch id are all cleared |
| ClientWorkspace.Workspace.DeleteSelectedBatchRows | static/js/app.js:999-1011 | with a selection and a confirmation, the selected rows go and the others keep their order, the selection empties, and the deleted ids lose their results; otherwise nothing changes |
| ClientWorkspace.Workspace.OpenSelector | static/js/app.js:845-861 | the picker is reset to that kind and row, then seeded with the row's ids (first occurrence, no repeats) and shown; when seeding throws, the picker stays empty and is not shown; the picker never holds an id twice |
| ClientWorkspace.Workspace.ToggleSelectorItem | static/js/app.js:863-867 | only the picker's ids change, as `Toggled` says |
| ClientWorkspace.Workspace.CloseSelector | static/js/app.js:884-892 | the picker always ends closed and empty |
| ClientWorkspace.Workspace.ConfirmSelector | static/js/app.js:871-882 | the target row's `group_ids` (for 'grp') or `template_ids` becomes the picker's ids; no other row changes; the picker closes |
| ClientWorkspace.Workspace.ReplaceFromBatch | static/js/app.js:908-911 | the batch id, rows and results come from the reply, and every new row is selected; when `hosts` is a truthy non-list, `map` throws after only the batch id was set |
| ClientWorkspace.Workspace.LoadBatchById | static/js/app.js:904-918 | an empty id or a failed or empty reply leaves the state alone; a successful reply replaces the table and selects every row, or, when its `hosts` makes `map` throw, sets the batch id and keeps the old rows where the client stores the non-list `hosts` |
| ClientWorkspace.Workspace.UploadBatch | static/js/app.js:976-997 | without a file nothing changes; a successful reply replaces the table and selects every row, or, when its `hosts` makes `map` throw, sets the batch id and keeps the old rows where the client stores the non-list `hosts`; any other reply changes nothing |
| ClientWorkspace.Workspace.SelectedIds | static/js/app.js:632-634 | every selected id, each exactly once |
| ClientWorkspace.Workspace.MergeRunResults | static/js/app.js:968-969 | only the results change, each returned row filed under its id with later rows winning |
| ClientWorkspace.Workspace.RunBatch | static/js/app.js:920-973 | with no rows or no selection, nothing is sent and nothing changes; otherwise a run payload for the selection is sent; on success only the results change, merged by id; a failed reply, or `results` on which `forEach` throws, changes nothing |
| ClientWorkspace.Workspace.Prepare | static/js/app.js:923-963 | a payload is built exactly when there are rows and a selection, and it is a run payload for the selection with the picked templates, groups and proxy |
| RecoverClient.Workspace.constructor | static_recover/static/js/app.js:2-19 | the initial state of the second client |
| RecoverClient.Workspace.OnToggleTpl | static_recover/static/js/app.js:337-342 | only the picked template ids change, as `Toggled` says, and they stay duplicate-free |
| RecoverClient.Workspace.OnToggleGrp | static_recover/static/js/app.js:344-349 | the same for the picked group ids |
| RecoverClient.Workspace.ToggleBatchSelect | static_recover/static/js/app.js:514-518 | only the selection changes, with the id toggled |
| RecoverClient.Workspace.ReplaceFromBatch | static_recover/static/js/app.js:529-532 | the batch id, rows and results come from the reply, and every new row is selected; when `hosts` is a truthy non-list, `map` throws after only the batch id was set |
| RecoverClient.Workspace.UploadBatch | static_recover/static/js/app.js:520-538 | without a file nothing changes; a successful reply replaces the table and selects every row, or, when its `hosts` makes `map` throw, sets the batch id and keeps the old rows where the client stores the non-list `hosts` |
| RecoverClient.Workspace.LoadBatchById | static_recover/static/js/app.js:548-561 | the same replacement for a successful reply, with the same throw (the batch id is set and the old rows are kept where the client stores the non-list `hosts`); a failed reply keeps the state |
| RecoverClient.Workspace.SelectedIds | static_recover/static/js/app.js:565 | every selected id, each exactly once |
| RecoverClient.Workspace.MergeRunResults | static_recover/static/js/app.js:589-590 | only the results change, later rows winning |
| RecoverClient.Workspace.RunBatch | static_recover/static/js/app.js:563-593 | with no batch id, no rows or no selection, nothing is sent; otherwise the payload, including the precheck flag, is sent, and on success only the results change; a failed reply, or `results` on which `forEach` throws, changes nothing |
| RecoverClient.Workspace.Prepare | static_recover/static/js/app.js:564-581 | a payload is built exactly when a batch id, rows and a selection exist |
| WebUrls.StripPieces | service.py:52 | stripping and dropping empty pieces never yields more pieces than went in |
| WebUrls.StripPiecesFree | service.py:52 | separator-free pieces come out stripped, non-empty and still free of separators |
| WebUrls.Unify | service.py:47-50 | newlines and commas become `;`; text without them is unchanged |
| WebUrls.SplitUrlText | service.py:46-52 | every URL taken from text is stripped, non-empty and free of `;`, `,` and newlines |
| WebUrls.SplitUrlTextJoin | service.py:46-52 | clean URLs joined by `;` split back into exactly themselves |
| WebUrls.NormalizeUrls | tasks/batch_worker.py:105-117 | a falsy value gives no URLs; every URL taken from text is clean; any other non-list value gives the single `str(val)` |
| WebUrls.NormalizeCleanList | tasks/batch_worker.py:111-117 | a list of clean text URLs comes out unchanged, item for item |
| WebUrls.NormalizeJoined | tasks/batch_worker.py:105-110 | text holding clean URLs joined by `;` normalises back to those URLs |
| WebUrls.NormalizeText | tasks/batch_worker.py:107-110 | non-empty text is split the same way `_iter_web_urls` splits it |
| WebUrls.IterWebUrls | service.py:37-68 | the URLs collected from the list and then from the single field, with repeats removed and the first occurrence kept; the list's URLs come first; no URL repeats, and every one is stripped and non-empty |
| WebUrls.ReprTrimmed | service.py:55-56 | the `str` of a truthy value that is neither text nor a list is stripped and non-empty |
| WebUrls.AddUrlsTrimmed | service.py:43-56 | every URL `_add` collects from a value is stripped and non-empty |
| WebUrls.AddItemsTrimmed | service.py:53-54 | every URL `_add` collects from the items of a list is stripped and non-empty |
| WebUrls.CollectedTrimmed | service.py:58-61 | every URL collected from the list and the single field is stripped and non-empty |
| WebUrls.DedupeUrls | service.py:62-68 | the `seen` loop keeps each URL the first time it appears |
| Templates.FindHost | service.py:437-448 | a host is found exactly when one is registered under that technical name |
| Templates.Incoming | service.py:301-305 | the incoming ids are the single template id, when given, together with every listed id |
| Templates.BindTemplateAt | service.py:296-312 | a failing host lookup is that failure; an unknown host is a 404; a failing update is that failure; otherwise the host's templates become the union (bind) or the difference (any other action) of its current and the incoming ids |
| Templates.BindTemplate | service.py:294-312 | the same, with the host looked up by the IP, since the request type has no hostname: a failing lookup, a 404 for an unknown host, a failing update, or the union of the templates |
| Templates.UnbindTemplate | service.py:314-316 | the same request with the action forced to "unbind": a failing lookup, a 404, a failing update, or the host's templates minus the incoming ones |
| Templates.BindMonotone | service.py:306-309 | binding only adds templates and keeps every incoming one; unbinding only removes templates and leaves none of the incoming ones |
| Templates.ApplyIdempotent | service.py:306-309 | binding, or unbinding, the same ids twice is the same as doing it once |
| Templates.BindThenUnbind | service.py:306-309 | unbinding what was just bound leaves the host's earlier templates minus the incoming ones |
| Templates.BindTemplateThenUnbind | service.py:294-316 | after a successful bind, unbinding the same ids from the updated record gives back the old templates minus the incoming ones |
| Templates.DeleteTemplate | service.py:327-332 | a failing lookup of the bound hosts is that failure; while any host is bound it is refused with 400 "template <id> has bound hosts; cannot delete"; otherwise the delete is made, and its failure, or `{deleted: True, template_id}`, is the result |
| Templates.DeleteGuarded | service.py:327-354 | the guard both deletes share: a failing lookup of the bound hosts is that failure, a truthy reply refuses with 400 "<kind> <id> has bound hosts; cannot delete", otherwise the delete's failure or `{deleted: True, <key>: id}` |
| Templates.DeleteGroup | service.py:349-354 | a failing lookup of the group's hosts is that failure; while any host is in the group it is refused with 400 "group <id> has bound hosts; cannot delete"; otherwise the delete is made, and its failure, or `{deleted: True, group_id}`, is the result |
| RemoteSteps.FirstFatal | service.py:570-582 | no fatal step exists exactly when every step either succeeds or is tolerant; otherwise the first fatal step, with every step before it not fatal |
| RemoteSteps.RunSteps | service.py:547-602 | a failed pre-upload is `_upload_file`'s failure, with its own status, and no step runs; with no fatal step, the result is the log lines of all steps joined by newlines; otherwise a 500 whose detail is the lines before the fatal step, its failure line and the rollback's line |
| RemoteSteps.UploadError | service.py:714-739 | nothing of its own; stated by RemoteSteps.UploadStatus and RemoteSteps.MissingPackageMessage |
| RemoteSteps.UploadStatus | service.py:714-739 | the pre-upload fails exactly when the file was not copied: 400 for a missing local file or missing credentials, 401 for an SFTP authentication failure, 500 for an SFTP connection failure |
| RemoteSteps.MissingPackageMessage | service.py:715-716 | a missing local package reads "400: local_agent_path not found: " and its path |
| RemoteSteps.StepLine | service.py:576-584 | nothing of its own; the lines of RemoteSteps.RunSteps and RemoteSteps.LinesInStepOrder are built from it |
| RemoteSteps.FailureTail | service.py:589-601 | nothing of its own; stated by RemoteSteps.AppendFailure |
| RemoteSteps.AppendFailure | service.py:588-601 | the failed step's line is appended, then the rollback's line or its failure line when a rollback is given |
| RemoteSteps.FirstFatalAt | service.py:570-582 | the first fatal step is the one reached after only non-fatal steps |
| RemoteSteps.LinesInStepOrder | service.py:570-584 | the log keeps step order: line `i` starts with the tag of step `i` |
| RemoteSteps.LaterOutcomesIgnored | service.py:570-582 | what the steps after the first fatal one would have done plays no part in the run |
| RemoteSteps.InstallStepNames | service.py:778-998 | the precheck is present exactly when asked for; the names are distinct, at least six, and end with `enable_service` |
| RemoteSteps.TolerantStepsFirst | service.py:564 | the tolerant steps, `precheck` and `pre_cleanup`, come before every step whose failure is fatal |
| RemoteSteps.InstallOrder | service.py:778-998 | clean-up, download, extract, configure, unit file, then enabling the service, in that order |
| RemoteSteps.LinuxInstallSteps | service.py:764-1000 | refused with 400 exactly when neither a package URL nor a local agent path is configured; otherwise the install steps, the upload target `/tmp/zabbix-agent2.tgz`, and a pre-upload exactly when a local path is set |
| RemoteSteps.UninstallStepNames | service.py:1054-1113 | stop the agent, then remove its files |
| ZabbixApi.AuthStep | service.py:389-419 | a cached token is returned as it is; otherwise a configured token is cached and returned; otherwise the login happens; a failure leaves the cache alone, and a success caches the token it returns |
| ZabbixApi.CallStep | service.py:364-384 | the call succeeds exactly when the reply is a JSON object without `error`, and then gives its `result`; an `error` with a `code` fails with "Zabbix API error <error>", one without `code` fails with the KeyError text `'code'`, and one that is not a dict fails too; the cache is dropped exactly on an error with code -32602 or -32500 |
| ZabbixApi.ErrorWithoutCode | service.py:378 | the reply `{"error": {"message": …}}` fails on reading `code` with the text `'code'`, and the cached token is kept |
| ZabbixApi.Session.constructor | service.py:387 | the token cache starts empty |
| ZabbixApi.Session.EnsureAuth | service.py:389-419 | the reply and the new cache are those `AuthStep` gives for the old cache |
| ZabbixApi.Session.Call | service.py:357-384 | an authentication failure is the result and keeps the cache; otherwise the API reply decides the result, and an authentication error code drops the cache |
| ZabbixApi.CachedTokenSkipsLogin | service.py:390-391 | with a token cached, the login reply plays no part |
| ZabbixApi.ConfiguredTokenCached | service.py:392-394 | a configured token is cached, so the next authentication reuses it without a login |
| ZabbixApi.AuthErrorForcesFreshAuth | service.py:379-382 | an authentication error drops the cache, and the next authentication takes the configured token afresh |
| SafeLog.Mask | service.py:423-428 | dicts stay dicts with the same keys, lists stay lists of the same length, and every other value is kept |
| SafeLog.MaskNoSecrets | service.py:423-428 | after masking, every credential key at any depth holds "***" |
| SafeLog.MaskIdempotent | service.py:423-428 | masking twice is masking once |
| SafeLog.SafeLogPayload | service.py:421-435 | the logged text is the `str()` of the masked value, cut to 500 characters plus "..." and so never longer than 503 |
| HostRegistration.Requested | service.py:459-462 | the request asks for nothing exactly when its list is missing or empty and its single id is not given |
| HostRegistration.TruthyIds | service.py:502 | an id is kept exactly when it is truthy |
| HostRegistration.AnyJmxName | service.py:674 | nothing of its own; stated through HostRegistration.HasJmxTemplate |
| HostRegistration.HasJmxTemplate | service.py:669-676 | no ids or a failed reply give False; True only when the reply lists a template dict |
| HostRegistration.WebTags | service.py:489-490 | one `web_monitor` tag per URL, in order |
| HostRegistration.TemplateIds | service.py:457-465 | the requested template ids when there are any, else the configured default template when it is set, else none |
| HostRegistration.GroupIds | service.py:467-476 | the requested group ids when there are any, else the configured default group, else "1"; never empty |
| HostRegistration.HostTags | service.py:486-490 | the `env` tag when given, then one `web_monitor` tag per URL of `_iter_web_urls` |
| HostRegistration.ParamsHaveGroups | service.py:467-483 | every host that is updated or created is put in at least one group, the requested ones when any were asked for |
| HostRegistration.BuildParams | service.py:453-492 | the host parameters, field by field: name, visible name, groups, templates, proxy and tags |
| HostRegistration.EnsureHost | service.py:450-544 | a failing `host.get` is the failure, with nothing written; a known host is updated, without touching its interfaces, and keeps its id unless the update or the JMX interface fails; an unknown host is created with its agent interface, plus a JMX interface when a JMX template is wanted, and gets the first id `host.create` answers, or that call's failure, or the error of reading `result["hostids"][0]` |
| HostRegistration.FirstHostId | service.py:544 | a failed `host.create` is its failure; a reply without `hostids` is a KeyError and an empty list an IndexError; an id is read only from a reply holding `hostids` |
| HostRegistration.CreatedHostId | service.py:544 | a reply whose `hostids` starts with a text id gives that id |
| HostRegistration.IfaceType | service.py:525 | nothing of its own; it reads `int(i.get("type", 0))` for HostRegistration.UpdateExisting and EnsureHost, with PySem.ParseInt for text |
| HostRegistration.UpdateExisting | service.py:520-540 | the update comes first, and its failure ends the call; a JMX interface is added exactly when one is wanted and the host has none, and its failure is the result; an unreadable interface type is a failure; success returns the host's id |
| WebScenario.ZbxVersion | service.py:646-654 | nothing of its own; stated by WebScenario.VersionRoundTrip, MajorOnly, SettingsVersionUsed, DefaultVersion and NonNumericVersion |
| WebScenario.VersionRoundTrip | service.py:646-654 | version text "a.b" reads back as (a, b) |
| WebScenario.MajorOnly | service.py:646-654 | a bare major version "a" reads as (a, 0) |
| WebScenario.SettingsVersionUsed | service.py:647 | without a configured version, the settings' version is the one read |
| WebScenario.DefaultVersion | core/settings.py:13 | with the default settings and nothing configured, the version is (6, 4) |
| WebScenario.NonNumericVersion | service.py:648-654 | text without a digit cannot be read and falls back to (6, 0) |
| WebScenario.ScenarioStep | service.py:681-683 | the step is named "step1" and expects status 200 on the URL; the step number `no: 1` is sent exactly to Zabbix 6 and later |
| WebScenario.Created | service.py:698-712 | a failing `httptest.create` is its failure; otherwise the call is the create, and a reply that is not a dict with truthy `httptestids` gives its own text as the id |
| WebScenario.EnsureWebMonitor | service.py:678-712 | a failing `httptest.get` is the failure; an existing scenario of that name is updated and keeps its id, or the update's failure is the result; otherwise one is created and its id taken from `httptestids`, or from the text of the reply, or the create's failure is the result; both use a one-minute delay, one retry and the single step |
| Provisioning.ZabbixUrl | service.py:73 | the configured API base when it is truthy, else the settings' one |
| Provisioning.ResolveName | service.py:76-85 | a given non-localhost hostname is kept; else the stripped probe output when it is non-empty; else the IP; a localhost name always becomes the IP |
| Provisioning.Resolved | service.py:86-87 | the request carries on with the resolved name and the visible name filled in; nothing else changes |
| Provisioning.AsWrittenBind | service.py:136-141 | the bind the install makes: the host is looked up by the IP because the request has no hostname |
| Provisioning.CorrectedBind | service.py:453-455 | the bind looked up by `hostname or str(ip)`, the name the host was registered under; it succeeds exactly when that host exists and the update does not fail |
| Provisioning.AsWrittenBindMissesNamedHost | service.py:136-141 | a host registered under a name other than its IP is not found by the bind as written, but is found by the corrected bind |
| Provisioning.AsWrittenBindExample | service.py:136-141 | a host probed as "web01" at 10.0.0.1 is a 404 for the bind as written and found by the corrected one |
| Provisioning.CorrectedBindFindsRegisteredHost | service.py:450-455 | whenever Zabbix holds a host under the name `_ensure_host` used, the corrected bind updates that host |
| Provisioning.WebCalls | service.py:165-167 | one scenario outcome per URL, in order |
| Provisioning.UntilError | service.py:165-180 | the values of the outcomes before the first failure, and that failure if there is one |
| Provisioning.UntilErrorStops | service.py:165-180 | a failing outcome ends the loop: nothing after it is taken |
| Provisioning.ScenariosFollowUrls | service.py:165-168 | every scenario the loop made carries the single step for its own URL |
| Provisioning.RunUntilError | service.py:165-180 | the loop's values and failure are those `UntilError` gives |
| Provisioning.EnsureWebMonitors | service.py:165-180 | the scenarios made and the first failure are those of `UntilError` over the URLs |
| Provisioning.MonitorUrls | service.py:165 | the scenario URLs are duplicate-free |
| Provisioning.BindOutcome | service.py:134-141 | nothing of its own; it is Provisioning.CorrectedBind against the bind's replies (see Findings), as Provisioning.AfterRegistration states |
| Provisioning.AfterRegistration | service.py:134-180 | a bind happens exactly when one is wanted and `Provisioning.CorrectedBind` (the lookup by `hostname or str(ip)`) succeeds, and a failing bind stops everything after it; otherwise the scenarios follow the URLs up to the first failure |
| Provisioning.Register | service.py:89-93 | a failing host lookup writes nothing and is the result; otherwise the first write is an update or create of the host under `hostname or str(ip)`, and a returned id is that host's Zabbix id |
| Provisioning.InstallAgent | service.py:71-200 | a non-Linux OS is refused with 400 before anything happens; without `register_server` nothing is written to Zabbix; otherwise a failing host lookup ends the install before any step, and the host is first registered under the resolved name; the steps run only when a package source is configured; a failed pre-upload is `_upload_file`'s failure, with no bind and no scenario; a bind or scenario happens only after every step succeeded; success reports the log, the resolved name and the API URL, and a host id exactly when the host was registered, that host's Zabbix id, with the bind exactly when one is wanted and the scenarios of the URLs |
| Provisioning.NoPackageNoSteps | service.py:118 | with no package source configured, no install step runs |
| Provisioning.InstalledJson | service.py:200 | the reply is a dict with distinct keys carrying the status, the IP and the host id (null when absent) |
| Provisioning.UninstallAgent | service.py:202-222 | a failing host lookup is the failure before any step; the host found under `hostname or str(ip)` is deleted exactly when it exists and the uninstall steps succeeded; a failing step is a 500; a failing delete is the result; success reports the joined log |
| Provisioning.RegisterHost | service.py:224-292 | a failing host lookup writes nothing and is the result; the host is registered under `hostname or str(ip)` first, and its Zabbix id is the registered id; a failed registration stops everything; the bind happens exactly when the host was registered, a bind is wanted and it succeeds, and a failing bind stops the scenarios; the scenarios follow the URLs up to the first failure; success reports the registered id and the IP with status "registered" |
| BatchWorker.IdSet | tasks/batch_worker.py:58 | the `str` of every listed id, every character of a text, every key of a mapping; none, the comprehension raising, for a number or a boolean |
| BatchWorker.TextIdsAreCharacters | tasks/batch_worker.py:58 | the text "12" selects the ids "1" and "2" |
| BatchWorker.KeepHosts | tasks/batch_worker.py:59 | a host is kept exactly when the `str` of its `item_id` was asked for |
| BatchWorker.KeepHostsAppend | tasks/batch_worker.py:59 | the filter keeps batch order: it distributes over concatenation |
| BatchWorker.Processed | tasks/batch_worker.py:51-59 | without `host_ids` every host of the batch is processed; with them, exactly the hosts whose `str(item_id)` is in their string set; none when that set cannot be built |
| BatchWorker.IdsFallback | tasks/batch_worker.py:127 | the payload's ids, else the host's list, else the host's single id as a list, else None; truthy exactly when one of the three is |
| BatchWorker.HostUrls | tasks/batch_worker.py:119-120 | the host's own URLs when they normalise to any; else the payload's list; else the payload's single URL |
| BatchWorker.BuildRequest | tasks/batch_worker.py:92-155 | uninstall exactly for the "uninstall" action, register-only exactly when asked for, install otherwise; the proxy is the payload's or the host's; the URLs are `HostUrls` with the first as the single URL; templates and groups follow `IdsFallback`; port 10050 and OS "linux" fill in |
| BatchWorker.RunHost | tasks/batch_worker.py:74-167 | both a failure and a success row carry the task id generated for the host; a failure row is failed with the exception text (its other fields: SuccessRowFields and FailureRowFields) |
| BatchWorker.SuccessRowFields | tasks/batch_worker.py:158-165 | a success row carries the host's generated task id; any other key the service returned reads as the service's value, and the rest as the base row |
| BatchWorker.ReAddKeeps | tasks/batch_worker.py:164 | re-adding a truthy `host_id` the row already holds changes no field |
| BatchWorker.FailureRowFields | tasks/batch_worker.py:166-167 | a failure row says failed, carries the error text, the task id and the host's `item_id` |
| BatchWorker.Collected | tasks/batch_worker.py:171-174 | the count of results stops at the first cancellation check that answers true |
| BatchWorker.Collect | tasks/batch_worker.py:169-174 | the collected results are the rows of the hosts in order, up to that count |
| BatchWorker.CollectedAt | tasks/batch_worker.py:171-173 | the first true check fixes the count |
| BatchWorker.CollectedAll | tasks/batch_worker.py:171-174 | with no true check, every result is collected |
| BatchWorker.Pending | tasks/batch_worker.py:180 | a processed host is pending exactly when no collected row has its key |
| BatchWorker.LatestTaskIdsKeys | tasks/batch_worker.py:183 | the map has an entry exactly for the keys of the stored rows |
| BatchWorker.LatestTaskIdsWins | tasks/batch_worker.py:183 | a key's entry is the task id of the last stored row with that key |
| BatchWorker.CancelRow | tasks/batch_worker.py:186-195 | nothing of its own; BatchWorker.CancelRowFields states its fields |
| BatchWorker.CancelRows | tasks/batch_worker.py:184-195 | one cancel row per pending host, in order |
| BatchWorker.CancelRowFields | tasks/batch_worker.py:187-195 | a cancel row is failed with "cancelled", carries the host's key, and reuses the latest stored task id of that host, or null |
| BatchWorker.PendingIds | tasks/batch_worker.py:183 | the raw `item_id` of every pending host, in order |
| BatchWorker.Finish | tasks/batch_worker.py:176-201 | the results are saved first; a failing save fails the queue; without cancellation the queue is done; with one, the pending hosts get their cancel rows and the queue is cancelled, or failed if that save fails; the last call always finishes the queue |
| BatchWorker.InstallingRow | tasks/batch_worker.py:79-88 | the row saved before a host starts is installing, with the host's item id, its new task id, and no host id or error |
| BatchWorker.InstallingRows | tasks/batch_worker.py:80-88 | one installing row per processed host |
| BatchWorker.QueueTrace | tasks/batch_worker.py:46-201 | nothing of its own; it is the trace BatchWorker.ProcessQueue and BatchWorker.LoopStep ensure |
| BatchWorker.ProcessQueue | tasks/batch_worker.py:46-201 | the queue is started first; a missing batch fails it at once with nothing run; a `host_ids` that cannot be iterated raises, leaving the queue started; otherwise every processed host gets its installing row and request, results are collected in host order up to a cancellation, saved, and the queue finishes as `Finish` says |
| BatchWorker.LoopStep | tasks/batch_worker.py:29-39 | without a pending task nothing happens; a task cancelled before it starts is finished as cancelled and never processed; any other task is processed, and its store calls are exactly those of `_process_queue` |
| AgentApi.TemplateAction | api/agent.py:30-33 | bind exactly when the action is "bind", unbind otherwise, and the reply's action says which |
| AgentApi.Numbered | api/agent.py:108-112 | one stored host per parsed host, in order |
| AgentApi.NumberedHost | api/agent.py:110-111 | the stored host's `item_id` is its index plus one |
| AgentApi.NumberHosts | api/agent.py:108-112 | the loop builds the numbered hosts, with ids 1 to n in parsed order |
| AgentApi.NumberedDistinct | api/agent.py:108-112 | no two uploaded hosts share an `item_id` |
| AgentApi.BatchUpload | api/agent.py:103-114 | the numbered hosts are stored, and the reply carries the stored id, timestamp, hosts and their count |
| AgentApi.In | api/agent.py:153 | `x in host_ids` raises TypeError (None) exactly when `host_ids` is neither a list, nor text searched for text, nor a mapping searched for something hashable |
| AgentApi.KeptBy | api/agent.py:153 | against a list, the `or` of the raw and the `str` test, never raising; a raise comes from one of the two membership tests |
| AgentApi.RunHosts | api/agent.py:151-153 | without `host_ids` every host runs; with them, exactly the hosts whose id or its `str` is `in` them (list membership, a substring of a text, a key of a mapping), and none at all when that test raises for one host |
| AgentApi.Kept | api/agent.py:153 | the comprehension raises exactly when the test raises for some host; otherwise a host is kept exactly when the test holds for it |
| AgentApi.ListIdsNeverRaise | api/agent.py:151-153 | with a list of ids the filter never raises |
| AgentApi.NumberInTextRaises | api/agent.py:153 | `in` with a numeric `item_id` against a text of ids raises, so no host runs |
| AgentApi.TextIdsDiverge | api/agent.py:153 | with the text "12" as ids, `batch_run` keeps the host "12" by a substring test while the worker (tasks/batch_worker.py:58) drops it |
| AgentApi.RunKeepsOnlyWorkerHosts | api/agent.py:153 | for a list or a mapping of ids, every host `batch_run` keeps is also kept by the worker's string-set filter |
| AgentApi.WorkerKeepsMore | api/agent.py:153 | the converse fails: a text id "1" asked for as the number 1 is kept by the worker but not by `batch_run` |
| AgentApi.RunRequest | api/agent.py:156-188 | uninstall exactly for the "uninstall" action; never register-only; the only URL is the payload's single one |
| AgentApi.RunRow | api/agent.py:191-194 | a success row carries the task id generated for its host; a failure row is failed and has no task id (its other fields: RunRowStatus and RunRowFailure) |
| AgentApi.RunRowTaskId | api/agent.py:191-192 | a success row carries the task id generated for its host |
| AgentApi.RunRowStatus | api/agent.py:192 | a success row's status is the service's own status when it sends one, else "ok" |
| AgentApi.RunRowFailure | api/agent.py:193-194 | a failure row says failed, carries the error text and has no task id |
| AgentApi.RunRows | api/agent.py:156-194 | one row per kept host |
| AgentApi.RunAll | api/agent.py:156-194 | the loop yields one row per host, in order, each from its own task id and reply; a failing host does not stop it |
| AgentApi.RunRequests | api/agent.py:156-188 | one request per kept host |
| AgentApi.BatchRun | api/agent.py:130-195 | a missing batch id or an unknown batch is a 404 before any host runs; a `host_ids` test that raises is a 500 before any host runs; otherwise the kept hosts' requests are made and the reply carries the batch id and their rows |
| AgentApi.InstallCallFields | api/agent.py:84-90 | an install passes the request on unchanged; an uninstall passes exactly its ip and hostname |
| AgentApi.Tagged | api/agent.py:85-89 | every reply gets the main task id, in order |
| AgentApi.RunInstalls | api/agent.py:82-93 | calls run in order; the first exception stops the loop and fails the task with its text; otherwise the task is done with every reply, tagged with the main task id |
| AgentApi.BatchInstallRun | api/agent.py:72-93 | without a file and without servers the task fails with "servers payload required when no file uploaded"; otherwise the requests run as `RunInstalls` says |
| Batches.SetDefault | batch_store.py:70 | the key reads as its old value when it had one, else the default; every other key is untouched |
| Batches.View | batch_store.py:66-74 | a row whose stored JSON is not a dict fails (`setdefault` raises); any other row reads as a dict |
| Batches.ViewFields | batch_store.py:66-74 | a view reads `batch_id`, `ts` and `name` from the row, `hosts` from the data or `[]`, and every other key as stored |
| Batches.SavedView | batch_store.py:33-43 | a row as `save` writes it reads back with its hosts, id, timestamp and name (`""` when none was given), and nothing else |
| Batches.Summary | batch_store.py:58 | a summary carries the row's id, timestamp, name and host count |
| Batches.Stamps | batch_store.py:48 | one timestamp per batch, the one stored in its row |
| Batches.BatchStore.constructor | batch_store.py:15-31 | the rows on disk are kept |
| Batches.BatchStore.Save | batch_store.py:33-43 | the row under the given id, or under a fresh id when none or an empty one is given, is replaced by the new one; a fresh id adds a row; the reply names the id, time and host count |
| Batches.BatchStore.GetBatch | batch_store.py:61-74 | None exactly for an unknown id; otherwise the row's view |
| Batches.BatchStore.GetByName | batch_store.py:76-89 | None exactly when no row has that name; otherwise the view of some row of that name |
| Batches.BatchStore.ListRecent | batch_store.py:45-59 | the summaries, in order, of an answer of `ORDER BY ts DESC LIMIT limit` |
| Batches.Summaries | batch_store.py:51-58 | one summary per selected row, in order |
| Batches.RecentShape | batch_store.py:45-59 | the list has at most `limit` entries, with timestamps descending |
| Sql.LimitCount | batch_store.py:48 | `LIMIT n` passes at most n rows and at most the rows there are, and all of them for a negative n |
| Sql.MaxKeyExists | batch_store.py:48 | a non-empty set of keys has one of highest score, which `ORDER BY ... DESC` puts first |
| Sql.SelectTop | batch_store.py:47-50 | the keys taken are an answer of `ORDER BY score DESC LIMIT limit`: distinct, descending, as many as the limit allows, none left out scoring above one taken |
| Tasks.NewTask | tasks/task_store.py:17 | a new task is pending, with its id and name, an empty log, no result and no update time |
| Tasks.UpdateIn | tasks/task_store.py:20-29 | an unknown id changes nothing; otherwise only that task changes: status set, a non-empty log line appended, a non-None result stored, update time set |
| Tasks.Appended | tasks/task_store.py:25-26 | only non-empty log texts reach the log |
| Tasks.LogAccumulates | tasks/task_store.py:20-29 | successive updates append their non-empty log texts in call order and leave the result as it was when none is given |
| Tasks.TaskStore.constructor | tasks/task_store.py:10-12 | the store starts empty |
| Tasks.TaskStore.Create | tasks/task_store.py:14-18 | the returned id is the fresh one, and the new task is stored under it |
| Tasks.TaskStore.Update | tasks/task_store.py:20-29 | the tasks become `UpdateIn` of the old tasks |
| Tasks.TaskStore.GetTask | tasks/task_store.py:31-33 | None exactly for an unknown id; otherwise the stored task |
| Tasks.TaskStore.List | tasks/task_store.py:35-37 | a copy holding every task |
| Logs.Entry | log_store.py:76-86 | an entry carries its row's task id and timestamp |
| Logs.EntryFields | log_store.py:76-86 | an entry carries the row's step, status and message, and its ip, hostname, host id and URL cells as None or text |
| Logs.Entries | log_store.py:69-88 | at most one entry per row |
| Logs.EntriesOfTask | log_store.py:72-88 | every entry is the entry of a row of the task asked for, and carries that task id |
| Logs.EntriesConcat | log_store.py:72 | rows written one after another read back one after another |
| Logs.EntriesNone | log_store.py:72 | a task without rows has an empty log |
| Logs.EntriesSingle | log_store.py:72 | one row yields its entry exactly when it belongs to the task |
| Logs.AddThenGet | log_store.py:47-88 | after `add`, the task's log gains the new entry at its end and every other task's log is unchanged |
| Logs.LogStore.constructor | log_store.py:12-15 | the rows on disk are kept |
| Logs.LogStore.Add | log_store.py:47-67 | one row more, at the end of the table, stamped with the given time |
| Logs.FiltersGiven | log_store.py:92-105 | the filters are exactly the given arguments with their values, in the order hostname, ip, host_id, zabbix_url |
| Logs.Conditions | log_store.py:95-104 | one `column = ?` condition per filter, in order |
| Logs.FilterParams | log_store.py:96-105 | one parameter per filter, its value, in order |
| Logs.PushFilter | log_store.py:94-105 | one step of the builder keeps the conditions and parameters in line with the filters |
| Logs.BuildQuery | log_store.py:92-107 | the clause joins the filters' conditions; the parameters are the filter values followed by the limit |
| Logs.WhereEmpty | log_store.py:106 | the clause is empty exactly when no filter argument is given |
| Logs.PlaceholdersMatch | log_store.py:106-107 | the clause has one `?` per filter value, so with the limit's own `?` the parameters line up |
| Logs.Selected | log_store.py:118 | the rows kept are exactly those whose filtered columns equal the given values |
| Logs.MaxTs | log_store.py:112 | `MAX(ts)` is None exactly for a task without rows; otherwise the timestamp of one of its rows and no smaller than any |
| Logs.TextLeRefl | log_store.py:113-116 | the text order is reflexive |
| Logs.TextLeTotal | log_store.py:113-116 | the text order is total |
| Logs.TextLeTrans | log_store.py:113-116 | the text order is transitive |
| Logs.MaxText | log_store.py:113-116 | `MAX` of a text column is NULL exactly when every cell of the task is; otherwise one of its cells and no smaller than any |
| Logs.Latest | log_store.py:112-120 | every task of the rows gets its `MAX(ts)` |
| Logs.TaskSummary | log_store.py:126 | an entry carries its task id and the task's latest time |
| Logs.SummaryFields | log_store.py:113-116 | a summary's ip, hostname, host id and URL are the `MAX` over the task's cells, None when every cell is NULL |
| Logs.RecentOrdered | log_store.py:90-128 | the list has at most `limit` entries, one per task, with times descending |
| Logs.ListedHasRow | log_store.py:112-118 | a listed task has a matching row at the time reported |
| Logs.RowNotLater | log_store.py:112-118 | no matching row of a task is later than the task's reported time |
| Logs.UnlistedNotLater | log_store.py:119-121 | a matching row of a task left out of the list is no later than any listed task |
| Logs.LogStore.ListRecent | log_store.py:90-128 | the summaries of an answer of the grouped, ordered and limited query over the matching rows |
| Logs.Summaries | log_store.py:125-128 | one summary per task of the answer, in order |
| ConfigDb.Defaults | db_config.py:28-39 | the ten default keys, with the settings' values and None for `local_agent_path` |
| ConfigDb.Decoded | db_config.py:42-46 | one decoded value per row, in row order |
| ConfigDb.StoredAt | db_config.py:23 | with the key as PRIMARY KEY, a key has at most one stored value, and none exactly when it has no row |
| ConfigDb.DecodedLookup | db_config.py:42-46 | a key with a row reads as its stored value decoded; a key without one is absent |
| ConfigDb.LoadedLookup | db_config.py:27-47 | `get` reports the decoded stored value for a key with a row and the default otherwise |
| ConfigDb.DefaultKeysPresent | db_config.py:28-39 | `get` always reports every default key |
| ConfigDb.Without | db_config.py:53 | the rows other than those of the key |
| ConfigDb.WithoutUnique | db_config.py:23 | removing a key's row keeps the keys distinct |
| ConfigDb.ReplaceStored | db_config.py:52-54 | after `REPLACE`, the key holds the new value, every other key what it held, and the keys stay distinct |
| ConfigDb.SetAllStored | db_config.py:51-54 | after `set`, each written key holds the JSON of its value and every other key is untouched |
| ConfigDb.SetThenGet | db_config.py:49-56 | `get` after `set`: the written keys read back as their values; every other key as before |
| ConfigDb.ConfigStore.constructor | db_config.py:14-18 | the rows on disk and the defaults are kept |
| ConfigDb.ConfigStore.Get | db_config.py:27-47 | the defaults with every row's decoded value assigned over them, in row order |
| ConfigDb.ConfigStore.Set | db_config.py:49-56 | the rows become `SetAll` of the old rows; the reply is `get` afterwards |
| ConfigApi.Permitted | api/config.py:18-29 | only allowed keys survive the filter |
| ConfigApi.PermittedLookup | api/config.py:29 | an allowed key keeps its payload value; any other key is gone |
| ConfigApi.PermittedUnique | api/config.py:29 | the filtered payload still has distinct keys |
| ConfigApi.GetConfig | api/config.py:11-13 | the reply is the success envelope around the stored configuration |
| ConfigApi.SaveConfig | api/config.py:16-30 | the allowed part of the payload is stored and the reply carries the configuration afterwards |
| ConfigApi.SaveEffect | api/config.py:16-30 | after a save, an allowed key that was sent reads as sent; any key outside the allowed set reads as before |
| ConfigApi.ClientPayload | static/js/app.js:250-262 | the settings form sends exactly these eight keys, in this order |
| ConfigApi.ClientFieldsDropped | api/config.py:18-29 | the default template, default group and agent URL the form sends never reach the store |
| Excel.HeaderIndex | excel.py:15 | a header value maps to a column holding it; a repeated header keeps its last column |
| Excel.RowData | excel.py:33-37 | nothing of its own; stated by Excel.RowDataLookup and Excel.RowDataAbsent |
| Excel.RowDataLookup | excel.py:34-37 | a field whose column is among the headers holds that column's cell |
| Excel.RowDataAbsent | excel.py:34-37 | a field none of whose columns exists is not set |
| Excel.Requests | excel.py:32-39 | only rows with a truthy hostname and ip become requests, and never more requests than rows |
| Excel.RequestsAppend | excel.py:32-39 | reading keeps sheet order: the requests of two blocks of rows are the blocks' requests in turn |
| Excel.OneRow | excel.py:38-39 | a single row yields a request exactly when its hostname and ip are truthy |
| Excel.ParseExcel | excel.py:8-40 | a grid with no rows at all fails on the missing header row (for an openpyxl sheet that is never the case: a blank sheet yields one row of `None`, so no request is read); otherwise the result is the requests of the rows after it under the header index and the given or default column map |
| Excel.DefaultReadsOs | excel.py:19 | with the default map, `os_type` is read from the "os" column |

## Left out

- Network and remote I/O: the browser's `fetch`, the httpx calls behind `_zbx` and `_ensure_auth`, paramiko SSH and SFTP (`_run_ssh`, `_upload_file`, `_probe_hostname`). Each call is an oracle. Its reply, or the exception it raised, is a parameter of the operation that makes it: a `Result` for a call whose reply is read, an `Option<Failure>` for a call that is only made, and an `Upload` outcome for the pre-upload.
- Error texts the model writes itself: where Python's message depends on a value's type, or where the wording is the interpreter's, the model uses a fixed text of its own. These are: a `host.create` reply that is not a dict or whose first id is not text (`HostRegistration.FirstHostId`); an `httptest` reply of the wrong shape (`WebScenario.EnsureWebMonitor`); an interface type that `int()` cannot read (`HostRegistration.UpdateExisting`); a Zabbix reply that is not a JSON object, and a Zabbix `error` that is not a dict (`ZabbixApi`); and a batch row whose JSON is not a dict (`Batches.View`). The KeyError and IndexError texts of `result["hostids"][0]`, and the KeyError text `'code'` of an `error` without a code, are Python's own. So is the 500 "Internal Server Error" that FastAPI gives for an uncaught exception in `batch_run`. In every case the status and the path taken are the program's.
- PySem.Repr: `repr` of text always uses single quotes and copies the text as it is. Python switches to double quotes for text that holds `'` but no `"`, and escapes quotes, backslashes and control characters. The failure texts built from `str()` of a dict or list (`Zabbix API error …`, `Zabbix login failed: …`) differ from Python's for such text.
- PySem.ParseInt: Python's `int()` also accepts underscores between digits (`int("6_4") == 64`), non-ASCII decimal digits (`int("６") == 6`) and surrounding Unicode whitespace; the model reads only ASCII digits and ASCII whitespace, and takes such text as unreadable. This reaches WebScenario.ZbxVersion (service.py:650-651), which then gives (6, 0), and HostRegistration.IfaceType (service.py:525), which then counts as raising.
- ClientWorkspace.Workspace.ReplaceFromBatch: when `hosts` is a truthy non-list, the client stores that value in `batchRows` before `map` throws. The model's rows are a sequence and cannot hold it, so they keep their old value; the batch id, selection and results are as in the client. The server only sends lists here.
- RecoverClient.Workspace.ReplaceFromBatch: when `hosts` is a truthy non-list, the client stores that value in `batchRows` before `map` throws. The model's rows are a sequence and cannot hold it, so they keep their old value; the batch id, selection and results are as in the client. The server only sends lists here.
- ClientWorkspace.Workspace.LoadBatchById: inherits the `ReplaceFromBatch` gap: on a successful reply whose `hosts` is a truthy non-list, the client stores that value in `batchRows` (static/js/app.js:909) before `map` throws, while the model keeps the old rows; only the batch id changes in the model.
- ClientWorkspace.Workspace.UploadBatch: inherits the `ReplaceFromBatch` gap: on a successful reply whose `hosts` is a truthy non-list, the client stores that value in `batchRows` (static/js/app.js:989) before `map` throws, while the model keeps the old rows; only the batch id changes in the model.
- RecoverClient.Workspace.LoadBatchById: inherits the `ReplaceFromBatch` gap: on a successful reply whose `hosts` is a truthy non-list, the client stores that value in `batchRows` (static_recover/static/js/app.js:553) before `map` throws, while the model keeps the old rows; only the batch id changes in the model.
- RecoverClient.Workspace.UploadBatch: inherits the `ReplaceFromBatch` gap: on a successful reply whose `hosts` is a truthy non-list, the client stores that value in `batchRows` (static_recover/static/js/app.js:530) before `map` throws, while the model keeps the old rows; only the batch id changes in the model.
- AgentApi.BatchUpload: stores each parsed row's field/value pairs. The code stores `h.dict()`, which holds every `InstallRequest` field with its default and an `ip` of type `IPv4Address`. Going by the code alone, `json.dumps` in `BatchStore.save` (batch_store.py:40) cannot encode that address, so an upload with at least one row would raise there. This path was not executed, and the model does not carry pydantic's value types.
- The rows the service writes with `log_store.add` while registering, installing and running steps (service.py:94-116, 145-199, 231-290, 567-601): the operations take no log store, and the order and content of those rows are not modelled. A `log_store.add` that raises is not modelled either. The store itself is modelled in `Logs`.
- HostRegistration.FirstHostId: a first id in `hostids` that is not text is read as a failure, where Python returns the value as it is; the model's host ids are text.
- ClientApi.Api: the text of the TypeError that `json.msg` raises on a `null` body is V8's; other browsers word it differently.
- AgentApi.KeptBy: ids are compared as JSON values, so Python's `True == 1` and `1 == 1.0` matches are not modelled.
- Tasks.TaskStore.List: tasks are values, so a caller changing a task dict that `get` or `list` returned, and so the live record, is not modelled.
- The text of the generated shell scripts: each step is reduced to its name and the outcome the SSH oracle gives it; only the order and names of the steps are modelled.
- SQLite, JSON text, openpyxl and pydantic internals: tables are maps or sequences, JSON text is the value it decodes to (or a marker that it does not decode), the sheet is a grid of cell values, and pydantic validation (`IPvAnyAddress`, the `action` pattern) is not modelled.
- The order in which SQLite returns rows that tie on `ts`, and which row `get_by_name` returns when several share a name: the model allows any answer the SQL text allows.
- The `log_store.py` schema migration (`ALTER TABLE`, indexes) and `AUTOINCREMENT` ids: the table is the sequence of rows in insertion order.
- Logs.LogStore.GetLogs: states nothing of its own; what `get` returns is stated by `Logs.Entries` and the lemmas about it.
- Threading: the `BatchWorker` thread, `ThreadPoolExecutor` and `TaskStore`'s `Lock`. One loop iteration is modelled sequentially, the futures as one outcome per host, the cancellation checks as a sequence of booleans, and `time.sleep` not at all.
- The worker's store methods (`next_pending`, `is_cancelled`, `start_queue`, `finish_queue`, `save_results`, `get_results`) are not defined in `batch_store.py`. The worker's use of them is modelled as a trace of calls, with their answers as parameters; their storage is not modelled.
- Clocks and fresh ids (`time.time`, `uuid4`, `Date.now`, `Math.random`): passed in as parameters. A fresh id is required to be unused.
- `_web_monitor_name`: the scenario name is a parameter, since its fallback is random and it parses URLs.
- The proxy filter of `_get_host`: hosts are looked up by technical name only.
- Templates.BindTemplateAt: returns the new template ids as a set; the order of `list(current_ids)` is not modelled.
- Floating point: numbers are integers. `time.time()` floats, and the JS number forms `parseInt` and `Number` accept beyond plain decimals (exponents, hexadecimal), are not modelled.
- Unicode whitespace in `str.strip` and Unicode case mapping in `lower()`: only ASCII is modelled. On the client side, JsSem.IsSpace, which `Number()`, `parseInt` and `trim` use, holds the ASCII spaces, NBSP and BOM, but not U+2028, U+2029 or the other Unicode space separators JavaScript also skips.
- Client UI plumbing: DOM rendering and HTML strings other than the escaping, toasts and modals, loading spinners, debounce timers, drag and column resize, tabs, the CSV download and log formatting.
- Polling, cancelling, active-queue recovery, dirty tracking and duplicate-name checks do not exist in the client code shown, so they are not modelled.
- Thin routing with no logic of its own: `main.py`, `dependencies.py`, `gui_launcher.py`, `api/health.py`, `api/logs.py`, `api/template.py`, and the template list, create and update endpoints of `service.py`.
- Provisioning.AfterRegistration, Provisioning.BindOutcome, Provisioning.InstallAgent and Provisioning.RegisterHost: they bind templates with `Provisioning.CorrectedBind`, the lookup by `hostname or str(ip)`, not with the IP-only lookup the code performs (see Findings).

## Findings

| source | as written | input that shows it | evidently intended | confidence | as-written member | corrected member |
|---|---|---|---|---|---|---|
| service.py:136-141 | `install_agent` (and `register_host`, service.py:242-247) builds the bind request from `ip` alone, since `TemplateBindRequest` has no hostname; `bind_template` (service.py:295) then looks the host up under `str(ip)` | a host resolved as "web01" at 10.0.0.1: `_ensure_host` (service.py:453) registers it as "web01", and the bind finds no host "10.0.0.1", so it fails with 404 "host not found in zabbix" | the bind looks the host up under the name it was registered with, `hostname or str(ip)` | not executed | Provisioning.AsWrittenBind, Provisioning.AsWrittenBindMissesNamedHost, Provisioning.AsWrittenBindExample | Provisioning.CorrectedBind, Provisioning.CorrectedBindFindsRegisteredHost |
