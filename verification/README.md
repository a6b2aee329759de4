# Perses core, modelled in Dafny

This project models four sequential parts of Perses, a dashboard and observability backend.

- **The generic SQL persistence layer.** It has a catalogue of fifteen kinds, each with its own table. Entities are stored under a string identifier: `project|name` for project-scoped metadata and `name` for global metadata. Table names are qualified by the schema. The DAO supports `Init`, `Create`, `Upsert`, `Get`, `Delete`, `RawQuery` and `Query`.
  - The database is a map from schema-qualified table name to rows (identifier to JSON document), held in the `tables` field of the `DAO` class.
  - Each DAO method is proved against a function that states its effect on that map: `CreateStep`, `UpsertStep`, `GetOutcome`, `DeleteStep`, `RunStatements`.
  - The properties are proved about those functions in `DatabaseSqlProperties`.
  - `Query` writes through a pointer to a Go slice, modelled by the `SliceCell` class.
- **The role service.** `Update` validates the request, then calls the role DAO. After every successful mutation, the authorizer's permission cache is refreshed exactly once.
  - The DAO and the authorizer are collaborators whose code is outside this model. The `Service` class records every call made to them in its `calls` field.
  - Their answers are method parameters.
  - The invariant `Disciplined(calls)` is a grammar over that record: each successful mutation is followed immediately by exactly one refresh, and a refresh appears nowhere else.
- **The dashboard's panel editor.** It opens an editor on an existing panel or for a new one, applies the editor's changes to `panels` and `panelGroups`, and closes it.
  - The dashboard store is the `DashboardStore` class.
  - Each state update works on a draft that is committed only when the update completes. This matches how an update that throws commits nothing.
  - The invariant `WellFormed` says that layout identifiers are unique, that exactly the laid-out items have panel keys, that every panel key names a panel, and that no item is in two groups. The edit and add actions preserve it.
- **The command-line client's configuration.** `Write` merges an update into the file's previous contents field by field. `Init` defaults the output folder to `"built"`. `NewPublicConfig` gives the public view. `GetAPIClient` and `SetAPIClient` get and set the attached client.

Collaborators whose code is not part of this model are parameters or arrow-typed constants:

- `flatten` and `marshal` on the DAO;
- `yForNewRow`, `validPanelKey` and `addPanelGroup` on the dashboard store;
- `restamp` for role metadata updates;
- the backend's, the file system's and the REST client builder's answers.

## Model

| member | source | states |
|---|---|---|
| DatabaseSql.TableName | internal/api/database/sql/sql.go:52-87 | each of the fifteen listed kinds has a table; any other kind fails with an error naming the kind |
| DatabaseSqlProperties.TableNameRoundTrip | internal/api/database/sql/sql.go:52-87 | reading the catalogue backwards gives back the kind |
| DatabaseSqlProperties.TableKindSound | internal/api/database/sql/sql.go:52-87 | every table name the reverse reading accepts is the table of the kind it names |
| DatabaseSqlProperties.TableNameInjective | internal/api/database/sql/sql.go:52-87 | distinct listed kinds have distinct tables |
| DatabaseSql.GenerateID | internal/api/database/sql/sql.go:89-97 | project metadata gives `project\|name`, global metadata gives `name`, any other metadata fails with an error naming its type |
| DatabaseSqlProperties.ProjectIDRoundTrip | internal/api/database/sql/sql.go:89-97 | a project identifier splits back at its first `\|` into project and name when the project holds no `\|` |
| DatabaseSqlProperties.ProjectIDInjective | internal/api/database/sql/sql.go:89-97 | under that condition distinct project entities have distinct identifiers |
| DatabaseSqlProperties.ProjectIDCollision | internal/api/database/sql/sql.go:89-97 | without it, ("a\|b", "c") and ("a", "b\|c") share an identifier |
| DatabaseSql.CompleteTableName | internal/api/database/sql/sql.go:414-417 | the qualified name is the schema, a dot, then the table name |
| DatabaseSqlProperties.CompleteTableNameInjective | internal/api/database/sql/sql.go:414-417 | within one schema, distinct tables keep distinct qualified names |
| DatabaseSql.Locate | internal/api/database/sql/sql.go:402-412 | the table is resolved before the identifier, so an unlisted kind fails first; on success the location is the qualified catalogue table and the generated identifier |
| DatabaseSqlProperties.KindsNeverShareTables | internal/api/database/sql/sql.go:402-412 | the same metadata under two kinds has one identifier in two different tables |
| DatabaseSql.Columns | internal/api/database/sql/sql.go:138-153 | `id` is the first column and the only primary key, `doc` is the last, a JSON column; only project-shape tables have a `project` column |
| DatabaseSql.Execute | internal/api/database/sql/sql.go:138-161 | create-if-not-exists: the table set grows by exactly the statement's table, every existing table keeps its shape and rows, and a table that was missing appears empty |
| DatabaseSqlProperties.InitShapes | internal/api/database/sql/sql.go:106-124 | Init issues fifteen statements: seven global-shape, then eight project-shape |
| DatabaseSqlProperties.InitColumnsFollowScope | internal/api/database/sql/sql.go:106-153 | the table Init creates for a listed kind is keyed by `id`, stores `doc` as JSON, and has a `project` column exactly when the kind is project-scoped |
| DatabaseSqlProperties.InitTablesNameKinds | internal/api/database/sql/sql.go:106-124 | every table Init lists belongs to exactly one listed kind and is listed once |
| DatabaseSqlProperties.InitCoversCatalogue | internal/api/database/sql/sql.go:106-124 | Init's tables are exactly the fifteen catalogue tables, qualified by the schema, each once |
| DatabaseSqlProperties.RunStopsAtFirstRejection | internal/api/database/sql/sql.go:126-131 | a run returns the first rejected statement's error, and the store holds exactly the statements before it |
| DatabaseSqlProperties.RunCreatesEveryTable | internal/api/database/sql/sql.go:126-131 | a run without rejection creates every statement's table, keeps every existing table unchanged, and adds no other table |
| DatabaseSqlProperties.RunOnExistingTables | internal/api/database/sql/sql.go:126-131 | on tables that all exist, an accepted run changes nothing |
| DatabaseSqlProperties.RunOnExistingTablesAnyAnswers | internal/api/database/sql/sql.go:126-131 | on tables that all exist, a run leaves the store as it is whatever the backend answers |
| DatabaseSqlProperties.InitIdempotent | internal/api/database/sql/sql.go:106-132 | after a successful Init, running it again leaves the tables as they are whatever the backend answers, and with the same answers it succeeds again |
| DatabaseSql.DAO.Init | internal/api/database/sql/sql.go:106-132 | the loop's effect on the tables and its error are those of `RunStatements` over Init's statements |
| DatabaseSql.Lookup | internal/api/database/sql/sql.go:428-442 | the select-by-id fails only on a missing table, and otherwise finds the row exactly when the identifier is present |
| DatabaseSql.Probe | internal/api/database/sql/sql.go:419-426 | exists gives the identifier and whether a row holds it, failing on the location's error or on a missing table |
| DatabaseSql.DAO.Exists | internal/api/database/sql/sql.go:419-426 | the method returns the probe of its current tables |
| DatabaseSql.Put | internal/api/database/sql/sql.go:213-222 | a write sets the document at the identifier and leaves every other table as it was |
| DatabaseSql.Remove | internal/api/database/sql/sql.go:371-379 | a delete removes the identifier's row and leaves every other table as it was |
| DatabaseSql.DAO.Create | internal/api/database/sql/sql.go:199-223 | the caller's entity is flattened in place; the tables and error are those of `CreateStep` |
| DatabaseSqlProperties.CreateOutcome | internal/api/database/sql/sql.go:199-223 | Create succeeds exactly when the flattened identifier is absent from an existing table, and then inserts only its document; a present identifier gives Conflict keyed by it; every failure writes nothing |
| DatabaseSqlProperties.CreateThenGet | internal/api/database/sql/sql.go:249-264 | after a successful Create, a Get whose metadata flattens to the same identifier decodes the stored document, or reports it corrupt |
| DatabaseSqlProperties.CreateThenGetRoundTrip | internal/api/database/sql/sql.go:249-264 | with a decoder that reads back what marshal wrote, Get returns the flattened entity Create stored |
| DatabaseSql.DAO.Get | internal/api/database/sql/sql.go:249-264 | the caller's metadata is flattened in place; the result is that of `GetOutcome` |
| DatabaseSqlProperties.GetAbsent | internal/api/database/sql/sql.go:249-264 | Get on an absent identifier fails with NotFound keyed by the identifier |
| DatabaseSql.DAO.Upsert | internal/api/database/sql/sql.go:225-247 | the tables and error are those of `UpsertStep` |
| DatabaseSqlProperties.UpsertOutcome | internal/api/database/sql/sql.go:225-247 | a successful Upsert leaves the entity's document at its identifier, by insert or by full update, and changes no other row and no other table |
| DatabaseSqlProperties.UpsertIdempotent | internal/api/database/sql/sql.go:225-247 | upserting the same entity twice gives the same tables as upserting it once |
| DatabaseSql.DAO.Delete | internal/api/database/sql/sql.go:357-380 | the tables and error are those of `DeleteStep`, which does not flatten |
| DatabaseSqlProperties.DeleteOutcome | internal/api/database/sql/sql.go:357-380 | Delete of an absent identifier fails with NotFound keyed by it and changes nothing; of a present one it removes only that row |
| DatabaseSqlProperties.CreateThenDelete | internal/api/database/sql/sql.go:357-366 | when flattening keeps the identifier, deleting what Create inserted restores the tables exactly |
| DatabaseSqlProperties.DeleteMissesFlattenedRow | internal/api/database/sql/sql.go:357-366 | when flattening moves the identifier, Delete with the original metadata misses the row Create stored and reports NotFound |
| DatabaseSql.DAO.RawQuery | internal/api/database/sql/sql.go:266-287 | build and run failures are returned; otherwise all documents come back in row order, or the first scan error |
| DatabaseSql.DecodePrefix | internal/api/database/sql/sql.go:322-339 | the values of the leading rows that scan and decode, in order, stopping at the first row that does not |
| DatabaseSql.DecodePrefixLength | internal/api/database/sql/sql.go:322-339 | the decoded prefix is exactly as long as the leading run of decodable rows |
| DatabaseSql.DAO.Query | internal/api/database/sql/sql.go:293-355 | a non-pointer or a pointer to a non-slice is refused, as are build and run failures, leaving the slice as it was; otherwise the slice ends as `AppendDecoded` says |
| DatabaseSql.DAO.AppendRows | internal/api/database/sql/sql.go:322-353 | decoded values are appended through the pointer in row order; a failing row stops the loop and keeps what was appended; a completed loop leaves a non-nil slice |
| DatabaseSqlProperties.QueryNoRowsIsEmptySlice | internal/api/database/sql/sql.go:348-353 | a completed query that matched nothing leaves an empty, non-nil slice |
| DatabaseSqlProperties.QueryKeepsRowOrder | internal/api/database/sql/sql.go:322-347 | when every row decodes, the slice is its previous elements followed by the decoded rows in row order |
| RoleService.Service.RecordMutation | internal/api/impl/v1/role/service.go:57-64 | a failed mutation is recorded alone; a successful one is followed by exactly one refresh; the discipline is kept |
| RoleService.Service.RecordRead | internal/api/impl/v1/role/service.go:115-117 | a read is recorded alone and keeps the discipline |
| RoleService.Service.Create | internal/api/impl/v1/role/service.go:46-65 | the role is stamped and created; a DAO failure is returned unchanged with no refresh; on success one refresh follows and the role is returned even when the refresh fails |
| RoleService.Service.Update | internal/api/impl/v1/role/service.go:67-102 | a name mismatch, then a project mismatch, are rejected before any call; an empty project is taken from the path; a failed fetch is returned with no update and no refresh; a failed update is returned with no refresh; a successful one is followed by exactly one refresh, whose failure is swallowed; a success carries the path's project and name |
| RoleService.Service.Delete | internal/api/impl/v1/role/service.go:104-113 | the DAO's error is returned; a refresh follows exactly when the delete succeeded |
| RoleService.Service.Get | internal/api/impl/v1/role/service.go:115-117 | the DAO's answer is returned as is and nothing is refreshed |
| RoleService.Service.List | internal/api/impl/v1/role/service.go:119-125 | the DAO lists with the managed query; its answer is returned and nothing is refreshed |
| RoleService.Service.RawList | internal/api/impl/v1/role/service.go:127-133 | the same for raw documents |
| RoleService.Service.MetadataList | internal/api/impl/v1/role/service.go:135-141 | the same for metadata |
| RoleService.Service.RawMetadataList | internal/api/impl/v1/role/service.go:143-149 | the same for raw metadata |
| RoleService.ManageQuery | internal/api/impl/v1/role/service.go:151-161 | the path's project fills only an empty project filter; the rest of the query is kept |
| RoleService.ManageQueryIdempotent | internal/api/impl/v1/role/service.go:151-161 | managing a query twice changes nothing more |
| RoleService.DisciplinedAppend | internal/api/impl/v1/role/service.go:54-113 | the refresh discipline survives one operation's calls being appended to the record |
| RoleService.RefreshesMatchMutations | internal/api/impl/v1/role/service.go:54-113 | in a disciplined record there are exactly as many refreshes as successful mutations |
| RoleService.RefreshExactlyAfterMutation | internal/api/impl/v1/role/service.go:54-113 | a call is a refresh exactly when the call before it is a successful mutation, and no successful mutation is left without one |
| PanelEditor.FindLayout | ui/dashboards/src/context/DashboardProvider/panel-editor-slice.ts:126 | the first layout with the item's identifier, or none when no layout has it |
| PanelEditor.RemoveItem | ui/dashboards/src/context/DashboardProvider/panel-editor-slice.ts:133-135 | the layouts lose exactly the entry at the index, keeping order, and the panel keys lose that item |
| PanelEditor.AppendItem | ui/dashboards/src/context/DashboardProvider/panel-editor-slice.ts:143-150 | the layout is appended at the end and its item shows the key |
| PanelEditor.RemoveItemWellFormed | ui/dashboards/src/context/DashboardProvider/panel-editor-slice.ts:126-135 | removing an item keeps a group well formed and drops exactly that item |
| PanelEditor.AppendItemWellFormed | ui/dashboards/src/context/DashboardProvider/panel-editor-slice.ts:138-150 | appending an item a group does not have keeps it well formed and adds exactly that item |
| PanelEditor.DashboardStore.OpenEditPanel | ui/dashboards/src/context/DashboardProvider/panel-editor-slice.ts:89-164 | a missing group item fails, then a missing panel fails, with nothing changed; otherwise the editor opens in update mode on the item's group and panel |
| PanelEditor.DashboardStore.ApplyEditChanges | ui/dashboards/src/context/DashboardProvider/panel-editor-slice.ts:111-152 | the definition replaces the panel at the opened key; if the group is unchanged nothing else changes; otherwise the item moves to the end of the new group at x = 0 on its next row, with the same identifier, size and key; a missing old group, layout, key or new group aborts with nothing changed; the store invariant is preserved |
| PanelEditor.DashboardStore.OpenAddPanel | ui/dashboards/src/context/DashboardProvider/panel-editor-slice.ts:166-222 | the target is the given group, else the first in order, else a new group titled "Panel Group" that is registered; the panel starts from the configured initial definition, else a new one |
| PanelEditor.DashboardStore.ApplyAddChanges | ui/dashboards/src/context/DashboardProvider/panel-editor-slice.ts:182-205 | the panel is stored under the key derived from its name; the group gains a 12 by 6 layout at x = 0 on its next row showing that key; a missing group aborts with nothing changed; with a fresh item identifier the invariant is preserved |
| PanelEditor.DashboardStore.Close | ui/dashboards/src/context/DashboardProvider/panel-editor-slice.ts:153-157 | the editor closes and nothing else changes |
| PanelEditor.MoveKeepsWellFormed | ui/dashboards/src/context/DashboardProvider/panel-editor-slice.ts:120-150 | moving an item between groups keeps the store well formed |
| PanelEditor.MoveKeepsKeysResolved | ui/dashboards/src/context/DashboardProvider/panel-editor-slice.ts:128-150 | after a move every item's panel key still names a panel |
| PanelEditor.MoveKeepsItemsApart | ui/dashboards/src/context/DashboardProvider/panel-editor-slice.ts:133-150 | after a move no item is in two groups |
| PanelEditor.AddKeepsWellFormed | ui/dashboards/src/context/DashboardProvider/panel-editor-slice.ts:186-204 | adding a fresh item keeps the store well formed |
| CliConfig.Config.InitClient | internal/cli/config/config.go:91-98 | a client is attached when it can be built; otherwise the error is returned and nothing changes |
| CliConfig.Config.GetAPIClient | internal/cli/config/config.go:100-105 | the attached client, failing with "you are not connected to any API" exactly when none is attached |
| CliConfig.Config.SetAPIClient | internal/cli/config/config.go:107-109 | after setting a client, GetAPIClient returns it; after setting none, it fails |
| CliConfig.Config.SetFilePath | internal/cli/config/config.go:111-113 | the path is recorded |
| CliConfig.Init | internal/cli/config/config.go:38-54 | the read configuration, or an empty one on read failure; a client only when the read succeeded and the client could be built; the path recorded; an empty output folder becomes "built" |
| CliConfig.NewPublicConfig | internal/cli/config/config.go:64-74 | nil gives nil; otherwise project and dac are copied and the refresh token is hidden |
| CliConfig.Merge | internal/cli/config/config.go:179-210 | each pointer setting is taken only when set, headers only when non-empty, project and refresh token only when non-empty; dac is always kept |
| CliConfig.WriteContent | internal/cli/config/config.go:176-213 | with readable previous contents, a nil update keeps them and an update is merged in; otherwise the update is written as is |
| CliConfig.PrepareDirectoryAsWritten | internal/cli/config/config.go:167-174 | as written: a missing directory is created, but a failed mkdir reports the probe's error; a failed probe reports the probe's error |
| CliConfig.PrepareDirectory | internal/cli/config/config.go:167-174 | a missing directory is created, and a failed mkdir reports its own error; a failed probe reports the probe's error |
| CliConfig.PrepareDirectoryFailsAlike | internal/cli/config/config.go:167-174 | the code as written and the corrected step fail in exactly the same cases |
| CliConfig.MkdirFailureReportsStatError | internal/cli/config/config.go:167-171 | as written, a failed mkdir is reported with the probe's "no such file" error |
| CliConfig.WriteAsWritten | internal/cli/config/config.go:162-222 | as written: a missing directory whose mkdir fails, or a failed probe, reports the probe's error; else the write error; else the merged contents are written |
| CliConfig.Write | internal/cli/config/config.go:162-222 | the corrected Write: the same steps, with a failed mkdir reporting its own error |
| CliConfig.WriteDiffersOnlyInMkdirError | internal/cli/config/config.go:162-222 | the written and corrected Write succeed on the same inputs with the same contents, and differ only in the error reported for a failed mkdir |
| CliConfig.MergeEmptyIsIdentity | internal/cli/config/config.go:179-210 | an update that sets nothing leaves the previous contents as they are |
| CliConfig.MergeAssociative | internal/cli/config/config.go:179-210 | merging two updates one after the other is merging their merge |
| CliConfig.MergeIdempotent | internal/cli/config/config.go:179-210 | applying the same update twice is applying it once |
| CliConfig.WritesCompose | internal/cli/config/config.go:176-213 | two writes over a readable file leave what one write of the merged updates leaves |
| CliConfig.SetProjectOnlyChangesProject | internal/cli/config/config.go:148-152 | SetProject with a non-empty project changes only the project |
| CliConfig.SetAccessTokenOnlyChangesAuthorization | internal/cli/config/config.go:154-158 | SetAccessToken changes only the authorization |

## Left out

- The SQL text, the `database/sql` driver, and JSON encoding are not modelled. The store is a map. A document is `marshal(entity)`. Decoding is a partial function `decode`.
- Backend failures are modelled in two forms only. One is the missing table, which is determined by the store. The other is the backend's answer, given as a parameter: `rejects` for Init and `Execution` for queries. A failing insert, update or delete statement on an existing table is not modelled. Neither are `Close` errors or the `generateInsertQuery`/`generateUpdateQuery` errors.
- `Flatten(caseSensitive)`, `generateInsertQuery` and `generateUpdateQuery` are not part of this model. They are the DAO's `flatten` and `marshal` constants.
- `buildQuery` is not part of this model. The backend's answer to a built query is the `Execution` parameter, so list filtering and pagination are not modelled.
- The check-then-act race between the existence probe and the insert or delete is not modelled. Each DAO operation is one atomic step.
- `GetLatestUpdateTime`, `HealthCheck`, `Close`, `IsCaseSensitive`, `DeleteByQuery` and `RawMetadataQuery` are not modelled. They are introspection, I/O, or a not-implemented stub.
- `Query`'s reflection-based construction of elements is not modelled. The slice's element type is the type parameter, and a pointer element type is not distinguished from a value one.
- RoleService.Service.Create / Service.Update: the role DAO may rewrite the role it is handed, for example by lower-casing the name in a case-insensitive store, and the code returns that same role. The role DAO is not part of this model. It is a collaborator whose answer is only success or an error, so the model returns the role the service built. The Update clause that a success carries the path's project and name rests on this.
- `deep.Copy` is not modelled, and neither is its failure. Roles and queries are values, so the caller's entity and query can never be changed, which is what the copy ensures.
- Logging is not modelled. A swallowed refresh failure is recorded only as the refresh call's outcome.
- `RefreshPermissions` internals and the permission cache are not part of this model. Only the calls are recorded.
- `Metadata.CreateNow` and `Metadata.Update` are not part of this model. The creation stamp is a parameter, and the update stamp is `restamp` applied to the stored role's stamp.
- Zustand itself is not modelled. Each update is committed only when it completes.
- `getYForNewRow`, `getValidPanelKey` and `addPanelGroup` are not part of this model. They are the store's constants `yForNewRow`, `validPanelKey` and `addPanelGroup`. `generateId`, `createEmptyPanelGroup` and `createPanelDefinition` are parameters.
- PanelEditor.DashboardStore.OpenAddPanel: the invariant is not stated across the registration of a new group, because `addPanelGroup` is not part of this model.
- PanelEditor.DashboardStore.ApplyAddChanges: the invariant is preserved only when the generated item identifier is fresh, because `generateId` is not part of this model.
- The editor's `applyChanges` and `close` closures are the store's methods. The values the closures captured are passed in as arguments.
- The panel editor state keeps only the mode, the initial values, and what the closures captured. Panel definitions keep only their display name and an opaque plugin.
- Config file I/O is not modelled: `os.Stat`, `os.Mkdir`, `os.ReadFile`, `os.WriteFile`, `user.Current` and `GetDefaultPath`. The results of those calls are parameters.
- `Write`'s `json.Marshal` error is not modelled.
- The `Global` singleton is not modelled. `Init` returns the configuration, and `Write` does not read a path from it.
- CliConfig.Write: uses the corrected directory step, so a failed mkdir reports the mkdir's error where the code reports the probe's; `CliConfig.WriteAsWritten` is the code as written (see Findings).
- `WriteFromScratch` is not modelled. It repeats `Write`'s directory step, including the reported-error issue below.
- `config.NewRESTClient` and `config.NewPublicRestConfigClient` are not part of this model. The first's answer is a parameter. The second is the `publicRest` function.
- `RestConfigClient` is not part of this model. Its seven settings are modelled, with opaque payloads. A nil header map and an empty header map are not distinguished.

## Findings

| source | as written | input that shows it | evidently intended | confidence | as-written member | corrected member |
|---|---|---|---|---|---|---|
| internal/cli/config/config.go:167-171 | when the configuration directory is missing and `os.Mkdir` fails, `Write` returns `err`, the error from `os.Stat`, and drops `mkdirError` | a directory missing because its parent is not writable: `Write` reports "no such file or directory" instead of "permission denied" | return the mkdir error; `Write` still fails in exactly the same cases | not executed | CliConfig.PrepareDirectoryAsWritten | CliConfig.PrepareDirectory |
