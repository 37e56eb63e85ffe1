# Hasura console: query builders, schema shaping and remote-schema migrations

This project models the data-shaping core of the Hasura GraphQL engine's web console and
proves properties of it. The core is the following:

- The metadata query builders of `v1QueryUtils.ts`. Each builds one JSON request body of
  the engine's `v1/query` API.
- The schema utilities of `Data/utils.ts`:
  - foreign-key lookups;
  - the resolution of relationships to tables;
  - the verb forms and the regular-expression escaping;
  - the tracked-table list queries and the `where` clause text;
  - the merge of the information-schema tables with the tracked tables;
  - the foreign-key display-name configuration kept in the console options.
- The remote-schema pages:
  - the permission queries of `Permissions/utils.ts`;
  - the add / modify / delete migrations;
  - the form reducer of `addRemoteSchemaReducer.ts`;
  - the list reducer, request body and permission removal of `Actions.ts` and `Actions.js`.
- The small count-query text builder `RQL.ts`.

How the model is built:

- JSON values are the datatype `Json.Json`. An object is a list of keys, in JavaScript's
  property order, with a map from those keys to values.
- Queries built by object literals are such objects.
- Code that works step by step is written as methods with loops, and each is proved equal to
  a function that states the result. This covers the `forEach`/`push` loops, the `let`
  reassignments of `findTableFromRel`, the `delete` of an unused URL field, and the `RQL`
  class with its two fields.
- Lemmas about those functions state what the source promises.
- Helpers defined in files that are not part of this model are parameters of the members
  that call them:
  - `terminateSql`;
  - `findRemoteSchemaPermission`;
  - `filterInconsistentMetadataObjects`;
  - the `equalTableDefs` test;
  - `parseInt(_, 10)`.

A migration is a name with a list of up queries and a list of down queries. To say what
"the down queries undo the up queries" means, module `Metadata` models the engine's side:

- A registry maps metadata keys (a remote schema, a remote-schema permission, an action
  permission) to entries.
  - A remote schema's entry is its definition as the engine reads it into its record: the
    two URL sources, the headers, the timeout and the forwarding flag. A field that is
    missing or null takes the engine's default: no URL, no headers, 60 seconds and no
    forwarding. So the order of the keys sent plays no part, and neither does a null field.
  - A permission's entry is the definition sent.
- `Apply` executes one query the way the engine does. An add fails on a key that is already
  present, and a remove fails on a key that is absent.
- `Reverts(reg, up, down)` holds when the up queries succeed and the down queries then give
  `reg` back.

The migration lemmas below are stated in those terms.

## Model

| member | source | states |
|---|---|---|
| QueryUtils.GetRunSqlQuery | console/src/components/Common/utils/v1QueryUtils.ts:5-18 | a `run_sql` query whose SQL is the terminated input and whose `cascade` and `read_only` flags are the arguments |
| QueryUtils.GetCreatePermissionQuery | console/src/components/Common/utils/v1QueryUtils.ts:20-34 | type `create_<action>_permission`, with the table, the role and the permission |
| QueryUtils.GetDropPermissionQuery | console/src/components/Common/utils/v1QueryUtils.ts:36-48 | type `drop_<action>_permission`, with the table and the role and no permission |
| QueryUtils.PermissionQueryPair | console/src/components/Common/utils/v1QueryUtils.ts:20-48 | the create and drop queries of one action parse back to that action and to create/drop, and name the same table and role; the table round-trips through its JSON form |
| QueryUtils.GenerateSetCustomTypesQuery | console/src/components/Common/utils/v1QueryUtils.ts:50-55 | `set_custom_types` carrying exactly the given types |
| QueryUtils.GenerateCreateActionQuery | console/src/components/Common/utils/v1QueryUtils.ts:57-70 | `create_action` with the name, the definition and the comment |
| QueryUtils.GenerateDropActionQuery | console/src/components/Common/utils/v1QueryUtils.ts:72-79 | `drop_action` whose only argument is the name |
| QueryUtils.GetFetchActionsQuery | console/src/components/Common/utils/v1QueryUtils.ts:81-93 | a select of all columns of `hdb_catalog.hdb_action`, ordered by action name ascending |
| QueryUtils.GetFetchCustomTypesQuery | console/src/components/Common/utils/v1QueryUtils.ts:95-106 | a select of all columns of `hdb_catalog.hdb_custom_types` |
| QueryUtils.GetSetCustomRootFieldsQuery | console/src/components/Common/utils/v1QueryUtils.ts:108-122 | `set_table_custom_fields` version 2, with the table, the root fields and the column names |
| QueryUtils.GetFetchAllRolesQuery | console/src/components/Common/utils/v1QueryUtils.ts:124-134 | a select of `role_name` from `hdb_catalog.hdb_role`, ordered ascending |
| QueryUtils.GetCreateActionPermissionQuery | console/src/components/Common/utils/v1QueryUtils.ts:136-153 | `create_action_permission` for the action and the role, with the filter as the select filter |
| QueryUtils.GetUpdateActionQuery | console/src/components/Common/utils/v1QueryUtils.ts:155-168 | `update_action` with the name, the definition and the comment |
| QueryUtils.GetDropActionPermissionQuery | console/src/components/Common/utils/v1QueryUtils.ts:170-181 | `drop_action_permission` whose arguments are exactly the action and the role |
| QueryUtils.ActionPermissionPair | console/src/components/Common/utils/v1QueryUtils.ts:136-181 | the create and drop action-permission queries name the same (action, role) pair; only the create carries the filter |
| QueryUtils.GetSetTableEnumQuery | console/src/components/Common/utils/v1QueryUtils.ts:183-191 | `set_table_is_enum` with the table and the flag |
| QueryUtils.GetTrackTableQuery | console/src/components/Common/utils/v1QueryUtils.ts:193-198 | `add_existing_table_or_view` whose arguments are the table itself |
| QueryUtils.GetUntrackTableQuery | console/src/components/Common/utils/v1QueryUtils.ts:200-207 | `untrack_table` whose arguments hold the table under `table` |
| QueryUtils.TrackUntrackSameTable | console/src/components/Common/utils/v1QueryUtils.ts:193-207 | track and untrack target the same table, although track puts it directly in `args` and untrack under `args.table` |
| QueryUtils.GetAddComputedFieldQuery | console/src/components/Common/utils/v1QueryUtils.ts:209-226 | `add_computed_field` on the table, with the name, the definition and the comment |
| QueryUtils.GetDropComputedFieldQuery | console/src/components/Common/utils/v1QueryUtils.ts:228-239 | `drop_computed_field` on the same table and name, with no definition |
| QueryUtils.GetDeleteQuery | console/src/components/Common/utils/v1QueryUtils.ts:241-256 | a `delete` on the table whose `where` is the primary-key clause |
| QueryUtils.GetBulkDeleteQuery | console/src/components/Common/utils/v1QueryUtils.ts:258-262 | one delete per clause, in order, each on the table with that clause |
| QueryUtils.BulkDeleteAppend | console/src/components/Common/utils/v1QueryUtils.ts:258-262 | splitting the clauses splits the bulk delete the same way |
| QueryUtils.GetEnumOptionsQuery | console/src/components/Common/utils/v1QueryUtils.ts:264-278 | a select of the enum column from the enum table in the current schema |
| QueryUtils.InconsistentObjectsQuery | console/src/components/Common/utils/v1QueryUtils.ts:280-283 | `get_inconsistent_metadata` with empty arguments |
| QueryUtils.DropInconsistentObjectsQuery | console/src/components/Common/utils/v1QueryUtils.ts:285-288 | `drop_inconsistent_metadata` with empty arguments |
| QueryUtils.GetReloadMetadataQuery | console/src/components/Common/utils/v1QueryUtils.ts:290-295 | `reload_metadata` carrying the remote-schema reload flag |
| QueryUtils.GetReloadRemoteSchemaCacheQuery | console/src/components/Common/utils/v1QueryUtils.ts:297-304 | `reload_remote_schema` for the named schema |
| QueryUtils.ExportMetadataQuery | console/src/components/Common/utils/v1QueryUtils.ts:306-309 | `export_metadata` with empty arguments |
| QueryUtils.GenerateReplaceMetadataQuery | console/src/components/Common/utils/v1QueryUtils.ts:311-314 | `replace_metadata` whose arguments are the metadata document |
| QueryUtils.ResetMetadataQuery | console/src/components/Common/utils/v1QueryUtils.ts:316-319 | `clear_metadata` with empty arguments |
| QueryUtils.GetFilterByDisplayNameQuery | console/src/components/Common/utils/v1QueryUtils.ts:321-342 | a select of the key and display columns of the referenced table, limit 20; an `$ilike %value%` filter on the display column exactly when the search value is non-empty, and the argument keys then in the order `table, columns, where, limit` |
| QueryUtils.GetLoadConsoleOptsQuery | console/src/components/Common/utils/v1QueryUtils.ts:344-353 | a select of `hasura_uuid` and `console_state` from `hdb_catalog.hdb_version` |
| QueryUtils.GetForeignKeyOptionsQuery | console/src/components/Common/utils/v1QueryUtils.ts:355-368 | a select of the display and referenced columns of the referenced table, limit 20 |
| QueryUtils.GenerateSelectQuery | console/src/components/Common/utils/v1QueryUtils.ts:370-396 | the query has the given type, columns, `where` and table; `limit`, `offset` and `order_by` appear exactly when given, and the argument keys come in the source's order |
| QueryUtils.GetFetchManualTriggersQuery | console/src/components/Common/utils/v1QueryUtils.ts:398-415 | a select of all event triggers of the table, ordered by name ascending with nulls last |
| DataUtils.OrdinalColSort | console/src/components/Services/Data/utils.ts:65-76 | the comparator returns -1, 0 or 1: 0 exactly when the positions are equal, -1 exactly when the first is smaller |
| DataUtils.OrdinalColSortOrder | console/src/components/Services/Data/utils.ts:65-76 | swapping the arguments negates the result, and "not after" is transitive |
| DataUtils.FindFKConstraint | console/src/components/Services/Data/utils.ts:78-85 | the result is the first of the table's constraints whose key columns have the length and comma-joined text of the wanted columns; none exactly when no constraint matches |
| DataUtils.FindOppFKConstraint | console/src/components/Services/Data/utils.ts:87-94 | the same lookup among the constraints that reference the table |
| DataUtils.ColumnsMatchIsListEquality | console/src/components/Services/Data/utils.ts:78-94 | equal column lists always match; when no column name contains a comma, a match is exactly list equality |
| DataUtils.SingleColumnMatch | console/src/components/Services/Data/utils.ts:78-94 | on one column the match is exact, and the constraint then maps that column |
| DataUtils.RelTableKeyDefaultsToPublic | console/src/components/Services/Data/utils.ts:96-146 | a manual relationship to a bare table name, or an array relationship whose key names a bare table, resolves to schema `public` |
| DataUtils.ResolveRelTable | console/src/components/Services/Data/utils.ts:101-142 | the table and schema left by the reassignments are those of the precedence rule: an array key's table, else the matching object constraint's referenced table, else the manual configuration |
| DataUtils.FindTableFromRel | console/src/components/Services/Data/utils.ts:96-146 | the result is the first schema entry with the resolved name and schema; none exactly when no entry has them |
| DataUtils.MappedValues | console/src/components/Services/Data/utils.ts:175-177 | one value per mapping entry: the column each key maps to |
| DataUtils.FindAllFromRel | console/src/components/Services/Data/utils.ts:148-222 | the relationship's name and left table are copied; `isObjRel` holds exactly for object relationships; a manual relationship gives its keys and their mapped columns pairwise; an object relationship gives its column and the matching constraint's table and column, and without a matching constraint keeps the manual configuration's remote columns, table and schema, or none; an array relationship gives its column and the column the opposite constraint maps |
| DataUtils.WithoutFinalE | console/src/components/Services/Data/utils.ts:224-238 | the word is the stem, or the stem followed by `e` exactly when the word ends in `e` |
| DataUtils.GetIngForm | console/src/components/Services/Data/utils.ts:224-230 | the result ends in `ing`, and the word is what comes before it plus the `e` it dropped, if it ended in one |
| DataUtils.GetEdForm | console/src/components/Services/Data/utils.ts:232-238 | the result ends in `ed`, and the word is what comes before it plus the `e` it dropped, if it ended in one |
| DataUtils.VerbForms | console/src/components/Services/Data/utils.ts:224-238 | the `-ing` and `-ed` forms end in their suffixes and share one stem, which is the word without a final `e` |
| DataUtils.EscapeRegExp | console/src/components/Services/Data/utils.ts:240-242 | escaping never shortens the text, and its result is well escaped: each of the regular expression's special characters (`.*+?^${}()[]\`, and the bar) comes after a backslash, and no other character does |
| DataUtils.EscapeRegExpRoundTrip | console/src/components/Services/Data/utils.ts:240-242 | removing the backslashes gives the original text back, so no character is lost or changed |
| DataUtils.GetTableName | console/src/components/Services/Data/utils.ts:244-251 | a string is its own table name; an object gives its `name`, or the empty string without one |
| DataUtils.GetTableNameOfRemoteTable | console/src/components/Services/Data/utils.ts:244-251 | both forms of a relationship's remote table give that table's name |
| DataSchemaLoading.WhereConditionsOrder | console/src/components/Services/Data/utils.ts:338-350 | one condition per schema, then one per table, in input order |
| DataSchemaLoading.WhereText | console/src/components/Services/Data/utils.ts:352-361 | the clause is empty exactly when there are no conditions, and otherwise starts with `where` (its full text: `WhereTextAppend`) |
| DataSchemaLoading.WhereTextEmpty | console/src/components/Services/Data/utils.ts:335-364 | the clause is empty exactly when there are no schemas and no tables |
| DataSchemaLoading.WhereTextAppend | console/src/components/Services/Data/utils.ts:352-361 | one condition gives `where <c>`, and each further condition adds ` or <c>` |
| DataSchemaLoading.CollectWhereConditions | console/src/components/Services/Data/utils.ts:338-350 | the pushes collect exactly the ordered condition list |
| DataSchemaLoading.WriteWhereClause | console/src/components/Services/Data/utils.ts:352-361 | the concatenation loop writes the `or`-joined clause |
| DataSchemaLoading.GenerateWhereClause | console/src/components/Services/Data/utils.ts:335-364 | the clause is the `or`-joined text of the schema and table conditions |
| DataSchemaLoading.OrFiltersOrder | console/src/components/Services/Data/utils.ts:316-330 | one `$or` filter per schema naming only the schema, then one per table naming the schema and the table, in order |
| DataSchemaLoading.TrackedTableListSelect | console/src/components/Services/Data/utils.ts:258-306 | the base query is a select, with keys `type` and `args` |
| DataSchemaLoading.FetchTrackedTableListQuery | console/src/components/Services/Data/utils.ts:258-333 | the base select's arguments are kept; it has a `where` exactly when schemas or tables are given, and the `where` is the `$or` of the filters |
| DataSchemaLoading.MergeTable | console/src/components/Services/Data/utils.ts:516-585 | the loop body's merged entry is the join of the table with its first tracked entry, as `MergedIdentity`, `UntrackedDefaults` and `TrackedTakesMetadata` describe it |
| DataSchemaLoading.MergeLoadSchemaData | console/src/components/Services/Data/utils.ts:508-589 | one merged entry per information-schema table, in order |
| DataSchemaLoading.MergedTable | console/src/components/Services/Data/utils.ts:516-585 | the merged entry of one table; its cases are stated by `MergedIdentity`, `UntrackedDefaults` and `TrackedTakesMetadata` |
| DataSchemaLoading.MergedIdentity | console/src/components/Services/Data/utils.ts:516-585 | the merged entry keeps the table's name, schema, type, columns, comment, triggers and view info; it is tracked exactly when a tracked table has that name and schema |
| DataSchemaLoading.UntrackedDefaults | console/src/components/Services/Data/utils.ts:532-541 | an untracked table gets no primary key and empty relationships, permissions, constraints, configuration and computed fields |
| DataSchemaLoading.TrackedTakesMetadata | console/src/components/Services/Data/utils.ts:543-562 | a tracked table takes its metadata from the first matching tracked entry; its foreign keys are exactly the given keys on that table, and its referencing keys exactly the given ones that point to it, both in input order |
| DataDisplayConfig.MergeDisplayConfig | console/src/components/Services/Data/utils.ts:718-747 | the other options are kept, and the list becomes the merged list |
| DataDisplayConfig.ReplaceMappings | console/src/components/Services/Data/utils.ts:728-736 | the list keeps its length |
| DataDisplayConfig.MergedDisplayConfigs | console/src/components/Services/Data/utils.ts:718-747 | the merged list; `MergedConfigPresent` and `MergeIdempotent` state that it holds the config with its mappings, keeps the other entries and absorbs a repeated merge |
| DataDisplayConfig.MergedConfigPresent | console/src/components/Services/Data/utils.ts:718-747 | after a merge the list holds an entry for the config with its mappings, and every other entry comes from the old list |
| DataDisplayConfig.MergeIdempotent | console/src/components/Services/Data/utils.ts:718-747 | merging the same config twice changes nothing the second time |
| DataDisplayConfig.RemoveDisplayConfig | console/src/components/Services/Data/utils.ts:749-761 | the other options are kept and the list does not grow |
| DataDisplayConfig.RemoveDisplayConfigExact | console/src/components/Services/Data/utils.ts:749-761 | exactly the entries unequal to the removed one remain, and removing again changes nothing |
| DataDisplayConfig.CreateTableMappings | console/src/components/Services/Data/utils.ts:763-779 | one row per data item, carrying from/to/display/table of the mapping at the same position |
| DataDisplayConfig.FoundNames | console/src/components/Services/Data/utils.ts:804-814 | at most one display name per column pair of the key |
| DataDisplayConfig.DisplayNamesComplete | console/src/components/Services/Data/utils.ts:804-814 | when every column pair of the key has a mapping, the names are one per pair, in the pairs' order, each the display column of the pair's first mapping |
| DataDisplayConfig.DisplayNamesFromMappings | console/src/components/Services/Data/utils.ts:796-810 | every display name comes from a mapping of the referenced table |
| DataDisplayConfig.SortedDisplayColumnNames | console/src/components/Services/Data/utils.ts:796-810 | the loop collects the display names of the key's column mappings |
| DataDisplayConfig.GetDisplayNamesPerKey | console/src/components/Services/Data/utils.ts:781-819 | nothing without options or without a display list; otherwise the names per key, from the table's own configs |
| DataDisplayConfig.NamesPerKey | console/src/components/Services/Data/utils.ts:790-816 | the names per constraint; `NamesPerKeyEntries` states which constraints are present and that the last foreign key naming one wins |
| DataDisplayConfig.KeyedNamesDomain | console/src/components/Services/Data/utils.ts:790-816 | a key is in the map exactly when some foreign key carries it and has display names |
| DataDisplayConfig.KeyedNamesLastWins | console/src/components/Services/Data/utils.ts:790-816 | a key's names are those of the last foreign key that carries it and has names |
| DataDisplayConfig.NamesPerKeyEntries | console/src/components/Services/Data/utils.ts:781-819 | a constraint is in the result exactly when a foreign key names it and the table has a display config for it; its names are those of the last such foreign key |
| RemoteSchemaPermissions.GetCreateRemoteSchemaPermissionQuery | console/src/components/Services/RemoteSchema/Permissions/utils.ts:4-19 | `add_remote_schema_permissions` for the schema and role, with the schema definition |
| RemoteSchemaPermissions.GetDropRemoteSchemaPermissionQuery | console/src/components/Services/RemoteSchema/Permissions/utils.ts:21-32 | `drop_remote_schema_permissions` for the schema and role, with no definition |
| RemoteSchemaPermissions.CreateTarget | console/src/components/Services/RemoteSchema/Permissions/utils.ts:4-19 | the create query adds the (schema, role) permission with that definition |
| RemoteSchemaPermissions.DropTarget | console/src/components/Services/RemoteSchema/Permissions/utils.ts:21-32 | the drop query removes the (schema, role) permission |
| RemoteSchemaPermissions.GetRemoteSchemaPermissionQueries | console/src/components/Services/RemoteSchema/Permissions/utils.ts:34-92 | the pushed up and down queries are those of the case analysis on the new role and the existing permission |
| RemoteSchemaPermissions.PermissionQueries | console/src/components/Services/RemoteSchema/Permissions/utils.ts:34-92 | the queries a save sends, by case; `PermissionQueriesPaired`, `NewPermissionQueries` and `PermissionMigrationReverts` state their pairing and that the down list undoes the up list |
| RemoteSchemaPermissions.PermissionQueriesPaired | console/src/components/Services/RemoteSchema/Permissions/utils.ts:34-92 | as many down queries as up queries, each naming the schema and the trimmed role |
| RemoteSchemaPermissions.NewPermissionQueries | console/src/components/Services/RemoteSchema/Permissions/utils.ts:50-63 | with no existing permission: up creates, down drops |
| RemoteSchemaPermissions.GrantReverts | console/src/components/Services/RemoteSchema/Permissions/utils.ts:50-63 | on a registry without the permission, create then drop gives the registry back, and create adds the definition |
| RemoteSchemaPermissions.RegrantReverts | console/src/components/Services/RemoteSchema/Permissions/utils.ts:65-86 | over an existing permission, drop-and-create is undone by drop-and-restore of the old definition |
| RemoteSchemaPermissions.PermissionMigrationReverts | console/src/components/Services/RemoteSchema/Permissions/utils.ts:34-92 | when the role is unchanged or has no permission yet, a save's down queries undo its up queries, and the up queries leave the new definition in place |
| RemoteSchemaPermissions.NewRoleOntoExistingRejected | console/src/components/Services/RemoteSchema/Permissions/utils.ts:50-86 | a new role that already has a permission gets a create plus a drop-and-create, which the engine rejects on the first create |
| RemoteSchemaPermissions.UpdateBulkSelect | console/src/components/Services/RemoteSchema/Permissions/utils.ts:94-103 | adding appends the role; removing keeps exactly the other roles |
| RemoteSchemaPermissions.RemoveIdempotent | console/src/components/Services/RemoteSchema/Permissions/utils.ts:94-103 | removing a role twice is removing it once |
| RemoteSchemaPermissions.RemoveUndoesAdd | console/src/components/Services/RemoteSchema/Permissions/utils.ts:94-103 | removing a role that was absent, after adding it, gives the selection back |
| AddRemoteSchema.ReqHeader | console/src/components/Services/RemoteSchema/Add/addRemoteSchemaReducer.ts:97-101 | a header keeps its name and becomes `value` when static, otherwise `value_from_env` |
| AddRemoteSchema.GetReqHeader | console/src/components/Services/RemoteSchema/Add/addRemoteSchemaReducer.ts:91-108 | the named headers, in order, each in request form |
| AddRemoteSchema.RequestHeadersAppend | console/src/components/Services/RemoteSchema/Add/addRemoteSchemaReducer.ts:91-108 | the request headers of two lists are those of each list, one after the other |
| AddRemoteSchema.RequestHeadersSingle | console/src/components/Services/RemoteSchema/Add/addRemoteSchemaReducer.ts:94-101 | a header without a name is dropped, a named one is converted |
| AddRemoteSchema.EditorRows | console/src/components/Services/RemoteSchema/Add/addRemoteSchemaReducer.ts:134-142 | one editor row per fetched header, in order |
| AddRemoteSchema.EditorHeaders | console/src/components/Services/RemoteSchema/Add/addRemoteSchemaReducer.ts:134-151 | the rows followed by one empty static row |
| AddRemoteSchema.EditorHeadersRoundTrip | console/src/components/Services/RemoteSchema/Add/addRemoteSchemaReducer.ts:91-151 | named headers fetched from the server and sent back through the editor give the server form again |
| AddRemoteSchema.UrlSourcesExclusive | console/src/components/Services/RemoteSchema/Add/addRemoteSchemaReducer.ts:468-484 | setting a manual URL clears the environment URL and the reverse; nothing else changes |
| AddRemoteSchema.RequestFlags | console/src/components/Services/RemoteSchema/Add/addRemoteSchemaReducer.ts:490-576 | the adding, deleting and modifying actions set `isRequesting` and clear the error; their failures clear `isRequesting` and keep the error |
| AddRemoteSchema.ResetAndDefault | console/src/components/Services/RemoteSchema/Add/addRemoteSchemaReducer.ts:512-596 | reset gives the initial state; an unknown action keeps the state |
| AddRemoteSchema.ToggleModifyTwice | console/src/components/Services/RemoteSchema/Add/addRemoteSchemaReducer.ts:502-511 | toggling modify flips the flag; toggling twice restores the state except that the headers become the saved headers |
| AddRemoteSchema.ForwardClientHeadersTwice | console/src/components/Services/RemoteSchema/Add/addRemoteSchemaReducer.ts:577-581 | the forward flag is negated; twice restores a boolean flag and the state |
| AddRemoteSchema.FetchSuccessFillsForm | console/src/components/Services/RemoteSchema/Add/addRemoteSchemaReducer.ts:522-546 | a fetched schema fills the name, URLs and timeout (60 when absent or falsy) and stores them as the originals; modify mode is off and fetching has ended |
| AddRemoteSchema.AddRemoteSchemaReducer | console/src/components/Services/RemoteSchema/Add/addRemoteSchemaReducer.ts:466-598 | the form reducer; its cases are stated by `UrlSourcesExclusive`, `RequestFlags`, `ResetAndDefault`, `ToggleModifyTwice`, `ForwardClientHeadersTwice` and `FetchSuccessFillsForm` |
| AddRemoteSchema.TimeoutSeconds | console/src/components/Services/RemoteSchema/Add/addRemoteSchemaReducer.ts:170-171 | the parsed timeout, or 60 when it does not parse |
| AddRemoteSchema.KeepOneUrl | console/src/components/Services/RemoteSchema/Add/addRemoteSchemaReducer.ts:184-188 | a truthy URL keeps `url` and drops `url_from_env`, otherwise the opposite; other fields are untouched |
| AddRemoteSchema.DeleteUnusedUrl | console/src/components/Services/RemoteSchema/Add/addRemoteSchemaReducer.ts:184-188 | the `delete` statements leave the definition with only the URL source in use |
| AddRemoteSchema.AddRemoteSchemaQuery | console/src/components/Services/RemoteSchema/Add/addRemoteSchemaReducer.ts:195-200 | `add_remote_schema` with the name and the definition |
| AddRemoteSchema.RemoveRemoteSchemaQuery | console/src/components/Services/RemoteSchema/Add/addRemoteSchemaReducer.ts:202-207 | `remove_remote_schema` with the name and no definition |
| AddRemoteSchema.AddTarget | console/src/components/Services/RemoteSchema/Add/addRemoteSchemaReducer.ts:195-200 | the add query adds that remote schema with its definition |
| AddRemoteSchema.RemoveTarget | console/src/components/Services/RemoteSchema/Add/addRemoteSchemaReducer.ts:202-207 | the remove query removes that remote schema |
| AddRemoteSchema.AddRemoteSchema | console/src/components/Services/RemoteSchema/Add/addRemoteSchemaReducer.ts:165-256 | the thunk builds the migration of the code as written: named `create_remote_schema_` plus the normalised name, adding the definition under the normalised name and removing the typed name on the way down |
| AddRemoteSchema.AddMigrationAsWritten | console/src/components/Services/RemoteSchema/Add/addRemoteSchemaReducer.ts:165-212 | the migration as written; `AddDownMissesTypedName` shows its down request naming a schema the up request did not add |
| AddRemoteSchema.AddDefinitionShape | console/src/components/Services/RemoteSchema/Add/addRemoteSchemaReducer.ts:170-188 | the definition has exactly one of `url` and `url_from_env`, the request headers, the timeout (60 by default) and the forward flag |
| AddRemoteSchema.AddedNameNormalised | console/src/components/Services/RemoteSchema/Add/addRemoteSchemaReducer.ts:173-174 | the added name is the trimmed name without spaces, and normalising it again changes nothing |
| AddRemoteSchema.SpacedNameNormalised | console/src/components/Services/RemoteSchema/Add/addRemoteSchemaReducer.ts:173-174 | ` a` is added as `a` |
| AddRemoteSchema.AddDownMissesTypedName | console/src/components/Services/RemoteSchema/Add/addRemoteSchemaReducer.ts:202-207 | as written, the down query of a schema typed as ` a` removes ` a`, which does not exist, so the down migration fails |
| AddRemoteSchema.AddMigration | console/src/components/Services/RemoteSchema/Add/addRemoteSchemaReducer.ts:191-212 | the migration is named after the normalised name and has the source's up query |
| AddRemoteSchema.AddMigrationReverts | console/src/components/Services/RemoteSchema/Add/addRemoteSchemaReducer.ts:165-256 | with the down query naming the normalised name, the down migration undoes the up migration, and the up migration adds the schema |
| AddRemoteSchema.DeleteDownHeadersAssigned | console/src/components/Services/RemoteSchema/Add/addRemoteSchemaReducer.ts:278-290 | assigning the headers afterwards gives the same definition as writing them in place |
| AddRemoteSchema.DeleteRemoteSchema | console/src/components/Services/RemoteSchema/Add/addRemoteSchemaReducer.ts:258-335 | the thunk builds a migration named after the normalised original name that removes the original schema and, on the way down, re-adds it with the remembered URLs, headers and forward flag |
| AddRemoteSchema.DeleteMigration | console/src/components/Services/RemoteSchema/Add/addRemoteSchemaReducer.ts:262-295 | the delete migration; `DeleteMigrationReverts`, `DeleteMigrationRevertsOnlyThen` and `DeleteDownShape` state what it undoes and what it restores |
| AddRemoteSchema.DeleteMigrationReverts | console/src/components/Services/RemoteSchema/Add/addRemoteSchemaReducer.ts:258-335 | when the registry holds the schema as the engine reads the definition the down request sends, delete removes it and the down migration restores it; `FetchedDeleteReverts` and `DeleteDownDropsTimeout` say when that holds after a fetch |
| AddRemoteSchema.DeleteMigrationRevertsOnlyThen | console/src/components/Services/RemoteSchema/Add/addRemoteSchemaReducer.ts:262-295 | when the server held another definition under the original name, the delete's down migration does not give the registry back |
| AddRemoteSchema.DeleteDownShape | console/src/components/Services/RemoteSchema/Add/addRemoteSchemaReducer.ts:274-290 | the restoring definition carries both URL fields and no timeout |
| AddRemoteSchema.ModifyMigration | console/src/components/Services/RemoteSchema/Add/addRemoteSchemaReducer.ts:337-420 | a migration of two up and two down queries |
| AddRemoteSchema.ModifyDownHeadersAssigned | console/src/components/Services/RemoteSchema/Add/addRemoteSchemaReducer.ts:384-420 | assigning the headers afterwards gives the same definition as writing them in place |
| AddRemoteSchema.BuildModifyUpDefinition | console/src/components/Services/RemoteSchema/Add/addRemoteSchemaReducer.ts:352-381 | the object built and then trimmed by `delete` is the new definition: the form's URL source, timeout, forward flag and request headers |
| AddRemoteSchema.BuildModifyDownDefinition | console/src/components/Services/RemoteSchema/Add/addRemoteSchemaReducer.ts:384-420 | the object built and then trimmed by `delete` is the original definition: the remembered URL source, timeout, headers and forward flag |
| AddRemoteSchema.ModifyRemoteSchema | console/src/components/Services/RemoteSchema/Add/addRemoteSchemaReducer.ts:337-465 | the thunk builds the rename-and-replace migration: up removes the original and adds the new definition under the normalised name; down removes that name and re-adds the original definition |
| AddRemoteSchema.ModifyUpShape | console/src/components/Services/RemoteSchema/Add/addRemoteSchemaReducer.ts:352-381 | the new definition has exactly one URL source, the one the manual URL selects, and the request headers |
| AddRemoteSchema.ModifyDownShape | console/src/components/Services/RemoteSchema/Add/addRemoteSchemaReducer.ts:384-420 | the old definition has exactly one URL source, selected by the original URL, and the original headers |
| AddRemoteSchema.ModifyNames | console/src/components/Services/RemoteSchema/Add/addRemoteSchemaReducer.ts:340-420 | up removes the original name and adds the normalised new name; down removes the new name and re-adds the original |
| AddRemoteSchema.ModifyMigrationReverts | console/src/components/Services/RemoteSchema/Add/addRemoteSchemaReducer.ts:337-420 | when the registry holds, as the engine reads it, the original definition the edit form reconstructs, and the new name is free or the same, the down migration undoes the rename-and-replace; `FetchedModifyReverts` and `AddThenModifyReverts` discharge that condition after a fetch |
| AddRemoteSchema.ModifyDownResetsTimeout | console/src/components/Services/RemoteSchema/Add/addRemoteSchemaReducer.ts:352-355 | as written, after a fetch of a schema stored with timeout "30", the modification sends 30 up but re-creates the original with 60 |
| AddRemoteSchema.FetchedEditStateIntended | console/src/components/Services/RemoteSchema/Add/addRemoteSchemaReducer.ts:533-543 | the edit state a fetch evidently means to leave: the as-written one, with the fetched timeout recorded as `originalTimeoutConf` |
| AddRemoteSchema.ModifyDownKeepsTimeout | console/src/components/Services/RemoteSchema/Add/addRemoteSchemaReducer.ts:352-420 | with the timeout recorded, an unchanged timeout goes down exactly as it goes up |
| AddRemoteSchema.FetchedTimeoutReadBack | console/src/components/Services/RemoteSchema/Add/addRemoteSchemaReducer.ts:528-543 | after a fetch that records the original timeout, the timeout the edit form reconstructs is the stored one, 60 when none is stored |
| AddRemoteSchema.FetchedFieldsReadBack | console/src/components/Services/RemoteSchema/Add/addRemoteSchemaReducer.ts:522-546 | after a fetch of a definition the engine keeps, the remembered headers, forwarding flag and URL sources are the stored ones read with the engine's defaults, and at most one URL source is remembered |
| AddRemoteSchema.ModifyDownRead | console/src/components/Services/RemoteSchema/Add/addRemoteSchemaReducer.ts:384-420 | the engine reads the definition the modification's down request re-creates as the remembered URL source, timeout, headers and forwarding flag |
| AddRemoteSchema.FetchedModifyDownStored | console/src/components/Services/RemoteSchema/Add/addRemoteSchemaReducer.ts:384-420 | after a fetch that records the original timeout, the modification's down request re-creates exactly the fetched entry |
| AddRemoteSchema.FetchedModifyReverts | console/src/components/Services/RemoteSchema/Add/addRemoteSchemaReducer.ts:337-420 | a schema stored as fetched, with the timeout recorded, is given back by the rollback of any modification whose new name is the same or free |
| AddRemoteSchema.DeleteDownDropsTimeout | console/src/components/Services/RemoteSchema/Add/addRemoteSchemaReducer.ts:278-285 | as written, the delete's down request of a schema stored with a timeout of 30 re-creates it with 60, so the registry does not come back |
| AddRemoteSchema.DeleteDownDefinitionIntended | console/src/components/Services/RemoteSchema/Add/addRemoteSchemaReducer.ts:278-285 | the corrected restoring definition: the one the source builds, with the recorded timeout added |
| AddRemoteSchema.DeleteMigrationIntended | console/src/components/Services/RemoteSchema/Add/addRemoteSchemaReducer.ts:262-295 | the corrected delete migration has the name and the up request of the one as written |
| AddRemoteSchema.DeleteDownIntendedRead | console/src/components/Services/RemoteSchema/Add/addRemoteSchemaReducer.ts:278-290 | the engine reads the corrected restoring definition as the remembered URLs, timeout, headers and forwarding flag |
| AddRemoteSchema.FetchedDeleteDownStored | console/src/components/Services/RemoteSchema/Add/addRemoteSchemaReducer.ts:278-290 | after a fetch that records the original timeout, the corrected down request re-creates exactly the fetched entry |
| AddRemoteSchema.FetchedDeleteReverts | console/src/components/Services/RemoteSchema/Add/addRemoteSchemaReducer.ts:258-335 | a schema stored as fetched is removed by the delete and given back by the corrected rollback |
| AddRemoteSchema.KeptUrlRead | console/src/components/Services/RemoteSchema/Add/addRemoteSchemaReducer.ts:170-188 | the engine reads a definition built in the add's key order, with the unused URL deleted, as the kept URL source, the headers, the timeout and the forwarding flag |
| AddRemoteSchema.RecordRead | console/src/components/Services/RemoteSchema/Add/addRemoteSchemaReducer.ts:522-531 | the engine reads a fetched record's fields as fetched, with its defaults for the missing ones |
| AddRemoteSchema.KeptUrlStored | console/src/components/Services/RemoteSchema/Add/addRemoteSchemaReducer.ts:170-188 | the definition the add builds and the record of its fields with the unused URL absent give the same entry, whatever the key order |
| AddRemoteSchema.AddStoresRecord | console/src/components/Services/RemoteSchema/Add/addRemoteSchemaReducer.ts:165-212 | an added schema is stored as the record the engine keeps for it |
| AddRemoteSchema.AddedRecordKept | console/src/components/Services/RemoteSchema/Add/addRemoteSchemaReducer.ts:170-188 | the record of an add whose form names a URL source, a timeout other than 0 and a boolean forwarding flag is one the engine keeps |
| AddRemoteSchema.AddThenModifyReverts | console/src/components/Services/RemoteSchema/Add/addRemoteSchemaReducer.ts:165-546 | add a schema, fetch it back with its timeout recorded and modify it with the same or a free name: the modification's rollback gives back the registry the add left |
| RemoteSchemaActions.FetchStartsAndSucceeds | console/src/components/Services/RemoteSchema/Actions.ts:97-110 | fetching sets `isRequesting` and clears the error; success stores the list and ends the request |
| RemoteSchemaActions.ListReducer | console/src/components/Services/RemoteSchema/Actions.ts:95-143 | the list reducer, also Actions.js:88-136; its cases are stated by `FetchStartsAndSucceeds`, `FetchFails`, `FetchCycle`, `FilterMerges`, `FilterIdempotent`, `ResetAndView`, `SetConsistentOnlyList` and `SetConsistentTwice` |
| RemoteSchemaActions.FetchFails | console/src/components/Services/RemoteSchema/Actions.ts:112-118 | a failure empties the list, ends the request and keeps the error |
| RemoteSchemaActions.FetchCycle | console/src/components/Services/RemoteSchema/Actions.js:90-111 | a fetch followed by its success or failure changes only the list and the two flags |
| RemoteSchemaActions.FilterMerges | console/src/components/Services/RemoteSchema/Actions.ts:119-123 | a filter overwrites exactly the fields it carries and keeps the others |
| RemoteSchemaActions.FilterIdempotent | console/src/components/Services/RemoteSchema/Actions.js:112-116 | filtering twice with the same data is filtering once, and an empty filter changes nothing |
| RemoteSchemaActions.ResetAndView | console/src/components/Services/RemoteSchema/Actions.ts:124-132 | reset gives the initial list state; view changes only the viewed schema |
| RemoteSchemaActions.SetConsistentOnlyList | console/src/components/Services/RemoteSchema/Actions.ts:133-141 | setting consistent schemas changes only the list; an unknown action changes nothing |
| RemoteSchemaActions.SetConsistentTwice | console/src/components/Services/RemoteSchema/Actions.js:126-130 | the last list set wins |
| RemoteSchemaActions.ConsistentRemoteSchemas | console/src/components/Services/RemoteSchema/Actions.ts:60-74 | with no inconsistent objects the fetched list is kept, otherwise it is filtered for `remote_schemas` |
| RemoteSchemaActions.BulkQuery | console/src/components/Services/RemoteSchema/Actions.ts:160-168 | a `bulk` query |
| RemoteSchemaActions.RequestBodiesRoundTrip | console/src/components/Services/RemoteSchema/Actions.ts:160-174 | the bulk body gives back its queries and the migration body its name, up and down; neither reads as the other |
| RemoteSchemaActions.MakeRequestBody | console/src/components/Services/RemoteSchema/Actions.ts:160-185 | server mode sends the bulk of the up queries, CLI mode the migration; no other mode sends a body |
| RemoteSchemaActions.RemoveRemoteSchemaPermission | console/src/components/Services/RemoteSchema/Actions.js:259-313 | nothing happens unless confirmed; otherwise the permission-removal migration |
| RemoteSchemaActions.RemovePermissionMigration | console/src/components/Services/RemoteSchema/Actions.js:271-279 | the drop-and-recreate pair; `RemovePermissionPaired` and `RemovePermissionReverts` state that both name one (action, role) and that the down undoes the up |
| RemoteSchemaActions.RemovePermissionPaired | console/src/components/Services/RemoteSchema/Actions.js:271-279 | one up query that drops the (action, role) permission and one down query that creates it with the old filter |
| RemoteSchemaActions.RemovePermissionReverts | console/src/components/Services/RemoteSchema/Actions.js:271-305 | when the registry holds the permission with that filter, the up query removes it and the down query restores it |
| Rql.TablesText | console/src/shared/utils/RQL.ts:16-20 | the table list text is empty exactly when there are no names (its full text: `TablesTextJoin`) |
| Rql.TablesTextJoin | console/src/shared/utils/RQL.ts:16-20 | the table list text is the names joined by ` , `, with one more ` , ` in front |
| Rql.ConditionOp | console/src/shared/utils/RQL.ts:4 | a condition without entries writes `undefined` as operator |
| Rql.ConditionValue | console/src/shared/utils/RQL.ts:4 | a condition without entries writes `undefined` as value |
| Rql.Clauses | console/src/shared/utils/RQL.ts:22-34 | one clause per entry, in order |
| Rql.ObjectTextRepeatsFirst | console/src/shared/utils/RQL.ts:22-34 | an object's text is its first clause followed by every clause after `AND ` |
| Rql.WhereTextAppend | console/src/shared/utils/RQL.ts:22-34 | the text of two condition lists is their texts one after the other |
| Rql.WhereText | console/src/shared/utils/RQL.ts:22-34 | the where text of a `$and` list; `WhereTextAppend`, `WhereTextOneCondition` and `ObjectTextRepeatsFirst` state what it is made of |
| Rql.WhereTextOneCondition | console/src/shared/utils/RQL.ts:22-34 | a single condition is written twice, the second time after `AND ` |
| Rql.ObjectWhereText | console/src/shared/utils/RQL.ts:24-32 | the inner loop writes the object's text: its first clause, then each clause after `AND ` |
| Rql.Rql.constructor | console/src/shared/utils/RQL.ts:11-15 | both texts start empty |
| Rql.Rql.From | console/src/shared/utils/RQL.ts:16-20 | the table text is the name, or the list text; the where text is kept |
| Rql.Rql.Where | console/src/shared/utils/RQL.ts:22-34 | the where text is the text of the condition list; the table text is kept |

## Left out

- User interface: React components, routing, notifications, `console.error` and the
  `dispatch` of Redux actions are not modelled. A thunk is modelled by the value it builds
  (a migration or a request body), never by its requests or its callbacks.
- Network and I/O: `fetch`/`requestAction`, `makeMigrationCall`, the endpoints and the
  cookie and header options are left out.
- `fetchRemoteSchema` (addRemoteSchemaReducer.ts): only the header rows built on success are
  modelled (`EditorHeaders`). The select body it sends, the redirect and the
  request sequencing are left out.
- Actions.js `fetchRemoteSchemas`: this version does not filter inconsistent objects. The
  model's `ConsistentRemoteSchemas` follows Actions.ts. The Actions.js list reducer and
  `makeRequest` are the same code as in Actions.ts and are modelled once.
- Actions.js `saveRemoteSchemaPermission` is left out: it builds its queries with
  `getActionPermissionQueries`, a function of a file that is not part of this model.
- Actions.js calls `getDropActionPermissionQuery` and `getCreateActionPermissionQuery` at
  lines 273-277 but neither imports nor defines them (its imports are lines 1-29). So
  `removeRemoteSchemaPermission` throws a `ReferenceError` once the user confirms. The model
  builds the pair the calls evidently intend, with the v1QueryUtils.ts builders.
- `getTree` and `getType` (Permissions/utils.ts) walk GraphQL schema objects of the
  `graphql` library. They are not part of this model.
- `getPlaceholder` and `isPostgresFunction` (Data/utils.ts) are left out. The first formats
  dates with the clock and `moment`. The second is a regular-expression test on SQL text.
- The constant SQL texts of `fetchTrackedTableFkQuery`,
  `fetchTrackedTableReferencedFkQuery`, `fetchTableListQuery`, `fetchColumnTypesQuery` and
  `fetchColumnDefaultFunctions` (Data/utils.ts) are left out. Only their shared
  `generateWhereClause` is modelled; the rest is fixed SQL text.
- Helpers of other files are parameters:
  - `terminateSql`, `findRemoteSchemaPermission` and `filterInconsistentMetadataObjects`;
  - the `equalTableDefs` test;
  - `parseInt(_, 10)`;
  - the reducers' initial states `addState` and `listState`, and `defaultHeader`.
- The console-mode constants are assumed to be `"server"` and `"cli"`; their definitions are
  not part of this model.
- DataUtils.FindFKConstraint: compares the comma-joined column lists, as the source does. It
  is list equality only when no column name contains a comma (`ColumnsMatchIsListEquality`).
- DataUtils.FindTableFromRel: requires an array relationship's key to be an object with a
  table. With a bare column the source reads `.schema` of undefined and throws.
- DataUtils.FindAllFromRel: also requires the opposite constraint of an array relationship
  to exist. The source reads its column mapping without a check and throws.
- DataDisplayConfig.CreateTableMappings: requires at least as many mappings as data items.
  With fewer, the source reads `columnName` of an undefined mapping and throws.
- DataUtils.FindAllFromRel: an object relationship whose `foreign_key_constraint_on` is an
  object gets the text `[object Object]` as its local column (`ColumnText`), where the
  source puts the object itself into `lcol`.
- DataDisplayConfig.RemoveDisplayConfig: requires the display list to be present. The source
  calls `filter` on it unguarded and throws when it is absent.
- Logging is left out: `console.log` of the configuration in `getDisplayNamesPerKey`
  (Data/utils.ts), of the definition in `getCreateActionPermissionQuery`
  (v1QueryUtils.ts:140) and of each key in `RQL.where` (RQL.ts:28).
- QueryUtils.GetAddComputedFieldQuery: requires an object definition, because the source
  spreads it into the arguments.
- Rql.Rql.Where: takes each `$and` object already as its entries (column, then operator and
  value). Entries other than objects, which `Object.entries` would also enumerate, are not
  modelled. The source stores the text in a field named like the `where` method, which
  replaces the method on the instance; the model keeps it in its own field `whereText`.
- Rql.Rql.Where: models the method body at RQL.ts:22-34. As written, the constructor at
  RQL.ts:14 runs after the class-field initialisers and sets `this.where = ''`, which replaces
  the method on every instance. So `new RQL().where(...)` throws a `TypeError`: the method
  cannot be called at all.
- AddRemoteSchema.ServerRecord: the fetch lemmas (`FetchedModifyReverts`,
  `FetchedDeleteReverts`, `AddThenModifyReverts`) consider only the definitions the engine
  keeps: exactly one non-empty URL source, an integer timeout other than 0 or none, and a
  boolean forwarding flag or none. A stored timeout of 0, which the fetch shows as "60", and a
  timeout given as a string are not covered.
- RemoteSchemaPermissions.ExistingPermission: assumes that `findRemoteSchemaPermission`
  returns a permission whose `definition.value` is the stored schema text, which
  `RegistryAgrees` then relates to the registry. That helper's file is not part of this
  model. The create query stores `definition: {schema: …}` (Permissions/utils.ts:14-16), so on
  the stored object itself utils.ts:83 would read `.value` as undefined.
- Pushes into arrays are modelled as sequence displays or appends. Spreads of objects are
  modelled by building the object with its keys in JavaScript's enumeration order.

## Findings

| source | as written | input that shows it | evidently intended | confidence | as-written member | corrected member |
|---|---|---|---|---|---|---|
| console/src/components/Services/RemoteSchema/Add/addRemoteSchemaReducer.ts:202-207 | the down query removes `currState.name` as typed, while the up query adds the trimmed, space-free name | a schema name typed as ` a`: up adds `a`, down removes ` a`, which does not exist | the down query names the same normalised name as the up query | not executed | AddRemoteSchema.AddDownMissesTypedName | AddRemoteSchema.AddMigrationReverts |
| console/src/components/Services/RemoteSchema/Add/addRemoteSchemaReducer.ts:533-543 | a fetch fills the form's timeout but never records `originalTimeoutConf`, so `modifyRemoteSchema`'s down request (lines 353-355) re-creates the original with 60 | a schema stored with timeout "30", fetched and modified without touching the timeout: up sends 30, down re-creates it with 60 | the fetch records the stored timeout as the original one, so the down request restores it | not executed | AddRemoteSchema.ModifyDownResetsTimeout | AddRemoteSchema.ModifyDownKeepsTimeout |
| console/src/components/Services/RemoteSchema/Add/addRemoteSchemaReducer.ts:278-285 | the delete's down request re-creates the schema with both URLs, the headers and the forwarding flag but no `timeout_seconds`, so the engine takes 60 | a schema stored with timeout 30 and deleted: the rollback re-creates it with 60 | the down request carries the original timeout, so the rollback restores the stored schema | not executed | AddRemoteSchema.DeleteDownDropsTimeout | AddRemoteSchema.FetchedDeleteReverts |
