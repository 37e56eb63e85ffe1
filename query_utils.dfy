/** The metadata request builders (`v1QueryUtils`): total constructors of `{type, args}`
    objects, and readers that recover what a request names, as the server reads it. */
module QueryUtils {
  import opened Base
  import opened Json
  import opened DataTypes

  function TableJson(t: TableDef): Json
  {
    Obj2("name", JStr(t.name), "schema", JStr(t.schema))
  }

  /** Reads `{name, schema}` back into a table definition. */
  function ParseTable(j: Json): Option<TableDef>
  {
    match (Get(j, "name"), Get(j, "schema"))
    case (Some(JStr(n)), Some(JStr(s))) => Some(TableDef(n, s))
    case _ => None
  }

  /** `catalogTable(name)`: a table of the `hdb_catalog` schema. */
  function CatalogTable(name: string): Json
  {
    TableJson(TableDef(name, "hdb_catalog"))
  }

  function SqlText(q: Json): Option<string>
  {
    match Get2(q, "args", "sql")
    case Some(JStr(s)) => Some(s)
    case _ => None
  }

  /** `getRunSqlQuery`; `terminateSql` is a helper of another file, taken as a parameter. */
  function GetRunSqlQuery(terminateSql: string -> string, sql: string, shouldCascade: bool, readOnly: bool): (q: Json)
    ensures TypeOf(q) == Some("run_sql")
    ensures SqlText(q) == Some(terminateSql(sql))
    ensures Get2(q, "args", "cascade") == Some(JBool(shouldCascade))
    ensures Get2(q, "args", "read_only") == Some(JBool(readOnly))
  {
    Query("run_sql", Obj3("sql", JStr(terminateSql(sql)), "cascade", JBool(shouldCascade), "read_only", JBool(readOnly)))
  }

  function GetCreatePermissionQuery(action: string, tableDef: TableDef, role: string, permission: Json): (q: Json)
    ensures TypeOf(q) == Some("create_" + action + "_permission")
    ensures Get2(q, "args", "table") == Some(TableJson(tableDef))
    ensures Get2(q, "args", "role") == Some(JStr(role))
    ensures Get2(q, "args", "permission") == Some(permission)
  {
    Query("create_" + action + "_permission",
          Obj3("table", TableJson(tableDef), "role", JStr(role), "permission", permission))
  }

  function GetDropPermissionQuery(action: string, tableDef: TableDef, role: string): (q: Json)
    ensures TypeOf(q) == Some("drop_" + action + "_permission")
    ensures Get2(q, "args", "table") == Some(TableJson(tableDef))
    ensures Get2(q, "args", "role") == Some(JStr(role))
    ensures Get2(q, "args", "permission") == None
  {
    Query("drop_" + action + "_permission", Obj2("table", TableJson(tableDef), "role", JStr(role)))
  }

  datatype PermissionChange = CreatePermission | DropPermission

  /** Splits a request type `create_<action>_permission` / `drop_<action>_permission`. */
  function ParsePermissionType(t: string): Option<(PermissionChange, string)>
  {
    var suffix := "_permission";
    if |t| >= |suffix| && t[|t| - |suffix|..] == suffix then
      var stem := t[..|t| - |suffix|];
      if |stem| >= 7 && stem[..7] == "create_" then Some((CreatePermission, stem[7..]))
      else if |stem| >= 5 && stem[..5] == "drop_" then Some((DropPermission, stem[5..]))
      else None
    else None
  }

  lemma PermissionTypeSplit(prefix: string, action: string)
    ensures var t := prefix + action + "_permission";
            t[|t| - 11..] == "_permission" && t[..|t| - 11] == prefix + action
  {
  }

  /** The create and drop requests for the same permission name the same action, table
      and role, and only the create carries the permission body. */
  lemma PermissionQueryPair(action: string, tableDef: TableDef, role: string, permission: Json)
    ensures var c := GetCreatePermissionQuery(action, tableDef, role, permission);
            var d := GetDropPermissionQuery(action, tableDef, role);
            ParsePermissionType(TypeOf(c).value) == Some((CreatePermission, action))
            && ParsePermissionType(TypeOf(d).value) == Some((DropPermission, action))
            && ParseTable(Get2(c, "args", "table").value) == Some(tableDef)
            && Get2(c, "args", "table") == Get2(d, "args", "table")
            && Get2(c, "args", "role") == Get2(d, "args", "role")
  {
    PermissionTypeSplit("create_", action);
    PermissionTypeSplit("drop_", action);
    assert ("create_" + action)[..7] == "create_" && ("create_" + action)[7..] == action;
    assert ("drop_" + action)[..5] == "drop_" && ("drop_" + action)[5..] == action;
    assert ("drop_" + action)[0] == 'd';
  }

  function GenerateSetCustomTypesQuery(customTypes: seq<Json>): (q: Json)
    ensures TypeOf(q) == Some("set_custom_types")
    ensures Get(q, "args") == Some(JArr(customTypes))
  {
    Query("set_custom_types", JArr(customTypes))
  }

  function GenerateCreateActionQuery(name: string, definition: Json, comment: Json): (q: Json)
    ensures TypeOf(q) == Some("create_action")
    ensures Get2(q, "args", "name") == Some(JStr(name))
    ensures Get2(q, "args", "definition") == Some(definition)
    ensures Get2(q, "args", "comment") == Some(comment)
  {
    Query("create_action", Obj3("name", JStr(name), "definition", definition, "comment", comment))
  }

  function GenerateDropActionQuery(name: string): (q: Json)
    ensures TypeOf(q) == Some("drop_action")
    ensures Get(q, "args") == Some(Obj1("name", JStr(name)))
  {
    Query("drop_action", Obj1("name", JStr(name)))
  }

  function AscendingBy(column: string): Json
  {
    Obj2("column", JStr(column), "type", JStr("asc"))
  }

  function GetFetchActionsQuery(): (q: Json)
    ensures TypeOf(q) == Some("select")
    ensures Get2(q, "args", "table") == Some(CatalogTable("hdb_action"))
    ensures Get2(q, "args", "columns") == Some(Strings(["*.*"]))
    ensures Get2(q, "args", "order_by") == Some(JArr([AscendingBy("action_name")]))
  {
    Query("select", Obj3("table", CatalogTable("hdb_action"), "columns", Strings(["*.*"]),
                         "order_by", JArr([AscendingBy("action_name")])))
  }

  function GetFetchCustomTypesQuery(): (q: Json)
    ensures TypeOf(q) == Some("select")
    ensures Get2(q, "args", "table") == Some(CatalogTable("hdb_custom_types"))
    ensures Get2(q, "args", "columns") == Some(Strings(["*.*"]))
  {
    Query("select", Obj2("table", CatalogTable("hdb_custom_types"), "columns", Strings(["*.*"])))
  }

  /** The one builder that also sets `version: 2`, between `type` and `args`. */
  function GetSetCustomRootFieldsQuery(tableDef: TableDef, rootFields: Json, customColumnNames: Json): (q: Json)
    ensures TypeOf(q) == Some("set_table_custom_fields")
    ensures q.JObj? && q.keys == ["type", "version", "args"] && Get(q, "version") == Some(JNum(2))
    ensures Get2(q, "args", "table") == Some(TableJson(tableDef))
    ensures Get2(q, "args", "custom_root_fields") == Some(rootFields)
    ensures Get2(q, "args", "custom_column_names") == Some(customColumnNames)
  {
    Obj3("type", JStr("set_table_custom_fields"), "version", JNum(2),
         "args", Obj3("table", TableJson(tableDef), "custom_root_fields", rootFields,
                      "custom_column_names", customColumnNames))
  }

  /** Here the table object lists `schema` before `name`, and `order_by` is a single object. */
  function GetFetchAllRolesQuery(): (q: Json)
    ensures TypeOf(q) == Some("select")
    ensures Get3(q, "args", "table", "schema") == Some(JStr("hdb_catalog"))
    ensures Get3(q, "args", "table", "name") == Some(JStr("hdb_role"))
    ensures Get2(q, "args", "columns") == Some(Strings(["role_name"]))
    ensures Get2(q, "args", "order_by") == Some(AscendingBy("role_name"))
  {
    Query("select", Obj3("table", Obj2("schema", JStr("hdb_catalog"), "name", JStr("hdb_role")),
                         "columns", Strings(["role_name"]), "order_by", AscendingBy("role_name")))
  }

  function GetCreateActionPermissionQuery(role: string, filter: Json, actionName: string): (q: Json)
    ensures TypeOf(q) == Some("create_action_permission")
    ensures Get2(q, "args", "action") == Some(JStr(actionName))
    ensures Get2(q, "args", "role") == Some(JStr(role))
    ensures Get3(q, "args", "definition", "select") == Some(Obj1("filter", filter))
  {
    Query("create_action_permission",
          Obj3("action", JStr(actionName), "role", JStr(role),
               "definition", Obj1("select", Obj1("filter", filter))))
  }

  function GetUpdateActionQuery(definition: Json, actionName: string, actionComment: Json): (q: Json)
    ensures TypeOf(q) == Some("update_action")
    ensures Get2(q, "args", "name") == Some(JStr(actionName))
    ensures Get2(q, "args", "definition") == Some(definition)
    ensures Get2(q, "args", "comment") == Some(actionComment)
  {
    Query("update_action", Obj3("name", JStr(actionName), "definition", definition, "comment", actionComment))
  }

  function GetDropActionPermissionQuery(role: string, actionName: string): (q: Json)
    ensures TypeOf(q) == Some("drop_action_permission")
    ensures Get(q, "args") == Some(Obj2("action", JStr(actionName), "role", JStr(role)))
  {
    Query("drop_action_permission", Obj2("action", JStr(actionName), "role", JStr(role)))
  }

  /** The `(action, role)` an action-permission request is about. */
  function ActionPermissionOf(q: Json): Option<(string, string)>
  {
    match (Get2(q, "args", "action"), Get2(q, "args", "role"))
    case (Some(JStr(a)), Some(JStr(r))) => Some((a, r))
    case _ => None
  }

  /** The filter an action-permission request grants, at `definition.select.filter`. */
  function PermissionFilter(q: Json): Option<Json>
  {
    match Get3(q, "args", "definition", "select")
    case Some(sel) => Get(sel, "filter")
    case None => None
  }

  /** Creating and dropping an action permission address the same `(action, role)`; the
      create carries the filter and the drop carries none. */
  lemma ActionPermissionPair(role: string, filter: Json, actionName: string)
    ensures ActionPermissionOf(GetCreateActionPermissionQuery(role, filter, actionName)) == Some((actionName, role))
    ensures ActionPermissionOf(GetDropActionPermissionQuery(role, actionName)) == Some((actionName, role))
    ensures PermissionFilter(GetCreateActionPermissionQuery(role, filter, actionName)) == Some(filter)
    ensures PermissionFilter(GetDropActionPermissionQuery(role, actionName)) == None
  {
    assert Get2(GetDropActionPermissionQuery(role, actionName), "args", "role") == Some(JStr(role));
  }

  function GetSetTableEnumQuery(tableDef: TableDef, isEnum: bool): (q: Json)
    ensures TypeOf(q) == Some("set_table_is_enum")
    ensures Get2(q, "args", "table") == Some(TableJson(tableDef))
    ensures Get2(q, "args", "is_enum") == Some(JBool(isEnum))
  {
    Query("set_table_is_enum", Obj2("table", TableJson(tableDef), "is_enum", JBool(isEnum)))
  }

  /** Tracking sends the table definition itself as `args`. */
  function GetTrackTableQuery(tableDef: TableDef): (q: Json)
    ensures TypeOf(q) == Some("add_existing_table_or_view")
    ensures Get(q, "args") == Some(TableJson(tableDef))
  {
    Query("add_existing_table_or_view", TableJson(tableDef))
  }

  /** Untracking wraps it as `{table: tableDef}`. */
  function GetUntrackTableQuery(tableDef: TableDef): (q: Json)
    ensures TypeOf(q) == Some("untrack_table")
    ensures Get(q, "args") == Some(Obj1("table", TableJson(tableDef)))
  {
    Query("untrack_table", Obj1("table", TableJson(tableDef)))
  }

  /** The table a request is about, read the way each request type places it: tracking
      puts it in `args` itself, every other table request in `args.table`. */
  function TargetTable(q: Json): Option<TableDef>
  {
    if TypeOf(q) == Some("add_existing_table_or_view") then
      match Get(q, "args")
      case Some(a) => ParseTable(a)
      case None => None
    else
      match Get2(q, "args", "table")
      case Some(t) => ParseTable(t)
      case None => None
  }

  /** Tracking and untracking address the same table, though they place it differently;
      reading the track request like any other table request finds no table. */
  lemma TrackUntrackSameTable(tableDef: TableDef)
    ensures TargetTable(GetTrackTableQuery(tableDef)) == Some(tableDef)
    ensures TargetTable(GetUntrackTableQuery(tableDef)) == Some(tableDef)
    ensures Get2(GetTrackTableQuery(tableDef), "args", "table") == None
  {
    assert TypeOf(GetUntrackTableQuery(tableDef)) != Some("add_existing_table_or_view");
  }

  /** `{...definition}` copies an object's own keys; the definition is always an object here. */
  function GetAddComputedFieldQuery(tableDef: TableDef, computedFieldName: string, definition: Json, comment: Json): (q: Json)
    requires definition.JObj?
    ensures TypeOf(q) == Some("add_computed_field")
    ensures TargetTable(q) == Some(tableDef)
    ensures Get2(q, "args", "name") == Some(JStr(computedFieldName))
    ensures Get2(q, "args", "definition") == Some(definition)
    ensures Get2(q, "args", "comment") == Some(comment)
  {
    Query("add_computed_field", Obj4("table", TableJson(tableDef), "name", JStr(computedFieldName),
                                     "definition", JObj(definition.keys, definition.values), "comment", comment))
  }

  function GetDropComputedFieldQuery(tableDef: TableDef, computedFieldName: string): (q: Json)
    ensures TypeOf(q) == Some("drop_computed_field")
    ensures TargetTable(q) == Some(tableDef)
    ensures Get2(q, "args", "name") == Some(JStr(computedFieldName))
    ensures Get2(q, "args", "definition") == None
  {
    Query("drop_computed_field", Obj2("table", TableJson(tableDef), "name", JStr(computedFieldName)))
  }

  function GetDeleteQuery(pkClause: Json, tableName: string, schemaName: string): (q: Json)
    ensures TypeOf(q) == Some("delete")
    ensures TargetTable(q) == Some(TableDef(tableName, schemaName))
    ensures Get2(q, "args", "where") == Some(pkClause)
  {
    Query("delete", Obj2("table", TableJson(TableDef(tableName, schemaName)), "where", pkClause))
  }

  /** `pkClauses.map(...)`: one delete per primary-key clause, in order, all on one table. */
  function GetBulkDeleteQuery(pkClauses: seq<Json>, tableName: string, schemaName: string): (r: seq<Json>)
    ensures |r| == |pkClauses|
    ensures forall i :: 0 <= i < |r| ==>
              TypeOf(r[i]) == Some("delete")
              && TargetTable(r[i]) == Some(TableDef(tableName, schemaName))
              && Get2(r[i], "args", "where") == Some(pkClauses[i])
  {
    seq(|pkClauses|, i requires 0 <= i < |pkClauses| => GetDeleteQuery(pkClauses[i], tableName, schemaName))
  }

  /** The `where` clauses of a list of deletes. */
  function WhereClauses(qs: seq<Json>): seq<Option<Json>>
  {
    seq(|qs|, i requires 0 <= i < |qs| => Get2(qs[i], "args", "where"))
  }

  /** Bulk delete distributes over concatenation of the clause list. */
  lemma BulkDeleteAppend(a: seq<Json>, b: seq<Json>, tableName: string, schemaName: string)
    ensures GetBulkDeleteQuery(a + b, tableName, schemaName)
            == GetBulkDeleteQuery(a, tableName, schemaName) + GetBulkDeleteQuery(b, tableName, schemaName)
  {
  }

  function GetEnumOptionsQuery(enumTableName: string, enumColumnName: string, currentSchema: string): (q: Json)
    ensures TypeOf(q) == Some("select")
    ensures TargetTable(q) == Some(TableDef(enumTableName, currentSchema))
    ensures Get2(q, "args", "columns") == Some(Strings([enumColumnName]))
  {
    Query("select", Obj2("table", TableJson(TableDef(enumTableName, currentSchema)),
                         "columns", Strings([enumColumnName])))
  }

  /** The requests whose `args` is `{}`. */
  function InconsistentObjectsQuery(): (q: Json)
    ensures TypeOf(q) == Some("get_inconsistent_metadata") && Get(q, "args") == Some(Obj0())
  {
    Query("get_inconsistent_metadata", Obj0())
  }

  function DropInconsistentObjectsQuery(): (q: Json)
    ensures TypeOf(q) == Some("drop_inconsistent_metadata") && Get(q, "args") == Some(Obj0())
  {
    Query("drop_inconsistent_metadata", Obj0())
  }

  function ExportMetadataQuery(): (q: Json)
    ensures TypeOf(q) == Some("export_metadata") && Get(q, "args") == Some(Obj0())
  {
    Query("export_metadata", Obj0())
  }

  function ResetMetadataQuery(): (q: Json)
    ensures TypeOf(q) == Some("clear_metadata") && Get(q, "args") == Some(Obj0())
  {
    Query("clear_metadata", Obj0())
  }

  function GetReloadMetadataQuery(shouldReloadRemoteSchemas: bool): (q: Json)
    ensures TypeOf(q) == Some("reload_metadata")
    ensures Get2(q, "args", "reload_remote_schemas") == Some(JBool(shouldReloadRemoteSchemas))
  {
    Query("reload_metadata", Obj1("reload_remote_schemas", JBool(shouldReloadRemoteSchemas)))
  }

  function GetReloadRemoteSchemaCacheQuery(remoteSchemaName: string): (q: Json)
    ensures TypeOf(q) == Some("reload_remote_schema")
    ensures Get2(q, "args", "name") == Some(JStr(remoteSchemaName))
  {
    Query("reload_remote_schema", Obj1("name", JStr(remoteSchemaName)))
  }

  function GenerateReplaceMetadataQuery(metadataJson: Json): (q: Json)
    ensures TypeOf(q) == Some("replace_metadata")
    ensures Get(q, "args") == Some(metadataJson)
  {
    Query("replace_metadata", metadataJson)
  }

  /** The `where` of a display-name search: `{[displayName]: {$ilike: '%v%'}}`. */
  function ILikeFilter(column: string, searchValue: string): Json
  {
    Obj1(column, Obj1("$ilike", JStr("%" + searchValue + "%")))
  }

  function GetFilterByDisplayNameQuery(searchValue: string, currentSchema: string, fkOpts: FkOptions): (q: Json)
    ensures TypeOf(q) == Some("select")
    ensures TargetTable(q) == Some(TableDef(fkOpts.refTable, currentSchema))
    ensures Get2(q, "args", "columns") == Some(Strings([fkOpts.to, fkOpts.displayName]))
    ensures Get2(q, "args", "where").Some? <==> searchValue != ""
    ensures searchValue != "" ==>
              Get3(q, "args", "where", fkOpts.displayName) == Some(Obj1("$ilike", JStr("%" + searchValue + "%")))
    ensures Get2(q, "args", "limit") == Some(JNum(20))
    ensures Get(q, "args").Some? && Get(q, "args").value.JObj?
    ensures Get(q, "args").value.keys
            == (if searchValue != "" then ["table", "columns", "where", "limit"] else ["table", "columns", "limit"])
  {
    var table := TableJson(TableDef(fkOpts.refTable, currentSchema));
    var columns := Strings([fkOpts.to, fkOpts.displayName]);
    if searchValue != "" then
      Query("select", Obj4("table", table, "columns", columns,
                           "where", ILikeFilter(fkOpts.displayName, searchValue), "limit", JNum(20)))
    else
      Query("select", Obj3("table", table, "columns", columns, "limit", JNum(20)))
  }

  function GetLoadConsoleOptsQuery(): (q: Json)
    ensures TypeOf(q) == Some("select")
    ensures TargetTable(q) == Some(TableDef("hdb_version", "hdb_catalog"))
    ensures Get2(q, "args", "columns") == Some(Strings(["hasura_uuid", "console_state"]))
  {
    Query("select", Obj2("table", CatalogTable("hdb_version"), "columns", Strings(["hasura_uuid", "console_state"])))
  }

  function GetForeignKeyOptionsQuery(m: Mapping, currentSchema: string): (q: Json)
    ensures TypeOf(q) == Some("select")
    ensures TargetTable(q) == Some(TableDef(m.refTableName, currentSchema))
    ensures Get2(q, "args", "columns") == Some(Strings([m.displayColumnName, m.refColumnName]))
    ensures Get2(q, "args", "limit") == Some(JNum(20))
  {
    Query("select", Obj3("table", TableJson(TableDef(m.refTableName, currentSchema)),
                         "columns", Strings([m.displayColumnName, m.refColumnName]), "limit", JNum(20)))
  }

  function OptionalNumber(n: Option<int>): Option<Json>
  {
    match n
    case Some(x) => Some(JNum(x))
    case None => None
  }

  function OptionalString(s: Option<string>): Option<Json>
  {
    match s
    case Some(x) => Some(JStr(x))
    case None => None
  }

  /** `[key]` when the optional value is present, else nothing. */
  function KeyIfPresent(key: string, v: Option<Json>): seq<string>
  {
    if v.Some? then [key] else []
  }

  function PutIfPresent(m: map<string, Json>, key: string, v: Option<Json>): map<string, Json>
  {
    if v.Some? then m[key := v.value] else m
  }

  /** `generateSelectQuery`: `tableDef` is an object `{tableName, schemaName}` passed
      through. An `undefined` field (`limit`, `offset`, `order_by`) is left out of the request,
      as `JSON.stringify` leaves it out. */
  function GenerateSelectQuery(qtype: string, tableDef: Json, where: Json, limit: Option<int>, offset: Option<int>,
                               orderBy: Option<string>, columns: seq<string>): (q: Json)
    ensures TypeOf(q) == Some(qtype)
    ensures Get2(q, "args", "columns") == Some(Strings(columns))
    ensures Get2(q, "args", "where") == Some(where)
    ensures Get2(q, "args", "table") == Some(tableDef)
    ensures Get2(q, "args", "limit") == OptionalNumber(limit)
    ensures Get2(q, "args", "offset") == OptionalNumber(offset)
    ensures Get2(q, "args", "order_by") == OptionalString(orderBy)
    ensures Get(q, "args").Some? && Get(q, "args").value.JObj?
    ensures Get(q, "args").value.keys
            == ["columns", "where"] + KeyIfPresent("limit", OptionalNumber(limit))
               + KeyIfPresent("offset", OptionalNumber(offset)) + KeyIfPresent("order_by", OptionalString(orderBy))
               + ["table"]
  {
    var l, o, b := OptionalNumber(limit), OptionalNumber(offset), OptionalString(orderBy);
    var keys := ["columns", "where"] + KeyIfPresent("limit", l) + KeyIfPresent("offset", o)
                + KeyIfPresent("order_by", b) + ["table"];
    var values := PutIfPresent(PutIfPresent(PutIfPresent(
                    map["columns" := Strings(columns), "where" := where, "table" := tableDef],
                    "limit", l), "offset", o), "order_by", b);
    Query(qtype, JObj(keys, values))
  }

  function GetFetchManualTriggersQuery(tableName: string): (q: Json)
    ensures TypeOf(q) == Some("select")
    ensures TargetTable(q) == Some(TableDef("event_triggers", "hdb_catalog"))
    ensures Get2(q, "args", "columns") == Some(Strings(["*"]))
    ensures Get2(q, "args", "order_by") == Some(Obj3("column", JStr("name"), "type", JStr("asc"), "nulls", JStr("last")))
    ensures Get2(q, "args", "where") == Some(Obj1("table_name", JStr(tableName)))
  {
    Query("select", Obj4("table", CatalogTable("event_triggers"), "columns", Strings(["*"]),
                         "order_by", Obj3("column", JStr("name"), "type", JStr("asc"), "nulls", JStr("last")),
                         "where", Obj1("table_name", JStr(tableName))))
  }
}
