/** The remote-schema list (`RemoteSchema/Actions.ts`, and its older twin `Actions.js`, whose
    reducer and request-body selection are the same code): the list reducer, the body that
    `makeRequest` sends for a migration in each console mode, the inconsistency filter applied
    to fetched schemas, and the migration that removes a remote-schema permission. */
module RemoteSchemaActions {
  import opened Base
  import opened Json
  import opened Metadata
  import opened QueryUtils

  // ---------------------------------------------------------------- list reducer

  /** The list state (`listState` and what the reducer makes of it). `isError` is `false`
      or the error the fetch failed with; `rest` holds the fields of the initial state that
      this reducer never names, which only a filter update can change. */
  datatype ListState = ListState(
    remoteSchemas: seq<Json>,
    isRequesting: bool,
    isError: Json,
    viewRemoteSchema: Json,
    rest: map<string, Json>)

  /** The `data` of a filter update: the fields it carries (a missing one is `None`), merged
      over the state as `{...state, ...data}` does. */
  datatype ListPatch = ListPatch(
    remoteSchemas: Option<seq<Json>>,
    isRequesting: Option<bool>,
    isError: Option<Json>,
    viewRemoteSchema: Option<Json>,
    rest: map<string, Json>)

  datatype ListAction =
    | FetchRemoteSchemas
    | RemoteSchemasFetchSuccess(data: seq<Json>)
    | RemoteSchemasFetchFail(error: Json)
    | FilterRemoteSchemas(patch: ListPatch)
    | Reset
    | ViewRemoteSchema(view: Json)
    | SetConsistentRemoteSchemas(consistent: seq<Json>)
    | OtherListAction(actionType: string)

  /** `{...state, ...data}` */
  function Merge(state: ListState, patch: ListPatch): ListState
  {
    ListState(
      patch.remoteSchemas.GetOr(state.remoteSchemas),
      patch.isRequesting.GetOr(state.isRequesting),
      patch.isError.GetOr(state.isError),
      patch.viewRemoteSchema.GetOr(state.viewRemoteSchema),
      state.rest + patch.rest)
  }

  /** `listReducer`; the initial state `listState` is defined in another file and taken as
      a parameter. */
  function ListReducer(listState: ListState, state: ListState, action: ListAction): ListState
  {
    match action
    case FetchRemoteSchemas => state.(isRequesting := true, isError := JBool(false))
    case RemoteSchemasFetchSuccess(data) => state.(remoteSchemas := data, isRequesting := false, isError := JBool(false))
    case RemoteSchemasFetchFail(error) => state.(remoteSchemas := [], isRequesting := false, isError := error)
    case FilterRemoteSchemas(patch) => Merge(state, patch)
    case Reset => listState
    case ViewRemoteSchema(view) => state.(viewRemoteSchema := view)
    case SetConsistentRemoteSchemas(consistent) => state.(remoteSchemas := consistent)
    case OtherListAction(_) => state
  }

  /** A fetch marks the list as loading and clears the error; its success stores the data
      and ends the request; nothing else changes. */
  lemma FetchStartsAndSucceeds(listState: ListState, state: ListState, data: seq<Json>)
    ensures var r := ListReducer(listState, state, FetchRemoteSchemas);
            r.isRequesting && r.isError == JBool(false)
            && r.remoteSchemas == state.remoteSchemas && r.viewRemoteSchema == state.viewRemoteSchema && r.rest == state.rest
    ensures var r := ListReducer(listState, state, RemoteSchemasFetchSuccess(data));
            r.remoteSchemas == data && !r.isRequesting && r.isError == JBool(false)
            && r.viewRemoteSchema == state.viewRemoteSchema && r.rest == state.rest
  {
  }

  /** A failed fetch empties the list and stores the error. */
  lemma FetchFails(listState: ListState, state: ListState, error: Json)
    ensures var r := ListReducer(listState, state, RemoteSchemasFetchFail(error));
            r.remoteSchemas == [] && !r.isRequesting && r.isError == error
            && r.viewRemoteSchema == state.viewRemoteSchema && r.rest == state.rest
  {
  }

  /** Whatever state a fetch starts from, its outcome alone decides the list and the flags:
      success leaves exactly the data and no error, failure an empty list and the error. */
  lemma FetchCycle(listState: ListState, state: ListState, data: seq<Json>, error: Json)
    ensures var loading := ListReducer(listState, state, FetchRemoteSchemas);
            ListReducer(listState, loading, RemoteSchemasFetchSuccess(data))
              == state.(remoteSchemas := data, isRequesting := false, isError := JBool(false))
    ensures var loading := ListReducer(listState, state, FetchRemoteSchemas);
            ListReducer(listState, loading, RemoteSchemasFetchFail(error))
              == state.(remoteSchemas := [], isRequesting := false, isError := error)
  {
  }

  /** A filter update sets the fields it carries and keeps every other field. */
  lemma FilterMerges(listState: ListState, state: ListState, patch: ListPatch)
    ensures var r := ListReducer(listState, state, FilterRemoteSchemas(patch));
            && (patch.remoteSchemas.Some? ==> r.remoteSchemas == patch.remoteSchemas.value)
            && (patch.remoteSchemas.None? ==> r.remoteSchemas == state.remoteSchemas)
            && (patch.isRequesting.Some? ==> r.isRequesting == patch.isRequesting.value)
            && (patch.isRequesting.None? ==> r.isRequesting == state.isRequesting)
            && (patch.isError.Some? ==> r.isError == patch.isError.value)
            && (patch.isError.None? ==> r.isError == state.isError)
            && (patch.viewRemoteSchema.Some? ==> r.viewRemoteSchema == patch.viewRemoteSchema.value)
            && (patch.viewRemoteSchema.None? ==> r.viewRemoteSchema == state.viewRemoteSchema)
            && (forall k :: k in patch.rest ==> k in r.rest && r.rest[k] == patch.rest[k])
            && (forall k :: k in state.rest && k !in patch.rest ==> k in r.rest && r.rest[k] == state.rest[k])
            && (forall k :: k in r.rest ==> k in state.rest || k in patch.rest)
  {
  }

  /** Applying the same filter update twice is applying it once, and an empty update
      changes nothing. */
  lemma FilterIdempotent(listState: ListState, state: ListState, patch: ListPatch)
    ensures var once := ListReducer(listState, state, FilterRemoteSchemas(patch));
            ListReducer(listState, once, FilterRemoteSchemas(patch)) == once
    ensures ListReducer(listState, state, FilterRemoteSchemas(ListPatch(None, None, None, None, map[]))) == state
  {
    var once := Merge(state, patch);
    assert once.rest + patch.rest == once.rest;
    assert state.rest + map[] == state.rest;
  }

  /** Reset gives the initial state, and viewing a schema sets only that field. */
  lemma ResetAndView(listState: ListState, state: ListState, view: Json)
    ensures ListReducer(listState, state, Reset) == listState
    ensures ListReducer(listState, state, ViewRemoteSchema(view)) == state.(viewRemoteSchema := view)
  {
  }

  /** Setting the consistent schemas changes only the list, and an unknown action leaves the
      state as it was. */
  lemma SetConsistentOnlyList(listState: ListState, state: ListState, consistent: seq<Json>, t: string)
    ensures var r := ListReducer(listState, state, SetConsistentRemoteSchemas(consistent));
            r.remoteSchemas == consistent && r == state.(remoteSchemas := consistent)
    ensures ListReducer(listState, state, OtherListAction(t)) == state
  {
  }

  /** Setting the consistent schemas is idempotent, and the last setting wins. */
  lemma SetConsistentTwice(listState: ListState, state: ListState, first: seq<Json>, second: seq<Json>)
    ensures var once := ListReducer(listState, state, SetConsistentRemoteSchemas(first));
            ListReducer(listState, once, SetConsistentRemoteSchemas(first)) == once
            && ListReducer(listState, once, SetConsistentRemoteSchemas(second))
                 == ListReducer(listState, state, SetConsistentRemoteSchemas(second))
  {
  }

  // ---------------------------------------------------------------- fetch

  /** The kind under which remote schemas appear among inconsistent metadata objects. */
  const RemoteSchemas: string := "remote_schemas"

  /** `consistentRemoteSchemas` in `fetchRemoteSchemas`: the fetched rows, filtered by
      `filterInconsistentMetadataObjects` (a parameter) only when some metadata object is
      inconsistent. */
  method ConsistentRemoteSchemas(filterInconsistent: (seq<Json>, seq<Json>, string) -> seq<Json>,
                                 data: seq<Json>, inconsistentObjects: seq<Json>)
    returns (consistentRemoteSchemas: seq<Json>)
    ensures |inconsistentObjects| == 0 ==> consistentRemoteSchemas == data
    ensures |inconsistentObjects| > 0 ==> consistentRemoteSchemas == filterInconsistent(data, inconsistentObjects, RemoteSchemas)
  {
    consistentRemoteSchemas := data;
    if |inconsistentObjects| > 0 {
      consistentRemoteSchemas := filterInconsistent(data, inconsistentObjects, RemoteSchemas);
    }
  }

  // ---------------------------------------------------------------- request body

  const ServerConsoleMode: string := "server"
  const CliConsoleMode: string := "cli"

  /** `{type: 'bulk', args}` */
  function BulkQuery(args: seq<Json>): (q: Json)
    ensures TypeOf(q) == Some("bulk")
  {
    Obj2("type", JStr("bulk"), "args", JArr(args))
  }

  /** The up and down lists of a migration as the migration endpoint takes them. */
  function MigrationBody(migrationName: string, upQueries: seq<Json>, downQueries: seq<Json>): Json
  {
    Obj3("name", JStr(migrationName), "up", JArr(upQueries), "down", JArr(downQueries))
  }

  /** The request list of a bulk query. */
  function BulkArgs(q: Json): Option<seq<Json>>
  {
    if TypeOf(q) == Some("bulk") then
      match Get(q, "args")
      case Some(JArr(items)) => Some(items)
      case _ => None
    else None
  }

  /** The name, up list and down list of a migration body. */
  function MigrationOf(body: Json): Option<Migration>
  {
    match (Get(body, "name"), Get(body, "up"), Get(body, "down"))
    case (Some(JStr(n)), Some(JArr(up)), Some(JArr(down))) => Some(Migration(n, up, down))
    case _ => None
  }

  /** What is sent can be read back: the bulk query holds the up list, and the migration
      body the name and both lists; the bulk query is no migration body. */
  lemma RequestBodiesRoundTrip(migrationName: string, upQueries: seq<Json>, downQueries: seq<Json>)
    ensures BulkArgs(BulkQuery(upQueries)) == Some(upQueries)
    ensures MigrationOf(MigrationBody(migrationName, upQueries, downQueries)) == Some(Migration(migrationName, upQueries, downQueries))
    ensures MigrationOf(BulkQuery(upQueries)).None?
    ensures BulkArgs(MigrationBody(migrationName, upQueries, downQueries)).None?
  {
  }

  /** `finalReqBody` in `makeRequest`: the bulk up query in server mode, the migration in
      CLI mode, and nothing (`undefined`) in any other mode. */
  method MakeRequestBody(consoleMode: string, upQueries: seq<Json>, downQueries: seq<Json>, migrationName: string)
    returns (finalReqBody: Option<Json>)
    ensures consoleMode == ServerConsoleMode ==> finalReqBody.Some? && BulkArgs(finalReqBody.value) == Some(upQueries)
    ensures consoleMode == CliConsoleMode ==>
              finalReqBody.Some? && MigrationOf(finalReqBody.value) == Some(Migration(migrationName, upQueries, downQueries))
    ensures finalReqBody.None? <==> consoleMode != ServerConsoleMode && consoleMode != CliConsoleMode
  {
    var upQuery := BulkQuery(upQueries);
    var migrationBody := MigrationBody(migrationName, upQueries, downQueries);
    RequestBodiesRoundTrip(migrationName, upQueries, downQueries);
    finalReqBody := None;
    if consoleMode == ServerConsoleMode {
      finalReqBody := Some(upQuery);
    } else if consoleMode == CliConsoleMode {
      finalReqBody := Some(migrationBody);
    }
  }

  // ---------------------------------------------------------------- permissions

  /** The migration that removes the permission of `role` on the current remote schema: drop
      it, and on the way down create it again with the filter it had. The builders are the
      action-permission ones of the query utilities. */
  function RemovePermissionMigration(role: string, filter: Json, currentAction: string): Migration
  {
    Migration("removing_remoteSchema_perm",
              [GetDropActionPermissionQuery(role, currentAction)],
              [GetCreateActionPermissionQuery(role, filter, currentAction)])
  }

  /** `removeRemoteSchemaPermission`: nothing when the confirmation is refused. */
  method RemoveRemoteSchemaPermission(isOk: bool, role: string, filter: Json, currentAction: string)
    returns (m: Option<Migration>)
    ensures !isOk ==> m.None?
    ensures isOk ==> m == Some(RemovePermissionMigration(role, filter, currentAction))
  {
    if !isOk {
      return None;
    }
    var upQuery := GetDropActionPermissionQuery(role, currentAction);
    var downQuery := GetCreateActionPermissionQuery(role, filter, currentAction);
    m := Some(Migration("removing_remoteSchema_perm", [upQuery], [downQuery]));
  }

  /** Both lists have one request, and the two address the same action and role; only the
      down request carries a filter, the one given. */
  lemma RemovePermissionPaired(role: string, filter: Json, currentAction: string)
    ensures var m := RemovePermissionMigration(role, filter, currentAction);
            |m.up| == 1 && |m.down| == 1
            && ActionPermissionOf(m.up[0]) == Some((currentAction, role))
            && ActionPermissionOf(m.down[0]) == Some((currentAction, role))
            && PermissionFilter(m.up[0]).None? && PermissionFilter(m.down[0]) == Some(filter)
  {
    ActionPermissionPair(role, filter, currentAction);
  }

  /** When the registry holds the permission with the filter being edited, the migration
      removes exactly that permission, and its down puts it back. */
  lemma RemovePermissionReverts(role: string, filter: Json, currentAction: string, reg: Registry)
    requires ActionPermissionKey(currentAction, role) in reg
    requires reg[ActionPermissionKey(currentAction, role)] == Stored(Obj1("select", Obj1("filter", filter)))
    ensures var m := RemovePermissionMigration(role, filter, currentAction);
            Reverts(reg, m.up, m.down)
            && ApplyAll(reg, m.up) == Some(reg - {ActionPermissionKey(currentAction, role)})
  {
    var key := ActionPermissionKey(currentAction, role);
    var drop := GetDropActionPermissionQuery(role, currentAction);
    var create := GetCreateActionPermissionQuery(role, filter, currentAction);
    assert StringArg(drop, "role") == Some(role);
    assert Target(drop) == Some((key, None));
    assert Target(create) == Some((key, Some(reg[key])));
    RemoveReverts(reg, key, drop, create);
  }
}
