/** Adding, modifying and deleting a remote schema (`Add/addRemoteSchemaReducer.ts`): the
    request form of the header rows, the up/down migrations the three thunks build, and the
    reducer of the add/edit form. */
module AddRemoteSchema {
  import opened Base
  import opened Json
  import opened Metadata

  // ---------------------------------------------------------------- headers

  /** A header row of the editor (`Header`): `htype` is "static" for a literal value and
      anything else for the name of an environment variable. */
  datatype Header = Header(name: string, htype: string, value: string)

  predicate HasName(h: Header)
  {
    h.name != ""
  }

  /** The request form of one row: `{name, value}` for a static header, else
      `{name, value_from_env}`. */
  function ReqHeader(h: Header): (r: Json)
    ensures Get(r, "name") == Some(JStr(h.name))
    ensures h.htype == "static" ==> Get(r, "value") == Some(JStr(h.value)) && Get(r, "value_from_env") == None
    ensures h.htype != "static" ==> Get(r, "value_from_env") == Some(JStr(h.value)) && Get(r, "value") == None
  {
    Obj2("name", JStr(h.name), if h.htype == "static" then "value" else "value_from_env", JStr(h.value))
  }

  /** The rows with a name, in order, in request form. */
  function RequestHeaders(headers: seq<Header>): seq<Json>
  {
    var kept := Filter(headers, HasName);
    seq(|kept|, i requires 0 <= i < |kept| => ReqHeader(kept[i]))
  }

  /** `getReqHeader` */
  method GetReqHeader(headers: seq<Header>) returns (requestHeaders: seq<Json>)
    ensures requestHeaders == RequestHeaders(headers)
  {
    requestHeaders := [];
    var headersObj := Filter(headers, HasName);
    if |headersObj| > 0 {
      var i := 0;
      while i < |headersObj|
        invariant 0 <= i <= |headersObj|
        invariant requestHeaders == seq(i, k requires 0 <= k < i => ReqHeader(headersObj[k]))
      {
        requestHeaders := requestHeaders + [ReqHeader(headersObj[i])];
        i := i + 1;
      }
    }
  }

  /** Rows are converted one by one, so the conversion distributes over concatenation; a row
      contributes exactly when it has a name. */
  lemma {:induction false} RequestHeadersAppend(a: seq<Header>, b: seq<Header>)
    ensures RequestHeaders(a + b) == RequestHeaders(a) + RequestHeaders(b)
  {
    FilterAppend(a, b, HasName);
  }

  lemma RequestHeadersSingle(h: Header)
    ensures RequestHeaders([h]) == if HasName(h) then [ReqHeader(h)] else []
  {
    assert [h][..0] == [];
  }

  /** A header as the server stores it; "" stands for a field that is missing. */
  datatype RawHeader = RawHeader(name: string, value: string, value_from_env: string)

  /** How `fetchRemoteSchema` turns a stored header into an editor row. */
  function EditorRow(d: RawHeader): Header
  {
    Header(d.name, if d.value != "" then "static" else "env", if d.value != "" then d.value else d.value_from_env)
  }

  function EditorRows(raw: seq<RawHeader>): (r: seq<Header>)
    ensures |r| == |raw| && forall i :: 0 <= i < |raw| ==> r[i] == EditorRow(raw[i])
  {
    seq(|raw|, i requires 0 <= i < |raw| => EditorRow(raw[i]))
  }

  /** The rows the editor gets after a fetch: one per stored header, then a blank row. */
  function EditorHeaders(raw: seq<RawHeader>): (r: seq<Header>)
    ensures |r| == |raw| + 1 && r[|raw|] == Header("", "static", "")
  {
    EditorRows(raw) + [Header("", "static", "")]
  }

  /** A stored header in the form the server was sent it. */
  function ServerHeader(d: RawHeader): Json
  {
    if d.value != "" then Obj2("name", JStr(d.name), "value", JStr(d.value))
    else Obj2("name", JStr(d.name), "value_from_env", JStr(d.value_from_env))
  }

  /** Fetching a schema's headers into the editor and sending them back unchanged gives the
      server the headers it holds: the blank row is dropped and each type survives. */
  lemma EditorHeadersRoundTrip(raw: seq<RawHeader>)
    requires forall i :: 0 <= i < |raw| ==> raw[i].name != ""
    ensures RequestHeaders(EditorHeaders(raw)) == seq(|raw|, i requires 0 <= i < |raw| => ServerHeader(raw[i]))
  {
    var rows := EditorRows(raw);
    FilterAppend(rows, [Header("", "static", "")], HasName);
    FilterAllPass(rows, HasName);
    assert [Header("", "static", "")][..0] == [];
    assert Filter(EditorHeaders(raw), HasName) == rows;
  }

  // ---------------------------------------------------------------- state

  /** `timeout_seconds` as stored: a number or a string. */
  datatype TimeoutValue = TNum(n: int) | TStr(s: string)

  predicate TimeoutTruthy(t: TimeoutValue)
  {
    match t
    case TNum(n) => n != 0
    case TStr(s) => s != ""
  }

  /** `timeout_seconds.toString()` */
  function TimeoutText(t: TimeoutValue): string
  {
    match t
    case TNum(n) => IntToString(n)
    case TStr(s) => s
  }

  /** A remote schema's stored definition; each field may be missing. */
  datatype RemoteSchemaDef = RemoteSchemaDef(
    url: Option<string>,
    url_from_env: Option<string>,
    headers: Option<seq<Json>>,
    timeout_seconds: Option<TimeoutValue>,
    forward_client_headers: Json)

  /** One row of the fetched `remote_schemas` table. */
  datatype RemoteSchemaRecord = RemoteSchemaRecord(id: Json, name: string, definition: RemoteSchemaDef)

  /** The fields of `editState` that the reducer and the thunks read. */
  datatype EditState = EditState(
    headers: seq<Json>,
    isModify: bool,
    id: Json,
    originalName: string,
    originalHeaders: seq<Json>,
    originalUrl: Option<string>,
    originalEnvUrl: Option<string>,
    originalForwardClientHeaders: Json,
    originalTimeoutConf: Option<string>)

  /** The add/edit form (`addData`). */
  datatype AddState = AddState(
    manualUrl: Option<string>,
    envName: Option<string>,
    name: string,
    timeoutConf: string,
    forwardClientHeaders: Json,
    headers: seq<Json>,
    isRequesting: bool,
    isError: Json,
    isFetching: bool,
    isFetchError: Json,
    editState: EditState)

  datatype AddAction =
    | ManualUrlChanged(url: string)
    | NameChanged(newName: string)
    | EnvUrlChanged(env: string)
    | TimeoutConfChanged(conf: string)
    | AddingRemoteSchema
    | AddRemoteSchemaFail(error: Json)
    | ToggleModify
    | Reset
    | FetchingIndivRemoteSchema
    | RemoteSchemaFetchSuccess(rows: seq<RemoteSchemaRecord>)
    | RemoteSchemaFetchFail(error: Json)
    | DeleteRemoteSchemaFail(error: Json)
    | DeletingRemoteSchema
    | ModifyRemoteSchemaFail(error: Json)
    | ModifyingRemoteSchema
    | UpdateForwardClientHeaders
    | ResetHeader
    | UpdateHeaders(newHeaders: seq<Json>)
    | OtherAction(actionType: string)

  /** `s || null` on an optional string. */
  function NonEmpty(s: Option<string>): Option<string>
  {
    if s.Some? && s.value != "" then s else None
  }

  /** The `timeoutConf` a fetched schema puts in the form. */
  function FetchedTimeoutConf(t: Option<TimeoutValue>): string
  {
    if t.Some? && TimeoutTruthy(t.value) then TimeoutText(t.value) else "60"
  }

  /** `editState` after a fetch: `{...state, ...}` copies the form's own top-level fields,
      so `headers` is the form's headers from before the fetch, and there is no
      `originalTimeoutConf` among them. */
  function FetchedEditState(state: AddState, row: RemoteSchemaRecord): EditState
  {
    var d := row.definition;
    EditState(
      headers := state.headers,
      isModify := false,
      id := row.id,
      originalName := row.name,
      originalHeaders := d.headers.GetOr([]),
      originalUrl := NonEmpty(d.url),
      originalEnvUrl := NonEmpty(d.url_from_env),
      originalForwardClientHeaders := if Truthy(d.forward_client_headers) then d.forward_client_headers else JBool(false),
      originalTimeoutConf := None)
  }

  /** `addRemoteSchemaReducer`; `addState` (the initial form) and `defaultHeader` are
      defined in other files and taken as parameters. A fetch success reads `data[0]`,
      which exists whenever the action is dispatched. */
  function AddRemoteSchemaReducer(addState: AddState, defaultHeader: Json, state: AddState, action: AddAction): AddState
    requires action.RemoteSchemaFetchSuccess? ==> |action.rows| > 0
  {
    match action
    case ManualUrlChanged(url) => state.(manualUrl := Some(url), envName := None)
    case NameChanged(newName) => state.(name := newName)
    case EnvUrlChanged(env) => state.(envName := Some(env), manualUrl := None)
    case TimeoutConfChanged(conf) => state.(timeoutConf := conf)
    case AddingRemoteSchema => state.(isRequesting := true, isError := JNull)
    case AddRemoteSchemaFail(error) => state.(isRequesting := false, isError := error)
    case ToggleModify =>
      state.(headers := state.editState.headers, editState := state.editState.(isModify := !state.editState.isModify))
    case Reset => addState
    case FetchingIndivRemoteSchema => state.(isFetching := true, isFetchError := JNull)
    case RemoteSchemaFetchSuccess(rows) =>
      var row := rows[0];
      var d := row.definition;
      state.(
        name := row.name,
        manualUrl := NonEmpty(d.url),
        envName := NonEmpty(d.url_from_env),
        headers := d.headers.GetOr([]),
        timeoutConf := FetchedTimeoutConf(d.timeout_seconds),
        forwardClientHeaders := d.forward_client_headers,
        editState := FetchedEditState(state, row),
        isFetching := false,
        isFetchError := JNull)
    case RemoteSchemaFetchFail(error) => state.(isFetching := false, isFetchError := error)
    case DeleteRemoteSchemaFail(error) => state.(isRequesting := false, isError := error)
    case DeletingRemoteSchema => state.(isRequesting := true, isError := JNull)
    case ModifyRemoteSchemaFail(error) => state.(isRequesting := false, isError := error)
    case ModifyingRemoteSchema => state.(isRequesting := true, isError := JNull)
    case UpdateForwardClientHeaders => state.(forwardClientHeaders := JBool(!Truthy(state.forwardClientHeaders)))
    case ResetHeader => state.(headers := [defaultHeader])
    case UpdateHeaders(newHeaders) => state.(headers := newHeaders)
    case OtherAction(_) => state
  }

  /** Choosing a manual URL clears the environment variable and the converse; nothing else
      changes, and the two are never both set afterwards. */
  lemma UrlSourcesExclusive(addState: AddState, defaultHeader: Json, state: AddState, url: string, env: string)
    ensures var r := AddRemoteSchemaReducer(addState, defaultHeader, state, ManualUrlChanged(url));
            r.manualUrl == Some(url) && r.envName.None? && r == state.(manualUrl := r.manualUrl, envName := None)
    ensures var r := AddRemoteSchemaReducer(addState, defaultHeader, state, EnvUrlChanged(env));
            r.envName == Some(env) && r.manualUrl.None? && r == state.(envName := r.envName, manualUrl := None)
  {
  }

  /** Starting a request clears the error; a failure stores it and ends the request. */
  lemma RequestFlags(addState: AddState, defaultHeader: Json, state: AddState, error: Json)
    ensures forall a :: a in {AddingRemoteSchema, DeletingRemoteSchema, ModifyingRemoteSchema} ==>
              AddRemoteSchemaReducer(addState, defaultHeader, state, a) == state.(isRequesting := true, isError := JNull)
    ensures forall a :: a in {AddRemoteSchemaFail(error), DeleteRemoteSchemaFail(error), ModifyRemoteSchemaFail(error)} ==>
              AddRemoteSchemaReducer(addState, defaultHeader, state, a) == state.(isRequesting := false, isError := error)
  {
  }

  /** Reset gives the initial form, and an unknown action an equal state. */
  lemma ResetAndDefault(addState: AddState, defaultHeader: Json, state: AddState, t: string)
    ensures AddRemoteSchemaReducer(addState, defaultHeader, state, Reset) == addState
    ensures AddRemoteSchemaReducer(addState, defaultHeader, state, OtherAction(t)) == state
  {
  }

  /** Toggling modify twice restores the flag, leaving the form's headers at the saved ones. */
  lemma ToggleModifyTwice(addState: AddState, defaultHeader: Json, state: AddState)
    ensures var once := AddRemoteSchemaReducer(addState, defaultHeader, state, ToggleModify);
            var twice := AddRemoteSchemaReducer(addState, defaultHeader, once, ToggleModify);
            once.editState.isModify == !state.editState.isModify
            && twice == state.(headers := state.editState.headers)
  {
  }

  /** Toggling forwarding of client headers twice restores its truth value, and restores the
      value itself when it was a boolean. */
  lemma ForwardClientHeadersTwice(addState: AddState, defaultHeader: Json, state: AddState)
    ensures var once := AddRemoteSchemaReducer(addState, defaultHeader, state, UpdateForwardClientHeaders);
            var twice := AddRemoteSchemaReducer(addState, defaultHeader, once, UpdateForwardClientHeaders);
            Truthy(once.forwardClientHeaders) == !Truthy(state.forwardClientHeaders)
            && Truthy(twice.forwardClientHeaders) == Truthy(state.forwardClientHeaders)
            && (state.forwardClientHeaders.JBool? ==> twice == state)
  {
  }

  /** A fetched schema fills the form: the timeout as text, or "60" when it is missing or
      zero; both URL fields, of which at most one is set when the stored definition has just
      one; and the original values the edit thunks read. */
  lemma FetchSuccessFillsForm(addState: AddState, defaultHeader: Json, state: AddState, rows: seq<RemoteSchemaRecord>)
    requires |rows| > 0
    ensures var r := AddRemoteSchemaReducer(addState, defaultHeader, state, RemoteSchemaFetchSuccess(rows));
            var d := rows[0].definition;
            && (d.timeout_seconds.Some? && TimeoutTruthy(d.timeout_seconds.value) ==> r.timeoutConf == TimeoutText(d.timeout_seconds.value))
            && (d.timeout_seconds.None? || !TimeoutTruthy(d.timeout_seconds.value) ==> r.timeoutConf == "60")
            && r.name == rows[0].name && r.editState.originalName == rows[0].name
            && r.manualUrl == r.editState.originalUrl && r.envName == r.editState.originalEnvUrl
            && (d.url_from_env.None? ==> r.envName.None?)
            && r.editState.isModify == false && !r.isFetching && r.isFetchError == JNull
            && r.editState.originalTimeoutConf.None?
  {
  }

  // ---------------------------------------------------------------- migrations

  /** `parseInt(conf, 10)`, 60 when it is not a number; `parse` stands for `parseInt`, and a
      missing text parses as nothing. */
  function TimeoutSeconds(parse: string -> Option<int>, conf: Option<string>): (n: int)
    ensures conf.Some? && parse(conf.value).Some? ==> n == parse(conf.value).value
    ensures conf.None? || parse(conf.value).None? ==> n == 60
  {
    match conf
    case None => 60
    case Some(c) => match parse(c) case Some(n) => n case None => 60
  }

  predicate UrlTruthy(url: Option<string>)
  {
    url.Some? && url.value != ""
  }

  /** `if (def.url) delete def.url_from_env; else delete def.url;` */
  function KeepOneUrl(def: Json, url: Option<string>): (r: Json)
    requires def.JObj?
    ensures r.JObj?
    ensures UrlTruthy(url) ==> Get(r, "url") == Get(def, "url") && Get(r, "url_from_env") == None
    ensures !UrlTruthy(url) ==> Get(r, "url_from_env") == Get(def, "url_from_env") && Get(r, "url") == None
    ensures forall k :: k != "url" && k != "url_from_env" ==> Get(r, k) == Get(def, k)
  {
    if UrlTruthy(url) then RemoveKey(def, "url_from_env") else RemoveKey(def, "url")
  }

  /** The statement both thunks use to drop the URL field that is not in use. */
  method DeleteUnusedUrl(def: Json, url: Option<string>) returns (r: Json)
    requires def.JObj?
    ensures r == KeepOneUrl(def, url)
  {
    r := def;
    if UrlTruthy(url) {
      r := RemoveKey(r, "url_from_env");
    } else {
      r := RemoveKey(r, "url");
    }
  }

  function AddRemoteSchemaQuery(name: string, definition: Json): (q: Json)
    ensures TypeOf(q) == Some("add_remote_schema") && StringArg(q, "name") == Some(name)
    ensures DefinitionArg(q) == definition
  {
    Query("add_remote_schema", Obj2("name", JStr(name), "definition", definition))
  }

  function RemoveRemoteSchemaQuery(name: string): (q: Json)
    ensures TypeOf(q) == Some("remove_remote_schema") && StringArg(q, "name") == Some(name)
    ensures Get2(q, "args", "definition") == None
  {
    Query("remove_remote_schema", Obj1("name", JStr(name)))
  }

  lemma AddTarget(name: string, definition: Json)
    ensures Target(AddRemoteSchemaQuery(name, definition)) == Some((RemoteSchemaKey(name), Some(ReadRemoteSchemaDef(definition))))
  {
  }

  lemma RemoveTarget(name: string)
    ensures Target(RemoveRemoteSchemaQuery(name)) == Some((RemoteSchemaKey(name), None))
  {
  }

  /** The definition `addRemoteSchema` sends. */
  function AddDefinition(state: AddState, headers: seq<Header>, parse: string -> Option<int>): Json
  {
    KeepOneUrl(Obj5("url", OrNull(state.manualUrl), "url_from_env", OrNull(state.envName),
                    "headers", JArr(RequestHeaders(headers)),
                    "timeout_seconds", JNum(TimeoutSeconds(parse, Some(state.timeoutConf))),
                    "forward_client_headers", state.forwardClientHeaders),
               state.manualUrl)
  }

  /** The migration `addRemoteSchema` builds, as written: its down request removes the
      name as typed, not the normalised name the up request adds. */
  function AddMigrationAsWritten(state: AddState, headers: seq<Header>, parse: string -> Option<int>): Migration
  {
    Migration("create_remote_schema_" + NormalizeName(state.name),
              [AddRemoteSchemaQuery(NormalizeName(state.name), AddDefinition(state, headers, parse))],
              [RemoveRemoteSchemaQuery(state.name)])
  }

  /** The migration with the down request removing the schema the up request adds. */
  function AddMigration(state: AddState, headers: seq<Header>, parse: string -> Option<int>): (m: Migration)
    ensures m.name == "create_remote_schema_" + NormalizeName(state.name)
    ensures m.up == AddMigrationAsWritten(state, headers, parse).up
  {
    Migration("create_remote_schema_" + NormalizeName(state.name),
              [AddRemoteSchemaQuery(NormalizeName(state.name), AddDefinition(state, headers, parse))],
              [RemoveRemoteSchemaQuery(NormalizeName(state.name))])
  }

  /** The request part of `addRemoteSchema`. */
  method AddRemoteSchema(state: AddState, headers: seq<Header>, parse: string -> Option<int>) returns (m: Migration)
    ensures m == AddMigrationAsWritten(state, headers, parse)
  {
    var timeoutSeconds := TimeoutSeconds(parse, Some(state.timeoutConf));
    var reqHeaders := GetReqHeader(headers);
    var definition := Obj5("url", OrNull(state.manualUrl), "url_from_env", OrNull(state.envName),
                           "headers", JArr(reqHeaders), "timeout_seconds", JNum(timeoutSeconds),
                           "forward_client_headers", state.forwardClientHeaders);
    definition := DeleteUnusedUrl(definition, state.manualUrl);
    var migrationName := "create_remote_schema_" + NormalizeName(state.name);
    var payload := AddRemoteSchemaQuery(NormalizeName(state.name), definition);
    var downPayload := RemoveRemoteSchemaQuery(state.name);
    var upQueryArgs := [payload];
    var downQueryArgs := [downPayload];
    m := Migration(migrationName, upQueryArgs, downQueryArgs);
  }

  /** The added definition has exactly one of `url` and `url_from_env`: the manual URL when
      it is non-empty, else the environment variable (possibly null); the named headers; the
      parsed timeout or 60; and the forwarding flag. */
  lemma AddDefinitionShape(state: AddState, headers: seq<Header>, parse: string -> Option<int>)
    ensures var d := AddDefinition(state, headers, parse);
            (HasKey(d, "url") <==> !HasKey(d, "url_from_env"))
            && (UrlTruthy(state.manualUrl) ==> Get(d, "url") == Some(JStr(state.manualUrl.value)))
            && (!UrlTruthy(state.manualUrl) ==> Get(d, "url_from_env") == Some(OrNull(state.envName)))
            && Get(d, "headers") == Some(JArr(RequestHeaders(headers)))
            && Get(d, "timeout_seconds") == Some(JNum(if parse(state.timeoutConf).Some? then parse(state.timeoutConf).value else 60))
            && Get(d, "forward_client_headers") == Some(state.forwardClientHeaders)
  {
  }

  /** The name a schema is added under has no spaces and is its own trim. */
  lemma AddedNameNormalised(state: AddState, headers: seq<Header>, parse: string -> Option<int>)
    ensures StringArg(AddMigration(state, headers, parse).up[0], "name") == Some(NormalizeName(state.name))
    ensures ' ' !in NormalizeName(state.name) && Trim(NormalizeName(state.name)) == NormalizeName(state.name)
  {
    NormalizedNameShape(state.name);
  }

  lemma SpacedNameNormalised()
    ensures NormalizeName(" a") == "a"
  {
    assert IsJsWhitespace(' ');
    assert !IsJsWhitespace('a');
    assert " a"[1..] == "a";
    assert TrimStart("a") == "a";
    assert TrimStart(" a") == "a";
    assert TrimEnd("a") == "a";
    assert "a"[..0] == [];
    assert Filter("a", NotSpace) == Filter("a"[..0], NotSpace) + ['a'];
  }

  /** With the name " a", the up request adds "a" and the down request, as written, removes
      " a", which the server does not have: the down migration is rejected. */
  lemma AddDownMissesTypedName(state: AddState, headers: seq<Header>, parse: string -> Option<int>, reg: Registry)
    requires state.name == " a"
    requires RemoteSchemaKey("a") !in reg && RemoteSchemaKey(" a") !in reg
    ensures var m := AddMigrationAsWritten(state, headers, parse);
            ApplyAll(reg, m.up).Some? && ApplyAll(ApplyAll(reg, m.up).value, m.down) == None
  {
    var m := AddMigrationAsWritten(state, headers, parse);
    SpacedNameNormalised();
    var def := AddDefinition(state, headers, parse);
    AddTarget("a", def);
    RemoveTarget(" a");
    ApplyOne(reg, m.up[0]);
    ApplyOne(reg[RemoteSchemaKey("a") := ReadRemoteSchemaDef(def)], m.down[0]);
  }

  /** Adding a schema whose normalised name is free installs it, and the corrected down
      migration removes it again. */
  lemma AddMigrationReverts(state: AddState, headers: seq<Header>, parse: string -> Option<int>, reg: Registry)
    requires RemoteSchemaKey(NormalizeName(state.name)) !in reg
    ensures var m := AddMigration(state, headers, parse);
            Reverts(reg, m.up, m.down)
            && ApplyAll(reg, m.up) == Some(reg[RemoteSchemaKey(NormalizeName(state.name)) := ReadRemoteSchemaDef(AddDefinition(state, headers, parse))])
  {
    var n := NormalizeName(state.name);
    var def := AddDefinition(state, headers, parse);
    AddTarget(n, def);
    RemoveTarget(n);
    AddReverts(reg, RemoteSchemaKey(n), ReadRemoteSchemaDef(def), AddRemoteSchemaQuery(n, def), RemoveRemoteSchemaQuery(n));
  }

  /** The definition the delete's down request re-creates: both URL fields, the original
      headers and the forwarding flag, and no timeout. */
  function DeleteDownDefinition(e: EditState): Json
  {
    Obj4("url", OrNull(e.originalUrl), "url_from_env", OrNull(e.originalEnvUrl),
         "headers", JArr(e.originalHeaders), "forward_client_headers", e.originalForwardClientHeaders)
  }

  function DeleteMigration(state: AddState): Migration
  {
    var e := state.editState;
    Migration("remove_remote_schema_" + NormalizeName(e.originalName),
              [RemoveRemoteSchemaQuery(e.originalName)],
              [AddRemoteSchemaQuery(e.originalName, DeleteDownDefinition(e))])
  }

  /** Assigning the headers after building the object with an empty list is building it
      with the headers. */
  lemma DeleteDownHeadersAssigned(url: Json, env: Json, fch: Json, headers: Json)
    ensures Put(Obj4("url", url, "url_from_env", env, "headers", JArr([]), "forward_client_headers", fch), "headers", headers)
            == Obj4("url", url, "url_from_env", env, "headers", headers, "forward_client_headers", fch)
  {
  }

  /** The request part of `deleteRemoteSchema`. */
  method DeleteRemoteSchema(state: AddState) returns (m: Migration)
    ensures m == DeleteMigration(state)
  {
    var e := state.editState;
    var migrationName := "remove_remote_schema_" + NormalizeName(e.originalName);
    var payload := RemoveRemoteSchemaQuery(e.originalName);
    var definition := Obj4("url", OrNull(e.originalUrl), "url_from_env", OrNull(e.originalEnvUrl),
                           "headers", JArr([]), "forward_client_headers", e.originalForwardClientHeaders);
    DeleteDownHeadersAssigned(OrNull(e.originalUrl), OrNull(e.originalEnvUrl),
                              e.originalForwardClientHeaders, JArr(e.originalHeaders));
    definition := Put(definition, "headers", JArr(e.originalHeaders));
    var downPayload := AddRemoteSchemaQuery(e.originalName, definition);
    var upQueryArgs := [payload];
    var downQueryArgs := [downPayload];
    m := Migration(migrationName, upQueryArgs, downQueryArgs);
  }

  /** Deleting removes the original schema, and the down migration adds back what the edit
      form recorded; it gives back the registry when that is what the server held (and only
      then, by `DeleteMigrationRevertsOnlyThen`). */
  lemma DeleteMigrationReverts(state: AddState, reg: Registry)
    requires RemoteSchemaKey(state.editState.originalName) in reg
    requires reg[RemoteSchemaKey(state.editState.originalName)] == ReadRemoteSchemaDef(DeleteDownDefinition(state.editState))
    ensures var m := DeleteMigration(state);
            Reverts(reg, m.up, m.down) && ApplyAll(reg, m.up) == Some(reg - {RemoteSchemaKey(state.editState.originalName)})
  {
    var e := state.editState;
    AddTarget(e.originalName, DeleteDownDefinition(e));
    RemoveTarget(e.originalName);
    RemoveReverts(reg, RemoteSchemaKey(e.originalName), RemoveRemoteSchemaQuery(e.originalName),
                  AddRemoteSchemaQuery(e.originalName, DeleteDownDefinition(e)));
  }

  /** When the server held anything else under the original name, the delete's down
      migration does not give the registry back. */
  lemma DeleteMigrationRevertsOnlyThen(state: AddState, reg: Registry)
    requires RemoteSchemaKey(state.editState.originalName) in reg
    requires reg[RemoteSchemaKey(state.editState.originalName)] != ReadRemoteSchemaDef(DeleteDownDefinition(state.editState))
    ensures var m := DeleteMigration(state);
            !Reverts(reg, m.up, m.down)
  {
    var e := state.editState;
    var k := RemoteSchemaKey(e.originalName);
    var d := DeleteDownDefinition(e);
    var stored := ReadRemoteSchemaDef(d);
    AddTarget(e.originalName, d);
    RemoveTarget(e.originalName);
    ApplyOne(reg, RemoveRemoteSchemaQuery(e.originalName));
    ApplyOne(reg - {k}, AddRemoteSchemaQuery(e.originalName, d));
    var m := DeleteMigration(state);
    assert ApplyAll(ApplyAll(reg, m.up).value, m.down) == Some((reg - {k})[k := stored]);
    assert (reg - {k})[k := stored][k] != reg[k];
  }

  /** The delete's down request carries both URL fields and no timeout. */
  lemma DeleteDownShape(state: AddState)
    ensures var d := DefinitionArg(DeleteMigration(state).down[0]);
            HasKey(d, "url") && HasKey(d, "url_from_env") && !HasKey(d, "timeout_seconds")
  {
  }

  /** The definition `modifyRemoteSchema` sends up. */
  function ModifyUpDefinition(state: AddState, headers: seq<Header>, parse: string -> Option<int>): Json
  {
    KeepOneUrl(Obj5("url", OrNull(state.manualUrl), "url_from_env", OrNull(state.envName),
                    "timeout_seconds", JNum(TimeoutSeconds(parse, Some(state.timeoutConf))),
                    "forward_client_headers", state.forwardClientHeaders,
                    "headers", JArr(RequestHeaders(headers))),
               state.manualUrl)
  }

  /** The original definition `modifyRemoteSchema`'s down request re-creates. */
  function ModifyDownDefinition(e: EditState, parse: string -> Option<int>): Json
  {
    KeepOneUrl(Obj5("url", OrNull(e.originalUrl), "url_from_env", OrNull(e.originalEnvUrl),
                    "timeout_seconds", JNum(TimeoutSeconds(parse, e.originalTimeoutConf)),
                    "headers", JArr(e.originalHeaders),
                    "forward_client_headers", e.originalForwardClientHeaders),
               e.originalUrl)
  }

  function ModifyMigration(state: AddState, headers: seq<Header>, parse: string -> Option<int>): (m: Migration)
    ensures |m.up| == 2 && |m.down| == 2
  {
    var newName := NormalizeName(state.name);
    var e := state.editState;
    Migration("update_remote_schema_" + newName,
              [RemoveRemoteSchemaQuery(e.originalName), AddRemoteSchemaQuery(newName, ModifyUpDefinition(state, headers, parse))],
              [RemoveRemoteSchemaQuery(newName), AddRemoteSchemaQuery(e.originalName, ModifyDownDefinition(e, parse))])
  }

  lemma ModifyDownHeadersAssigned(url: Json, env: Json, timeout: Json, fch: Json, headers: Json)
    ensures Put(Obj5("url", url, "url_from_env", env, "timeout_seconds", timeout, "headers", JArr([]),
                     "forward_client_headers", fch), "headers", headers)
            == Obj5("url", url, "url_from_env", env, "timeout_seconds", timeout, "headers", headers,
                    "forward_client_headers", fch)
  {
  }

  /** The definition `modifyRemoteSchema` sends up, built as it builds it. */
  method BuildModifyUpDefinition(state: AddState, headers: seq<Header>, parse: string -> Option<int>) returns (definition: Json)
    ensures definition == ModifyUpDefinition(state, headers, parse)
  {
    var newTimeout := TimeoutSeconds(parse, Some(state.timeoutConf));
    var reqHeaders := GetReqHeader(headers);
    definition := Obj5("url", OrNull(state.manualUrl), "url_from_env", OrNull(state.envName),
                       "timeout_seconds", JNum(newTimeout), "forward_client_headers", state.forwardClientHeaders,
                       "headers", JArr(reqHeaders));
    definition := DeleteUnusedUrl(definition, state.manualUrl);
  }

  /** The definition `modifyRemoteSchema`'s down request re-creates, built as it builds it:
      with an empty header list first, then the original headers assigned. */
  method BuildModifyDownDefinition(e: EditState, parse: string -> Option<int>) returns (downDefinition: Json)
    ensures downDefinition == ModifyDownDefinition(e, parse)
  {
    var oldTimeout := TimeoutSeconds(parse, e.originalTimeoutConf);
    downDefinition := Obj5("url", OrNull(e.originalUrl), "url_from_env", OrNull(e.originalEnvUrl),
                           "timeout_seconds", JNum(oldTimeout), "headers", JArr([]),
                           "forward_client_headers", e.originalForwardClientHeaders);
    ModifyDownHeadersAssigned(OrNull(e.originalUrl), OrNull(e.originalEnvUrl), JNum(oldTimeout),
                              e.originalForwardClientHeaders, JArr(e.originalHeaders));
    downDefinition := Put(downDefinition, "headers", JArr(e.originalHeaders));
    downDefinition := DeleteUnusedUrl(downDefinition, e.originalUrl);
  }

  /** The request part of `modifyRemoteSchema`. */
  method ModifyRemoteSchema(state: AddState, headers: seq<Header>, parse: string -> Option<int>) returns (m: Migration)
    ensures m == ModifyMigration(state, headers, parse)
  {
    var e := state.editState;
    var remoteSchemaName := NormalizeName(state.name);
    var migrationName := "update_remote_schema_" + remoteSchemaName;
    var deleteRemoteSchemaUp := RemoveRemoteSchemaQuery(e.originalName);
    var definition := BuildModifyUpDefinition(state, headers, parse);
    var createRemoteSchemaUp := AddRemoteSchemaQuery(remoteSchemaName, definition);
    var upQueryArgs := [deleteRemoteSchemaUp, createRemoteSchemaUp];
    var deleteRemoteSchemaDown := RemoveRemoteSchemaQuery(remoteSchemaName);
    var downDefinition := BuildModifyDownDefinition(e, parse);
    var createRemoteSchemaDown := AddRemoteSchemaQuery(e.originalName, downDefinition);
    var downQueryArgs := [deleteRemoteSchemaDown, createRemoteSchemaDown];
    m := Migration(migrationName, upQueryArgs, downQueryArgs);
  }

  /** The definition a modification sends up carries exactly one URL field: `url` when the
      form's manual URL is non-empty, else `url_from_env`. */
  lemma ModifyUpShape(state: AddState, headers: seq<Header>, parse: string -> Option<int>)
    ensures var up := ModifyUpDefinition(state, headers, parse);
            (HasKey(up, "url") <==> !HasKey(up, "url_from_env"))
            && (HasKey(up, "url") <==> UrlTruthy(state.manualUrl))
            && Get(up, "headers") == Some(JArr(RequestHeaders(headers)))
  {
  }

  /** The definition a modification's down request re-creates carries exactly one URL field,
      as the original URL selects, and the original headers. */
  lemma ModifyDownShape(e: EditState, parse: string -> Option<int>)
    ensures var down := ModifyDownDefinition(e, parse);
            (HasKey(down, "url") <==> !HasKey(down, "url_from_env"))
            && (HasKey(down, "url") <==> UrlTruthy(e.originalUrl))
            && Get(down, "headers") == Some(JArr(e.originalHeaders))
  {
  }

  /** The up migration removes the original name and adds the normalised new one; the down
      migration removes that same new name and adds the original back. */
  lemma ModifyNames(state: AddState, headers: seq<Header>, parse: string -> Option<int>)
    ensures var m := ModifyMigration(state, headers, parse);
            StringArg(m.up[0], "name") == Some(state.editState.originalName)
            && StringArg(m.down[1], "name") == Some(state.editState.originalName)
            && StringArg(m.up[1], "name") == Some(NormalizeName(state.name))
            && StringArg(m.down[0], "name") == Some(NormalizeName(state.name))
  {
  }

  /** A modification whose new name is the original one or a free one replaces the original
      definition, and its down migration gives back the registry, provided the server held
      the original definition as the edit form recorded it. */
  lemma ModifyMigrationReverts(state: AddState, headers: seq<Header>, parse: string -> Option<int>, reg: Registry)
    requires RemoteSchemaKey(state.editState.originalName) in reg
    requires reg[RemoteSchemaKey(state.editState.originalName)] == ReadRemoteSchemaDef(ModifyDownDefinition(state.editState, parse))
    requires NormalizeName(state.name) == state.editState.originalName || RemoteSchemaKey(NormalizeName(state.name)) !in reg
    ensures var m := ModifyMigration(state, headers, parse);
            Reverts(reg, m.up, m.down)
            && ApplyAll(reg, m.up) == Some((reg - {RemoteSchemaKey(state.editState.originalName)})
                                           [RemoteSchemaKey(NormalizeName(state.name)) := ReadRemoteSchemaDef(ModifyUpDefinition(state, headers, parse))])
  {
    var e := state.editState;
    var n := NormalizeName(state.name);
    var up := ModifyUpDefinition(state, headers, parse);
    var down := ModifyDownDefinition(e, parse);
    AddTarget(n, up);
    AddTarget(e.originalName, down);
    RemoveTarget(n);
    RemoveTarget(e.originalName);
    ReplaceReverts(reg, RemoteSchemaKey(e.originalName), RemoteSchemaKey(n), ReadRemoteSchemaDef(up),
                   RemoveRemoteSchemaQuery(e.originalName), AddRemoteSchemaQuery(n, up),
                   RemoveRemoteSchemaQuery(n), AddRemoteSchemaQuery(e.originalName, down));
  }

  /** After a fetch, with the form's timeout left as the fetch filled it in, a modification
      sends the stored timeout up but, as written, re-creates the original with 60: the fetch
      never records `originalTimeoutConf`. A stored timeout of "30" shows it. */
  lemma ModifyDownResetsTimeout(prev: AddState, row: RemoteSchemaRecord, state: AddState,
                                headers: seq<Header>, parse: string -> Option<int>)
    requires row.definition.timeout_seconds == Some(TStr("30")) && parse("30") == Some(30)
    requires state.editState == FetchedEditState(prev, row)
    requires state.timeoutConf == FetchedTimeoutConf(row.definition.timeout_seconds)
    ensures Get(ModifyUpDefinition(state, headers, parse), "timeout_seconds") == Some(JNum(30))
    ensures Get(ModifyDownDefinition(state.editState, parse), "timeout_seconds") == Some(JNum(60))
  {
  }

  /** The edit state a fetch evidently means to leave: the original timeout recorded as the
      form shows it. */
  function FetchedEditStateIntended(state: AddState, row: RemoteSchemaRecord): (e: EditState)
    ensures e.originalTimeoutConf == Some(FetchedTimeoutConf(row.definition.timeout_seconds))
    ensures e.(originalTimeoutConf := None) == FetchedEditState(state, row)
  {
    FetchedEditState(state, row).(originalTimeoutConf := Some(FetchedTimeoutConf(row.definition.timeout_seconds)))
  }

  /** With the original timeout recorded, a modification that leaves the timeout as fetched
      re-creates the original with the very timeout it sends up. */
  lemma ModifyDownKeepsTimeout(prev: AddState, row: RemoteSchemaRecord, state: AddState,
                               headers: seq<Header>, parse: string -> Option<int>)
    requires state.editState == FetchedEditStateIntended(prev, row)
    requires state.timeoutConf == FetchedTimeoutConf(row.definition.timeout_seconds)
    ensures Get(ModifyDownDefinition(state.editState, parse), "timeout_seconds")
            == Get(ModifyUpDefinition(state, headers, parse), "timeout_seconds")
            == Some(JNum(TimeoutSeconds(parse, Some(FetchedTimeoutConf(row.definition.timeout_seconds)))))
  {
  }

  // ---------------------------------------------------------------- stored schemas

  /** The timeout field of a stored definition, as JSON. */
  function TimeoutJson(t: Option<TimeoutValue>): Json
  {
    match t
    case None => JNull
    case Some(TNum(n)) => JNum(n)
    case Some(TStr(text)) => JStr(text)
  }

  /** A stored definition as a fetch returns it, written out as JSON; a missing field is null. */
  function RecordJson(d: RemoteSchemaDef): Json
  {
    Obj5("url", OrNull(d.url), "url_from_env", OrNull(d.url_from_env),
         "headers", if d.headers.Some? then JArr(d.headers.value) else JNull,
         "timeout_seconds", TimeoutJson(d.timeout_seconds),
         "forward_client_headers", d.forward_client_headers)
  }

  /** A definition as the server keeps it: exactly one non-empty URL source, an integer
      timeout other than 0 or none, and a boolean forwarding flag or none. */
  predicate ServerRecord(d: RemoteSchemaDef)
  {
    ((UrlTruthy(d.url) && d.url_from_env.None?) || (d.url.None? && UrlTruthy(d.url_from_env)))
    && (d.timeout_seconds.None? || (d.timeout_seconds.value.TNum? && d.timeout_seconds.value.n != 0))
    && (d.forward_client_headers.JNull? || d.forward_client_headers.JBool?)
  }

  /** `parse` reads back the timeout text a fetch puts in the form, as `parseInt` does. */
  predicate ParsesFetchedTimeout(parse: string -> Option<int>, t: Option<TimeoutValue>)
  {
    match t
    case Some(TNum(n)) => parse(IntToString(n)) == Some(n)
    case _ => parse("60") == None || parse("60") == Some(60)
  }

  /** With the original timeout recorded, the timeout the edit form reconstructs is the
      stored one, 60 when none is stored. */
  lemma FetchedTimeoutReadBack(prev: AddState, row: RemoteSchemaRecord, parse: string -> Option<int>)
    requires ServerRecord(row.definition) && ParsesFetchedTimeout(parse, row.definition.timeout_seconds)
    ensures JNum(TimeoutSeconds(parse, FetchedEditStateIntended(prev, row).originalTimeoutConf))
            == FieldOr(RecordJson(row.definition), "timeout_seconds", JNum(60))
  {
  }

  /** The definition `deleteRemoteSchema`'s down request evidently means to re-create: the
      one it builds, with the recorded original timeout as well. */
  function DeleteDownDefinitionIntended(e: EditState, parse: string -> Option<int>): (d: Json)
    ensures Get(d, "timeout_seconds") == Some(JNum(TimeoutSeconds(parse, e.originalTimeoutConf)))
    ensures forall k :: k != "timeout_seconds" ==> Get(d, k) == Get(DeleteDownDefinition(e), k)
  {
    Obj5("url", OrNull(e.originalUrl), "url_from_env", OrNull(e.originalEnvUrl),
         "timeout_seconds", JNum(TimeoutSeconds(parse, e.originalTimeoutConf)),
         "headers", JArr(e.originalHeaders), "forward_client_headers", e.originalForwardClientHeaders)
  }

  function DeleteMigrationIntended(state: AddState, parse: string -> Option<int>): (m: Migration)
    ensures m.name == DeleteMigration(state).name && m.up == DeleteMigration(state).up
  {
    var e := state.editState;
    Migration("remove_remote_schema_" + NormalizeName(e.originalName),
              [RemoveRemoteSchemaQuery(e.originalName)],
              [AddRemoteSchemaQuery(e.originalName, DeleteDownDefinitionIntended(e, parse))])
  }

  /** The fields of a fetched definition other than the timeout read back from the edit
      state as they were stored. */
  lemma FetchedFieldsReadBack(prev: AddState, row: RemoteSchemaRecord)
    requires ServerRecord(row.definition)
    ensures var e := FetchedEditStateIntended(prev, row);
            var r := RecordJson(row.definition);
            && FieldOr(r, "headers", JArr([])) == JArr(e.originalHeaders)
            && FieldOr(r, "forward_client_headers", JBool(false)) == e.originalForwardClientHeaders
            && (UrlTruthy(e.originalUrl) ==> FieldOr(r, "url", JNull) == OrNull(e.originalUrl) && FieldOr(r, "url_from_env", JNull) == JNull)
            && (!UrlTruthy(e.originalUrl) ==> FieldOr(r, "url", JNull) == JNull && FieldOr(r, "url_from_env", JNull) == OrNull(e.originalEnvUrl))
            && (e.originalUrl.None? || e.originalEnvUrl.None?)
  {
  }

  /** After a fetch that records the original timeout, the definition a modification
      re-creates is stored exactly as the fetched one was. */
  lemma FetchedModifyDownStored(prev: AddState, row: RemoteSchemaRecord, parse: string -> Option<int>)
    requires ServerRecord(row.definition) && ParsesFetchedTimeout(parse, row.definition.timeout_seconds)
    ensures ReadRemoteSchemaDef(ModifyDownDefinition(FetchedEditStateIntended(prev, row), parse))
            == ReadRemoteSchemaDef(RecordJson(row.definition))
  {
    var e := FetchedEditStateIntended(prev, row);
    FetchedTimeoutReadBack(prev, row, parse);
    FetchedFieldsReadBack(prev, row);
    ModifyDownRead(e, parse);
  }

  /** How the server reads the definition a modification's rollback re-creates. */
  lemma ModifyDownRead(e: EditState, parse: string -> Option<int>)
    ensures var r := ReadRemoteSchemaDef(ModifyDownDefinition(e, parse));
            && r.timeoutSeconds == JNum(TimeoutSeconds(parse, e.originalTimeoutConf))
            && r.headers == JArr(e.originalHeaders)
            && (r.forwardClientHeaders == if e.originalForwardClientHeaders == JNull then JBool(false) else e.originalForwardClientHeaders)
            && (UrlTruthy(e.originalUrl) ==> r.url == OrNull(e.originalUrl) && r.urlFromEnv == JNull)
            && (!UrlTruthy(e.originalUrl) ==> r.url == JNull && r.urlFromEnv == OrNull(e.originalEnvUrl))
  {
    var down := ModifyDownDefinition(e, parse);
    ModifyDownOtherFields(e, parse);
    assert UrlTruthy(e.originalUrl) ==> Get(down, "url") == Some(OrNull(e.originalUrl)) && Get(down, "url_from_env") == None;
    assert !UrlTruthy(e.originalUrl) ==> Get(down, "url") == None && Get(down, "url_from_env") == Some(OrNull(e.originalEnvUrl));
  }

  /** The fields other than the URLs of the definition a modification's rollback re-creates. */
  lemma ModifyDownOtherFields(e: EditState, parse: string -> Option<int>)
    ensures var down := ModifyDownDefinition(e, parse);
            && Get(down, "timeout_seconds") == Some(JNum(TimeoutSeconds(parse, e.originalTimeoutConf)))
            && Get(down, "headers") == Some(JArr(e.originalHeaders))
            && Get(down, "forward_client_headers") == Some(e.originalForwardClientHeaders)
  {
    var o := Obj5("url", OrNull(e.originalUrl), "url_from_env", OrNull(e.originalEnvUrl),
                  "timeout_seconds", JNum(TimeoutSeconds(parse, e.originalTimeoutConf)),
                  "headers", JArr(e.originalHeaders),
                  "forward_client_headers", e.originalForwardClientHeaders);
    assert Get(o, "timeout_seconds") == Some(JNum(TimeoutSeconds(parse, e.originalTimeoutConf)));
    assert Get(o, "headers") == Some(JArr(e.originalHeaders));
    assert Get(o, "forward_client_headers") == Some(e.originalForwardClientHeaders);
  }

  /** After a fetch that records the original timeout, the definition the corrected delete
      re-creates is stored exactly as the fetched one was. */
  lemma FetchedDeleteDownStored(prev: AddState, row: RemoteSchemaRecord, parse: string -> Option<int>)
    requires ServerRecord(row.definition) && ParsesFetchedTimeout(parse, row.definition.timeout_seconds)
    ensures ReadRemoteSchemaDef(DeleteDownDefinitionIntended(FetchedEditStateIntended(prev, row), parse))
            == ReadRemoteSchemaDef(RecordJson(row.definition))
  {
    var e := FetchedEditStateIntended(prev, row);
    FetchedTimeoutReadBack(prev, row, parse);
    FetchedFieldsReadBack(prev, row);
    DeleteDownIntendedRead(e, parse);
  }

  /** How the server reads the definition the corrected delete's rollback re-creates. */
  lemma DeleteDownIntendedRead(e: EditState, parse: string -> Option<int>)
    ensures var r := ReadRemoteSchemaDef(DeleteDownDefinitionIntended(e, parse));
            && r.timeoutSeconds == JNum(TimeoutSeconds(parse, e.originalTimeoutConf))
            && r.headers == JArr(e.originalHeaders)
            && (r.forwardClientHeaders == if e.originalForwardClientHeaders == JNull then JBool(false) else e.originalForwardClientHeaders)
            && r.url == OrNull(e.originalUrl) && r.urlFromEnv == OrNull(e.originalEnvUrl)
  {
  }

  /** A schema stored as fetched is given back by the rollback of a modification made after
      a fetch that records the original timeout. */
  lemma FetchedModifyReverts(prev: AddState, row: RemoteSchemaRecord, state: AddState, headers: seq<Header>,
                             parse: string -> Option<int>, reg: Registry)
    requires ServerRecord(row.definition) && ParsesFetchedTimeout(parse, row.definition.timeout_seconds)
    requires state.editState == FetchedEditStateIntended(prev, row)
    requires RemoteSchemaKey(row.name) in reg && reg[RemoteSchemaKey(row.name)] == ReadRemoteSchemaDef(RecordJson(row.definition))
    requires NormalizeName(state.name) == row.name || RemoteSchemaKey(NormalizeName(state.name)) !in reg
    ensures var m := ModifyMigration(state, headers, parse);
            Reverts(reg, m.up, m.down)
  {
    FetchedModifyDownStored(prev, row, parse);
    ModifyMigrationReverts(state, headers, parse, reg);
  }

  /** A schema stored as fetched is given back by the rollback of the corrected delete. */
  lemma FetchedDeleteReverts(prev: AddState, row: RemoteSchemaRecord, state: AddState,
                             parse: string -> Option<int>, reg: Registry)
    requires ServerRecord(row.definition) && ParsesFetchedTimeout(parse, row.definition.timeout_seconds)
    requires state.editState == FetchedEditStateIntended(prev, row)
    requires RemoteSchemaKey(row.name) in reg && reg[RemoteSchemaKey(row.name)] == ReadRemoteSchemaDef(RecordJson(row.definition))
    ensures var m := DeleteMigrationIntended(state, parse);
            Reverts(reg, m.up, m.down) && ApplyAll(reg, m.up) == Some(reg - {RemoteSchemaKey(row.name)})
  {
    var e := state.editState;
    var d := DeleteDownDefinitionIntended(e, parse);
    FetchedDeleteDownStored(prev, row, parse);
    AddTarget(e.originalName, d);
    RemoveTarget(e.originalName);
    RemoveReverts(reg, RemoteSchemaKey(e.originalName), RemoveRemoteSchemaQuery(e.originalName),
                  AddRemoteSchemaQuery(e.originalName, d));
  }

  /** As written, the delete's rollback re-creates a schema stored with a timeout of 30
      with the default 60 instead: the registry does not come back. */
  lemma DeleteDownDropsTimeout(prev: AddState, row: RemoteSchemaRecord, state: AddState, reg: Registry)
    requires row.definition.timeout_seconds == Some(TNum(30))
    requires state.editState == FetchedEditState(prev, row)
    requires RemoteSchemaKey(row.name) in reg && reg[RemoteSchemaKey(row.name)] == ReadRemoteSchemaDef(RecordJson(row.definition))
    ensures var m := DeleteMigration(state);
            !Reverts(reg, m.up, m.down)
  {
    var stored := ReadRemoteSchemaDef(RecordJson(row.definition));
    var restored := ReadRemoteSchemaDef(DeleteDownDefinition(state.editState));
    assert stored.timeoutSeconds == JNum(30);
    assert restored.timeoutSeconds == JNum(60);
    DeleteMigrationRevertsOnlyThen(state, reg);
  }

  /** What the server keeps for the definition `addRemoteSchema` sends. */
  function AddedRecord(state: AddState, headers: seq<Header>, parse: string -> Option<int>): RemoteSchemaDef
  {
    RemoteSchemaDef(
      url := if UrlTruthy(state.manualUrl) then state.manualUrl else None,
      url_from_env := if UrlTruthy(state.manualUrl) then None else state.envName,
      headers := Some(RequestHeaders(headers)),
      timeout_seconds := Some(TNum(TimeoutSeconds(parse, Some(state.timeoutConf)))),
      forward_client_headers := state.forwardClientHeaders)
  }

  /** The definition built as `addRemoteSchema` builds it, from its five values, is stored
      as the record with the URL source kept and the other one absent. */
  lemma KeptUrlStored(manualUrl: Option<string>, envName: Option<string>, hs: seq<Json>, t: int, fwd: Json)
    ensures var d := KeepOneUrl(Obj5("url", OrNull(manualUrl), "url_from_env", OrNull(envName),
                                     "headers", JArr(hs), "timeout_seconds", JNum(t),
                                     "forward_client_headers", fwd), manualUrl);
            var r := RecordJson(RemoteSchemaDef(if UrlTruthy(manualUrl) then manualUrl else None,
                                                if UrlTruthy(manualUrl) then None else envName,
                                                Some(hs), Some(TNum(t)), fwd));
            ReadRemoteSchemaDef(d) == ReadRemoteSchemaDef(r)
  {
    KeptUrlRead(manualUrl, envName, hs, t, fwd);
    RecordRead(RemoteSchemaDef(if UrlTruthy(manualUrl) then manualUrl else None,
                               if UrlTruthy(manualUrl) then None else envName,
                               Some(hs), Some(TNum(t)), fwd));
  }

  /** How the server reads a definition built in `addRemoteSchema`'s key order. */
  lemma KeptUrlRead(manualUrl: Option<string>, envName: Option<string>, hs: seq<Json>, t: int, fwd: Json)
    ensures var r := ReadRemoteSchemaDef(KeepOneUrl(Obj5("url", OrNull(manualUrl), "url_from_env", OrNull(envName),
                                                         "headers", JArr(hs), "timeout_seconds", JNum(t),
                                                         "forward_client_headers", fwd), manualUrl));
            && r.headers == JArr(hs) && r.timeoutSeconds == JNum(t)
            && r.forwardClientHeaders == (if fwd == JNull then JBool(false) else fwd)
            && (UrlTruthy(manualUrl) ==> r.url == OrNull(manualUrl) && r.urlFromEnv == JNull)
            && (!UrlTruthy(manualUrl) ==> r.url == JNull && r.urlFromEnv == OrNull(envName))
  {
    var o := Obj5("url", OrNull(manualUrl), "url_from_env", OrNull(envName),
                  "headers", JArr(hs), "timeout_seconds", JNum(t), "forward_client_headers", fwd);
    assert Get(o, "headers") == Some(JArr(hs)) && Get(o, "timeout_seconds") == Some(JNum(t));
    assert Get(o, "forward_client_headers") == Some(fwd);
  }

  /** How the server reads a fetched record: each field as fetched, with the defaults for
      the ones missing. */
  lemma RecordRead(d: RemoteSchemaDef)
    ensures var r := ReadRemoteSchemaDef(RecordJson(d));
            && r.url == OrNull(d.url) && r.urlFromEnv == OrNull(d.url_from_env)
            && r.headers == (if d.headers.Some? then JArr(d.headers.value) else JArr([]))
            && r.timeoutSeconds == (if d.timeout_seconds.None? then JNum(60) else TimeoutJson(d.timeout_seconds))
            && r.forwardClientHeaders == (if d.forward_client_headers == JNull then JBool(false) else d.forward_client_headers)
  {
    var o := RecordJson(d);
    assert Get(o, "headers") == Some(if d.headers.Some? then JArr(d.headers.value) else JNull);
    assert Get(o, "timeout_seconds") == Some(TimeoutJson(d.timeout_seconds));
    assert Get(o, "forward_client_headers") == Some(d.forward_client_headers);
  }

  /** An added schema is stored as that record. */
  lemma AddStoresRecord(state: AddState, headers: seq<Header>, parse: string -> Option<int>)
    ensures ReadRemoteSchemaDef(AddDefinition(state, headers, parse))
            == ReadRemoteSchemaDef(RecordJson(AddedRecord(state, headers, parse)))
  {
    KeptUrlStored(state.manualUrl, state.envName, RequestHeaders(headers),
                  TimeoutSeconds(parse, Some(state.timeoutConf)), state.forwardClientHeaders);
  }

  /** The server keeps an added schema whenever the form names a URL source, the timeout
      is not 0 and the forwarding flag is a boolean. */
  lemma AddedRecordKept(state: AddState, headers: seq<Header>, parse: string -> Option<int>)
    requires UrlTruthy(state.manualUrl) || UrlTruthy(state.envName)
    requires TimeoutSeconds(parse, Some(state.timeoutConf)) != 0
    requires state.forwardClientHeaders.JNull? || state.forwardClientHeaders.JBool?
    ensures ServerRecord(AddedRecord(state, headers, parse))
  {
  }

  /** Add a schema, fetch it back into the form (recording its timeout), and modify it: the
      modification's rollback gives back the registry the add left. */
  lemma AddThenModifyReverts(added: AddState, addHeaders: seq<Header>, parse: string -> Option<int>, reg: Registry,
                             id: Json, prev: AddState, state: AddState, headers: seq<Header>)
    requires RemoteSchemaKey(NormalizeName(added.name)) !in reg
    requires UrlTruthy(added.manualUrl) || UrlTruthy(added.envName)
    requires added.forwardClientHeaders.JNull? || added.forwardClientHeaders.JBool?
    requires var t := TimeoutSeconds(parse, Some(added.timeoutConf));
             t != 0 && parse(IntToString(t)) == Some(t)
    requires state.editState
             == FetchedEditStateIntended(prev, RemoteSchemaRecord(id, NormalizeName(added.name), AddedRecord(added, addHeaders, parse)))
    requires NormalizeName(state.name) == NormalizeName(added.name) || RemoteSchemaKey(NormalizeName(state.name)) !in reg
    ensures var afterAdd := ApplyAll(reg, AddMigration(added, addHeaders, parse).up);
            var m := ModifyMigration(state, headers, parse);
            afterAdd.Some? && Reverts(afterAdd.value, m.up, m.down)
  {
    var n := NormalizeName(added.name);
    var row := RemoteSchemaRecord(id, n, AddedRecord(added, addHeaders, parse));
    AddMigrationReverts(added, addHeaders, parse, reg);
    AddStoresRecord(added, addHeaders, parse);
    AddedRecordKept(added, addHeaders, parse);
    var afterAdd := reg[RemoteSchemaKey(n) := ReadRemoteSchemaDef(AddDefinition(added, addHeaders, parse))];
    FetchedModifyReverts(prev, row, state, headers, parse, afterAdd);
  }
}
