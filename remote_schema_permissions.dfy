/** Remote-schema permission requests and the up/down migration that saves a permission
    (`Permissions/utils.ts`). */
module RemoteSchemaPermissions {
  import opened Base
  import opened Json
  import opened Metadata

  /** The GraphQL SDL a permission grants, as the editor holds it (`SchemaDefinition`). */
  datatype SchemaDefinition = SchemaDefinition(value: Json)

  /** A permission the role already has, as the lookup helper returns it. */
  datatype ExistingPermission = ExistingPermission(definition: SchemaDefinition)

  /** The role being edited, and the name typed for a new role ("" when none: falsy). */
  datatype PermissionEdit = PermissionEdit(role: string, newRole: string)

  function RemoteSchemaOf(q: Json): Option<string>
  {
    StringArg(q, "remote_schema")
  }

  function GetCreateRemoteSchemaPermissionQuery(role: string, remoteSchemaName: string, schemaDefinition: SchemaDefinition): (q: Json)
    ensures TypeOf(q) == Some("add_remote_schema_permissions")
    ensures RemoteSchemaOf(q) == Some(remoteSchemaName)
    ensures StringArg(q, "role") == Some(role)
    ensures Get2(q, "args", "definition") == Some(Obj1("schema", schemaDefinition.value))
  {
    Query("add_remote_schema_permissions",
          Obj3("remote_schema", JStr(remoteSchemaName), "role", JStr(role),
               "definition", Obj1("schema", schemaDefinition.value)))
  }

  function GetDropRemoteSchemaPermissionQuery(role: string, remoteSchemaName: string): (q: Json)
    ensures TypeOf(q) == Some("drop_remote_schema_permissions")
    ensures RemoteSchemaOf(q) == Some(remoteSchemaName)
    ensures StringArg(q, "role") == Some(role)
    ensures Get2(q, "args", "definition") == None
  {
    Query("drop_remote_schema_permissions", Obj2("remote_schema", JStr(remoteSchemaName), "role", JStr(role)))
  }

  /** `(newRole || role).trim()` */
  function PermissionRole(edit: PermissionEdit): string
  {
    Trim(if edit.newRole != "" then edit.newRole else edit.role)
  }

  /** What a save sends, case by case. */
  function PermissionQueries(edit: PermissionEdit, existing: Option<ExistingPermission>, remoteSchemaName: string,
                             schemaDefinition: SchemaDefinition): (seq<Json>, seq<Json>)
  {
    var role := PermissionRole(edit);
    var create := GetCreateRemoteSchemaPermissionQuery(role, remoteSchemaName, schemaDefinition);
    var drop := GetDropRemoteSchemaPermissionQuery(role, remoteSchemaName);
    match existing
    case None => ([create], [drop])
    case Some(p) =>
      var restore := GetCreateRemoteSchemaPermissionQuery(role, remoteSchemaName, p.definition);
      if edit.newRole != "" then ([create, drop, create], [drop, drop, restore])
      else ([drop, create], [drop, restore])
  }

  /** `getRemoteSchemaPermissionQueries`; the permission lookup is a helper of another file,
      taken as a parameter. */
  method GetRemoteSchemaPermissionQueries(edit: PermissionEdit, allPermissions: Json,
                                          findPermission: (Json, string) -> Option<ExistingPermission>,
                                          remoteSchemaName: string, schemaDefinition: SchemaDefinition)
    returns (upQueries: seq<Json>, downQueries: seq<Json>)
    ensures upQueries == PermissionQueries(edit, findPermission(allPermissions, PermissionRole(edit)), remoteSchemaName, schemaDefinition).0
    ensures downQueries == PermissionQueries(edit, findPermission(allPermissions, PermissionRole(edit)), remoteSchemaName, schemaDefinition).1
  {
    upQueries := [];
    downQueries := [];
    var permRole := PermissionRole(edit);
    var existingPerm := findPermission(allPermissions, permRole);
    // every builder call below depends only on these arguments, so each is computed once
    var create := GetCreateRemoteSchemaPermissionQuery(permRole, remoteSchemaName, schemaDefinition);
    var drop := GetDropRemoteSchemaPermissionQuery(permRole, remoteSchemaName);
    if edit.newRole != "" || existingPerm.None? {
      upQueries := upQueries + [create];
      downQueries := downQueries + [drop];
    }
    if existingPerm.Some? {
      var restore := GetCreateRemoteSchemaPermissionQuery(permRole, remoteSchemaName, existingPerm.value.definition);
      upQueries := upQueries + [drop, create];
      downQueries := downQueries + [drop, restore];
    }
  }

  /** The request is about this remote schema and role. */
  predicate NamesSchemaAndRole(q: Json, remoteSchemaName: string, role: string)
  {
    RemoteSchemaOf(q) == Some(remoteSchemaName) && StringArg(q, "role") == Some(role)
  }

  /** Up and down always have the same length, and every request names the remote schema
      and the trimmed role. */
  lemma PermissionQueriesPaired(edit: PermissionEdit, existing: Option<ExistingPermission>, remoteSchemaName: string,
                                schemaDefinition: SchemaDefinition)
    ensures var r := PermissionQueries(edit, existing, remoteSchemaName, schemaDefinition);
            |r.0| == |r.1|
            && (forall q :: q in r.0 + r.1 ==> NamesSchemaAndRole(q, remoteSchemaName, PermissionRole(edit)))
  {
    var role := PermissionRole(edit);
    var create := GetCreateRemoteSchemaPermissionQuery(role, remoteSchemaName, schemaDefinition);
    var drop := GetDropRemoteSchemaPermissionQuery(role, remoteSchemaName);
    assert NamesSchemaAndRole(create, remoteSchemaName, role);
    assert NamesSchemaAndRole(drop, remoteSchemaName, role);
    match existing
    case None =>
    case Some(p) =>
      var restore := GetCreateRemoteSchemaPermissionQuery(role, remoteSchemaName, p.definition);
      assert NamesSchemaAndRole(restore, remoteSchemaName, role);
  }

  lemma CreateTarget(role: string, remoteSchemaName: string, schemaDefinition: SchemaDefinition)
    ensures Target(GetCreateRemoteSchemaPermissionQuery(role, remoteSchemaName, schemaDefinition))
            == Some((RemoteSchemaPermissionKey(remoteSchemaName, role), Some(Stored(Obj1("schema", schemaDefinition.value)))))
  {
  }

  lemma DropTarget(role: string, remoteSchemaName: string)
    ensures Target(GetDropRemoteSchemaPermissionQuery(role, remoteSchemaName))
            == Some((RemoteSchemaPermissionKey(remoteSchemaName, role), None))
  {
  }

  /** A new permission: one create up, one drop down, both for the trimmed role. */
  lemma NewPermissionQueries(edit: PermissionEdit, remoteSchemaName: string, schemaDefinition: SchemaDefinition)
    ensures var r := PermissionQueries(edit, None, remoteSchemaName, schemaDefinition);
            r.0 == [GetCreateRemoteSchemaPermissionQuery(PermissionRole(edit), remoteSchemaName, schemaDefinition)]
            && r.1 == [GetDropRemoteSchemaPermissionQuery(PermissionRole(edit), remoteSchemaName)]
  {
  }

  /** The registry holds the permission the lookup found, and nothing when it found none. */
  ghost predicate RegistryAgrees(reg: Registry, key: Key, existing: Option<ExistingPermission>)
  {
    match existing
    case None => key !in reg
    case Some(p) => key in reg && reg[key] == Stored(Obj1("schema", p.definition.value))
  }

  /** Granting a role its first permission, with the drop as down migration, reverts. */
  lemma GrantReverts(role: string, remoteSchemaName: string, schemaDefinition: SchemaDefinition, reg: Registry)
    requires RemoteSchemaPermissionKey(remoteSchemaName, role) !in reg
    ensures var create := GetCreateRemoteSchemaPermissionQuery(role, remoteSchemaName, schemaDefinition);
            var drop := GetDropRemoteSchemaPermissionQuery(role, remoteSchemaName);
            Reverts(reg, [create], [drop])
            && ApplyAll(reg, [create]) == Some(reg[RemoteSchemaPermissionKey(remoteSchemaName, role) := Stored(Obj1("schema", schemaDefinition.value))])
  {
    CreateTarget(role, remoteSchemaName, schemaDefinition);
    DropTarget(role, remoteSchemaName);
    AddReverts(reg, RemoteSchemaPermissionKey(remoteSchemaName, role), Stored(Obj1("schema", schemaDefinition.value)),
               GetCreateRemoteSchemaPermissionQuery(role, remoteSchemaName, schemaDefinition),
               GetDropRemoteSchemaPermissionQuery(role, remoteSchemaName));
  }

  /** Replacing a role's permission (drop, then create), with drop and re-create of the old
      definition as down migration, reverts. */
  lemma RegrantReverts(role: string, remoteSchemaName: string, schemaDefinition: SchemaDefinition,
                       p: ExistingPermission, reg: Registry)
    requires RegistryAgrees(reg, RemoteSchemaPermissionKey(remoteSchemaName, role), Some(p))
    ensures var create := GetCreateRemoteSchemaPermissionQuery(role, remoteSchemaName, schemaDefinition);
            var drop := GetDropRemoteSchemaPermissionQuery(role, remoteSchemaName);
            var restore := GetCreateRemoteSchemaPermissionQuery(role, remoteSchemaName, p.definition);
            Reverts(reg, [drop, create], [drop, restore])
            && ApplyAll(reg, [drop, create]) == Some(reg[RemoteSchemaPermissionKey(remoteSchemaName, role) := Stored(Obj1("schema", schemaDefinition.value))])
  {
    var key := RemoteSchemaPermissionKey(remoteSchemaName, role);
    var v := Stored(Obj1("schema", schemaDefinition.value));
    CreateTarget(role, remoteSchemaName, schemaDefinition);
    CreateTarget(role, remoteSchemaName, p.definition);
    DropTarget(role, remoteSchemaName);
    ReplaceReverts(reg, key, key, v,
                   GetDropRemoteSchemaPermissionQuery(role, remoteSchemaName),
                   GetCreateRemoteSchemaPermissionQuery(role, remoteSchemaName, schemaDefinition),
                   GetDropRemoteSchemaPermissionQuery(role, remoteSchemaName),
                   GetCreateRemoteSchemaPermissionQuery(role, remoteSchemaName, p.definition));
    assert (reg - {key})[key := v] == reg[key := v];
  }

  /** When the role is not a newly typed one onto an existing permission, the save installs
      the new definition and its down migration gives back the registry it started from. */
  lemma PermissionMigrationReverts(edit: PermissionEdit, existing: Option<ExistingPermission>, remoteSchemaName: string,
                                   schemaDefinition: SchemaDefinition, reg: Registry)
    requires edit.newRole == "" || existing.None?
    requires RegistryAgrees(reg, RemoteSchemaPermissionKey(remoteSchemaName, PermissionRole(edit)), existing)
    ensures var r := PermissionQueries(edit, existing, remoteSchemaName, schemaDefinition);
            Reverts(reg, r.0, r.1)
            && ApplyAll(reg, r.0) == Some(reg[RemoteSchemaPermissionKey(remoteSchemaName, PermissionRole(edit)) := Stored(Obj1("schema", schemaDefinition.value))])
  {
    var role := PermissionRole(edit);
    match existing
    case None =>
      GrantReverts(role, remoteSchemaName, schemaDefinition, reg);
    case Some(p) =>
      RegrantReverts(role, remoteSchemaName, schemaDefinition, p, reg);
  }

  /** A newly typed role that already has a permission makes the up migration's first
      request, a create, clash with that permission, so the whole save is rejected. */
  lemma NewRoleOntoExistingRejected(edit: PermissionEdit, p: ExistingPermission, remoteSchemaName: string,
                                    schemaDefinition: SchemaDefinition, reg: Registry)
    requires edit.newRole != ""
    requires RegistryAgrees(reg, RemoteSchemaPermissionKey(remoteSchemaName, PermissionRole(edit)), Some(p))
    ensures ApplyAll(reg, PermissionQueries(edit, Some(p), remoteSchemaName, schemaDefinition).0) == None
  {
  }

  /** `updateBulkSelect`: add the role at the end, or remove every occurrence of it. */
  function UpdateBulkSelect(bulkSelect: seq<string>, selectedRole: string, isAdd: bool): (r: seq<string>)
    ensures isAdd ==> |r| == |bulkSelect| + 1 && r[..|bulkSelect|] == bulkSelect && r[|bulkSelect|] == selectedRole
    ensures !isAdd ==> selectedRole !in r && forall x :: x in r <==> x in bulkSelect && x != selectedRole
  {
    if isAdd then bulkSelect + [selectedRole]
    else
      FilterMembers(bulkSelect, Without(selectedRole));
      Filter(bulkSelect, Without(selectedRole))
  }

  /** Removing twice is removing once. */
  lemma RemoveIdempotent(bulkSelect: seq<string>, selectedRole: string)
    ensures UpdateBulkSelect(UpdateBulkSelect(bulkSelect, selectedRole, false), selectedRole, false)
            == UpdateBulkSelect(bulkSelect, selectedRole, false)
  {
    FilterIdempotent(bulkSelect, Without(selectedRole));
  }

  /** Removing a role that is not selected changes nothing, so the rest keeps its order;
      and removal undoes an add of a role that was not selected. */
  lemma RemoveUndoesAdd(bulkSelect: seq<string>, selectedRole: string)
    requires selectedRole !in bulkSelect
    ensures UpdateBulkSelect(bulkSelect, selectedRole, false) == bulkSelect
    ensures UpdateBulkSelect(UpdateBulkSelect(bulkSelect, selectedRole, true), selectedRole, false) == bulkSelect
  {
    FilterAllPass(bulkSelect, Without(selectedRole));
    assert Filter(bulkSelect + [selectedRole], Without(selectedRole)) == Filter(bulkSelect, Without(selectedRole));
  }
}
