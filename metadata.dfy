/** A reference model of how the server applies the metadata requests the console sends for
    remote schemas and permissions: a registry keyed by what each request names. Adding
    something already present, or removing something absent, is rejected, and a list of
    requests is applied in order and stops at the first rejection, as a `bulk` request does.
    A remote schema is kept as the server reads its definition, so two definitions that
    differ only in the order of their keys or in a field left null give the same registry.
    It is the yardstick for the migrations the console builds: applying `down` after `up`
    must give back the registry the migration started from. */
module Metadata {
  import opened Base
  import opened Json

  datatype Key =
    | RemoteSchemaKey(name: string)
    | RemoteSchemaPermissionKey(remoteSchema: string, role: string)
    | ActionPermissionKey(action: string, role: string)

  /** What the server keeps under a key: a remote schema as it reads its definition into
      its record, anything else as the definition sent. */
  datatype Entry =
    | Stored(def: Json)
    | SchemaRecord(url: Json, urlFromEnv: Json, headers: Json, timeoutSeconds: Json, forwardClientHeaders: Json)

  type Registry = map<Key, Entry>

  /** `args[key]` when it is a string. */
  function StringArg(q: Json, key: string): Option<string>
  {
    match Get2(q, "args", key)
    case Some(JStr(s)) => Some(s)
    case _ => None
  }

  function DefinitionArg(q: Json): Json
  {
    Get2(q, "args", "definition").GetOr(JNull)
  }

  function Insert(reg: Registry, k: Key, v: Entry): Option<Registry>
  {
    if k in reg then None else Some(reg[k := v])
  }

  function Delete(reg: Registry, k: Key): Option<Registry>
  {
    if k in reg then Some(reg - {k}) else None
  }

  /** `def[key]`, or `default` when the field is missing or null. */
  function FieldOr(def: Json, key: string, default: Json): Json
  {
    match Get(def, key)
    case Some(v) => if v == JNull then default else v
    case None => default
  }

  /** A remote-schema definition as the server reads it into its record: the two URL
      sources, the headers, the timeout and the forwarding flag, with the server's default
      for a field that is missing or null (no URL, no headers, 60 seconds, no forwarding).
      The order of the keys sent and any other keys play no part. */
  function ReadRemoteSchemaDef(def: Json): Entry
  {
    SchemaRecord(FieldOr(def, "url", JNull), FieldOr(def, "url_from_env", JNull),
                 FieldOr(def, "headers", JArr([])), FieldOr(def, "timeout_seconds", JNum(60)),
                 FieldOr(def, "forward_client_headers", JBool(false)))
  }

  /** The key a request names, and whether it adds (with the stored definition) or removes.
      A remote schema is stored as the server reads its definition. */
  function Target(q: Json): Option<(Key, Option<Entry>)>
  {
    var t := TypeOf(q);
    if t == Some("add_remote_schema") || t == Some("remove_remote_schema") then
      match StringArg(q, "name")
      case Some(n) => Some((RemoteSchemaKey(n), if t == Some("add_remote_schema") then Some(ReadRemoteSchemaDef(DefinitionArg(q))) else None))
      case None => None
    else if t == Some("add_remote_schema_permissions") || t == Some("drop_remote_schema_permissions") then
      match (StringArg(q, "remote_schema"), StringArg(q, "role"))
      case (Some(s), Some(r)) =>
        Some((RemoteSchemaPermissionKey(s, r), if t == Some("add_remote_schema_permissions") then Some(Stored(DefinitionArg(q))) else None))
      case _ => None
    else if t == Some("create_action_permission") || t == Some("drop_action_permission") then
      match (StringArg(q, "action"), StringArg(q, "role"))
      case (Some(a), Some(r)) =>
        Some((ActionPermissionKey(a, r), if t == Some("create_action_permission") then Some(Stored(DefinitionArg(q))) else None))
      case _ => None
    else None
  }

  /** One request against the registry; `None` when the server would reject it. */
  function Apply(reg: Registry, q: Json): (r: Option<Registry>)
    ensures r.Some? ==> Target(q).Some?
    ensures r.Some? ==> forall k :: k != Target(q).value.0 ==> (k in r.value <==> k in reg)
  {
    match Target(q)
    case None => None
    case Some((k, Some(v))) => Insert(reg, k, v)
    case Some((k, None)) => Delete(reg, k)
  }

  /** A `bulk` list, applied in order; rejected as a whole when one request is. */
  function ApplyAll(reg: Registry, qs: seq<Json>): Option<Registry>
    decreases |qs|
  {
    if |qs| == 0 then Some(reg)
    else match Apply(reg, qs[0])
      case None => None
      case Some(next) => ApplyAll(next, qs[1..])
  }

  /** A named migration: the requests that make a change and those that undo it. */
  datatype Migration = Migration(name: string, up: seq<Json>, down: seq<Json>)

  /** Applying `down` to what `up` produced succeeds and gives back `reg`. */
  ghost predicate Reverts(reg: Registry, up: seq<Json>, down: seq<Json>)
  {
    ApplyAll(reg, up).Some? && ApplyAll(ApplyAll(reg, up).value, down) == Some(reg)
  }

  lemma {:induction false} ApplyAllAppend(reg: Registry, a: seq<Json>, b: seq<Json>)
    ensures ApplyAll(reg, a + b) == match ApplyAll(reg, a) case None => None case Some(m) => ApplyAll(m, b)
    decreases |a|
  {
    if |a| == 0 {
      assert a + b == b;
    } else {
      assert (a + b)[0] == a[0] && (a + b)[1..] == a[1..] + b;
      match Apply(reg, a[0])
      case None =>
      case Some(next) => ApplyAllAppend(next, a[1..], b);
    }
  }

  /** Adding a fresh key and removing it again restores the registry. */
  lemma InsertDelete(reg: Registry, k: Key, v: Entry)
    requires k !in reg
    ensures Insert(reg, k, v).Some? && Delete(Insert(reg, k, v).value, k) == Some(reg)
  {
    assert reg[k := v] - {k} == reg;
  }

  /** Removing a key and adding back the value it had restores the registry. */
  lemma DeleteInsert(reg: Registry, k: Key)
    requires k in reg
    ensures Delete(reg, k).Some? && Insert(Delete(reg, k).value, k, reg[k]) == Some(reg)
  {
    assert (reg - {k})[k := reg[k]] == reg;
  }

  lemma ApplyOne(reg: Registry, q: Json)
    ensures ApplyAll(reg, [q]) == Apply(reg, q)
  {
    assert [q][1..] == [];
  }

  lemma ApplyTwo(reg: Registry, a: Json, b: Json)
    ensures ApplyAll(reg, [a, b]) == match Apply(reg, a) case None => None case Some(m) => Apply(m, b)
  {
    assert [a, b][1..] == [b];
    match Apply(reg, a)
    case None =>
    case Some(m) => ApplyOne(m, b);
  }

  /** A migration that adds a fresh entry and whose down removes it reverts. */
  lemma AddReverts(reg: Registry, k: Key, v: Entry, add: Json, remove: Json)
    requires k !in reg
    requires Target(add) == Some((k, Some(v))) && Target(remove) == Some((k, None))
    ensures Reverts(reg, [add], [remove]) && ApplyAll(reg, [add]) == Some(reg[k := v])
  {
    ApplyOne(reg, add);
    ApplyOne(reg[k := v], remove);
    InsertDelete(reg, k, v);
  }

  /** A migration that removes an entry and whose down adds back what it held reverts. */
  lemma RemoveReverts(reg: Registry, k: Key, remove: Json, add: Json)
    requires k in reg
    requires Target(remove) == Some((k, None)) && Target(add) == Some((k, Some(reg[k])))
    ensures Reverts(reg, [remove], [add]) && ApplyAll(reg, [remove]) == Some(reg - {k})
  {
    ApplyOne(reg, remove);
    ApplyOne(reg - {k}, add);
    DeleteInsert(reg, k);
  }

  /** Removing the entry at `oldKey` and then adding one at `newKey` (the same key or a
      free one) succeeds. */
  lemma ReplaceUp(reg: Registry, oldKey: Key, newKey: Key, v: Entry, removeOld: Json, addNew: Json)
    requires oldKey in reg && (newKey == oldKey || newKey !in reg)
    requires Target(removeOld) == Some((oldKey, None)) && Target(addNew) == Some((newKey, Some(v)))
    ensures ApplyAll(reg, [removeOld, addNew]) == Some((reg - {oldKey})[newKey := v])
  {
    ApplyTwo(reg, removeOld, addNew);
    assert Apply(reg, removeOld) == Some(reg - {oldKey});
  }

  /** Removing the new entry and adding back the old one restores the registry. */
  lemma ReplaceDown(reg: Registry, oldKey: Key, newKey: Key, v: Entry, removeNew: Json, addOld: Json)
    requires oldKey in reg && (newKey == oldKey || newKey !in reg)
    requires Target(removeNew) == Some((newKey, None)) && Target(addOld) == Some((oldKey, Some(reg[oldKey])))
    ensures ApplyAll((reg - {oldKey})[newKey := v], [removeNew, addOld]) == Some(reg)
  {
    var after := (reg - {oldKey})[newKey := v];
    ApplyTwo(after, removeNew, addOld);
    ReplaceUndone(reg, oldKey, newKey, v);
  }

  lemma ReplaceUndone(reg: Registry, oldKey: Key, newKey: Key, v: Entry)
    requires oldKey in reg && (newKey == oldKey || newKey !in reg)
    ensures var after := (reg - {oldKey})[newKey := v];
            newKey in after && oldKey !in after - {newKey} && (after - {newKey})[oldKey := reg[oldKey]] == reg
  {
    var mid := reg - {oldKey};
    assert mid[newKey := v] - {newKey} == mid;
    assert mid[oldKey := reg[oldKey]] == reg;
  }

  /** A migration that replaces the entry at `oldKey` by one at `newKey` (the same key or a
      free one), and whose down removes the new entry and adds back the old one, reverts. */
  lemma ReplaceReverts(reg: Registry, oldKey: Key, newKey: Key, v: Entry,
                       removeOld: Json, addNew: Json, removeNew: Json, addOld: Json)
    requires oldKey in reg && (newKey == oldKey || newKey !in reg)
    requires Target(removeOld) == Some((oldKey, None)) && Target(addNew) == Some((newKey, Some(v)))
    requires Target(removeNew) == Some((newKey, None)) && Target(addOld) == Some((oldKey, Some(reg[oldKey])))
    ensures Reverts(reg, [removeOld, addNew], [removeNew, addOld])
    ensures ApplyAll(reg, [removeOld, addNew]) == Some((reg - {oldKey})[newKey := v])
  {
    ReplaceUp(reg, oldKey, newKey, v, removeOld, addNew);
    ReplaceDown(reg, oldKey, newKey, v, removeNew, addOld);
  }
}
