/** The records of the Data service that the helpers and query builders exchange: table
    identities, foreign-key constraints, relationships, the merged per-table schema and the
    foreign-key display configuration kept in the console options. */
module DataTypes {
  import opened Base
  import opened Json

  /** `{name, schema}`: the identity of a relation in every metadata request. */
  datatype TableDef = TableDef(name: string, schema: string)

  /** `{table_schema, table_name}`: a table in the filters of the schema-loading queries. */
  datatype TableInfo = TableInfo(table_schema: string, table_name: string)

  predicate DistinctKeys(m: seq<(string, string)>)
  {
    forall i, j :: 0 <= i < j < |m| ==> m[i].0 != m[j].0
  }

  /** A JavaScript object from column names to column names: distinct keys, in enumeration order. */
  type ColumnMapping = m: seq<(string, string)> | DistinctKeys(m)

  /** `Object.keys(mapping)` */
  function MappingKeys(m: ColumnMapping): (r: seq<string>)
    ensures |r| == |m|
    ensures forall i :: 0 <= i < |m| ==> r[i] == m[i].0
  {
    seq(|m|, i requires 0 <= i < |m| => m[i].0)
  }

  /** `mapping[key]` */
  function MappedColumn(m: ColumnMapping, key: string): (r: Option<string>)
    ensures r.None? <==> key !in MappingKeys(m)
    ensures forall i :: 0 <= i < |m| && m[i].0 == key ==> r == Some(m[i].1)
  {
    if |m| == 0 then None
    else if m[0].0 == key then Some(m[0].1)
    else
      var r := MappedColumn(m[1..], key);
      assert forall i :: 1 <= i < |m| ==> m[i] == m[1..][i - 1];
      assert MappingKeys(m) == [m[0].0] + MappingKeys(m[1..]);
      r
  }

  datatype ForeignKeyConstraint = ForeignKeyConstraint(
    constraint_name: string,
    table_schema: string,
    table_name: string,
    ref_table_table_schema: string,
    ref_table: string,
    column_mapping: ColumnMapping)

  /** A relationship's remote table: a bare name, or an object `{name, schema}`; a `schema`
      of "" stands for one that is absent or empty, which JavaScript treats alike (falsy). */
  datatype RemoteTable = TableName(name: string) | TableObject(name: string, schema: string)

  datatype ManualConfiguration = ManualConfiguration(remote_table: RemoteTable, column_mapping: ColumnMapping)

  /** `foreign_key_constraint_on`: a local column for an object relationship, or the remote
      table and column for an array relationship. */
  datatype ForeignKeyOn = FkColumn(column: string) | FkRemoteColumn(table: RemoteTable, column: string)

  /** `rel_def`: either key may be missing. */
  datatype RelDef = RelDef(manual_configuration: Option<ManualConfiguration>, foreign_key_constraint_on: Option<ForeignKeyOn>)

  datatype Relationship = Relationship(
    rel_name: string,
    table_name: string,
    table_schema: string,
    rel_type: string,
    rel_def: RelDef)

  /** One table's merged schema (`Schema`). Null-able JSON columns are `Json` values. */
  datatype TableSchema = TableSchema(
    table_schema: string,
    table_name: string,
    table_type: string,
    is_table_tracked: bool,
    columns: seq<Json>,
    comment: Json,
    triggers: seq<Json>,
    primary_key: Json,
    relationships: seq<Relationship>,
    permissions: seq<Json>,
    unique_constraints: seq<Json>,
    check_constraints: seq<Json>,
    foreign_key_constraints: seq<ForeignKeyConstraint>,
    opp_foreign_key_constraints: seq<ForeignKeyConstraint>,
    view_info: Json,
    is_enum: bool,
    configuration: Json,
    computed_fields: seq<Json>)

  /** Whether a schema entry is the table `schema.name`. */
  predicate SameTable(x: TableSchema, name: string, schema: string)
  {
    x.table_name == name && x.table_schema == schema
  }

  /** How one foreign-key column is displayed (`Mapping`). */
  datatype Mapping = Mapping(columnName: string, refColumnName: string, displayColumnName: string, refTableName: string)

  /** The display columns chosen for one foreign-key constraint (`DisplayConfig`). */
  datatype DisplayConfig = DisplayConfig(tableName: string, schemaName: string, constraintName: string, mappings: seq<Mapping>)

  /** The console options (`ConsoleOpts`): the optional display-configuration list, and the
      other fields, which these helpers copy without looking at them. */
  datatype ConsoleOpts = ConsoleOpts(fkDisplayNames: Option<seq<DisplayConfig>>, otherFields: Json)

  datatype ColMapping = ColMapping(column: string, refColumn: string)

  /** A foreign key being edited (`ForeignKey`). */
  datatype ForeignKey = ForeignKey(constraintName: string, refTableName: string, colMappings: seq<ColMapping>)

  /** The options of a foreign-key value picker (`FkOptions`). */
  datatype FkOptions = FkOptions(refTable: string, to: string, displayName: string)
}
