/** Loading the schema of the Data service (`Data/utils.ts`): the filters that restrict the
    schema-loading queries to some schemas and tables, and the left join of the introspected
    tables with the tracked-table metadata. The SQL text around the `where` clause is
    constant and not part of this model. */
module DataSchemaLoading {
  import opened Base
  import opened Json
  import opened DataTypes

  // ---------------------------------------------------------------- SQL where clause

  function SchemaCondition(schemaName: string): string
  {
    "(ist.table_schema='" + schemaName + "')"
  }

  function TableCondition(t: TableInfo): string
  {
    "(ist.table_schema='" + t.table_schema + "' and ist.table_name='" + t.table_name + "')"
  }

  /** One condition per schema, then one per table. */
  function WhereConditions(schemas: seq<string>, tables: seq<TableInfo>): seq<string>
  {
    seq(|schemas|, i requires 0 <= i < |schemas| => SchemaCondition(schemas[i]))
    + seq(|tables|, j requires 0 <= j < |tables| => TableCondition(tables[j]))
  }

  /** Each condition with the space that precedes it. */
  function Spaced(conds: seq<string>): (r: seq<string>)
    ensures |r| == |conds|
  {
    seq(|conds|, i requires 0 <= i < |conds| => " " + conds[i])
  }

  /** The clause: empty without conditions, else "where" and the conditions, each after a
      space, joined by " or". */
  function WhereText(conds: seq<string>): (r: string)
    ensures r == "" <==> |conds| == 0
    ensures |conds| > 0 ==> |r| >= 5 && r[..5] == "where"
  {
    if |conds| == 0 then "" else "where" + Join(Spaced(conds), " or")
  }

  /** The conditions are the schemas' and then the tables', one each and in order. */
  lemma WhereConditionsOrder(schemas: seq<string>, tables: seq<TableInfo>)
    ensures var c := WhereConditions(schemas, tables);
            && |c| == |schemas| + |tables|
            && (forall i :: 0 <= i < |schemas| ==> c[i] == SchemaCondition(schemas[i]))
            && (forall j :: 0 <= j < |tables| ==> c[|schemas| + j] == TableCondition(tables[j]))
  {
  }

  /** The clause is empty exactly when there is nothing to filter on. */
  lemma WhereTextEmpty(schemas: seq<string>, tables: seq<TableInfo>)
    ensures WhereText(WhereConditions(schemas, tables)) == "" <==> |schemas| == 0 && |tables| == 0
  {
    var c := WhereConditions(schemas, tables);
    if |c| > 0 {
      assert WhereText(c)[..5] == "where";
    }
  }

  /** One more condition adds " or " and that condition at the end: the conditions appear in
      order, separated by " or", and the clause ends with the last one, never with " or". */
  lemma WhereTextAppend(conds: seq<string>, c: string)
    ensures WhereText([c]) == "where " + c
    ensures |conds| > 0 ==> WhereText(conds + [c]) == WhereText(conds) + " or " + c
  {
    assert Spaced([c]) == [" " + c];
    if |conds| > 0 {
      var s := Spaced(conds + [c]);
      var j := Join(Spaced(conds), " or");
      assert s[..|s| - 1] == Spaced(conds);
      assert s[|s| - 1] == " " + c;
      assert Join(s, " or") == j + " or" + (" " + c);
      assert " or" + (" " + c) == " or " + c;
      assert "where" + (j + " or" + (" " + c)) == ("where" + j) + " or " + c;
    }
  }

  /** The clause after `index` rounds of the last loop of `generateWhereClause`. */
  function PartialWhere(conds: seq<string>, index: nat): string
    requires index <= |conds|
  {
    (if |conds| > 0 then "where" else "")
    + (if index == 0 then "" else Join(Spaced(conds)[..index], " or") + (if index < |conds| then " or" else ""))
  }

  lemma PartialWhereStep(conds: seq<string>, index: nat)
    requires index < |conds|
    ensures PartialWhere(conds, index + 1)
            == PartialWhere(conds, index) + " " + conds[index] + (if index + 1 != |conds| then " or" else "")
  {
    var s := Spaced(conds);
    if index > 0 {
      assert s[..index + 1][..index] == s[..index];
    }
  }

  /** The two `forEach` loops of `generateWhereClause` that push the conditions. */
  method CollectWhereConditions(schemas: seq<string>, tables: seq<TableInfo>) returns (whereCondtions: seq<string>)
    ensures whereCondtions == WhereConditions(schemas, tables)
  {
    whereCondtions := [];
    for i := 0 to |schemas|
      invariant whereCondtions == seq(i, k requires 0 <= k < i => SchemaCondition(schemas[k]))
    {
      whereCondtions := whereCondtions + [SchemaCondition(schemas[i])];
    }
    for j := 0 to |tables|
      invariant whereCondtions == seq(|schemas|, k requires 0 <= k < |schemas| => SchemaCondition(schemas[k]))
                                  + seq(j, k requires 0 <= k < j => TableCondition(tables[k]))
    {
      whereCondtions := whereCondtions + [TableCondition(tables[j])];
    }
  }

  /** The last loop of `generateWhereClause`, which writes the clause. */
  method WriteWhereClause(whereCondtions: seq<string>) returns (whereClause: string)
    ensures whereClause == WhereText(whereCondtions)
  {
    whereClause := "";
    if |whereCondtions| > 0 {
      whereClause := "where";
    }
    for index := 0 to |whereCondtions|
      invariant whereClause == PartialWhere(whereCondtions, index)
    {
      PartialWhereStep(whereCondtions, index);
      whereClause := whereClause + " " + whereCondtions[index];
      if index + 1 != |whereCondtions| {
        whereClause := whereClause + " or";
      }
    }
    assert Spaced(whereCondtions)[..|whereCondtions|] == Spaced(whereCondtions);
  }

  /** `generateWhereClause` */
  method GenerateWhereClause(schemas: seq<string>, tables: seq<TableInfo>) returns (whereClause: string)
    ensures whereClause == WhereText(WhereConditions(schemas, tables))
  {
    var whereCondtions := CollectWhereConditions(schemas, tables);
    whereClause := WriteWhereClause(whereCondtions);
  }

  // ---------------------------------------------------------------- tracked-table filter

  function SchemaFilter(schemaName: string): Json
  {
    Obj1("table_schema", JStr(schemaName))
  }

  function TableFilter(t: TableInfo): Json
  {
    Obj2("table_schema", JStr(t.table_schema), "table_name", JStr(t.table_name))
  }

  /** The alternatives of `where.$or`: one per schema, then one per table. */
  function OrFilters(schemas: seq<string>, tables: seq<TableInfo>): seq<Json>
  {
    seq(|schemas|, i requires 0 <= i < |schemas| => SchemaFilter(schemas[i]))
    + seq(|tables|, j requires 0 <= j < |tables| => TableFilter(tables[j]))
  }

  /** The alternatives name each schema and then each table, in order. */
  lemma OrFiltersOrder(schemas: seq<string>, tables: seq<TableInfo>)
    ensures var f := OrFilters(schemas, tables);
            && |f| == |schemas| + |tables|
            && (forall i :: 0 <= i < |schemas| ==> Get(f[i], "table_schema") == Some(JStr(schemas[i])) && !HasKey(f[i], "table_name"))
            && (forall j :: 0 <= j < |tables| ==>
                  Get(f[|schemas| + j], "table_schema") == Some(JStr(tables[j].table_schema))
                  && Get(f[|schemas| + j], "table_name") == Some(JStr(tables[j].table_name)))
  {
  }

  /** The sub-selection of one array relationship of `hdb_table`. */
  function AllColumnsOf(name: string): Json
  {
    Obj2("name", JStr(name), "columns", Strings(["*"]))
  }

  function OrderedColumnsOf(name: string, column: string): Json
  {
    Obj3("name", JStr(name), "columns", Strings(["*"]), "order_by", Obj2("column", JStr(column), "type", JStr("asc")))
  }

  /** The select of `fetchTrackedTableListQuery` before any filter. */
  function TrackedTableListSelect(): (q: Json)
    ensures TypeOf(q) == Some("select") && q.JObj? && q.keys == ["type", "args"]
  {
    Query("select", Obj3(
      "table", Obj2("name", JStr("hdb_table"), "schema", JStr("hdb_catalog")),
      "columns", JArr([JStr("table_schema"), JStr("table_name"), JStr("is_enum"), JStr("configuration"),
                       AllColumnsOf("primary_key"), AllColumnsOf("relationships"), AllColumnsOf("permissions"),
                       AllColumnsOf("unique_constraints"),
                       OrderedColumnsOf("check_constraints", "constraint_name"),
                       OrderedColumnsOf("computed_fields", "computed_field_name")]),
      "order_by", JArr([Obj2("column", JStr("table_name"), "type", JStr("asc"))])))
  }

  /** `fetchTrackedTableListQuery`. The filter is set on the query object itself, beside
      `type` and `args`, as the code does; the pushes go to a local list that becomes
      `where.$or`. */
  method FetchTrackedTableListQuery(schemas: seq<string>, tables: seq<TableInfo>) returns (query: Json)
    ensures TypeOf(query) == Some("select")
    ensures Get(query, "args") == Get(TrackedTableListSelect(), "args")
    ensures HasKey(query, "where") <==> |schemas| > 0 || |tables| > 0
    ensures HasKey(query, "where") ==> Get(query, "where") == Some(Obj1("$or", JArr(OrFilters(schemas, tables))))
  {
    query := TrackedTableListSelect();
    var hasWhere := |schemas| != 0 || |tables| != 0;
    var or: seq<Json> := [];
    for i := 0 to |schemas|
      invariant or == seq(i, k requires 0 <= k < i => SchemaFilter(schemas[k]))
    {
      or := or + [SchemaFilter(schemas[i])];
    }
    for j := 0 to |tables|
      invariant or == seq(|schemas|, k requires 0 <= k < |schemas| => SchemaFilter(schemas[k]))
                      + seq(j, k requires 0 <= k < j => TableFilter(tables[k]))
    {
      or := or + [TableFilter(tables[j])];
    }
    if hasWhere {
      query := Put(query, "where", Obj1("$or", JArr(or)));
    }
  }

  // ---------------------------------------------------------------- merging

  /** The constraints of the table `schema.name`. */
  function ConstraintsOf(schema: string, name: string): ForeignKeyConstraint -> bool
  {
    (fk: ForeignKeyConstraint) => fk.table_schema == schema && fk.table_name == name
  }

  /** The constraints that reference the table `schema.name`. */
  function ReferencesTo(schema: string, name: string): ForeignKeyConstraint -> bool
  {
    (fk: ForeignKeyConstraint) => fk.ref_table_table_schema == schema && fk.ref_table == name
  }

  function TrackedAs(schema: string, name: string): TableSchema -> bool
  {
    (t: TableSchema) => SameTable(t, name, schema)
  }

  /** One introspected table joined with its tracked entry, if any: the introspection gives
      the identity, type, columns, comment, triggers and view; the tracked entry the key,
      relationships, permissions, constraints, enum flag, configuration and computed fields,
      and the foreign keys are those of the table. An untracked table has none of these. */
  function MergedTable(info: TableSchema, hdbTableData: seq<TableSchema>,
                       fkData: seq<ForeignKeyConstraint>, refFkData: seq<ForeignKeyConstraint>): TableSchema
  {
    var s := info.table_schema;
    var n := info.table_name;
    match Find(hdbTableData, TrackedAs(s, n))
    case None =>
      TableSchema(s, n, info.table_type, false, info.columns, info.comment, info.triggers,
                  JNull, [], [], [], [], [], [], info.view_info, false, Obj0(), [])
    case Some(h) =>
      TableSchema(s, n, info.table_type, true, info.columns, info.comment, info.triggers,
                  h.primary_key, h.relationships, h.permissions, h.unique_constraints, h.check_constraints,
                  Filter(fkData, ConstraintsOf(s, n)), Filter(refFkData, ReferencesTo(s, n)),
                  info.view_info, h.is_enum, h.configuration, h.computed_fields)
  }

  /** The body of the `forEach` in `mergeLoadSchemaData`. */
  method MergeTable(infoSchemaTableInfo: TableSchema, hdbTableData: seq<TableSchema>,
                    fkData: seq<ForeignKeyConstraint>, refFkData: seq<ForeignKeyConstraint>)
    returns (mergedInfo: TableSchema)
    ensures mergedInfo == MergedTable(infoSchemaTableInfo, hdbTableData, fkData, refFkData)
  {
    var tableSchema := infoSchemaTableInfo.table_schema;
    var tableName := infoSchemaTableInfo.table_name;
    var trackedTableInfo := Find(hdbTableData, TrackedAs(tableSchema, tableName));
    var isTableTracked := trackedTableInfo.Some?;
    var primaryKey := JNull;
    var relationships: seq<Relationship> := [];
    var permissions: seq<Json> := [];
    var uniqueConstraints: seq<Json> := [];
    var fkConstraints: seq<ForeignKeyConstraint> := [];
    var refFkConstraints: seq<ForeignKeyConstraint> := [];
    var isEnum := false;
    var checkConstraints: seq<Json> := [];
    var configuration := Obj0();
    var computedFields: seq<Json> := [];
    if isTableTracked {
      var t := trackedTableInfo.value;
      primaryKey := t.primary_key;
      relationships := t.relationships;
      permissions := t.permissions;
      uniqueConstraints := t.unique_constraints;
      isEnum := t.is_enum;
      checkConstraints := t.check_constraints;
      configuration := t.configuration;
      computedFields := t.computed_fields;
      fkConstraints := Filter(fkData, ConstraintsOf(tableSchema, tableName));
      refFkConstraints := Filter(refFkData, ReferencesTo(tableSchema, tableName));
    }
    mergedInfo := TableSchema(tableSchema, tableName, infoSchemaTableInfo.table_type, isTableTracked,
                              infoSchemaTableInfo.columns, infoSchemaTableInfo.comment, infoSchemaTableInfo.triggers,
                              primaryKey, relationships, permissions, uniqueConstraints, checkConstraints,
                              fkConstraints, refFkConstraints, infoSchemaTableInfo.view_info, isEnum,
                              configuration, computedFields);
  }

  /** `mergeLoadSchemaData`: one merged entry per introspected table, in order. */
  method MergeLoadSchemaData(infoSchemaTableData: seq<TableSchema>, hdbTableData: seq<TableSchema>,
                             fkData: seq<ForeignKeyConstraint>, refFkData: seq<ForeignKeyConstraint>)
    returns (mergedTableData: seq<TableSchema>)
    ensures |mergedTableData| == |infoSchemaTableData|
    ensures forall i :: 0 <= i < |infoSchemaTableData| ==>
              mergedTableData[i] == MergedTable(infoSchemaTableData[i], hdbTableData, fkData, refFkData)
  {
    mergedTableData := [];
    for i := 0 to |infoSchemaTableData|
      invariant |mergedTableData| == i
      invariant forall k :: 0 <= k < i ==> mergedTableData[k] == MergedTable(infoSchemaTableData[k], hdbTableData, fkData, refFkData)
    {
      var mergedInfo := MergeTable(infoSchemaTableData[i], hdbTableData, fkData, refFkData);
      mergedTableData := mergedTableData + [mergedInfo];
    }
  }

  /** A merged table keeps its identity and is tracked exactly when some tracked entry has
      the same schema and name. */
  lemma MergedIdentity(info: TableSchema, hdbTableData: seq<TableSchema>,
                       fkData: seq<ForeignKeyConstraint>, refFkData: seq<ForeignKeyConstraint>)
    ensures var m := MergedTable(info, hdbTableData, fkData, refFkData);
            && m.table_schema == info.table_schema && m.table_name == info.table_name
            && m.table_type == info.table_type && m.columns == info.columns && m.comment == info.comment
            && m.triggers == info.triggers && m.view_info == info.view_info
            && (m.is_table_tracked <==> exists j :: 0 <= j < |hdbTableData| && SameTable(hdbTableData[j], info.table_name, info.table_schema))
  {
    var p := TrackedAs(info.table_schema, info.table_name);
    assert forall j :: 0 <= j < |hdbTableData| ==> (p(hdbTableData[j]) <==> SameTable(hdbTableData[j], info.table_name, info.table_schema));
  }

  /** An untracked table has no key, relationships, permissions or constraints, is no enum
      and has an empty configuration. */
  lemma UntrackedDefaults(info: TableSchema, hdbTableData: seq<TableSchema>,
                          fkData: seq<ForeignKeyConstraint>, refFkData: seq<ForeignKeyConstraint>)
    requires forall j :: 0 <= j < |hdbTableData| ==> !SameTable(hdbTableData[j], info.table_name, info.table_schema)
    ensures var m := MergedTable(info, hdbTableData, fkData, refFkData);
            && !m.is_table_tracked && m.primary_key == JNull && m.relationships == [] && m.permissions == []
            && m.unique_constraints == [] && m.check_constraints == [] && m.foreign_key_constraints == []
            && m.opp_foreign_key_constraints == [] && !m.is_enum && m.configuration == Obj0() && m.computed_fields == []
  {
    MergedIdentity(info, hdbTableData, fkData, refFkData);
  }

  /** A tracked table takes its metadata from the first tracked entry with its schema and
      name, and exactly the foreign keys of that table, in their order: a key is kept iff it
      is on the table, and a referencing key iff it references the table. */
  lemma TrackedTakesMetadata(info: TableSchema, hdbTableData: seq<TableSchema>,
                             fkData: seq<ForeignKeyConstraint>, refFkData: seq<ForeignKeyConstraint>, j: nat)
    requires j < |hdbTableData| && SameTable(hdbTableData[j], info.table_name, info.table_schema)
    requires forall k :: 0 <= k < j ==> !SameTable(hdbTableData[k], info.table_name, info.table_schema)
    ensures var m := MergedTable(info, hdbTableData, fkData, refFkData);
            var h := hdbTableData[j];
            && m.is_table_tracked && m.primary_key == h.primary_key && m.relationships == h.relationships
            && m.permissions == h.permissions && m.unique_constraints == h.unique_constraints
            && m.check_constraints == h.check_constraints && m.is_enum == h.is_enum
            && m.configuration == h.configuration && m.computed_fields == h.computed_fields
            && m.foreign_key_constraints == Filter(fkData, ConstraintsOf(info.table_schema, info.table_name))
            && (forall fk :: fk in m.foreign_key_constraints ==> fk in fkData && fk.table_schema == info.table_schema && fk.table_name == info.table_name)
            && (forall i :: 0 <= i < |fkData| && fkData[i].table_schema == info.table_schema && fkData[i].table_name == info.table_name
                  ==> fkData[i] in m.foreign_key_constraints)
            && m.opp_foreign_key_constraints == Filter(refFkData, ReferencesTo(info.table_schema, info.table_name))
            && (forall fk :: fk in m.opp_foreign_key_constraints ==> fk in refFkData && fk.ref_table_table_schema == info.table_schema && fk.ref_table == info.table_name)
            && (forall i :: 0 <= i < |refFkData| && refFkData[i].ref_table_table_schema == info.table_schema && refFkData[i].ref_table == info.table_name
                  ==> refFkData[i] in m.opp_foreign_key_constraints)
  {
    var s := info.table_schema;
    var n := info.table_name;
    FindFirst(hdbTableData, TrackedAs(s, n), j);
    FilterMembers(fkData, ConstraintsOf(s, n));
    FilterMembers(refFkData, ReferencesTo(s, n));
  }
}
