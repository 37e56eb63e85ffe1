/** The small helpers of the Data service (`Data/utils.ts`): the column comparator, the
    foreign-key lookups by column list, the resolution of a relationship to its remote table
    and columns, and the string helpers. */
module DataUtils {
  import opened Base
  import opened Json
  import opened DataTypes

  // ---------------------------------------------------------------- ordering

  /** `ordinalColSort` on the two columns' ordinal positions, which are integers. */
  function OrdinalColSort(a: int, b: int): (r: int)
    ensures r == -1 || r == 0 || r == 1
    ensures r == 0 <==> a == b
    ensures r == -1 <==> a < b
  {
    if a < b then -1 else if a > b then 1 else 0
  }

  /** The comparator is a consistent total order: swapping the arguments negates it, and
      "not after" is transitive. */
  lemma OrdinalColSortOrder(a: int, b: int, c: int)
    ensures OrdinalColSort(b, a) == -OrdinalColSort(a, b)
    ensures OrdinalColSort(a, b) <= 0 && OrdinalColSort(b, c) <= 0 ==> OrdinalColSort(a, c) <= 0
  {
  }

  // ---------------------------------------------------------------- foreign keys

  /** The test both lookups apply: the constraint's columns, in mapping order, have the
      length of `column` and the same comma-joined text. */
  predicate ColumnsMatch(fk: ForeignKeyConstraint, column: seq<string>)
  {
    var keys := MappingKeys(fk.column_mapping);
    |keys| == |column| && Join(keys, ",") == Join(column, ",")
  }

  /** `findFKConstraint`: the first of the table's constraints on exactly these columns. */
  function FindFKConstraint(curTable: TableSchema, column: seq<string>): (r: Option<ForeignKeyConstraint>)
    ensures r.Some? ==> r.value in curTable.foreign_key_constraints && ColumnsMatch(r.value, column)
    ensures r.None? <==> forall i :: 0 <= i < |curTable.foreign_key_constraints| ==> !ColumnsMatch(curTable.foreign_key_constraints[i], column)
    ensures r.Some? ==> exists i :: 0 <= i < |curTable.foreign_key_constraints| && curTable.foreign_key_constraints[i] == r.value
                                   && forall j :: 0 <= j < i ==> !ColumnsMatch(curTable.foreign_key_constraints[j], column)
  {
    Find(curTable.foreign_key_constraints, fk => ColumnsMatch(fk, column))
  }

  /** `findOppFKConstraint`: the same lookup among the constraints referencing the table. */
  function FindOppFKConstraint(curTable: TableSchema, column: seq<string>): (r: Option<ForeignKeyConstraint>)
    ensures r.Some? ==> r.value in curTable.opp_foreign_key_constraints && ColumnsMatch(r.value, column)
    ensures r.None? <==> forall i :: 0 <= i < |curTable.opp_foreign_key_constraints| ==> !ColumnsMatch(curTable.opp_foreign_key_constraints[i], column)
    ensures r.Some? ==> exists i :: 0 <= i < |curTable.opp_foreign_key_constraints| && curTable.opp_foreign_key_constraints[i] == r.value
                                   && forall j :: 0 <= j < i ==> !ColumnsMatch(curTable.opp_foreign_key_constraints[j], column)
  {
    Find(curTable.opp_foreign_key_constraints, fk => ColumnsMatch(fk, column))
  }

  /** Comparing joined text is comparing the column lists, in order, whenever no column name
      contains a comma; equal lists always match. */
  lemma ColumnsMatchIsListEquality(fk: ForeignKeyConstraint, column: seq<string>)
    ensures MappingKeys(fk.column_mapping) == column ==> ColumnsMatch(fk, column)
    ensures (forall i :: 0 <= i < |column| ==> ',' !in column[i])
            && (forall i :: 0 <= i < |fk.column_mapping| ==> ',' !in fk.column_mapping[i].0)
            ==> (ColumnsMatch(fk, column) <==> MappingKeys(fk.column_mapping) == column)
  {
    var keys := MappingKeys(fk.column_mapping);
    if ColumnsMatch(fk, column) && (forall i :: 0 <= i < |column| ==> ',' !in column[i])
       && (forall i :: 0 <= i < |fk.column_mapping| ==> ',' !in fk.column_mapping[i].0) {
      JoinInjective(keys, column, ',');
    }
  }

  /** On a single column the match is exact, commas or not: the constraint is on that one
      column, so its mapping has an entry for it. */
  lemma SingleColumnMatch(fk: ForeignKeyConstraint, c: string)
    ensures ColumnsMatch(fk, [c]) <==> MappingKeys(fk.column_mapping) == [c]
    ensures ColumnsMatch(fk, [c]) ==> MappedColumn(fk.column_mapping, c).Some?
  {
    var keys := MappingKeys(fk.column_mapping);
    if |keys| == 1 {
      assert keys == [keys[0]];
    }
  }

  // ---------------------------------------------------------------- relationships

  /** The schema of a remote-table object, when one is given (truthy). */
  function GivenSchema(t: RemoteTable): Option<string>
  {
    if t.TableObject? && t.schema != "" then Some(t.schema) else None
  }

  /** What `[foreign_key_constraint_on]` joins to: the column itself, or JavaScript's text
      for an object. */
  function ColumnText(fkOn: ForeignKeyOn): string
  {
    match fkOn
    case FkColumn(c) => c
    case FkRemoteColumn(_, _) => "[object Object]"
  }

  /** An array relationship's `foreign_key_constraint_on` must be an object with `table`
      and `column`: both functions read `.table.schema` from it. */
  predicate ArrayFkNamesTable(rel: Relationship)
  {
    (rel.rel_type == "array" && rel.rel_def.foreign_key_constraint_on.Some?)
    ==> rel.rel_def.foreign_key_constraint_on.value.FkRemoteColumn?
  }

  /** The `(table_name, table_schema)` a relationship leads to, by precedence: an array
      relationship's foreign-key table, else an object relationship's matching constraint,
      else the manual configuration; the schema is "public" unless one is given. `None` when
      the target is left as an object without a schema, or absent: no table name equals
      that. An array relationship naming a bare table keeps a schema the manual configuration
      gave. */
  function RelTableKey(curTable: TableSchema, rel: Relationship): Option<(string, string)>
    requires ArrayFkNamesTable(rel)
  {
    var d := rel.rel_def;
    var manualSchema :=
      if d.manual_configuration.Some? then GivenSchema(d.manual_configuration.value.remote_table).GetOr("public")
      else "public";
    if d.foreign_key_constraint_on.Some? && rel.rel_type == "array" then
      var t := d.foreign_key_constraint_on.value.table;
      if GivenSchema(t).Some? then Some((t.name, t.schema))
      else if t.TableName? then Some((t.name, manualSchema))
      else None
    else if d.foreign_key_constraint_on.Some? && rel.rel_type == "object"
            && FindFKConstraint(curTable, [ColumnText(d.foreign_key_constraint_on.value)]).Some? then
      var fkc := FindFKConstraint(curTable, [ColumnText(d.foreign_key_constraint_on.value)]).value;
      Some((fkc.ref_table, fkc.ref_table_table_schema))
    else if d.manual_configuration.Some? then
      var t := d.manual_configuration.value.remote_table;
      if GivenSchema(t).Some? then Some((t.name, t.schema))
      else if t.TableName? then Some((t.name, "public"))
      else None
    else None
  }

  /** A bare table name in the manual configuration, or in an array relationship's
      foreign key without a manual configuration, resolves in schema "public". */
  lemma RelTableKeyDefaultsToPublic(curTable: TableSchema, rel: Relationship, name: string)
    requires ArrayFkNamesTable(rel)
    ensures rel.rel_def.foreign_key_constraint_on.None? && rel.rel_def.manual_configuration.Some?
            && rel.rel_def.manual_configuration.value.remote_table == TableName(name)
            ==> RelTableKey(curTable, rel) == Some((name, "public"))
    ensures rel.rel_type == "array" && rel.rel_def.manual_configuration.None?
            && rel.rel_def.foreign_key_constraint_on.Some?
            && rel.rel_def.foreign_key_constraint_on.value.table == TableName(name)
            ==> RelTableKey(curTable, rel) == Some((name, "public"))
  {
  }

  /** The pair a string `rTable` and `rSchema` name; a table name never equals `null` or an
      object, so there is none for those. */
  function TableKeyOf(rTable: Option<RemoteTable>, rSchema: string): Option<(string, string)>
  {
    if rTable.Some? && rTable.value.TableName? then Some((rTable.value.name, rSchema)) else None
  }

  /** The reassignments of `rTable` and `rSchema` in `findTableFromRel`. */
  method ResolveRelTable(curTable: TableSchema, rel: Relationship) returns (rTable: Option<RemoteTable>, rSchema: string)
    requires ArrayFkNamesTable(rel)
    ensures TableKeyOf(rTable, rSchema) == RelTableKey(curTable, rel)
  {
    rTable := None;
    rSchema := "public";
    var d := rel.rel_def;
    if d.manual_configuration.Some? {
      rTable := Some(d.manual_configuration.value.remote_table);
      if GivenSchema(rTable.value).Some? {
        rSchema := rTable.value.schema;
        rTable := Some(TableName(rTable.value.name));
      }
    }
    if d.foreign_key_constraint_on.Some? {
      var fkOn := d.foreign_key_constraint_on.value;
      if rel.rel_type == "object" {
        var column := [ColumnText(fkOn)];
        var fkc := FindFKConstraint(curTable, column);
        if fkc.Some? {
          rTable := Some(TableName(fkc.value.ref_table));
          rSchema := fkc.value.ref_table_table_schema;
        }
      }
      if rel.rel_type == "array" {
        rTable := Some(fkOn.table);
        if GivenSchema(rTable.value).Some? {
          rSchema := rTable.value.schema;
          rTable := Some(TableName(rTable.value.name));
        }
      }
    }
  }

  /** `findTableFromRel` */
  method FindTableFromRel(schemas: seq<TableSchema>, curTable: TableSchema, rel: Relationship)
    returns (r: Option<TableSchema>)
    requires ArrayFkNamesTable(rel)
    ensures r.Some? ==> r.value in schemas && RelTableKey(curTable, rel) == Some((r.value.table_name, r.value.table_schema))
    ensures r.None? <==> forall i :: 0 <= i < |schemas| ==> RelTableKey(curTable, rel) != Some((schemas[i].table_name, schemas[i].table_schema))
    ensures r.Some? ==> exists i :: 0 <= i < |schemas| && schemas[i] == r.value
                                   && forall j :: 0 <= j < i ==> RelTableKey(curTable, rel) != Some((schemas[j].table_name, schemas[j].table_schema))
  {
    var rTable, rSchema := ResolveRelTable(curTable, rel);
    if rTable.Some? && rTable.value.TableName? {
      var name := rTable.value.name;
      r := Find(schemas, x => SameTable(x, name, rSchema));
    } else {
      r := None;
    }
  }

  /** What `findAllFromRel` returns; `null` is `None`. */
  datatype RelInfo = RelInfo(
    relName: string,
    lTable: string,
    lSchema: string,
    isObjRel: bool,
    lcol: Option<seq<string>>,
    rcol: Option<seq<string>>,
    rTable: Option<RemoteTable>,
    rSchema: Option<string>)

  /** The mapped column of each key of a mapping, in key order (`lcol.map(c => mapping[c])`). */
  function MappedValues(m: ColumnMapping): (r: seq<string>)
    ensures |r| == |m|
    ensures forall i :: 0 <= i < |m| ==> MappedColumn(m, MappingKeys(m)[i]) == Some(r[i])
  {
    seq(|m|, i requires 0 <= i < |m| => m[i].1)
  }

  /** The remote table and schema `findAllFromRel` takes from a remote-table value: the
      name and the given schema, or the value itself and "public". */
  function RemoteTarget(t: RemoteTable): (Option<RemoteTable>, Option<string>)
  {
    if GivenSchema(t).Some? then (Some(TableName(t.name)), Some(t.schema)) else (Some(t), Some("public"))
  }

  /** The remote columns, table and schema are what the manual configuration gave, or none
      without one: what an object relationship whose constraint is not found leaves. */
  predicate ManualKept(d: RelDef, r: RelInfo)
  {
    if d.manual_configuration.Some? then
      var mc := d.manual_configuration.value;
      r.rcol == Some(MappedValues(mc.column_mapping)) && (r.rTable, r.rSchema) == RemoteTarget(mc.remote_table)
    else r.rcol.None? && r.rTable.None? && r.rSchema.None?
  }

  /** `findAllFromRel`. An array relationship reads the column mapping of the matching
      opposite constraint without checking that there is one, so it needs one. */
  method FindAllFromRel(curTable: TableSchema, rel: Relationship) returns (r: RelInfo)
    requires ArrayFkNamesTable(rel)
    requires rel.rel_type == "array" && rel.rel_def.foreign_key_constraint_on.Some?
             ==> FindOppFKConstraint(curTable, [rel.rel_def.foreign_key_constraint_on.value.column]).Some?
    ensures r.relName == rel.rel_name && r.lTable == rel.table_name && r.lSchema == rel.table_schema
    ensures r.isObjRel <==> rel.rel_type == "object"
    // a manual relationship: the mapping's keys and their mapped columns, pairwise
    ensures rel.rel_def.foreign_key_constraint_on.None? && rel.rel_def.manual_configuration.Some? ==>
              var mc := rel.rel_def.manual_configuration.value;
              && r.lcol == Some(MappingKeys(mc.column_mapping))
              && r.rcol.Some? && |r.rcol.value| == |r.lcol.value|
              && (forall i :: 0 <= i < |r.lcol.value| ==> MappedColumn(mc.column_mapping, r.lcol.value[i]) == Some(r.rcol.value[i]))
              && (r.rTable, r.rSchema) == RemoteTarget(mc.remote_table)
    // an object relationship on a column: that column, and the constraint's target when found
    ensures rel.rel_type == "object" && rel.rel_def.foreign_key_constraint_on.Some? ==>
              var c := ColumnText(rel.rel_def.foreign_key_constraint_on.value);
              var fkc := FindFKConstraint(curTable, [c]);
              && r.lcol == Some([c])
              && (fkc.Some? ==> r.rTable == Some(TableName(fkc.value.ref_table))
                                && r.rSchema == Some(fkc.value.ref_table_table_schema)
                                && r.rcol.Some? && |r.rcol.value| == 1
                                && MappedColumn(fkc.value.column_mapping, c) == Some(r.rcol.value[0]))
              && (fkc.None? ==> ManualKept(rel.rel_def, r))
    // an array relationship: the remote column, and the local column the opposite constraint maps it from
    ensures rel.rel_type == "array" && rel.rel_def.foreign_key_constraint_on.Some? ==>
              var fkOn := rel.rel_def.foreign_key_constraint_on.value;
              var rfkc := FindOppFKConstraint(curTable, [fkOn.column]).value;
              && r.rcol == Some([fkOn.column])
              && r.lcol.Some? && |r.lcol.value| == 1
              && MappedColumn(rfkc.column_mapping, fkOn.column) == Some(r.lcol.value[0])
              && (r.rTable, r.rSchema) == RemoteTarget(fkOn.table)
    // neither definition: nothing resolved
    ensures rel.rel_def.foreign_key_constraint_on.None? && rel.rel_def.manual_configuration.None? ==>
              r.lcol.None? && r.rcol.None? && r.rTable.None? && r.rSchema.None?
  {
    var relName := rel.rel_name;
    var lTable := rel.table_name;
    var lSchema := rel.table_schema;
    var isObjRel := rel.rel_type == "object";
    var lcol: Option<seq<string>> := None;
    var rcol: Option<seq<string>> := None;
    var rTable: Option<RemoteTable> := None;
    var rSchema: Option<string> := None;
    var d := rel.rel_def;
    if d.manual_configuration.Some? {
      var rTableConfig := d.manual_configuration.value.remote_table;
      if GivenSchema(rTableConfig).Some? {
        rTable := Some(TableName(rTableConfig.name));
        rSchema := Some(rTableConfig.schema);
      } else {
        rTable := Some(rTableConfig);
        rSchema := Some("public");
      }
      var columnMapping := d.manual_configuration.value.column_mapping;
      lcol := Some(MappingKeys(columnMapping));
      rcol := Some(MappedValues(columnMapping));
    }
    if d.foreign_key_constraint_on.Some? {
      var foreignKeyConstraintOn := d.foreign_key_constraint_on.value;
      if rel.rel_type == "object" {
        var c := ColumnText(foreignKeyConstraintOn);
        lcol := Some([c]);
        var fkc := FindFKConstraint(curTable, [c]);
        if fkc.Some? {
          rTable := Some(TableName(fkc.value.ref_table));
          rSchema := Some(fkc.value.ref_table_table_schema);
          SingleColumnMatch(fkc.value, c);
          rcol := Some([MappedColumn(fkc.value.column_mapping, c).value]);
        }
      }
      if rel.rel_type == "array" {
        var column := foreignKeyConstraintOn.column;
        rcol := Some([column]);
        var rTableConfig := foreignKeyConstraintOn.table;
        if GivenSchema(rTableConfig).Some? {
          rTable := Some(TableName(rTableConfig.name));
          rSchema := Some(rTableConfig.schema);
        } else {
          rTable := Some(rTableConfig);
          rSchema := Some("public");
        }
        var rfkc := FindOppFKConstraint(curTable, [column]);
        SingleColumnMatch(rfkc.value, column);
        lcol := Some([MappedColumn(rfkc.value.column_mapping, column).value]);
      }
    }
    r := RelInfo(relName, lTable, lSchema, isObjRel, lcol, rcol, rTable, rSchema);
  }

  // ---------------------------------------------------------------- strings

  /** `s` without one trailing 'e'; `s[s.length - 1]` of "" is undefined, not 'e'. */
  function WithoutFinalE(s: string): (r: string)
    ensures s == r || s == r + "e"
    ensures s == r + "e" <==> |s| > 0 && s[|s| - 1] == 'e'
  {
    if |s| > 0 && s[|s| - 1] == 'e' then s[..|s| - 1] else s
  }

  /** `getIngForm` */
  function GetIngForm(s: string): (r: string)
    ensures |r| >= 3 && r[|r| - 3..] == "ing"
    ensures s == r[..|r| - 3] + (if |s| > 0 && s[|s| - 1] == 'e' then "e" else "")
  {
    WithoutFinalE(s) + "ing"
  }

  /** `getEdForm` */
  function GetEdForm(s: string): (r: string)
    ensures |r| >= 2 && r[|r| - 2..] == "ed"
    ensures s == r[..|r| - 2] + (if |s| > 0 && s[|s| - 1] == 'e' then "e" else "")
  {
    WithoutFinalE(s) + "ed"
  }

  /** Both forms put their suffix after the same stem, and the word is that stem followed by
      the 'e' it lost, if any. */
  lemma VerbForms(s: string)
    ensures var ing := GetIngForm(s);
            |ing| >= 3 && ing[|ing| - 3..] == "ing"
    ensures var ed := GetEdForm(s);
            |ed| >= 2 && ed[|ed| - 2..] == "ed"
    ensures var stem := GetIngForm(s)[..|GetIngForm(s)| - 3];
            stem == GetEdForm(s)[..|GetEdForm(s)| - 2]
            && s == stem + (if |s| > 0 && s[|s| - 1] == 'e' then "e" else "")
  {
    var stem := WithoutFinalE(s);
    assert (stem + "ing")[..|stem|] == stem;
    assert (stem + "ed")[..|stem|] == stem;
  }

  /** The characters `escapeRegExp` escapes. */
  predicate IsRegExpSpecial(c: char)
  {
    c == '.' || c == '*' || c == '+' || c == '?' || c == '^' || c == '$' || c == '{' || c == '}'
    || c == '(' || c == ')' || c == '|' || c == '[' || c == ']' || c == '\\'
  }

  /** `r` is a run of tokens, each a backslash followed by a special character or a single
      character that is not special: every special character is escaped, and nothing else is. */
  predicate WellEscaped(r: string)
    decreases |r|
  {
    |r| == 0
    || (|r| >= 2 && r[0] == '\\' && IsRegExpSpecial(r[1]) && WellEscaped(r[2..]))
    || (!IsRegExpSpecial(r[0]) && WellEscaped(r[1..]))
  }

  /** `escapeRegExp`: a backslash before every special character. */
  function EscapeRegExp(s: string): (r: string)
    ensures |r| >= |s|
    ensures WellEscaped(r)
  {
    if |s| == 0 then ""
    else (if IsRegExpSpecial(s[0]) then ['\\', s[0]] else [s[0]]) + EscapeRegExp(s[1..])
  }

  /** The inverse of escaping: a backslash is dropped and the character after it kept. */
  function UnescapeRegExp(s: string): string
    decreases |s|
  {
    if |s| == 0 then ""
    else if s[0] == '\\' && |s| > 1 then [s[1]] + UnescapeRegExp(s[2..])
    else [s[0]] + UnescapeRegExp(s[1..])
  }

  /** Escaping loses nothing: unescaping gives the text back. */
  lemma {:induction false} EscapeRegExpRoundTrip(s: string)
    ensures UnescapeRegExp(EscapeRegExp(s)) == s
  {
    if |s| > 0 {
      EscapeRegExpRoundTrip(s[1..]);
      var rest := EscapeRegExp(s[1..]);
      if IsRegExpSpecial(s[0]) {
        var e := ['\\', s[0]] + rest;
        assert e[0] == '\\' && e[1] == s[0] && e[2..] == rest;
      } else {
        var e := [s[0]] + rest;
        assert e[0] == s[0] && e[1..] == rest;
      }
    }
  }

  /** The argument of `getTableName`: a name, or an object that may carry one. */
  datatype TableRef = NameText(text: string) | NameObject(name: Option<string>)

  /** `getTableName` */
  function GetTableName(t: TableRef): (r: string)
    ensures t.NameText? ==> r == t.text
    ensures t.NameObject? ==> r == t.name.GetOr("")
  {
    match t
    case NameText(s) => s
    case NameObject(n) => if n.Some? then n.value else ""
  }

  /** A relationship's remote table, in either of its forms, as `getTableName` sees it. */
  function RemoteTableRef(t: RemoteTable): TableRef
  {
    match t
    case TableName(n) => NameText(n)
    case TableObject(n, _) => NameObject(Some(n))
  }

  /** `getTableName` reads the table name of a remote table in both of its forms. */
  lemma GetTableNameOfRemoteTable(t: RemoteTable)
    ensures GetTableName(RemoteTableRef(t)) == t.name
  {
  }
}
