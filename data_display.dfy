/** The foreign-key display configuration of the Data service (`Data/utils.ts`), kept in the
    console options: adding or updating the display columns of one constraint, removing a
    constraint's configuration, pairing rows with their display mappings, and collecting the
    display columns of the constraints being edited. */
module DataDisplayConfig {
  import opened Base
  import opened Json
  import opened DataTypes

  // ---------------------------------------------------------------- merge

  /** `configsEqual`: the same constraint of the same table. */
  predicate ConfigsEqual(a: DisplayConfig, b: DisplayConfig)
  {
    a.tableName == b.tableName && a.schemaName == b.schemaName && a.constraintName == b.constraintName
  }

  /** The list after the configurations for `config`'s constraint take its mappings. */
  function ReplaceMappings(list: seq<DisplayConfig>, config: DisplayConfig): (r: seq<DisplayConfig>)
    ensures |r| == |list|
  {
    seq(|list|, i requires 0 <= i < |list| => if ConfigsEqual(list[i], config) then list[i].(mappings := config.mappings) else list[i])
  }

  /** The display configurations after merging `config`: the list `[config]` when there
      were none; else, when the constraint is configured, the same list with that entry's
      mappings replaced; else the list with `config` appended. */
  function MergedDisplayConfigs(config: DisplayConfig, list: Option<seq<DisplayConfig>>): seq<DisplayConfig>
  {
    if list.None? || |list.value| == 0 then [config]
    else if exists i :: 0 <= i < |list.value| && ConfigsEqual(list.value[i], config) then ReplaceMappings(list.value, config)
    else list.value + [config]
  }

  /** `mergeDisplayConfig` */
  method MergeDisplayConfig(config: DisplayConfig, opts: ConsoleOpts) returns (r: ConsoleOpts)
    ensures r.otherFields == opts.otherFields
    ensures r.fkDisplayNames == Some(MergedDisplayConfigs(config, opts.fkDisplayNames))
  {
    var newDisplaConfigs: seq<DisplayConfig>;
    if opts.fkDisplayNames.None? || |opts.fkDisplayNames.value| == 0 {
      newDisplaConfigs := [config];
    } else {
      var list := opts.fkDisplayNames.value;
      var configExists := false;
      newDisplaConfigs := [];
      for i := 0 to |list|
        invariant |newDisplaConfigs| == i
        invariant forall k :: 0 <= k < i ==> newDisplaConfigs[k] == ReplaceMappings(list, config)[k]
        invariant configExists <==> exists k :: 0 <= k < i && ConfigsEqual(list[k], config)
      {
        if ConfigsEqual(list[i], config) {
          configExists := true;
          newDisplaConfigs := newDisplaConfigs + [list[i].(mappings := config.mappings)];
        } else {
          newDisplaConfigs := newDisplaConfigs + [list[i]];
        }
      }
      if !configExists {
        newDisplaConfigs := list + [config];
      } else {
        assert newDisplaConfigs == ReplaceMappings(list, config);
      }
    }
    r := opts.(fkDisplayNames := Some(newDisplaConfigs));
  }

  /** After a merge the constraint is configured with `config`'s mappings, and every other
      configuration is as it was. */
  lemma MergedConfigPresent(config: DisplayConfig, list: Option<seq<DisplayConfig>>)
    ensures var r := MergedDisplayConfigs(config, list);
            exists i :: 0 <= i < |r| && ConfigsEqual(r[i], config) && r[i].mappings == config.mappings
    ensures var r := MergedDisplayConfigs(config, list);
            forall i :: 0 <= i < |r| && !ConfigsEqual(r[i], config) ==> list.Some? && r[i] in list.value
  {
    var r := MergedDisplayConfigs(config, list);
    if list.None? || |list.value| == 0 {
      assert ConfigsEqual(r[0], config);
    } else if exists i :: 0 <= i < |list.value| && ConfigsEqual(list.value[i], config) {
      var i :| 0 <= i < |list.value| && ConfigsEqual(list.value[i], config);
      assert ConfigsEqual(r[i], config) && r[i].mappings == config.mappings;
      assert forall k :: 0 <= k < |r| && !ConfigsEqual(r[k], config) ==> r[k] == list.value[k];
    } else {
      assert r[|r| - 1] == config;
      assert forall k :: 0 <= k < |r| - 1 ==> r[k] == list.value[k];
    }
  }

  /** Merging a configuration again changes nothing. */
  lemma MergeIdempotent(config: DisplayConfig, list: Option<seq<DisplayConfig>>)
    ensures var once := MergedDisplayConfigs(config, list);
            MergedDisplayConfigs(config, Some(once)) == once
  {
    var once := MergedDisplayConfigs(config, list);
    MergedConfigPresent(config, list);
    var twice := MergedDisplayConfigs(config, Some(once));
    assert twice == ReplaceMappings(once, config);
    if list.None? || |list.value| == 0 {
      assert twice[0] == once[0];
    } else if exists i :: 0 <= i < |list.value| && ConfigsEqual(list.value[i], config) {
      assert forall i :: 0 <= i < |once| ==> twice[i] == once[i];
    } else {
      var l := list.value;
      assert once == l + [config];
      forall i | 0 <= i < |l|
        ensures twice[i] == once[i]
      {
        assert once[i] == l[i] && !ConfigsEqual(l[i], config);
      }
      assert twice[|l|] == once[|l|];
    }
  }

  // ---------------------------------------------------------------- remove

  /** The configuration that `removeDisplayConfig` is given, without its mappings. */
  datatype DisplayConfigId = DisplayConfigId(tableName: string, schemaName: string, constraintName: string)

  function KeepUnlike(equalTableDefs: (DisplayConfig, DisplayConfigId) -> bool, displayConfig: DisplayConfigId): DisplayConfig -> bool
  {
    c => !equalTableDefs(c, displayConfig)
  }

  /** `removeDisplayConfig`: the configurations `equalTableDefs` (a parameter) does not
      equate with `displayConfig`, in order. The list is read without a check, so there must
      be one. */
  function RemoveDisplayConfig(equalTableDefs: (DisplayConfig, DisplayConfigId) -> bool, displayConfig: DisplayConfigId,
                               opts: ConsoleOpts): (r: ConsoleOpts)
    requires opts.fkDisplayNames.Some?
    ensures r.otherFields == opts.otherFields && r.fkDisplayNames.Some?
    ensures |r.fkDisplayNames.value| <= |opts.fkDisplayNames.value|
  {
    opts.(fkDisplayNames := Some(Filter(opts.fkDisplayNames.value, KeepUnlike(equalTableDefs, displayConfig))))
  }

  /** What is removed is exactly what `equalTableDefs` matches: nothing that remains
      matches, everything that does not match remains, and removing again changes nothing. */
  lemma RemoveDisplayConfigExact(equalTableDefs: (DisplayConfig, DisplayConfigId) -> bool, displayConfig: DisplayConfigId,
                                 opts: ConsoleOpts)
    requires opts.fkDisplayNames.Some?
    ensures var r := RemoveDisplayConfig(equalTableDefs, displayConfig, opts).fkDisplayNames.value;
            && (forall c :: c in r ==> c in opts.fkDisplayNames.value && !equalTableDefs(c, displayConfig))
            && (forall i :: 0 <= i < |opts.fkDisplayNames.value| && !equalTableDefs(opts.fkDisplayNames.value[i], displayConfig)
                  ==> opts.fkDisplayNames.value[i] in r)
    ensures var once := RemoveDisplayConfig(equalTableDefs, displayConfig, opts);
            RemoveDisplayConfig(equalTableDefs, displayConfig, once) == once
  {
    var p := KeepUnlike(equalTableDefs, displayConfig);
    FilterMembers(opts.fkDisplayNames.value, p);
    FilterIdempotent(opts.fkDisplayNames.value, p);
  }

  // ---------------------------------------------------------------- table mappings

  /** One row with the display mapping of its column (`{from, to, displayName, refTable, data}`). */
  datatype TableMapping = TableMapping(from: string, to: string, displayName: string, refTable: string, data: Json)

  /** `createTableMappings`: row `i` goes with mapping `i`, so there must be a mapping for
      every row. */
  method CreateTableMappings(data: seq<Json>, mappings: seq<Mapping>) returns (result: seq<TableMapping>)
    requires |mappings| >= |data|
    ensures |result| == |data|
    ensures forall i :: 0 <= i < |data| ==>
              result[i] == TableMapping(mappings[i].columnName, mappings[i].refColumnName,
                                        mappings[i].displayColumnName, mappings[i].refTableName, data[i])
  {
    result := [];
    for i := 0 to |data|
      invariant |result| == i
      invariant forall k :: 0 <= k < i ==>
                  result[k] == TableMapping(mappings[k].columnName, mappings[k].refColumnName,
                                            mappings[k].displayColumnName, mappings[k].refTableName, data[k])
    {
      result := result + [TableMapping(mappings[i].columnName, mappings[i].refColumnName,
                                       mappings[i].displayColumnName, mappings[i].refTableName, data[i])];
    }
  }

  // ---------------------------------------------------------------- display names per key

  function OnTable(tableName: string, schemaName: string): DisplayConfig -> bool
  {
    (m: DisplayConfig) => m.tableName == tableName && m.schemaName == schemaName
  }

  function ForConstraint(constraintName: string): DisplayConfig -> bool
  {
    (c: DisplayConfig) => c.constraintName == constraintName
  }

  function ShowsRefColumn(refColumn: string, refTableName: string): Mapping -> bool
  {
    (m: Mapping) => m.refColumnName == refColumn && m.refTableName == refTableName
  }

  /** The mapping that shows a column pair of a key to `refTableName`: the first one of the
      pair's referenced column and of that table. */
  function MappingFor(mappings: seq<Mapping>, refTableName: string): ColMapping -> Option<Mapping>
  {
    (cm: ColMapping) => Find(mappings, ShowsRefColumn(cm.refColumn, refTableName))
  }

  /** The display columns of the mappings `lookup` finds for the pairs, in the pairs' order;
      a pair without a mapping adds nothing. */
  function FoundNames(colMappings: seq<ColMapping>, lookup: ColMapping -> Option<Mapping>): (r: seq<string>)
    ensures |r| <= |colMappings|
  {
    if |colMappings| == 0 then []
    else
      var r := FoundNames(colMappings[..|colMappings| - 1], lookup);
      match lookup(colMappings[|colMappings| - 1])
      case Some(m) => r + [m.displayColumnName]
      case None => r
  }

  /** `sortedDisplayColumnNames`: for each column pair of the key, in order, the display
      column of its mapping, when there is one. */
  function DisplayNames(mappings: seq<Mapping>, refTableName: string, colMappings: seq<ColMapping>): seq<string>
  {
    FoundNames(colMappings, MappingFor(mappings, refTableName))
  }

  /** The display names of one key, or nothing when its constraint is not configured. */
  function DisplayNamesFor(currentTableMappings: seq<DisplayConfig>, fk: ForeignKey): Option<seq<string>>
  {
    match Find(currentTableMappings, ForConstraint(fk.constraintName))
    case None => None
    case Some(c) => Some(DisplayNames(c.mappings, fk.refTableName, fk.colMappings))
  }

  /** `newConfig` after the keys `fks`, in order, where `namesOf` gives each key's display
      names or nothing: a later key of the same constraint overrides an earlier one. */
  function KeyedNames(fks: seq<ForeignKey>, namesOf: ForeignKey -> Option<seq<string>>): map<string, seq<string>>
  {
    if |fks| == 0 then map[]
    else
      var m := KeyedNames(fks[..|fks| - 1], namesOf);
      var fk := fks[|fks| - 1];
      match namesOf(fk)
      case None => m
      case Some(names) => m[fk.constraintName := names]
  }

  function NamesOf(currentTableMappings: seq<DisplayConfig>): ForeignKey -> Option<seq<string>>
  {
    fk => DisplayNamesFor(currentTableMappings, fk)
  }

  /** `newConfig` after the keys `fks`, given the current table's configurations. */
  function NamesPerKey(currentTableMappings: seq<DisplayConfig>, fks: seq<ForeignKey>): map<string, seq<string>>
  {
    KeyedNames(fks, NamesOf(currentTableMappings))
  }

  /** The inner `forEach` of `getDisplayNamesPerKey`. */
  method SortedDisplayColumnNames(mappings: seq<Mapping>, fk: ForeignKey) returns (sortedDisplayColumnNames: seq<string>)
    ensures sortedDisplayColumnNames == DisplayNames(mappings, fk.refTableName, fk.colMappings)
  {
    sortedDisplayColumnNames := [];
    for j := 0 to |fk.colMappings|
      invariant sortedDisplayColumnNames == DisplayNames(mappings, fk.refTableName, fk.colMappings[..j])
    {
      assert fk.colMappings[..j + 1][..j] == fk.colMappings[..j];
      var newDN := Find(mappings, ShowsRefColumn(fk.colMappings[j].refColumn, fk.refTableName));
      if newDN.Some? {
        sortedDisplayColumnNames := sortedDisplayColumnNames + [newDN.value.displayColumnName];
      }
    }
    assert fk.colMappings[..|fk.colMappings|] == fk.colMappings;
  }

  /** `getDisplayNamesPerKey`: nothing without console options or display configurations;
      else, for each key being edited whose constraint is configured for this table, the
      display columns of its column pairs, under the constraint's name. */
  method GetDisplayNamesPerKey(consoleOpts: Option<ConsoleOpts>, tableSchema: TableSchema, fkModify: seq<ForeignKey>)
    returns (r: Option<map<string, seq<string>>>)
    ensures consoleOpts.None? || consoleOpts.value.fkDisplayNames.None? ==> r.None?
    ensures consoleOpts.Some? && consoleOpts.value.fkDisplayNames.Some? ==>
              r == Some(NamesPerKey(Filter(consoleOpts.value.fkDisplayNames.value, OnTable(tableSchema.table_name, tableSchema.table_schema)), fkModify))
  {
    if consoleOpts.None? || consoleOpts.value.fkDisplayNames.None? {
      return None;
    }
    var currentTableMappings := Filter(consoleOpts.value.fkDisplayNames.value, OnTable(tableSchema.table_name, tableSchema.table_schema));
    var newConfig: map<string, seq<string>> := map[];
    if |fkModify| > 0 {
      for i := 0 to |fkModify|
        invariant newConfig == NamesPerKey(currentTableMappings, fkModify[..i])
      {
        assert fkModify[..i + 1][..i] == fkModify[..i];
        var fk := fkModify[i];
        var currentFkMappings := Find(currentTableMappings, ForConstraint(fk.constraintName));
        if currentFkMappings.Some? {
          var sortedDisplayColumnNames := SortedDisplayColumnNames(currentFkMappings.value.mappings, fk);
          newConfig := newConfig[fk.constraintName := sortedDisplayColumnNames];
        }
      }
      assert fkModify[..|fkModify|] == fkModify;
    }
    r := Some(newConfig);
  }

  /** `fks[i]` names constraint `k` and has names, and no later key does both. */
  predicate LastNaming(fks: seq<ForeignKey>, namesOf: ForeignKey -> Option<seq<string>>, i: int, k: string)
  {
    && 0 <= i < |fks| && fks[i].constraintName == k && namesOf(fks[i]).Some?
    && forall j :: i < j < |fks| ==> !(fks[j].constraintName == k && namesOf(fks[j]).Some?)
  }

  /** A constraint has an entry exactly when some key names it and has names. */
  lemma {:induction false} KeyedNamesDomain(fks: seq<ForeignKey>, namesOf: ForeignKey -> Option<seq<string>>, k: string)
    ensures k in KeyedNames(fks, namesOf) <==> exists i :: 0 <= i < |fks| && fks[i].constraintName == k && namesOf(fks[i]).Some?
  {
    if |fks| > 0 {
      var n := |fks|;
      var init := fks[..n - 1];
      KeyedNamesDomain(init, namesOf, k);
      assert forall j :: 0 <= j < n - 1 ==> fks[j] == init[j];
    }
  }

  /** The entry of a constraint holds the names of the last key that names it and has names. */
  lemma {:induction false} KeyedNamesLastWins(fks: seq<ForeignKey>, namesOf: ForeignKey -> Option<seq<string>>, k: string)
    requires k in KeyedNames(fks, namesOf)
    ensures exists i :: LastNaming(fks, namesOf, i, k) && namesOf(fks[i]) == Some(KeyedNames(fks, namesOf)[k])
  {
    var n := |fks|;
    var init := fks[..n - 1];
    var fk := fks[n - 1];
    var r := KeyedNames(fks, namesOf);
    if fk.constraintName == k && namesOf(fk).Some? {
      assert LastNaming(fks, namesOf, n - 1, k);
    } else {
      KeyedNamesLastWins(init, namesOf, k);
      var i :| LastNaming(init, namesOf, i, k) && namesOf(init[i]) == Some(KeyedNames(init, namesOf)[k]);
      assert forall j :: 0 <= j < n - 1 ==> fks[j] == init[j];
      assert LastNaming(fks, namesOf, i, k);
    }
  }

  /** A constraint gets an entry exactly when some key being edited names it and it is
      configured for this table; its names are those of the last key that names it. */
  lemma NamesPerKeyEntries(currentTableMappings: seq<DisplayConfig>, fks: seq<ForeignKey>, k: string)
    ensures k in NamesPerKey(currentTableMappings, fks) <==>
              (exists i :: 0 <= i < |fks| && fks[i].constraintName == k) && Find(currentTableMappings, ForConstraint(k)).Some?
    ensures k in NamesPerKey(currentTableMappings, fks) ==>
              exists i :: && 0 <= i < |fks| && fks[i].constraintName == k
                          && (forall j :: i < j < |fks| ==> fks[j].constraintName != k)
                          && DisplayNamesFor(currentTableMappings, fks[i]) == Some(NamesPerKey(currentTableMappings, fks)[k])
  {
    var namesOf := NamesOf(currentTableMappings);
    assert forall i :: 0 <= i < |fks| && fks[i].constraintName == k ==>
      (namesOf(fks[i]).Some? <==> Find(currentTableMappings, ForConstraint(k)).Some?);
    KeyedNamesDomain(fks, namesOf, k);
    if k in NamesPerKey(currentTableMappings, fks) {
      KeyedNamesLastWins(fks, namesOf, k);
    }
  }

  /** When every column pair has a mapping, there is one name per pair, in the pairs' order. */
  lemma {:induction false} FoundNamesComplete(colMappings: seq<ColMapping>, lookup: ColMapping -> Option<Mapping>)
    requires forall i :: 0 <= i < |colMappings| ==> lookup(colMappings[i]).Some?
    ensures var r := FoundNames(colMappings, lookup);
            |r| == |colMappings| && forall i :: 0 <= i < |r| ==> r[i] == lookup(colMappings[i]).value.displayColumnName
  {
    if |colMappings| > 0 {
      var init := colMappings[..|colMappings| - 1];
      assert forall i :: 0 <= i < |init| ==> init[i] == colMappings[i];
      FoundNamesComplete(init, lookup);
    }
  }

  /** Each name is the display column of a mapping found for a pair. */
  lemma {:induction false} FoundNamesFound(colMappings: seq<ColMapping>, lookup: ColMapping -> Option<Mapping>)
    ensures forall name :: name in FoundNames(colMappings, lookup) ==>
              exists i :: 0 <= i < |colMappings| && lookup(colMappings[i]).Some? && lookup(colMappings[i]).value.displayColumnName == name
  {
    if |colMappings| > 0 {
      var init := colMappings[..|colMappings| - 1];
      assert forall i :: 0 <= i < |init| ==> init[i] == colMappings[i];
      FoundNamesFound(init, lookup);
    }
  }

  /** Each display name belongs to a mapping of the key's referenced table. */
  lemma DisplayNamesFromMappings(mappings: seq<Mapping>, refTableName: string, colMappings: seq<ColMapping>)
    ensures forall name :: name in DisplayNames(mappings, refTableName, colMappings) ==>
              exists m :: m in mappings && m.displayColumnName == name && m.refTableName == refTableName
  {
    FoundNamesFound(colMappings, MappingFor(mappings, refTableName));
  }

  /** When every column pair of the key has a mapping, there is one display name per pair, in
      the pairs' order: the display column of the pair's first mapping. */
  lemma DisplayNamesComplete(mappings: seq<Mapping>, refTableName: string, colMappings: seq<ColMapping>)
    requires forall i :: 0 <= i < |colMappings| ==> Find(mappings, ShowsRefColumn(colMappings[i].refColumn, refTableName)).Some?
    ensures var r := DisplayNames(mappings, refTableName, colMappings);
            |r| == |colMappings|
            && forall i :: 0 <= i < |r| ==>
                 r[i] == Find(mappings, ShowsRefColumn(colMappings[i].refColumn, refTableName)).value.displayColumnName
  {
    FoundNamesComplete(colMappings, MappingFor(mappings, refTableName));
  }
}
