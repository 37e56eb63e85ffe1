/** The small query-text builder `RQL` (`shared/utils/RQL.ts`), used for count queries: it
    keeps the table text and the where text that its two methods write. */
module Rql {
  import opened Base
  import opened Json

  /** The argument of `from`: one table name, or a list of them. */
  datatype TableArg = Single(name: string) | Many(names: seq<string>)

  /** `table.reduce((acc, i) => `${acc} , ${i}`, '')`: every name preceded by `" , "`. */
  function TablesText(names: seq<string>): (r: string)
    ensures r == "" <==> |names| == 0
  {
    if |names| == 0 then ""
    else TablesText(names[..|names| - 1]) + " , " + names[|names| - 1]
  }

  /** The list text is the names joined by `" , "`, with one more `" , "` in front. */
  lemma {:induction false} TablesTextJoin(names: seq<string>)
    ensures |names| == 0 ==> TablesText(names) == ""
    ensures |names| > 0 ==> TablesText(names) == " , " + Join(names, " , ")
  {
    if |names| > 1 {
      var init := names[..|names| - 1];
      TablesTextJoin(init);
      assert init[..|init| - 1] == names[..|names| - 1][..|init| - 1];
      calc {
        TablesText(names);
        TablesText(init) + " , " + names[|names| - 1];
        " , " + Join(init, " , ") + " , " + names[|names| - 1];
        " , " + (Join(init, " , ") + " , " + names[|names| - 1]);
        " , " + Join(names, " , ");
      }
    }
  }

  /** One entry of a `$and` object, as `Object.entries` lists it: a column and its
      condition object, itself the list of its entries (operator and value). */
  datatype Condition = Condition(key: string, entries: seq<(string, Json)>)

  /** `parseCondition`'s operator as a template literal writes it: the condition's first
      key, or `undefined` when it has none. */
  function ConditionOp(cond: Condition): (r: string)
    ensures |cond.entries| == 0 ==> r == "undefined"
  {
    if |cond.entries| == 0 then "undefined" else cond.entries[0].0
  }

  /** `parseCondition`'s value as a template literal writes it: the condition's first value,
      or `undefined`. */
  function ConditionValue(cond: Condition): (r: string)
    ensures |cond.entries| == 0 ==> r == "undefined"
  {
    if |cond.entries| == 0 then "undefined" else TemplateText(cond.entries[0].1)
  }

  /** `${key} ${op} ${value}` */
  function Clause(cond: Condition): string
  {
    cond.key + " " + ConditionOp(cond) + " " + ConditionValue(cond)
  }

  /** The clauses of a `$and` object's entries, in order. */
  function Clauses(entries: seq<Condition>): (r: seq<string>)
    ensures |r| == |entries| && forall i :: 0 <= i < |r| ==> r[i] == Clause(entries[i])
  {
    seq(|entries|, i requires 0 <= i < |entries| => Clause(entries[i]))
  }

  /** The text one `$and` object adds, from its clauses: each clause after `"AND "`, and
      the first clause once more before it. */
  function ObjectText(clauses: seq<string>): string
  {
    if |clauses| == 0 then ""
    else
      var n := |clauses| - 1;
      ObjectText(clauses[..n]) + (if n == 0 then clauses[n] else "") + "AND " + clauses[n]
  }

  /** Each clause after `"AND "`, in order. */
  function AndClauses(clauses: seq<string>): string
  {
    if |clauses| == 0 then "" else AndClauses(clauses[..|clauses| - 1]) + "AND " + clauses[|clauses| - 1]
  }

  /** Texts one after the other, with nothing between them. */
  function Concat(texts: seq<string>): string
  {
    if |texts| == 0 then "" else Concat(texts[..|texts| - 1]) + texts[|texts| - 1]
  }

  /** The text of each `$and` object, in order. */
  function ObjectTexts(conds: seq<seq<Condition>>): (r: seq<string>)
    ensures |r| == |conds| && forall i :: 0 <= i < |r| ==> r[i] == ObjectText(Clauses(conds[i]))
  {
    seq(|conds|, i requires 0 <= i < |conds| => ObjectText(Clauses(conds[i])))
  }

  /** The where text of the `$and` list `conds`: the texts of its objects, with nothing between them. */
  function WhereText(conds: seq<seq<Condition>>): string
  {
    Concat(ObjectTexts(conds))
  }

  lemma {:induction false} ConcatAppend(a: seq<string>, b: seq<string>)
    ensures Concat(a + b) == Concat(a) + Concat(b)
  {
    if |b| > 0 {
      var init := b[..|b| - 1];
      ConcatAppend(a, init);
      assert (a + b)[..|a + b| - 1] == a + init;
    } else {
      assert a + b == a;
    }
  }

  /** An object's text is its first clause, then every clause, the first included, after `"AND "`. */
  lemma {:induction false} ObjectTextRepeatsFirst(clauses: seq<string>)
    ensures |clauses| == 0 ==> ObjectText(clauses) == ""
    ensures |clauses| > 0 ==> ObjectText(clauses) == clauses[0] + AndClauses(clauses)
  {
    if |clauses| > 1 {
      var n := |clauses| - 1;
      var init := clauses[..n];
      ObjectTextRepeatsFirst(init);
      assert init[0] == clauses[0];
    } else if |clauses| == 1 {
      assert clauses[..0] == [];
    }
  }

  /** The where text of two lists one after the other is their texts one after the other. */
  lemma WhereTextAppend(a: seq<seq<Condition>>, b: seq<seq<Condition>>)
    ensures WhereText(a + b) == WhereText(a) + WhereText(b)
  {
    assert ObjectTexts(a + b) == ObjectTexts(a) + ObjectTexts(b);
    ConcatAppend(ObjectTexts(a), ObjectTexts(b));
  }

  /** A one-condition filter writes its clause twice, the second time after `"AND "`. */
  lemma WhereTextOneCondition(key: string, op: string, value: Json)
    ensures WhereText([[Condition(key, [(op, value)])]])
            == key + " " + op + " " + TemplateText(value) + "AND " + key + " " + op + " " + TemplateText(value)
  {
    var clause := key + " " + op + " " + TemplateText(value);
    assert Clauses([Condition(key, [(op, value)])]) == [clause];
    assert ObjectText([clause]) == clause + "AND " + clause by {
      assert [clause][..0] == [];
    }
    var text := clause + "AND " + clause;
    assert ObjectTexts([[Condition(key, [(op, value)])]]) == [text];
    assert Concat([text]) == text by {
      assert [text][..0] == [];
    }
  }

  /** The builder's state: `table` and the where text, which the source keeps in a field
      named like its `where` method. */
  class Rql {
    var table: string
    var whereText: string

    constructor()
      ensures table == "" && whereText == ""
    {
      table := "";
      whereText := "";
    }

    /** `from`: the table text, from one name or a list; the where text is kept. */
    method From(t: TableArg)
      modifies this
      ensures t.Single? ==> table == t.name
      ensures t.Many? ==> table == TablesText(t.names)
      ensures whereText == old(whereText)
    {
      match t
      case Single(name) =>
        table := name;
      case Many(names) =>
        table := TablesText(names);
    }

    /** `where`: the text of the `$and` list, each of its objects given as its entries;
        the table text is kept. */
    method Where(and: seq<seq<Condition>>)
      modifies this
      ensures whereText == WhereText(and)
      ensures table == old(table)
    {
      var text := "";
      for c := 0 to |and|
        invariant text == WhereText(and[..c])
        invariant table == old(table)
      {
        var objectText := ObjectWhereText(and[c]);
        assert ObjectTexts(and[..c + 1]) == ObjectTexts(and[..c]) + [objectText];
        assert (ObjectTexts(and[..c]) + [objectText])[..c] == ObjectTexts(and[..c]);
        text := text + objectText;
      }
      assert and[..|and|] == and;
      whereText := text;
    }
  }

  /** Appending one clause to an object's clauses appends its text. */
  lemma ObjectTextStep(clauses: seq<string>, i: nat)
    requires i < |clauses|
    ensures ObjectText(clauses[..i + 1]) == ObjectText(clauses[..i]) + (if i == 0 then clauses[i] else "") + "AND " + clauses[i]
  {
    assert clauses[..i + 1][..i] == clauses[..i];
  }

  /** The inner `forEach` of `where`, over the entries of one `$and` object. */
  method ObjectWhereText(entries: seq<Condition>) returns (text: string)
    ensures text == ObjectText(Clauses(entries))
  {
    ghost var clauses := Clauses(entries);
    text := "";
    for i := 0 to |entries|
      invariant text == ObjectText(clauses[..i])
    {
      var clause := entries[i].key + " " + ConditionOp(entries[i]) + " " + ConditionValue(entries[i]);
      assert clause == clauses[i];
      ObjectTextStep(clauses, i);
      if i == 0 {
        text := text + clause;
      }
      text := text + "AND " + clause;
    }
    assert clauses[..|entries|] == clauses;
  }
}
