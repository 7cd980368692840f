/** `sqlForPartialUpdate(dataToUpdate, jsToSql)` of helpers/sql.js: the SET list of a
    partial UPDATE. Each field of `dataToUpdate`, in insertion order, becomes a fragment
    `"column"=$i` (the column named by `jsToSql`, or the field's own name when the table has
    no entry for it; i counts from 1); the fragments are joined with ", " and the field
    values, in the same order, are the parameters. No field at all is a bad request. */
module Sql {
  import opened JsValue
  import opened ExpressError
  import opened SqlText
  import opened Decimal

  /** `{ setCols, values }`. */
  datatype SetClause = SetClause(setCols: string, values: seq<Value>)

  /** The column a field is stored in: its translation, or the field name itself. */
  function ColumnName(jsToSql: map<string, string>, field: string): string {
    if field in jsToSql then jsToSql[field] else field
  }

  /** `"column"=$k`. */
  function SetFragment(column: string, k: nat): string {
    Quote(column) + ("=" + Placeholder(k))
  }

  /** The fragments of the fields of `data`, numbered on from `k`. */
  function SetFragments(data: Record, jsToSql: map<string, string>, k: nat): (fs: seq<string>)
    ensures |fs| == |data|
    ensures forall i :: 0 <= i < |data| ==> fs[i] == SetFragment(ColumnName(jsToSql, data[i].0), k + i)
    decreases |data|
  {
    if data == [] then []
    else [SetFragment(ColumnName(jsToSql, data[0].0), k)] + SetFragments(data[1..], jsToSql, k + 1)
  }

  /** `Object.values(data)`. */
  function FieldValues(data: Record): (vs: seq<Value>)
    ensures |vs| == |data|
    ensures forall i :: 0 <= i < |data| ==> vs[i] == data[i].1
    decreases |data|
  {
    if data == [] then [] else [data[0].1] + FieldValues(data[1..])
  }

  function SqlForPartialUpdate(dataToUpdate: Record, jsToSql: map<string, string>): (r: Result<SetClause>)
    ensures r.Err? <==> dataToUpdate == []
    ensures r.Err? ==> r.error == BadRequest
    ensures r.Ok? ==>
      && |r.value.values| == |dataToUpdate|
      && forall i :: 0 <= i < |dataToUpdate| ==> r.value.values[i] == dataToUpdate[i].1
    ensures r.Ok? ==>
      r.value.setCols ==
        Join(seq(|dataToUpdate|, i requires 0 <= i < |dataToUpdate| =>
                   SetFragment(ColumnName(jsToSql, dataToUpdate[i].0), i + 1)), ", ")
  {
    if dataToUpdate == [] then Err(BadRequest)
    else
      var fragments := SetFragments(dataToUpdate, jsToSql, 1);
      assert fragments == seq(|dataToUpdate|, i requires 0 <= i < |dataToUpdate| =>
                                SetFragment(ColumnName(jsToSql, dataToUpdate[i].0), i + 1));
      Ok(SetClause(Join(fragments, ", "), FieldValues(dataToUpdate)))
  }

  /** Every column name can be written as a quoted identifier: it holds no double quote. */
  predicate QuotableColumns(data: Record, jsToSql: map<string, string>) {
    forall i :: 0 <= i < |data| ==> '"' !in ColumnName(jsToSql, data[i].0)
  }

  lemma FragmentPrefix(column: string, k: nat, rest: string)
    requires '"' !in column && StartsClean(rest)
    ensures Placeholders(SetFragment(column, k) + rest) == [k] + Placeholders(rest)
  {
    assert SetFragment(column, k) + rest == Quote(column) + ("=" + (Placeholder(k) + rest));
    QuotedPrefix(column, "=" + (Placeholder(k) + rest));
    PlainPlaceholder("=", k, rest);
  }

  lemma QuotableTail(data: Record, jsToSql: map<string, string>)
    requires data != [] && QuotableColumns(data, jsToSql)
    ensures QuotableColumns(data[1..], jsToSql)
  {
    forall i | 0 <= i < |data| - 1 ensures '"' !in ColumnName(jsToSql, data[1..][i].0) {
      assert data[1..][i] == data[i + 1];
    }
  }

  /** A fragment, then ", " and the fragments that continue its numbering. */
  lemma FragmentStep(column: string, k: nat, n: nat, tail: string, rest: string)
    requires '"' !in column && StartsClean(rest)
    requires Placeholders(tail + rest) == Interval(k + 1, n) + Placeholders(rest)
    ensures Placeholders(SetFragment(column, k) + (", " + (tail + rest))) == Interval(k, n + 1) + Placeholders(rest)
  {
    assert Plain(", ");
    CleanStart(", ", tail + rest);
    FragmentPrefix(column, k, ", " + (tail + rest));
    PlainPrefix(", ", tail + rest);
    RunsCons(k, n, Placeholders(rest));
  }

  lemma {:induction false} SetFragmentsPlaceholders(data: Record, jsToSql: map<string, string>, k: nat, rest: string)
    requires data != [] && QuotableColumns(data, jsToSql) && StartsClean(rest)
    ensures Placeholders(Join(SetFragments(data, jsToSql, k), ", ") + rest)
            == Interval(k, |data|) + Placeholders(rest)
    decreases |data|
  {
    var fs := SetFragments(data, jsToSql, k);
    var column := ColumnName(jsToSql, data[0].0);
    assert '"' !in column;
    if |data| == 1 {
      FragmentPrefix(column, k, rest);
      assert Interval(k, 1) == [k];
    } else {
      assert fs[1..] == SetFragments(data[1..], jsToSql, k + 1);
      JoinStep(fs, ", ", rest);
      QuotableTail(data, jsToSql);
      SetFragmentsPlaceholders(data[1..], jsToSql, k + 1, rest);
      FragmentStep(column, k, |data| - 1, Join(fs[1..], ", "), rest);
    }
  }

  /** The SET list binds the parameters $1..$n, once each and in order, where n is the
      number of values; text written after it that does not start with a digit keeps
      its own placeholders after them. */
  lemma SetColsWellNumbered(dataToUpdate: Record, jsToSql: map<string, string>, rest: string)
    requires dataToUpdate != [] && QuotableColumns(dataToUpdate, jsToSql) && StartsClean(rest)
    ensures SqlForPartialUpdate(dataToUpdate, jsToSql).Ok?
    ensures var clause := SqlForPartialUpdate(dataToUpdate, jsToSql).value;
            Placeholders(clause.setCols + rest) == Interval(1, |clause.values|) + Placeholders(rest)
  {
    SetFragmentsPlaceholders(dataToUpdate, jsToSql, 1, rest);
  }

  /** One field, renamed by the translation table: `"first_name"=$1` binding its value. */
  lemma OneFieldExample()
    ensures SqlForPartialUpdate([("firstName", Str("Aliya"))], map["firstName" := "first_name"])
         == Ok(SetClause("\"first_name\"=$1", [Str("Aliya")]))
  {
    var data := [("firstName", Str("Aliya"))];
    var jsToSql := map["firstName" := "first_name"];
    assert ColumnName(jsToSql, "firstName") == "first_name";
    assert NatToString(1) == "1";
    assert SetFragment("first_name", 1) == "\"first_name\"=$1";
    assert SetFragments(data, jsToSql, 1) == ["\"first_name\"=$1"];
    assert FieldValues(data) == [Str("Aliya")];
  }

  /** Two fields, in insertion order: the fragments are numbered $1 and $2 and joined with
      ", ", and the values follow the same order. */
  lemma TwoFieldsExample()
    ensures SqlForPartialUpdate([("firstName", Str("Aliya")), ("age", Num(32))],
                                map["firstName" := "first_name", "age" := "age"])
         == Ok(SetClause("\"first_name\"=$1, \"age\"=$2", [Str("Aliya"), Num(32)]))
  {
    var data := [("firstName", Str("Aliya")), ("age", Num(32))];
    var jsToSql := map["firstName" := "first_name", "age" := "age"];
    assert ColumnName(jsToSql, "firstName") == "first_name";
    assert ColumnName(jsToSql, "age") == "age";
    assert NatToString(1) == "1" && NatToString(2) == "2";
    var first := "\"first_name\"=$1";
    var second := "\"age\"=$2";
    assert SetFragment("first_name", 1) == first;
    assert SetFragment("age", 2) == second;
    assert data[1..] == [("age", Num(32))];
    assert SetFragments(data[1..], jsToSql, 2) == [second];
    assert SetFragments(data, jsToSql, 1) == [first, second];
    assert Join([first, second], ", ") == first + ", " + second;
    assert first + ", " + second == "\"first_name\"=$1, \"age\"=$2";
    assert FieldValues(data) == [Str("Aliya"), Num(32)];
  }

}
