/** The `Job` model of models/job.js: the SQL statements it hands to the database driver,
    the way it reshapes the rows that come back, and the errors it raises.

    The driver's `db.query(text, values)` is the oracle `db`: SQL text and positional
    parameters in, result rows out. What is verified is the text and parameter list each
    operation passes to it, what the operation makes of the rows, and when it raises
    NotFound or BadRequest. */
module Job {
  import opened JsValue
  import opened ExpressError
  import opened SqlText
  import Sql
  import opened Decimal

  /** `db.query`: the rows the database returns for a statement. */
  type Db = (string, seq<Value>) -> seq<Record>

  /** SQL text with the ordered list of values its placeholders `$1`, `$2`, ... bind. */
  datatype Statement = Statement(text: string, params: seq<Value>)

  function Execute(db: Db, st: Statement): seq<Record> {
    db(st.text, st.params)
  }

  /** The placeholders of the text are exactly $1, $2, ..., $n, in this order, where n is
      the number of parameters: every parameter is bound once and none is missing. */
  predicate WellNumbered(st: Statement) {
    Placeholders(st.text) == Interval(1, |st.params|)
  }

  /** `rows[0]`: the first row, or `undefined` when there is none. */
  function FirstRow(rows: seq<Record>): (v: Value)
    ensures v == Undefined <==> rows == []
    ensures rows != [] ==> v == Obj(rows[0])
  {
    if rows == [] then Undefined else Obj(rows[0])
  }

  /** The error `get`, `update` and `remove` raise for an id that matches no job. */
  function NoJob(id: Value): HttpError {
    NotFound("No job: " + ToText(id))
  }

  // The multi-line SQL literals of the source are written here with single spaces; the
  // parts that vary, and every placeholder and quoted alias, are written exactly. Each
  // text is nested to the right, the way the scanner reads it, and is assembled from
  // short words; each text's words are proved free of `$` and of double quotes next to it.

  /* ---------------------------------------------------------------- shared text */

  /** The columns of a job row, up to the alias of its company handle. */
  function JobColumns(): string {
    " id," + (" title," + (" salary," + (" equity," + (" company_handle" + " AS "))))
  }

  lemma JobWordsPlain()
    ensures Plain(" id,") && Plain(" title,") && Plain(" salary,") && Plain(" equity,")
  {
  }

  lemma HandleWordsPlain()
    ensures Plain(" company_handle") && Plain(" AS ")
  {
  }

  lemma JobColumnsPlain()
    ensures Plain(JobColumns())
  {
    JobWordsPlain();
    HandleWordsPlain();
    PlainConcat(" company_handle", " AS ");
    PlainConcat(" equity,", " company_handle" + " AS ");
    PlainConcat(" salary,", " equity," + (" company_handle" + " AS "));
    PlainConcat(" title,", " salary," + (" equity," + (" company_handle" + " AS ")));
    PlainConcat(" id,", " title," + (" salary," + (" equity," + (" company_handle" + " AS "))));
  }

  /** `RETURNING id, title, salary, equity, company_handle AS "companyHandle"`. */
  function ReturningJob(): string {
    " RETURNING" + (JobColumns() + Quote("companyHandle"))
  }

  lemma ListWordsPlain()
    ensures Plain(" RETURNING") && Plain(", c.name AS ") && Plain(" ORDER BY title ")
  {
  }

  lemma ReturningJobInert()
    ensures Placeholders(ReturningJob()) == [] && StartsClean(ReturningJob())
  {
    ListWordsPlain();
    JobColumnsPlain();
    assert Quote("companyHandle") + "" == Quote("companyHandle");
    PlainQuoted(JobColumns(), "companyHandle", "");
    PlainPrefix(" RETURNING", JobColumns() + Quote("companyHandle"));
    CleanStart(" RETURNING", JobColumns() + Quote("companyHandle"));
  }

  /* ---------------------------------------------------------------- create */

  function InsertJob(): string {
    "INSERT INTO" + (" jobs" + (" (title," + (" salary," + (" equity," + (" company_handle)" + " VALUES (")))))
  }

  lemma InsertWordsPlain()
    ensures Plain("INSERT INTO") && Plain(" jobs") && Plain(" (title,")
  {
  }

  lemma ValuesWordsPlain()
    ensures Plain(" company_handle)") && Plain(" VALUES (")
  {
  }

  lemma InsertJobPlain()
    ensures Plain(InsertJob())
  {
    InsertWordsPlain();
    ValuesWordsPlain();
    JobWordsPlain();
    PlainConcat(" company_handle)", " VALUES (");
    PlainConcat(" equity,", " company_handle)" + " VALUES (");
    PlainConcat(" salary,", " equity," + (" company_handle)" + " VALUES ("));
    PlainConcat(" (title,", " salary," + (" equity," + (" company_handle)" + " VALUES (")));
    PlainConcat(" jobs", " (title," + (" salary," + (" equity," + (" company_handle)" + " VALUES ("))));
    PlainConcat("INSERT INTO", " jobs" + (" (title," + (" salary," + (" equity," + (" company_handle)" + " VALUES (")))));
  }

  /** The text of the INSERT: the four placeholders in the VALUES list, then RETURNING. */
  function CreateText(): string {
    InsertJob() + (Placeholder(1) + (", " + (Placeholder(2) + (", " + (Placeholder(3) + (", " + (Placeholder(4)
      + (")" + ReturningJob()))))))))
  }

  lemma SeparatorsPlain()
    ensures Plain(", ") && Plain(")") && Plain(" AND ") && Plain(" WHERE ")
  {
  }

  /** The closing parenthesis of the VALUES list, then text with no placeholder in it. */
  lemma CloseValues(tail: string)
    requires Placeholders(tail) == [] && StartsClean(tail)
    ensures Placeholders(")" + tail) == Interval(5, 0) && StartsClean(")" + tail)
  {
    SeparatorsPlain();
    PlainPrefix(")", tail);
    CleanStart(")", tail);
    assert Interval(5, 0) == [];
  }

  /** `$1, $2, $3, $4)` between text with no placeholder in it. */
  lemma FourValuesNumbered(head: string, tail: string)
    requires Plain(head) && Placeholders(tail) == [] && StartsClean(tail)
    ensures Placeholders(head + (Placeholder(1) + (", " + (Placeholder(2) + (", " + (Placeholder(3) + (", "
      + (Placeholder(4) + (")" + tail))))))))) == Interval(1, 4)
  {
    var t4 := ")" + tail;
    var t3 := ", " + (Placeholder(4) + t4);
    var t2 := ", " + (Placeholder(3) + t3);
    var t1 := ", " + (Placeholder(2) + t2);
    CloseValues(tail);
    SeparatorsPlain();
    SeparatedPlaceholder(", ", 4, 0, t4);
    SeparatedPlaceholder(", ", 3, 1, t3);
    SeparatedPlaceholder(", ", 2, 2, t2);
    PlainRun(head, 1, 3, t1);
  }

  lemma CreateWellNumbered()
    ensures Placeholders(CreateText()) == Interval(1, 4)
  {
    InsertJobPlain();
    ReturningJobInert();
    FourValuesNumbered(InsertJob(), ReturningJob());
  }



  /** The INSERT of `Job.create(data)`: title, salary, equity and company handle, bound
      by $1..$4 in that order. */
  function CreateStatement(data: Record): (st: Statement)
    ensures st.params == [Prop(data, "title"), Prop(data, "salary"), Prop(data, "equity"), Prop(data, "companyHandle")]
    ensures WellNumbered(st)
  {
    CreateWellNumbered();
    Statement(CreateText(), [Prop(data, "title"), Prop(data, "salary"), Prop(data, "equity"), Prop(data, "companyHandle")])
  }

  /** `Job.create(data)`: the row the INSERT returns, `undefined` if it returns none. */
  function Create(db: Db, data: Record): (job: Value)
    ensures job == Undefined <==> Execute(db, CreateStatement(data)) == []
    ensures Execute(db, CreateStatement(data)) != [] ==> job == Obj(Execute(db, CreateStatement(data))[0])
  {
    FirstRow(Execute(db, CreateStatement(data)))
  }

  /* ---------------------------------------------------------------- findAll */

  /** The argument `{ title, minSalary, hasEquity }` of `findAll`; a property not given is
      `Undefined`. */
  datatype Filters = Filters(title: Value, minSalary: Value, hasEquity: Value)

  /** One condition of the WHERE clause, with the value it binds (if any). */
  datatype Condition =
    | TitleLike(pattern: Value)
    | SalaryAtLeast(min: Value)
    | EquityPositive

  /** The ILIKE pattern for a title filter: the title's text between two wildcards. */
  function TitlePattern(title: Value): Value {
    Str("%" + ToText(title) + "%")
  }

  /** The condition of the title filter, if one is given. */
  function TitleStage(f: Filters): seq<Condition> {
    if !f.title.Undefined? then [TitleLike(TitlePattern(f.title))] else []
  }

  /** The conditions so far, then that of the salary filter, if one is given. */
  function SalaryStage(f: Filters, cs: seq<Condition>): seq<Condition> {
    if !f.minSalary.Undefined? then cs + [SalaryAtLeast(f.minSalary)] else cs
  }

  /** The conditions so far, then `equity > 0` when `hasEquity` is `true` itself. */
  function EquityStage(f: Filters, cs: seq<Condition>): seq<Condition> {
    if f.hasEquity == Bool(true) then cs + [EquityPositive] else cs
  }

  /** The conditions a filter record asks for, pushed in their fixed order: title, then
      salary, then equity. */
  function Conditions(f: Filters): seq<Condition> {
    EquityStage(f, SalaryStage(f, TitleStage(f)))
  }


  /** The values a condition binds: one for a title or salary filter, none for equity. */
  function Bound(c: Condition): seq<Value> {
    match c
    case TitleLike(p) => [p]
    case SalaryAtLeast(m) => [m]
    case EquityPositive => []
  }

  /** The parameter list of a list of conditions: the values each binds, pushed in turn. */
  function Params(cs: seq<Condition>): seq<Value> {
    if cs == [] then [] else Params(cs[..|cs| - 1]) + Bound(cs[|cs| - 1])
  }

  /** The SQL of one condition whose value (if any) is bound by `$k`. */
  function ClauseSql(c: Condition, k: nat): string {
    match c
    case TitleLike(_) => "title ILIKE " + Placeholder(k)
    case SalaryAtLeast(_) => "salary >= " + Placeholder(k)
    case EquityPositive => "equity > 0"
  }

  /** The SQL of each condition, pushed in turn: the value a condition binds (if any) is
      bound by `$j`, j being k plus the number of values pushed before it. */
  function ClausesSql(cs: seq<Condition>, k: nat): (clauses: seq<string>)
    ensures |clauses| == |cs|
  {
    if cs == [] then []
    else
      var before := cs[..|cs| - 1];
      ClausesSql(before, k) + [ClauseSql(cs[|cs| - 1], k + |Params(before)|)]
  }

  function FindAllColumns(): string {
    "SELECT j.id," + (" j.title," + (" j.salary," + (" j.equity," + (" j.company_handle" + " AS "))))
  }

  function FindAllJoin(): string {
    " FROM jobs j" + (" LEFT JOIN" + (" companies" + (" AS c" + (" ON c.handle" + (" =" + " j.company_handle")))))
  }

  /** The SELECT list and the join of the listing query, before any WHERE clause. */
  function FindAllBase(): string {
    FindAllColumns() + (Quote("companyHandle") + (", c.name AS " + (Quote("companyName") + FindAllJoin())))
  }

  function OrderByTitle(): string {
    " ORDER BY title "
  }

  lemma SelectWordsPlain()
    ensures Plain("SELECT j.id,") && Plain(" j.title,")
  {
  }

  lemma SelectMoreWordsPlain()
    ensures Plain(" j.salary,") && Plain(" j.equity,") && Plain(" j.company_handle")
  {
  }

  lemma FindAllColumnsPlain()
    ensures Plain(FindAllColumns())
  {
    SelectWordsPlain();
    SelectMoreWordsPlain();
    HandleWordsPlain();
    PlainConcat(" j.company_handle", " AS ");
    PlainConcat(" j.equity,", " j.company_handle" + " AS ");
    PlainConcat(" j.salary,", " j.equity," + (" j.company_handle" + " AS "));
    PlainConcat(" j.title,", " j.salary," + (" j.equity," + (" j.company_handle" + " AS ")));
    PlainConcat("SELECT j.id,", " j.title," + (" j.salary," + (" j.equity," + (" j.company_handle" + " AS "))));
  }

  lemma JoinWordsPlain()
    ensures Plain(" FROM jobs j") && Plain(" LEFT JOIN") && Plain(" companies")
  {
  }

  lemma OnWordsPlain()
    ensures Plain(" AS c") && Plain(" ON c.handle") && Plain(" =") && Plain(" j.company_handle")
  {
  }

  lemma FindAllJoinPlain()
    ensures Plain(FindAllJoin())
  {
    JoinWordsPlain();
    OnWordsPlain();
    PlainConcat(" =", " j.company_handle");
    PlainConcat(" ON c.handle", " =" + " j.company_handle");
    PlainConcat(" AS c", " ON c.handle" + (" =" + " j.company_handle"));
    PlainConcat(" companies", " AS c" + (" ON c.handle" + (" =" + " j.company_handle")));
    PlainConcat(" LEFT JOIN", " companies" + (" AS c" + (" ON c.handle" + (" =" + " j.company_handle"))));
    PlainConcat(" FROM jobs j", " LEFT JOIN" + (" companies" + (" AS c" + (" ON c.handle" + (" =" + " j.company_handle")))));
  }

  lemma OrderByTitlePlain()
    ensures Plain(OrderByTitle()) && OrderByTitle()[0] == ' '
  {
    ListWordsPlain();
  }

  /** Nothing, or ` WHERE ` and the clauses of the conditions joined with ` AND `. */
  function WhereSql(cs: seq<Condition>): string {
    if cs == [] then "" else " WHERE " + Join(ClausesSql(cs, 1), " AND ")
  }

  /** The listing query for a filter record: its text and its values. */
  function FindAllStatement(f: Filters): Statement {
    var cs := Conditions(f);
    Statement(FindAllBase() + (WhereSql(cs) + OrderByTitle()), Params(cs))
  }

  /** Pushing a condition appends the values it binds. */
  lemma ParamsSnoc(cs: seq<Condition>, c: Condition)
    ensures Params(cs + [c]) == Params(cs) + Bound(c)
  {
    assert (cs + [c])[..|cs|] == cs;
  }

  /** Pushing a condition appends its clause, numbered after the values before it. */
  lemma ClausesSnoc(cs: seq<Condition>, c: Condition, k: nat)
    ensures ClausesSql(cs + [c], k) == ClausesSql(cs, k) + [ClauseSql(c, k + |Params(cs)|)]
  {
    assert (cs + [c])[..|cs|] == cs;
  }

  lemma ClauseWordsPlain()
    ensures Plain("title ILIKE ") && Plain("salary >= ") && Plain("equity > 0")
  {
  }

  /** The clause of one condition holds the placeholder of its value and no other. */
  lemma ClausePlaceholders(c: Condition, k: nat, rest: string)
    requires StartsClean(rest)
    ensures Placeholders(ClauseSql(c, k) + rest) == Interval(k, |Bound(c)|) + Placeholders(rest)
  {
    ClauseWordsPlain();
    match c
    case TitleLike(_) =>
      AppendAssoc("title ILIKE ", Placeholder(k), rest);
      PlainPlaceholder("title ILIKE ", k, rest);
      assert Interval(k, 1) == [k];
    case SalaryAtLeast(_) =>
      AppendAssoc("salary >= ", Placeholder(k), rest);
      PlainPlaceholder("salary >= ", k, rest);
      assert Interval(k, 1) == [k];
    case EquityPositive =>
      PlainPrefix("equity > 0", rest);
  }

  /** ` AND `, then the clause of a condition, then text that does not start with a digit. */
  lemma AndClausePlaceholders(c: Condition, k: nat, rest: string)
    requires StartsClean(rest)
    ensures Placeholders(" AND " + (ClauseSql(c, k) + rest)) == Interval(k, |Bound(c)|) + Placeholders(rest)
  {
    SeparatorsPlain();
    PlainPrefix(" AND ", ClauseSql(c, k) + rest);
    ClausePlaceholders(c, k, rest);
  }

  /** One more clause after a nonempty list of clauses: its placeholders follow theirs. */
  lemma ClausesSnocPlaceholders(before: seq<Condition>, c: Condition, k: nat, rest: string)
    requires before != [] && StartsClean(rest)
    requires var last := ClauseSql(c, k + |Params(before)|);
      Placeholders(Join(ClausesSql(before, k), " AND ") + (" AND " + (last + rest)))
        == Interval(k, |Params(before)|) + Placeholders(" AND " + (last + rest))
    ensures Placeholders(Join(ClausesSql(before + [c], k), " AND ") + rest)
        == Interval(k, |Params(before + [c])|) + Placeholders(rest)
  {
    var n := |Params(before)|;
    var xs, x, ys := ClausesSql(before, k), ClauseSql(c, k + n), ClausesSql(before + [c], k);
    ClausesSnoc(before, c, k);
    assert ys == xs + [x];
    ParamsSnoc(before, c);
    assert |Params(before + [c])| == n + |Bound(c)|;
    AndClausePlaceholders(c, k + n, rest);
    JoinRunSnoc(xs, x, ys, " AND ", k, n, |Bound(c)|, |Params(before + [c])|, rest);
  }

  /** The clauses joined with AND hold the placeholders $k, $(k+1), ..., one per value the
      conditions bind, in order. */
  lemma {:induction false} ClausesPlaceholders(cs: seq<Condition>, k: nat, rest: string)
    requires cs != [] && StartsClean(rest)
    ensures Placeholders(Join(ClausesSql(cs, k), " AND ") + rest) == Interval(k, |Params(cs)|) + Placeholders(rest)
    decreases |cs|
  {
    var before := cs[..|cs| - 1];
    var c := cs[|cs| - 1];
    assert cs == before + [c];
    if before == [] {
      ClausesSnoc([], c, k);
      ParamsSnoc([], c);
      ClausePlaceholders(c, k, rest);
    } else {
      var rest' := " AND " + (ClauseSql(c, k + |Params(before)|) + rest);
      CleanStart(" AND ", ClauseSql(c, k + |Params(before)|) + rest);
      ClausesPlaceholders(before, k, rest');
      ClausesSnocPlaceholders(before, c, k, rest);
    }
  }

  lemma FindAllBaseInert(rest: string)
    ensures Placeholders(FindAllBase() + rest) == Placeholders(rest)
  {
    var tail := ", c.name AS " + (Quote("companyName") + (FindAllJoin() + rest));
    ListWordsPlain();
    FindAllColumnsPlain();
    FindAllJoinPlain();
    AppendAssoc(Quote("companyName"), FindAllJoin(), rest);
    AppendAssoc(", c.name AS ", Quote("companyName") + FindAllJoin(), rest);
    AppendAssoc(Quote("companyHandle"), ", c.name AS " + (Quote("companyName") + FindAllJoin()), rest);
    AppendAssoc(FindAllColumns(), Quote("companyHandle") + (", c.name AS " + (Quote("companyName") + FindAllJoin())), rest);
    PlainPrefix(FindAllJoin(), rest);
    PlainQuoted(", c.name AS ", "companyName", FindAllJoin() + rest);
    PlainQuoted(FindAllColumns(), "companyHandle", tail);
  }

  /** The listing query binds its parameters $1..$n in order, n being the number of
      title and salary filters given. */
  lemma FindAllWellNumbered(f: Filters)
    ensures WellNumbered(FindAllStatement(f))
  {
    var cs := Conditions(f);
    var where := WhereSql(cs);
    FindAllBaseInert(where + OrderByTitle());
    OrderByTitlePlain();
    PlainPrefix(OrderByTitle(), "");
    assert OrderByTitle() + "" == OrderByTitle();
    if cs == [] {
      assert where + OrderByTitle() == OrderByTitle();
    } else {
      var clauses := Join(ClausesSql(cs, 1), " AND ");
      AppendAssoc(" WHERE ", clauses, OrderByTitle());
      SeparatorsPlain();
      PlainPrefix(" WHERE ", clauses + OrderByTitle());
      ClausesPlaceholders(cs, 1, OrderByTitle());
    }
  }

  /** The title stage binds the title pattern, when a title is given. */
  lemma TitleStageParams(f: Filters)
    ensures Params(TitleStage(f)) == (if !f.title.Undefined? then [TitlePattern(f.title)] else [])
  {
    if !f.title.Undefined? {
      var c := TitleLike(TitlePattern(f.title));
      ParamsSnoc([], c);
      assert [] + [c] == TitleStage(f);
    }
  }

  /** The clause of the title stage takes `$1`. */
  lemma TitleStageClauses(f: Filters)
    ensures ClausesSql(TitleStage(f), 1) == (if !f.title.Undefined? then ["title ILIKE " + Placeholder(1)] else [])
  {
    if !f.title.Undefined? {
      var c := TitleLike(TitlePattern(f.title));
      ClausesSnoc([], c, 1);
      assert [] + [c] == TitleStage(f);
    }
  }

  /** The salary stage pushes the salary threshold after the values so far. */
  lemma SalaryStageParams(f: Filters, cs: seq<Condition>)
    ensures Params(SalaryStage(f, cs)) == Params(cs) + (if !f.minSalary.Undefined? then [f.minSalary] else [])
  {
    if !f.minSalary.Undefined? {
      ParamsSnoc(cs, SalaryAtLeast(f.minSalary));
    } else {
      assert Params(cs) + [] == Params(cs);
    }
  }

  /** The clause of the salary stage takes the placeholder after the values so far. */
  lemma SalaryStageClauses(f: Filters, cs: seq<Condition>)
    ensures ClausesSql(SalaryStage(f, cs), 1)
      == ClausesSql(cs, 1) + (if !f.minSalary.Undefined? then ["salary >= " + Placeholder(1 + |Params(cs)|)] else [])
  {
    if !f.minSalary.Undefined? {
      ClausesSnoc(cs, SalaryAtLeast(f.minSalary), 1);
    } else {
      assert ClausesSql(cs, 1) + [] == ClausesSql(cs, 1);
    }
  }

  /** The equity stage binds nothing. */
  lemma EquityStageParams(f: Filters, cs: seq<Condition>)
    ensures Params(EquityStage(f, cs)) == Params(cs)
  {
    if f.hasEquity == Bool(true) {
      ParamsSnoc(cs, EquityPositive);
      assert Params(cs) + [] == Params(cs);
    }
  }

  /** The equity stage adds `equity > 0` when `hasEquity` is `true`. */
  lemma EquityStageClauses(f: Filters, cs: seq<Condition>)
    ensures ClausesSql(EquityStage(f, cs), 1)
      == ClausesSql(cs, 1) + (if f.hasEquity == Bool(true) then ["equity > 0"] else [])
  {
    if f.hasEquity == Bool(true) {
      ClausesSnoc(cs, EquityPositive, 1);
    } else {
      assert ClausesSql(cs, 1) + [] == ClausesSql(cs, 1);
    }
  }

  /** The values of the listing query: the title pattern, if a title is given, then the
      salary threshold, if one is given; the equity filter binds nothing. */
  lemma FindAllValues(f: Filters)
    ensures FindAllStatement(f).params
      == (if !f.title.Undefined? then [TitlePattern(f.title)] else [])
         + (if !f.minSalary.Undefined? then [f.minSalary] else [])
  {
    TitleStageParams(f);
    SalaryStageParams(f, TitleStage(f));
    EquityStageParams(f, SalaryStage(f, TitleStage(f)));
  }

  /** The clauses of the listing query, in order: the title filter's, bound by `$1`; the
      salary filter's, bound by the placeholder after it; `equity > 0` exactly when
      `hasEquity` is `true`. */
  lemma FindAllClauses(f: Filters)
    ensures ClausesSql(Conditions(f), 1)
      == (if !f.title.Undefined? then ["title ILIKE " + Placeholder(1)] else [])
         + (if !f.minSalary.Undefined? then ["salary >= " + Placeholder(if !f.title.Undefined? then 2 else 1)] else [])
         + (if f.hasEquity == Bool(true) then ["equity > 0"] else [])
  {
    TitleStageParams(f);
    TitleStageClauses(f);
    SalaryStageClauses(f, TitleStage(f));
    EquityStageClauses(f, SalaryStage(f, TitleStage(f)));
  }


  /** Without a filter the listing query has no WHERE clause and no parameter; with one it
      has a WHERE clause joining the conditions with AND. Either way it orders by title. */
  lemma FindAllShape(f: Filters)
    ensures var st := FindAllStatement(f);
      if f.title.Undefined? && f.minSalary.Undefined? && f.hasEquity != Bool(true) then
        st.params == [] && st.text == FindAllBase() + OrderByTitle()
      else
        st.text == FindAllBase() + (" WHERE " + Join(ClausesSql(Conditions(f), 1), " AND ") + OrderByTitle())
  {
    if f.title.Undefined? && f.minSalary.Undefined? && f.hasEquity != Bool(true) {
      assert Conditions(f) == [];
      assert "" + OrderByTitle() == OrderByTitle();
    }
  }

  /** The WHERE conditions and values of `Job.findAll(filters)`, pushed one filter at a
      time as the source does: each bound value is pushed first, and its clause takes the
      placeholder of the new length of the value list. */
  method BuildConditions(filters: Filters) returns (whereClause: seq<string>, values: seq<Value>)
    ensures whereClause == ClausesSql(Conditions(filters), 1)
    ensures values == Params(Conditions(filters))
  {
    values := [];
    whereClause := [];
    ghost var conditions: seq<Condition> := [];

    if !filters.title.Undefined? {
      var c := TitleLike(TitlePattern(filters.title));
      ClausesSnoc(conditions, c, 1);
      ParamsSnoc(conditions, c);
      values := values + [Str("%" + ToText(filters.title) + "%")];
      whereClause := whereClause + ["title ILIKE " + Placeholder(|values|)];
      conditions := conditions + [c];
    }

    if !filters.minSalary.Undefined? {
      var c := SalaryAtLeast(filters.minSalary);
      ClausesSnoc(conditions, c, 1);
      ParamsSnoc(conditions, c);
      values := values + [filters.minSalary];
      whereClause := whereClause + ["salary >= " + Placeholder(|values|)];
      conditions := conditions + [c];
    }

    if filters.hasEquity == Bool(true) {
      ClausesSnoc(conditions, EquityPositive, 1);
      ParamsSnoc(conditions, EquityPositive);
      whereClause := whereClause + ["equity > 0"];
      conditions := conditions + [EquityPositive];
    }
    assert conditions == Conditions(filters);
  }

  /** `Job.findAll(filters)`, up to the call to the database: the query text and values. */
  method BuildFindAll(filters: Filters) returns (query: string, values: seq<Value>)
    ensures Statement(query, values) == FindAllStatement(filters)
    ensures WellNumbered(Statement(query, values))
    ensures |values| <= 2
  {
    query := FindAllBase();
    var whereClause;
    whereClause, values := BuildConditions(filters);
    ghost var conditions := Conditions(filters);
    if |whereClause| > 0 {
      query := query + " WHERE " + Join(whereClause, " AND ");
      AppendAssoc(FindAllBase(), " WHERE ", Join(whereClause, " AND "));
    } else {
      assert WhereSql(conditions) == [];
      assert query == FindAllBase() + WhereSql(conditions);
    }
    query := query + " ORDER BY title ";
    AppendAssoc(FindAllBase(), WhereSql(conditions), OrderByTitle());
    assert query == FindAllStatement(filters).text;

    FindAllWellNumbered(filters);
    FindAllValues(filters);
  }

  /** `Job.findAll(filters)`: the rows of the listing query. */
  method FindAll(db: Db, filters: Filters) returns (rows: seq<Record>)
    ensures rows == Execute(db, FindAllStatement(filters))
  {
    var query, values := BuildFindAll(filters);
    rows := db(query, values);
  }

  /* ---------------------------------------------------------------- get */

  /** `SELECT id, title, salary, equity, company_handle AS "companyHandle" FROM jobs
      WHERE id =$1`. */
  function GetJobText(): string {
    "SELECT" + (JobColumns() + (Quote("companyHandle") + (" FROM jobs" + (" WHERE id =" + Placeholder(1)))))
  }

  lemma GetWordsPlain()
    ensures Plain("SELECT") && Plain(" FROM jobs") && Plain(" WHERE id =")
  {
  }

  lemma GetJobWellNumbered()
    ensures Placeholders(GetJobText()) == Interval(1, 1)
  {
    var tail := " FROM jobs" + (" WHERE id =" + Placeholder(1));
    GetWordsPlain();
    JobColumnsPlain();
    assert Placeholder(1) + "" == Placeholder(1);
    PlainPlaceholder(" WHERE id =", 1, "");
    PlainPrefix(" FROM jobs", " WHERE id =" + Placeholder(1));
    PlainQuoted(JobColumns(), "companyHandle", tail);
    PlainPrefix("SELECT", JobColumns() + (Quote("companyHandle") + tail));
    assert Interval(1, 1) == [1];
  }

  /** The query for the job row: the id is its one parameter. */
  function GetJobStatement(id: Value): (st: Statement)
    ensures st.params == [id] && WellNumbered(st)
  {
    GetJobWellNumbered();
    Statement(GetJobText(), [id])
  }

  function CompanyColumns(): string {
    "SELECT handle," + (" name," + (" description," + (" num_employees" + " AS ")))
  }

  function CompanyWhere(): string {
    " FROM companies" + (" WHERE" + " handle = ")
  }

  lemma CompanyWordsPlain()
    ensures Plain("SELECT handle,") && Plain(" name,") && Plain(" description,")
  {
  }

  lemma CompanyMoreWordsPlain()
    ensures Plain(" num_employees") && Plain(", logo_url AS ")
  {
  }

  lemma CompanyWhereWordsPlain()
    ensures Plain(" FROM companies") && Plain(" WHERE") && Plain(" handle = ")
  {
  }

  lemma CompanyPiecesPlain()
    ensures Plain(CompanyColumns()) && Plain(CompanyWhere())
  {
    CompanyWordsPlain();
    CompanyMoreWordsPlain();
    CompanyWhereWordsPlain();
    HandleWordsPlain();
    PlainConcat(" num_employees", " AS ");
    PlainConcat(" description,", " num_employees" + " AS ");
    PlainConcat(" name,", " description," + (" num_employees" + " AS "));
    PlainConcat("SELECT handle,", " name," + (" description," + (" num_employees" + " AS ")));
    PlainConcat(" WHERE", " handle = ");
    PlainConcat(" FROM companies", " WHERE" + " handle = ");
  }

  /** `SELECT handle, name, description, num_employees AS "numEmployees", logo_url AS
      "logoUrl" FROM companies WHERE handle = $1`. */
  function GetCompanyText(): string {
    CompanyColumns() + (Quote("numEmployees") + (", logo_url AS " + (Quote("logoUrl") + (CompanyWhere() + Placeholder(1)))))
  }

  lemma GetCompanyWellNumbered()
    ensures Placeholders(GetCompanyText()) == Interval(1, 1)
  {
    var tail := CompanyWhere() + Placeholder(1);
    CompanyWordsPlain();
    CompanyMoreWordsPlain();
    CompanyWhereWordsPlain();
    CompanyPiecesPlain();
    assert Placeholder(1) + "" == Placeholder(1);
    PlainPlaceholder(CompanyWhere(), 1, "");
    PlainQuoted(", logo_url AS ", "logoUrl", tail);
    PlainQuoted(CompanyColumns(), "numEmployees", ", logo_url AS " + (Quote("logoUrl") + tail));
    assert Interval(1, 1) == [1];
  }

  /** The query for the company of a job: the job's company handle is its one parameter. */
  function GetCompanyStatement(handle: Value): (st: Statement)
    ensures st.params == [handle] && WellNumbered(st)
  {
    GetCompanyWellNumbered();
    Statement(GetCompanyText(), [handle])
  }

  /** `delete job.companyHandle; job.company = company`: the handle is gone, `company`
      holds the company, every other property keeps its value; when the job row has no
      `company` of its own, the company goes last and the rest keep their order. */
  function WithCompany(job: Record, company: Value): (r: Record)
    ensures Lookup(r, "companyHandle") == None
    ensures Lookup(r, "company") == Some(company)
    ensures forall k :: k != "companyHandle" && k != "company" ==> Lookup(r, k) == Lookup(job, k)
    ensures "company" !in Keys(job) ==> r == Delete(job, "companyHandle") + [("company", company)]
  {
    var withoutHandle := Delete(job, "companyHandle");
    assert "company" !in Keys(job) ==> Lookup(withoutHandle, "company") == None;
    Assign(withoutHandle, "company", company)
  }

  /** `Job.get(id)`: NotFound when no job row comes back; otherwise the job row without its
      `companyHandle`, with the first row of its company under `company` instead (or
      `undefined` when the company lookup finds nothing). */
  function Get(db: Db, id: Value): (r: Result<Record>)
    ensures r.Err? <==> Execute(db, GetJobStatement(id)) == []
    ensures r.Err? ==> r.error == NoJob(id)
    ensures r.Ok? ==>
      var job := Execute(db, GetJobStatement(id))[0];
      r.value == WithCompany(job, FirstRow(Execute(db, GetCompanyStatement(Prop(job, "companyHandle")))))
  {
    var jobRows := Execute(db, GetJobStatement(id));
    if jobRows == [] then Err(NoJob(id))
    else
      var job := jobRows[0];
      var companyRows := Execute(db, GetCompanyStatement(Prop(job, "companyHandle")));
      Ok(WithCompany(job, FirstRow(companyRows)))
  }

  /* ---------------------------------------------------------------- update */

  /** The text of the UPDATE, given the SET list and the placeholder of the id. */
  function UpdateText(setCols: string, idVarIdx: string): string {
    "UPDATE jobs" + (" SET " + (setCols + (" WHERE id = " + (idVarIdx + ReturningJob()))))
  }

  /** The UPDATE statement for a partial update of job `id`: the SET list of
      `sqlForPartialUpdate(data, {})`, then `WHERE id = $n` with n one past the values,
      and `id` as the last parameter. */
  function UpdateStatement(id: Value, data: Record): (r: Result<Statement>)
    ensures r.Err? <==> data == []
    ensures r.Err? ==> r.error == BadRequest
    ensures r.Ok? ==>
      && |r.value.params| == |data| + 1
      && (forall i :: 0 <= i < |data| ==> r.value.params[i] == data[i].1)
      && r.value.params[|data|] == id
    ensures r.Ok? ==>
      r.value.text == UpdateText(Sql.SqlForPartialUpdate(data, map[]).value.setCols, Placeholder(|data| + 1))
  {
    match Sql.SqlForPartialUpdate(data, map[])
    case Err(e) => Err(e)
    case Ok(clause) =>
      var idVarIdx := Placeholder(|clause.values| + 1);
      Ok(Statement(UpdateText(clause.setCols, idVarIdx), clause.values + [id]))
  }

  /** A field name that can be written as a quoted identifier: no double quote in it. */
  predicate QuotableFields(data: Record) {
    forall i :: 0 <= i < |data| ==> '"' !in data[i].0
  }

  /** With no translation table, each column is the field's own name. */
  lemma UpdateColumns(data: Record)
    requires data != []
    ensures Sql.SqlForPartialUpdate(data, map[]).value.setCols
        == Join(seq(|data|, i requires 0 <= i < |data| => Sql.SetFragment(data[i].0, i + 1)), ", ")
  {
    assert seq(|data|, i requires 0 <= i < |data| => Sql.SetFragment(Sql.ColumnName(map[], data[i].0), i + 1))
        == seq(|data|, i requires 0 <= i < |data| => Sql.SetFragment(data[i].0, i + 1));
  }

  lemma UpdateWordsPlain()
    ensures Plain("UPDATE jobs") && Plain(" SET ") && Plain(" WHERE id = ")
  {
  }

  /** The UPDATE statement binds the new values as $1..$m in field order and the id as
      $(m+1), its last parameter. */
  lemma UpdateWellNumbered(id: Value, data: Record)
    requires data != [] && QuotableFields(data)
    ensures UpdateStatement(id, data).Ok?
    ensures WellNumbered(UpdateStatement(id, data).value)
  {
    var clause := Sql.SqlForPartialUpdate(data, map[]).value;
    var m := |clause.values|;
    var tail := " WHERE id = " + (Placeholder(m + 1) + ReturningJob());
    UpdateWordsPlain();
    assert Sql.QuotableColumns(data, map[]);
    CleanStart(" WHERE id = ", Placeholder(m + 1) + ReturningJob());
    Sql.SetColsWellNumbered(data, map[], tail);
    ReturningJobInert();
    PlainPlaceholder(" WHERE id = ", m + 1, ReturningJob());
    PlainPrefix(" SET ", clause.setCols + tail);
    PlainPrefix("UPDATE jobs", " SET " + (clause.setCols + tail));
    assert Interval(m + 1, 1) == [m + 1];
    RunsConcat(1, m, 1, []);
    assert Interval(m + 1, 1) + [] == Interval(m + 1, 1);
    assert Interval(1, m + 1) + [] == Interval(1, m + 1);
  }

  /** `Job.update(id, data)`: BadRequest when there is nothing to set; otherwise the row the
      UPDATE returns, or NotFound when it returns none. */
  function Update(db: Db, id: Value, data: Record): (r: Result<Record>)
    ensures data == [] ==> r == Err(BadRequest)
    ensures data != [] ==>
      var rows := Execute(db, UpdateStatement(id, data).value);
      && (r.Err? <==> rows == [])
      && (r.Err? ==> r.error == NoJob(id))
      && (r.Ok? ==> r.value == rows[0])
  {
    match UpdateStatement(id, data)
    case Err(e) => Err(e)
    case Ok(st) =>
      var rows := Execute(db, st);
      if rows == [] then Err(NoJob(id)) else Ok(rows[0])
  }

  /* ---------------------------------------------------------------- remove */

  /** `DELETE FROM jobs WHERE id=$1 RETURNING id`. */
  function RemoveText(): string {
    "DELETE" + (" FROM jobs" + (" WHERE id=" + (Placeholder(1) + " RETURNING id")))
  }

  lemma RemoveWordsPlain()
    ensures Plain("DELETE") && Plain(" FROM jobs") && Plain(" WHERE id=") && Plain(" RETURNING id")
  {
  }

  lemma RemoveWellNumbered()
    ensures Placeholders(RemoveText()) == Interval(1, 1)
  {
    var tail := " RETURNING id";
    RemoveWordsPlain();
    assert tail + "" == tail;
    PlainPrefix(tail, "");
    CleanStart(tail, "");
    PlainPlaceholder(" WHERE id=", 1, tail);
    PlainPrefix(" FROM jobs", " WHERE id=" + (Placeholder(1) + tail));
    PlainPrefix("DELETE", " FROM jobs" + (" WHERE id=" + (Placeholder(1) + tail)));
    assert Interval(1, 1) == [1];
  }

  /** The DELETE of job `id`: the id is its one parameter. */
  function RemoveStatement(id: Value): (st: Statement)
    ensures st.params == [id] && WellNumbered(st)
  {
    RemoveWellNumbered();
    Statement(RemoveText(), [id])
  }

  /** `Job.remove(id)`: nothing on success, NotFound when no row was deleted. */
  function Remove(db: Db, id: Value): (r: Result<()>)
    ensures r.Err? <==> Execute(db, RemoveStatement(id)) == []
    ensures r.Err? ==> r.error == NoJob(id)
  {
    if Execute(db, RemoveStatement(id)) == [] then Err(NoJob(id)) else Ok(())
  }

  /* ---------------------------------------------------------------- examples */

  /** The fields of job `id` other than its company. */
  function JobFields(id: int): Record {
    [("id", Num(id)), ("title", Str("Job1")), ("salary", Num(100)), ("equity", Str("0.1"))]
  }

  /** A job row as the database returns it for job `id` of company `c1`. */
  function JobRow(id: int): Record {
    JobFields(id) + [("companyHandle", Str("c1"))]
  }

  /** The row of company `c1`. */
  function CompanyRow(): Record {
    [("handle", Str("c1")), ("name", Str("C1")), ("description", Str("Desc1")), ("numEmployees", Num(1)),
     ("logoUrl", Str("http://c1.img"))]
  }

  lemma JobFieldsKeys(id: int)
    ensures Keys(JobFields(id)) == ["id", "title", "salary", "equity"]
    ensures "companyHandle" !in Keys(JobFields(id)) && "company" !in Keys(JobFields(id))
  {
  }

  /** The example job row: its handle is `c1`, deleting it leaves the other fields, and it
      has no `company` of its own. */
  lemma JobRowFacts(id: int)
    ensures Prop(JobRow(id), "companyHandle") == Str("c1")
    ensures Delete(JobRow(id), "companyHandle") == JobFields(id)
    ensures "company" !in Keys(JobRow(id))
  {
    JobFieldsKeys(id);
    PushedLast(JobFields(id), "companyHandle", Str("c1"));
    assert "company" != "companyHandle";
  }

  /** Getting a job whose row names company `c1`: the job without `companyHandle`, with the
      company's row under `company`. */
  lemma GetExample(db: Db, id: int)
    requires Execute(db, GetJobStatement(Num(id))) == [JobRow(id)]
    requires Execute(db, GetCompanyStatement(Str("c1"))) == [CompanyRow()]
    ensures Get(db, Num(id)) == Ok(JobFields(id) + [("company", Obj(CompanyRow()))])
  {
    JobRowFacts(id);
    assert WithCompany(JobRow(id), Obj(CompanyRow())) == JobFields(id) + [("company", Obj(CompanyRow()))];
  }



  /** New title, salary and equity for a job. */
  function UpdateData(): Record {
    [("title", Str("New")), ("salary", Num(1000)), ("equity", Str("0.101"))]
  }

  lemma UpdateDataFragments()
    ensures Sql.SetFragments(UpdateData(), map[], 1) == ["\"title\"=$1", "\"salary\"=$2", "\"equity\"=$3"]
  {
    var data := UpdateData();
    assert NatToString(1) == "1" && NatToString(2) == "2" && NatToString(3) == "3";
    var t := "\"title\"=$1";
    var s := "\"salary\"=$2";
    var e := "\"equity\"=$3";
    assert Sql.SetFragment("title", 1) == t;
    assert Sql.SetFragment("salary", 2) == s;
    assert Sql.SetFragment("equity", 3) == e;
    assert data[1..] == [("salary", Num(1000)), ("equity", Str("0.101"))];
    assert data[1..][1..] == [("equity", Str("0.101"))];
    assert Sql.SetFragments(data[1..][1..], map[], 3) == [e];
    assert Sql.SetFragments(data[1..], map[], 2) == [s, e];
  }

  /** The SET list of the new title, salary and equity: three fragments bound by $1..$3,
      and the three values in the same order. */
  lemma UpdateDataClause()
    ensures Sql.SqlForPartialUpdate(UpdateData(), map[])
         == Ok(Sql.SetClause("\"title\"=$1" + ", " + ("\"salary\"=$2" + ", " + "\"equity\"=$3"),
                             [Str("New"), Num(1000), Str("0.101")]))
  {
    var t := "\"title\"=$1";
    var s := "\"salary\"=$2";
    var e := "\"equity\"=$3";
    UpdateDataFragments();
    assert [t, s, e][1..] == [s, e] && [s, e][1..] == [e];
    assert Join([s, e], ", ") == s + ", " + e;
    assert Join([t, s, e], ", ") == t + ", " + (s + ", " + e);
    assert Sql.FieldValues(UpdateData()) == [Str("New"), Num(1000), Str("0.101")];
  }

  /** Updating title, salary and equity of job `id`: the SET list names the three columns,
      bound by $1..$3, and the id is bound by $4. */
  lemma UpdateExample(id: int)
    ensures UpdateStatement(Num(id), UpdateData())
        == Ok(Statement(UpdateText("\"title\"=$1" + ", " + ("\"salary\"=$2" + ", " + "\"equity\"=$3"), "$4"),
                        [Str("New"), Num(1000), Str("0.101"), Num(id)]))
  {
    UpdateDataClause();
    assert NatToString(4) == "4";
    assert Placeholder(3 + 1) == "$4";
    assert [Str("New"), Num(1000), Str("0.101")] + [Num(id)] == [Str("New"), Num(1000), Str("0.101"), Num(id)];
  }
}
