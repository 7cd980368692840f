# Jobly job model, in Dafny

This project models the `Job` model of the Jobly job board (models/job.js). It covers the
SQL statements each operation hands to the database driver, what the operation makes of
the rows that come back, and when it raises `NotFoundError` or `BadRequestError`. It also
covers the contract of the partial-update helper `sqlForPartialUpdate`, as its tests state
it (helpers/sql.test.js).

- The driver's `db.query(text, values)` is a function-typed parameter `Db`: text and
  positional parameters in, rows out.
- A row or a plain object is a `Record`: its `(key, value)` pairs in insertion order.
  `Lookup`, `Delete` and `Assign` give it JavaScript's property access, `delete o.k` and
  `o.k = v`.
- An operation that throws returns `Err(e)` of a `Result`.

The main safety property is `WellNumbered`. When a statement's text is scanned for
placeholders, it must hold exactly `$1`, `$2`, ..., `$n`, once each and in this order,
where n is the length of its parameter list. The scan finds a `$` followed by digits,
outside double-quoted identifiers. This is a simplification of PostgreSQL's lexer. It is
adequate for text without string literals, comments, dollar-quoted bodies or `$` inside an
unquoted identifier, and the model's statements contain none of these. This is proved for
every statement the model builds:
- the INSERT of `create`;
- the listing query of `findAll`, for every combination of filters;
- the two SELECTs of `get`;
- the UPDATE of `update`, for any nonempty set of field names without a double quote;
- the DELETE of `remove`.

Files, one module each:

- `decimal.dfy` (`Decimal`): decimal text of numbers, and reading it back.
- `js_value.dfy` (`JsValue`): JavaScript values, objects as ordered records, property
  access, `delete` and assignment.
- `express_error.dfy` (`ExpressError`): the two HTTP errors and `Result`.
- `sql_text.dfy` (`SqlText`): placeholders, quoted identifiers, `Array.join`, and the
  placeholder scanner with its lemmas.
- `sql.dfy` (`Sql`): `sqlForPartialUpdate`.
- `job.dfy` (`Job`): `create`, `findAll`, `get`, `update`, `remove`, and the test cases of
  models/job.test.js as lemmas.

`findAll` is imperative in the source: it pushes onto `values` and `whereClause` and grows
`query`. It is modelled as the methods `BuildConditions` and `BuildFindAll`, which perform
the same pushes in the same order. They are proved equal to the specification function
`FindAllStatement`, which is built from a list of `Condition`s. The other operations are
expressions over the driver's results and are modelled as functions.

## Model

| member | source | states |
|---|---|---|
| Sql.SqlForPartialUpdate | helpers/sql.test.js:6-34 | Fails with BadRequest exactly when there is no field. Otherwise the values are the field values in field order, and the SET list joins `"column"=$i` with ", " (i counting from 1), using the translated column name or the field name itself |
| Sql.SetColsWellNumbered | helpers/sql.test.js:18-28 | For any nonempty data with quotable column names, the SET list holds exactly `$1..$n` in order, n being the number of values; placeholders in text written after it follow them |
| Sql.OneFieldExample | helpers/sql.test.js:6-16 | `{firstName: 'Aliya'}` with `{firstName: "first_name"}` gives `"first_name"=$1` and `['Aliya']` |
| Sql.TwoFieldsExample | helpers/sql.test.js:18-28 | `{firstName: 'Aliya', age: 32}` gives `"first_name"=$1, "age"=$2` and `['Aliya', 32]` |
| Sql.SetFragments | helpers/sql.test.js:13-25 | The i-th fragment is `"column"=$(k+i)` for the i-th field, one fragment per field |
| Sql.FieldValues | helpers/sql.test.js:14-26 | The i-th value is the value of the i-th field, one per field |
| Decimal.ParseNatToString | models/job.js:137 | The decimal text written after `$` reads back as the number itself |
| Decimal.NatToStringInjective | models/job.js:59-65 | Distinct parameter positions give distinct placeholder texts |
| SqlText.PlaceholderPrefix | models/job.js:137-141 | `$k` followed by text that does not start with a digit is scanned as the single placeholder k |
| SqlText.QuotedPrefix | models/job.js:22 | A double-quoted identifier holds no placeholder, whatever it contains |
| SqlText.JoinSnoc | models/job.js:75 | Joining one more pushed element appends the separator and the element to the previous join |
| JsValue.Lookup | models/job.js:112 | Property access finds a value exactly when the key is present, and the value found is the one stored under it |
| JsValue.Delete | models/job.js:115 | After `delete job.companyHandle` the key is absent, every other key keeps its value, and the entries left are exactly the other ones |
| JsValue.Assign | models/job.js:116 | After `job.company = v`, `company` holds v and every other key is unchanged. A new key goes last; an existing one keeps its place |
| JsValue.DeleteLast | models/job.js:115-116 | Deleting a key pushed last, which no earlier entry has, restores the object as it was before the push |
| JsValue.PushedLast | models/job.js:115-116 | A key pushed last is found with its value, extends the key list by one, and deleting it restores the object |
| Job.FirstRow | models/job.js:31 | `rows[0]` is `undefined` exactly when there is no row, and otherwise the first row |
| Job.CreateWellNumbered | models/job.js:19-22 | The INSERT text holds exactly `$1..$4`, in order |
| Job.CreateStatement | models/job.js:17-29 | The INSERT binds title, salary, equity and company handle of the data, in this order, and is well numbered |
| Job.Create | models/job.js:17-34 | `create` returns the first row the INSERT returns, and `undefined` exactly when it returns none |
| Job.BuildConditions | models/job.js:53-71 | The pushes onto `values` and `whereClause` yield exactly the parameters and clauses of the filter's conditions |
| Job.BuildFindAll | models/job.js:42-78 | The query text and values equal the listing statement of the filters, which is well numbered and binds at most two values |
| Job.FindAll | models/job.js:41-82 | `findAll` returns the rows of the listing statement |
| Job.FindAllValues | models/job.js:56-66 | The values are the `%title%` pattern if a title is given, then the salary threshold if one is given; `hasEquity` binds nothing |
| Job.FindAllClauses | models/job.js:56-71 | The clauses are: title ILIKE `$1` if a title is given; then salary >= the next placeholder (`$2` after a title, else `$1`); then `equity > 0` exactly when `hasEquity` is `true` |
| Job.FindAllShape | models/job.js:73-78 | With no filter there is no WHERE clause and no value. Otherwise the clauses are joined with AND after WHERE. Either way the query ends with ORDER BY title |
| Job.FindAllWellNumbered | models/job.js:53-78 | The listing query holds exactly `$1..$n` in order, n being the number of values, for every filter record |
| Job.ClausesPlaceholders | models/job.js:59-75 | The clauses joined with AND hold, in order, one placeholder per value bound, numbered from k |
| Job.GetJobStatement | models/job.js:93-101 | The job query binds the id as its one parameter and is well numbered |
| Job.GetCompanyStatement | models/job.js:109-113 | The company query binds the job's company handle as its one parameter and is well numbered |
| Job.WithCompany | models/job.js:115-116 | The result has no `companyHandle`, holds the company under `company`, and keeps every other property. When the row had no `company`, the result is the row without its handle, followed by `company` |
| Job.Get | models/job.js:103-118 | NotFound("No job: id") exactly when the job query returns no row. Otherwise the first job row, reshaped by WithCompany with the first row of its company's query (or `undefined`) |
| Job.GetExample | models/job.test.js:84-99 | Job1's row, with company c1, becomes the job without `companyHandle`, with the company's row under `company` |
| Job.UpdateColumns | models/job.js:134-136 | With the empty translation table, each SET column is the field's own name |
| Job.UpdateStatement | models/job.js:134-147 | BadRequest exactly when there is no field. Otherwise the parameters are the field values in order, followed by the id. The text is the UPDATE with the SET list of `sqlForPartialUpdate(data, {})` and `WHERE id = $(m+1)`, m being the number of fields |
| Job.UpdateWellNumbered | models/job.js:134-147 | For field names without `"`, the UPDATE holds exactly `$1..$(m+1)` in order: the m values, then the id |
| Job.Update | models/job.js:133-155 | BadRequest when there is nothing to set. Otherwise NotFound exactly when the UPDATE returns no row, and else its first row |
| Job.UpdateDataClause | models/job.test.js:114-118 | The update data title, salary and equity gives the SET list `"title"=$1, "salary"=$2, "equity"=$3` and its three values in order |
| Job.UpdateExample | models/job.test.js:113-127 | The update of job `id` binds `$1..$3` to the new values and `$4` to the id |
| Job.RemoveStatement | models/job.js:163-167 | The DELETE binds the id as its one parameter and is well numbered |
| Job.Remove | models/job.js:162-174 | NotFound("No job: id") exactly when the DELETE returns no row, and success otherwise |

## Left out

- Database semantics are not modelled: what ILIKE matches, the order ORDER BY produces, and the effect of INSERT, UPDATE and DELETE on stored rows. The database is a parameter that maps a statement to its rows.
- `async`/`await` and the routes layer are not modelled; an operation is one synchronous call.
- The SQL literals are multi-line in the source. The model writes each newline and indentation run as a single space. Every placeholder, quoted alias and varying part is written exactly.
- Numbers are integers. Equity is a string, as the driver returns NUMERIC. Non-integer numbers are not modelled.
- helpers/sql.js is not part of this model. `sqlForPartialUpdate` is modelled from its tests. In particular, a translation-table entry that is the empty string is used as the column name as it is.
- Sql.SqlForPartialUpdate: the BadRequest it raises carries no message, because the tests check only the error's class.
- Job.UpdateWellNumbered: requires field names without `"`, because a double quote inside a field name would end the quoted identifier early. The source does not escape it.
- Job.Get: modelled as building a new record by delete-then-assign. The mutation of the driver's row object in place, and aliasing with it, are not captured.
- The doc comment of `get` (models/job.js:86-87) describes `companies` as a list. The code stores the first company row, under the key `company`. The model follows the code.
- The doc comment of `create` (models/job.js:12) names the input `company_handle`. The code reads `data.companyHandle`. The model follows the code.
- Calling `Job.findAll()` with no argument (models/job.test.js:43) would throw a TypeError when the argument is destructured. The route always passes a filter record (routes/jobs.js:64). The model takes a filter record, and a property that is `undefined` means no filter.
- A filter property that is not given is `undefined`, and `Filters` holds it as `Undefined`. The title and salary filters apply exactly when their property is not `undefined`, including `null`, as the source's `!== undefined` tests do. The equity filter applies exactly when `hasEquity` is the boolean `true`.
- Keys that are array indices are not modelled. `Object.entries` and the driver's rows list such keys first, in ascending order. A `Record` keeps every key in insertion order. No key of the job model is an array index.
