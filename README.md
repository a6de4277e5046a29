# mongooseQueryBuilder in Dafny

A model of the chainable query builder `mongooseQueryBuilder<T>` of the
express-mongoose starter template. The builder takes the request's untyped
query parameters and the query a model's `find()` starts from, and narrows
that query stage by stage: `search` (an `$or` of case-insensitive regexes
over the searchable fields), `filter` (equalities from every parameter that
is not reserved), `sort` (comma list, default `-createdAt`), `paginate`
(skip and limit, page and limit clamped to at least 1, limit defaulting to
10), `fields` (projection) and the terminals `countTotal` (total and
`ceil(total / limit)` pages) and `build`.

Files:

- `wrappers.dfy` — `Option` (JavaScript's `undefined` and `NaN`) and `Result` (a thrown error).
- `js_coercion.dfy` — module `JsCoercion`: the parameter `Value` (string,
  number, or list of strings for a repeated key), JavaScript truthiness,
  `Number(...)` on query-string values with decimal rendering as its
  inverse, and `replace(/,/g, " ")`.
- `query_spec.dfy` — module `QuerySpec`: the store query as data
  (conjoined conditions, sort, skip, limit, projection), the reserved keys,
  the `Math.max(Number(x) || d, 1)` clamp, integer ceiling division, one
  specification function per stage, and the lemmas relating the stages.
- `query_builder.dfy` — module `QueryBuilder`: the class
  `MongooseQueryBuilder` with the fields `modelQuery` and `query` and one
  method per stage, each proved to leave `modelQuery` equal to its stage
  function of the old query; `StripReserved`, the copy-and-delete loop of
  `filter`; and two clients (`BuildFresh`, `ChainExample`).

The class invariant `Valid()` says that, with `find(...)` modelled as
appending one conjunct per call, the builder only ever adds conditions after
those of the query it was given, and that each added condition is either a
search whose regex terms are all case-insensitive or a non-empty group of
equalities with no reserved key. Mongoose instead merges each `find` object
into one conditions object keyed by field, where a later key can overwrite
an earlier one (see "## Left out").

`sort()` and `fields()` call `.replace` on the parameter after a `?.`,
which short-circuits only `undefined` and `null`; a number or an array (a
repeated query key) there makes the call throw a `TypeError` before the
query is touched. The model returns `Failure(TypeError(...))` and leaves the query
unchanged in that case.

`filter()` passes the residual object to `find`, which merges it into the
query's conditions; merging an empty object adds nothing, so the model
appends an equality group only when the residual mapping is non-empty.

## Model

| member | source | states |
|---|---|---|
| `JsCoercion.ReplaceCommas` | src/utils/mongooseQueryBuilder.ts:61 | same length; each comma becomes a space and every other character is kept |
| `JsCoercion.ReplaceCommasProperties` | src/utils/mongooseQueryBuilder.ts:82 | no comma remains, the result is empty exactly when the input is, and replacing twice equals replacing once |
| `JsCoercion.Truthy` | src/utils/mongooseQueryBuilder.ts:32 | JavaScript truthiness as used by `if (searchTerm)`, the `\|\| 1` and `\|\| 10` fallbacks and `if (fields)`: falsy exactly for the empty string and zero; every array is truthy |
| `JsCoercion.ParseNumber` | src/utils/mongooseQueryBuilder.ts:71-72 | `Number(...)` on a string: the empty string is 0; an optional leading sign followed by at least one digit is that integer; NaN exactly when the string is a bare sign or holds any character other than a digit or a leading sign; a negative result comes only from a leading `-` |
| `JsCoercion.ToNumber` | src/utils/mongooseQueryBuilder.ts:71-72 | `Number(...)` on a parameter value: a number is itself, a string is read as above, an array is read from its comma-joined text (so `[]` is 0, `[x]` is `Number(x)`, and two or more elements are NaN) |
| `JsCoercion.ParseNumberOfShowInt` | src/utils/mongooseQueryBuilder.ts:71-72 | `Number(...)` of an integer written in decimal is that integer, for the integers a double holds exactly (see "## Left out") |
| `QuerySpec.AtLeastOne` | src/utils/mongooseQueryBuilder.ts:71-72 | the `Math.max` clamp: at least 1; a value of at least 1 is kept; NaN or 0 gives the fallback (at least 1); a negative value gives 1 |
| `QuerySpec.PageOf` | src/utils/mongooseQueryBuilder.ts:71 | the page is at least 1, and 1 when `page` is missing |
| `QuerySpec.LimitOf` | src/utils/mongooseQueryBuilder.ts:72 | the page size is at least 1, and 10 when `limit` is missing |
| `QuerySpec.PageClamp` | src/utils/mongooseQueryBuilder.ts:71 | the page is the numeric `page` when that is at least 1, else 1 (missing, NaN, zero, negative) |
| `QuerySpec.LimitClamp` | src/utils/mongooseQueryBuilder.ts:72 | the page size is the numeric `limit` when at least 1, 10 when missing, NaN or zero, 1 when negative |
| `QuerySpec.CeilDiv` | src/utils/mongooseQueryBuilder.ts:94 | `r * b >= a`, `(r - 1) * b < a` when `a > 0`, and 0 pages for 0 documents |
| `QuerySpec.CeilDivUnique` | src/utils/mongooseQueryBuilder.ts:94 | any page count meeting both bounds equals the ceiling |
| `QuerySpec.SearchStep` | src/utils/mongooseQueryBuilder.ts:30-40 | without a truthy `searchTerm` the query is unchanged; with one, exactly one `$or` condition is appended, holding one case-insensitive regex term per field in the given order, and nothing else changes |
| `QuerySpec.SearchCondition` | src/utils/mongooseQueryBuilder.ts:34-36 | the `$or` holds one regex term per searchable field, in the given order, each on that field with the search term as pattern and option `"i"`; it is a stage condition |
| `QuerySpec.SearchExample` | src/utils/mongooseQueryBuilder.ts:30-40 | `search(["name","email"])` with `searchTerm=ann` appends name OR email matching "ann" with option "i" |
| `QuerySpec.ResidualExact` | src/utils/mongooseQueryBuilder.ts:48-50 | a key survives exactly when it is a parameter and not one of `searchTerm`, `sort`, `limit`, `page`, `fields`, and keeps its value |
| `QuerySpec.FilterStep` | src/utils/mongooseQueryBuilder.ts:47-53 | only conditions change; an empty residual leaves the query unchanged; otherwise one equality group is appended whose keys are the parameters minus the reserved keys, each with its parameter's value |
| `QuerySpec.FilterExample` | src/utils/mongooseQueryBuilder.ts:47-53 | `{ status: "active", page: "2" }` contributes exactly status = "active" |
| `QuerySpec.SortOf` | src/utils/mongooseQueryBuilder.ts:61 | throws exactly when `sort` is present and not a string; otherwise no comma in the result, `-createdAt` when `sort` is missing or empty, else same length with commas turned into spaces and all else kept |
| `QuerySpec.SortStep` | src/utils/mongooseQueryBuilder.ts:60-64 | on success only the sort changes, to the `sortBy` value; fails exactly when `sortBy` throws |
| `QuerySpec.SortReplaces` | src/utils/mongooseQueryBuilder.ts:60-64 | a second `sort()` gives what it would have given without the first; repeating the same call changes nothing |
| `QuerySpec.SortExample` | src/utils/mongooseQueryBuilder.ts:60-64 | `sort=-createdAt,name` gives `-createdAt name`; no `sort` gives `-createdAt` |
| `QuerySpec.PaginateStep` | src/utils/mongooseQueryBuilder.ts:70-75 | conditions, sort and projection unchanged; limit is the clamped page size (at least 1); skip is `(page - 1) * limit` and never negative |
| `QuerySpec.PaginateDefaults` | src/utils/mongooseQueryBuilder.ts:70-75 | without `page` and `limit`: skip 0, limit 10 |
| `QuerySpec.PaginateInvalidPage` | src/utils/mongooseQueryBuilder.ts:71-73 | a missing, NaN, zero or negative page skips nothing |
| `QuerySpec.ProjectionOf` | src/utils/mongooseQueryBuilder.ts:82 | throws exactly when `fields` is present and not a string; no projection exactly when `fields` is missing or empty; else the comma-to-space form of it |
| `QuerySpec.FieldsStep` | src/utils/mongooseQueryBuilder.ts:81-85 | without a projection the query is unchanged; with one only the projection changes; fails exactly when the expression throws |
| `QuerySpec.FieldsIdempotent` | src/utils/mongooseQueryBuilder.ts:81-85 | calling `fields()` twice gives the query of calling it once |
| `QuerySpec.CountPages` | src/utils/mongooseQueryBuilder.ts:91-96 | `total` is passed through; `totalPage * limit >= total`, and `(totalPage - 1) * limit < total` when `total > 0` |
| `QuerySpec.CountPagesMatchesPaginate` | src/utils/mongooseQueryBuilder.ts:91-96 | `countTotal` divides by the limit `paginate` applies, on any query, and depends on no parameter but `limit` |
| `QuerySpec.CountPagesExample` | src/utils/mongooseQueryBuilder.ts:91-96 | `limit=5` with 12 documents gives `{ total: 12, totalPage: 3 }` |
| `QuerySpec.StagesOnlyNarrow` | src/utils/mongooseQueryBuilder.ts:30-85 | with `find` as appending a conjunct, every stage keeps the earlier conditions as a prefix and adds only case-insensitive searches or non-empty equality groups without reserved keys |
| `QueryBuilder.StripReserved` | src/utils/mongooseQueryBuilder.ts:48-50 | the loop over the excluded fields yields the residual mapping: a key is kept exactly when it is a parameter and not excluded, with its value; the builder's own mapping is a separate value |
| `QueryBuilder.MongooseQueryBuilder.constructor` | src/utils/mongooseQueryBuilder.ts:20-23 | stores the query and the parameters as given; no condition is added |
| `QueryBuilder.MongooseQueryBuilder.Search` | src/utils/mongooseQueryBuilder.ts:30-40 | the new query is `SearchStep` of the old one; parameters unchanged; invariant kept; returns the builder |
| `QueryBuilder.MongooseQueryBuilder.Filter` | src/utils/mongooseQueryBuilder.ts:47-53 | the new query is `FilterStep` of the old one; parameters unchanged; invariant kept; returns the builder |
| `QueryBuilder.MongooseQueryBuilder.Sort` | src/utils/mongooseQueryBuilder.ts:60-64 | the new query is `SortStep` of the old one, or on a `TypeError` the old query with the error returned |
| `QueryBuilder.MongooseQueryBuilder.Paginate` | src/utils/mongooseQueryBuilder.ts:70-75 | the new query is `PaginateStep` of the old one; parameters unchanged; invariant kept |
| `QueryBuilder.MongooseQueryBuilder.Fields` | src/utils/mongooseQueryBuilder.ts:81-85 | the new query is `FieldsStep` of the old one, or on a `TypeError` the old query with the error returned |
| `QueryBuilder.MongooseQueryBuilder.CountTotal` | src/utils/mongooseQueryBuilder.ts:91-96 | returns the given total and its ceiling page count for the clamped limit; changes nothing |
| `QueryBuilder.MongooseQueryBuilder.Build` | src/utils/mongooseQueryBuilder.ts:102-104 | returns the current query |
| `QueryBuilder.BuildFresh` | src/utils/mongooseQueryBuilder.ts:20-23 | `build()` straight after construction returns the initial query |
| `QueryBuilder.ChainExample` | src/utils/mongooseQueryBuilder.ts:30-104 | search, filter, sort, paginate, fields, build over `searchTerm=foo&category=x&sort=price&page=2&limit=5&fields=name,-_id` give: the `$or` search for "foo" AND category = "x", sort `price`, skip 5, limit 5, projection `name -_id` |

## Left out

- The document count of `countTotal` (`countDocuments` on `getFilter()`) is an argument: the round trip to the store, its asynchrony and the propagation of its failures are not modelled.
- JsCoercion.ParseNumber: `Number(...)` yields a double and `(page - 1) * limit` is a double product; the model reads integers exactly and unboundedly. A digit string above 2^53 rounds in JavaScript (`Number("9007199254740993")` is 9007199254740992) and a long enough one becomes `Infinity`, after which page, limit and skip become `Infinity` or NaN; none of this is modelled, so ParseNumber and ParseNumberOfShowInt match the program only for integers a double holds exactly.
- JsCoercion.ParseNumber: leading and trailing whitespace, hexadecimal, exponents, fractions such as `"2.5"` and `"Infinity"` are not modelled (all read as NaN here).
- A `null` parameter value is not part of the `Value` union. In the program `?.` short-circuits it, so a `null` `sort` falls back to `-createdAt`, a `null` `fields` leaves the query unchanged, and `Number(null)` is 0 (so page 1 and limit 10).
- `Math.ceil` on floating-point division is integer ceiling division; floating-point rounding for very large counts is not modelled.
- QuerySpec.StagesOnlyNarrow and the class invariant `Valid` hold for `find(...)` modelled as appending a conjunct. Mongoose merges each `find` object into one conditions object keyed by field, so in the program a key collision replaces an earlier condition: a filter parameter `isDeleted=true` over an initial `find({ isDeleted: false })` replaces that condition and widens the query, and a search's `$or` is merged into the same `$or` key as one already present (from the initial query or an earlier `search`) instead of being added as a separate conjunct. The model does not capture these overwrites and promises narrowing only under the append abstraction.
- QuerySpec.SortReplaces: Mongoose's own `sort()` and `select()` merge new keys into an earlier setting; the model replaces the sort string and projection string as the builder's stage contract describes, which matches a chain that calls each stage once.
- Parameter values that a query-string parser builds as nested objects (`price[gte]=5`) are not part of the `Value` union.
- Evaluation of the query by the store (regex matching, equality, sorting, projection) is not modelled; conditions, sort and projection are data.
- An empty list of searchable fields yields `$or: []`, which the store rejects when the query runs; the model keeps it as data.
- The document type parameter `T` of the builder has no counterpart: the query does not carry a document type.
- The order of keys in the filter object (JavaScript insertion order) is not kept: the equality group is a map.
- `src/app.ts` (Express bootstrap, middleware and routes) and `src/middlewares/notFound.ts` (a fixed 404 response) are HTTP glue with no logic of their own and are not part of this model.
