# A Dafny model of `CodexSoft\Dql\Dql`

`Dql` is a static PHP helper class that sits on top of Doctrine's `QueryBuilder`.
It generates unique parameter names and binds values under them. It normalises
nested condition lists before combining them with `andX` / `orX`. It applies a
result window, and it writes a few DQL fragments as raw text (`TIMESTAMPDIFF`,
an earth-distance formula, `IS_CONTAINED_BY` / `CONTAINS` / `ILIKE` predicates).

The model has six modules:

- `Expressions` (expressions.dfy): Doctrine's expression objects as constructor terms
  (`Comparison`, `Between`, `Junction` for `Andx`/`Orx`, `Exists`, `Not`, raw `Text`).
  The condition-list entry `Item = Null | Atom(expr) | Arr(items)` stands for a PHP `null`,
  an expression, or a nested array.
- `Normalization` (normalization.dfy): `normalizeExpressions`. The specification function
  `Normalize` is proved equal to the method `NormalizeExpressions`, which keeps the source's
  nested loops and its recursion. Lemmas state what the result looks like.
- `ParamNames` (param_names.dfy): the name `generateParamName` builds,
  `"var" + slug + "_" + token + decimal(counter)`, with the slug rules and the injectivity of
  the decimal suffix.
- `QueryBuilders` (query_builder.dfy): the parts of the builder the helpers touch, as a class
  with fields `params` (name to value and type), `where`, `firstResult`, `maxResults` and `sets`.
  It also holds the specification `MergeAll` of copying parameter stores one after another.
- `DqlHelper` (dql.dfy): class `Dql`. Its field `counter` is the static `$counter`. Its methods
  are the helpers that change a builder or the counter. Each such method names the builder
  fields it may change in `modifies`, and its `ensures` gives their new values.
- `RawText` (raw_text.dfy): the string templates, as functions.

Inputs the source gets from outside are passed in as arguments:

- `uniqid('', false)` is a 13-character `Token`.
- A `\DateTime` argument is represented by the text its `format('Y-m-d H:i:s')` gives.
- A numeric coordinate is represented by the text `number_format(..., 6, '.', '')` gives.
- The DQL that Doctrine renders for a sub-query builder is a string argument of `Exists`.

`normalizeExpressions` splices only top-level arrays. An array nested inside one of them is
kept as a single element: a normalised nested array (`DeepArraySurvives`, `NotFullyFlat`).

## Model

| member | source | states |
|---|---|---|
| `Normalization.NormalizeExpressions` | src/Dql.php:59-81 | the nested loops, with the recursive call for arrays two levels down, compute exactly `Normalize(expressions)` |
| `Normalization.NormalizeNullFree` | src/Dql.php:62-78 | the normalised list holds no `null` at any depth |
| `Normalization.NormalizeAppend` | src/Dql.php:62-79 | normalisation handles entries one at a time and in order: it distributes over concatenation |
| `Normalization.NormalizeShallow` | src/Dql.php:65-77 | when no array holds an array, the result is the in-order concatenation of the entries, arrays spliced once, with every `null` removed |
| `Normalization.FlatArraysSplice` | src/Dql.php:65-74 | `[[a, b], [c]]` normalises like `[a, b, c]` when the inner lists hold no arrays |
| `Normalization.DeepArraySurvives` | src/Dql.php:67-70 | an array two levels down appears in the result as one element, its own normalisation |
| `Normalization.NotFullyFlat` | src/Dql.php:67-70 | `[[[e]]]` normalises to `[[e]]`, which differs from the normalisation of `[e]` |
| `DqlHelper.Dql.AndX` | src/Dql.php:89-95 | returns an `Andx` over the normalised conditions; it holds no `null` at any depth |
| `DqlHelper.Dql.OrX` | src/Dql.php:103-109 | returns an `Orx` over the normalised conditions; it holds no `null` at any depth |
| `DqlHelper.Dql.RequireAll` | src/Dql.php:117-122 | installs the `Andx` as `where` exactly when it has a part; otherwise `where` is unchanged |
| `DqlHelper.Dql.RequireAny` | src/Dql.php:130-135 | installs the `Orx` as `where` exactly when it has a part; otherwise `where` is unchanged |
| `ParamNames.DotsToUnderscores` | src/Dql.php:31 | same length; every `.` becomes `_`, every other character is kept |
| `ParamNames.DotsToUnderscoresAppend` | src/Dql.php:31 | the dot replacement works character by character: it commutes with concatenation |
| `ParamNames.WordCharsOnly` | src/Dql.php:31 | the result holds only `[A-Za-z0-9_]`, is no longer than the input, and equals the input when it holds only word characters |
| `ParamNames.WordCharsOnlyAppend` | src/Dql.php:31 | the filter keeps the word characters of each part, in order: it commutes with concatenation |
| `ParamNames.WordCharsOnlySingle` | src/Dql.php:31 | a single character survives exactly when it is a word character |
| `ParamNames.Slug` | src/Dql.php:31 | empty for `""` and `"0"`; otherwise `_` followed only by word characters, and exactly `_` plus the dotted-to-underscored name when the name holds only word characters and dots |
| `ParamNames.SlugOneCharacter` | src/Dql.php:31 | in a truthy name each character contributes in place: a word character stays, a dot becomes `_`, any other character is dropped, and the characters around it keep their order |
| `ParamNames.Decimal` | src/Dql.php:34 | a non-empty string of digits, one digit long exactly below 10 |
| `ParamNames.DecimalInjective` | src/Dql.php:34 | different counter values have different decimal forms |
| `ParamNames.ParamName` | src/Dql.php:34 | starts with `var`, ends with the decimal counter, and has the length of its five parts |
| `ParamNames.ParamNamesDistinct` | src/Dql.php:31-34 | two names whose slugs have equal length (such as two names for one variable) differ when their counters differ, whatever the tokens |
| `DqlHelper.Dql.GenerateParamName` | src/Dql.php:29-35 | raises the counter by exactly one and returns the name for the new counter value |
| `DqlHelper.Dql.Dql` | src/Dql.php:45-52 | returns the expression unchanged; every given name is bound to its value; other names keep theirs; an empty batch changes nothing |
| `QueryBuilders.MergeAllKeys` | src/Dql.php:421-430 | after importing, a name is bound exactly when the target or some source bound it |
| `QueryBuilders.MergeAllKeepsUntouched` | src/Dql.php:421-430 | a target parameter named by no source keeps its value |
| `QueryBuilders.MergeAllLastWins` | src/Dql.php:423-427 | on a name clash, the last source that names the parameter wins |
| `QueryBuilders.SourceStores` | src/Dql.php:423-425 | the stores read from the sources, in order; the target contributes nothing, since copying a builder's parameters into itself changes none of them |
| `DqlHelper.Dql.ImportParameters` | src/Dql.php:421-430 | the target's new parameters are `MergeAll` of its old ones and the sources' stores, in order |
| `DqlHelper.Dql.Exists` | src/Dql.php:371-378 | returns `EXISTS(subquery)`; imports the sub-query's parameters only when asked to and the sub-query is a builder; otherwise the parameters are unchanged |
| `DqlHelper.Dql.NotExists` | src/Dql.php:410-413 | `NOT` of `Exists`, with the same effect on the parameters |
| `DqlHelper.Dql.BindFresh` | src/Dql.php:148-150 | raises the counter by one and binds the value (and type) under the new name, with placeholder `:` + name |
| `DqlHelper.Dql.Compare` | src/Dql.php:146-151 | one fresh binding, and a comparison of the variable with the placeholder of that binding |
| `DqlHelper.Dql.Eq` | src/Dql.php:146-151 | counter + 1; exactly one new binding `name -> (value, type)`; returns `var = :name` |
| `DqlHelper.Dql.Set` | src/Dql.php:153-158 | counter + 1; one new binding; appends `(var, :name)` to the update assignments; returns the builder |
| `DqlHelper.Dql.Neq` | src/Dql.php:169-174 | counter + 1; exactly one new binding; returns `var <> :name` |
| `DqlHelper.Dql.Lt` | src/Dql.php:185-190 | counter + 1; exactly one new binding; returns `var < :name` |
| `DqlHelper.Dql.Lte` | src/Dql.php:201-206 | counter + 1; exactly one new binding; returns `var <= :name` |
| `DqlHelper.Dql.Gt` | src/Dql.php:217-222 | counter + 1; exactly one new binding; returns `var > :name` |
| `DqlHelper.Dql.Gte` | src/Dql.php:233-238 | counter + 1; exactly one new binding; returns `var >= :name` |
| `DqlHelper.Dql.Between` | src/Dql.php:252-263 | counter + 2; two distinct names, for `min` then `max`, both left bound to `min` and `max`; returns `var BETWEEN :min AND :max` |
| `DqlHelper.Dql.PaginateResult` | src/Dql.php:318-329 | with a positive limit, sets first result to `offset` and max results to `limit`; otherwise changes nothing |
| `DqlHelper.Dql.Like` | src/Dql.php:340-345 | counter + 1; exactly one new binding; returns `var LIKE :name` |
| `DqlHelper.Dql.NotLike` | src/Dql.php:356-361 | counter + 1; exactly one new binding; returns `var NOT LIKE :name` |
| `DqlHelper.Dql.IsInstanceOf` | src/Dql.php:439-444 | counter + 1; exactly one new binding, with no declared type; returns `var INSTANCE OF :name` |
| `RawText.Operand` | src/Dql.php:580-586 | a date-time is written between single quotes; an expression is written as it is |
| `RawText.TimeStampDiff` | src/Dql.php:578-589 | the text starts with `TIMESTAMPDIFF(`, then the unit and a comma; the first moment's text follows `, `; the second moment's text closes it before the final `)` |
| `RawText.TimestampFromAToB` | src/Dql.php:602-605 | the time from `a` to `b`: after the unit, `a`'s text is written first and `b`'s text last, before `)` |
| `RawText.TimestampAMinusB` | src/Dql.php:658-661 | `a` minus `b` is the text of "from `b` to `a`" |
| `RawText.UnitKeyword` | src/Dql.php:607-700 | each unit keyword is 3 to 7 upper-case letters |
| `RawText.FromAToB` | src/Dql.php:607-645 | each "from A to B" wrapper writes its own unit keyword right after `TIMESTAMPDIFF(`, then `a`'s text, and `b`'s text last, before `)` |
| `RawText.AMinusB` | src/Dql.php:663-701 | each "A minus B" wrapper gives the text of the matching "from A to B" wrapper with the moments swapped |
| `RawText.UnitsGiveDifferentTexts` | src/Dql.php:607-700 | texts built with different units always differ, whatever the moments |
| `RawText.EarthPoint` | src/Dql.php:724 | `LL_TO_EARTH(` + latitude + `, ` + longitude + `)`, each coordinate at its place |
| `RawText.Distance` | src/Dql.php:717-725 | `EARTH_DISTANCE( ` + point A + `, ` + point B + ` )`, each point at its place |
| `RawText.DistancePlacesCoordinates` | src/Dql.php:719-724 | each of the four coordinates lands at its own place in the whole formula: a non-numeric one verbatim, a numeric one as its six-decimal form |
| `RawText.ExtensionPredicate` | src/Dql.php:744-811 | the vendor function name and `(` come first, then `left`; `right` comes last before the suffix, which is `) = TRUE` for the positive form and `) = FALSE` for the negated form |
| `RawText.NegatedFormDiffers` | src/Dql.php:744-811 | a positive predicate never reads the same as a negated one |
| `RawText.FunctionNameDiffers` | src/Dql.php:744-811 | predicates over different vendor functions never read the same |

## Left out

- Doctrine's `Expr`, `Andx`, `Orx`, `Func` and `Comparison` objects are constructor terms. How they render to DQL is not modelled.
- `Composite::add` in Doctrine skips `null` and empty composites. Its code is not part of this model. A junction's parts are the normalised list as given, and its count is that list's length.
- `setParameter` is modelled as insert-or-overwrite by name. Doctrine's type inference for parameters without a declared type is not modelled: `None` stands for "left to Doctrine".
- `uniqid`, `DateTime::format`, `is_numeric` and `number_format` are outside the model. Their results are inputs (a 13-character token, or the formatted text).
- The pass-through helpers `in`, `notIn`, `isNull`, `isNotNull`, `not`, `abs`, `count`, `countDistinct`, `avg`, `min`, `max`, `lower`, `upper`, `trim`, `length`, `literal` and `expr` are not modelled. They only forward to Doctrine. The `NULL` constant is not modelled either: no helper uses it.
- PHP's `(int)` cast of arbitrary values in `paginateResult` is not modelled. `limit` is the value after the cast, with `None` for the default `null` (which casts to 0). `offset` is an integer.
- Integer keys in the `dql` parameter batch are not modelled: names are strings.
- The counter is unbounded. PHP's integer overflow after 2^63 calls is not modelled.
- ParamNamesDistinct: it covers names with equal-length slugs, the case of repeated calls for one variable. Names for different variables can only be told apart through the tokens, which the model does not constrain beyond their length.
- BindFresh: the model does not prove that the new name was unbound before the call. A caller of `dql` can register any name, including one shaped like a generated name.
- What the database computes is not modelled. This covers `BETWEEN` against `>=`/`<=`, and `TIMESTAMPDIFF` giving the negated value when its arguments are swapped. Only the text is modelled: "A minus B" is "from B to A".
- The helpers are single-threaded PHP. Concurrent use of the counter does not arise.
