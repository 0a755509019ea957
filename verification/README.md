# LightBnB property search, modelled in Dafny

LightBnB is a small rental-listing application. Its data-access module,
`app/server/database.js`, does three things this project models:

- **Property search (`getAllProperties`).** Builds one parameterised
  PostgreSQL query from optional search options and a row limit:
  - the SELECT of every property with its average review rating;
  - up to four WHERE predicates, for city, owner, minimum price and maximum
    price, tried in that fixed order and joined by `WHERE` first, then `AND`;
  - `GROUP BY properties.id`;
  - a `HAVING` clause for a minimum rating;
  - `ORDER BY cost_per_night LIMIT $n`.
  
  Each predicate pushes its bind value and writes `$k`, where k is the new
  number of bind values. An option counts only when it is truthy in the
  JavaScript sense. Prices are converted to cents, and the limit defaults to 10.
- **Pool settings.** The PostgreSQL pool options are taken from the process
  environment:
  - only entries whose name contains `POSTG` are kept;
  - each kept name has its first six characters cut off and is lower-cased;
  - a later entry overrides an earlier one with the same resulting name.
- **`addProperty` bind values.** The fourteen bind values of `addProperty`'s
  INSERT, in column order, with the nightly cost multiplied by 100. The VALUES
  list numbers its placeholders `$1` to `$14`.

The modules are:

- `Wrappers`: `Option`.
- `Decimal`: decimal text of naturals, and its inverse.
- `Sql`: bind values, and a scanner that lists the `$k` placeholders of a text.
- `PropertySearch`: the search query. It holds:
  - the builder, written step by step as the JavaScript runs;
  - a declarative reference layout, proved equal to the builder;
  - the properties of the query, proved through that reference.
  
  A query is a sequence of fragments, and `Render` gives each fragment's exact
  SQL text.
- `EnvConfig`: the pool settings.
- `AddProperty`: the INSERT bind values and their decoder.

## Model

| member | source | states |
|---|---|---|
| PropertySearch.GetAllPropertiesQuery | app/server/database.js:112-154 | The query starts with the SELECT fragment. The last bind value is the limit, or 10 when none is given. The last fragment is `ORDER BY ... LIMIT` on the last placeholder. |
| PropertySearch.Start | app/server/database.js:120-125 | The search starts with no bind values and one fragment: the SELECT of every property with its average rating, joined to the reviews, whose text `BaseText` is lines 121-125 character for character. |
| PropertySearch.TruthyText | app/server/database.js:126 | `if (city)`: a city counts when it is given and is not the empty string. |
| PropertySearch.TruthyNumber | app/server/database.js:130-149 | `if (owner_id)` and the three like it: a number counts when it is given and is not 0. Negative numbers count. |
| PropertySearch.EffectiveLimit | app/server/database.js:112 | The default parameter `limit = 10`: the given limit, or 10 when none is given. |
| PropertySearch.AddCity | app/server/database.js:126-129 | A truthy city adds one bind value, `%city%`, and two fragments after what was there: `WHERE`, then the city predicate on the new value's position. A falsy city adds nothing. What was built before is kept. |
| PropertySearch.AddGroupBy | app/server/database.js:148 | Appends the GROUP BY fragment, keeping the bind values and the fragments before it. |
| PropertySearch.AddRating | app/server/database.js:149-152 | A truthy minimum rating adds its value as the next bind value and a HAVING fragment on that value's position. A falsy rating adds nothing. What was built before is kept. |
| PropertySearch.AddLimit | app/server/database.js:153-154 | Adds the limit (10 when none is given) as the last bind value, and the ORDER BY/LIMIT fragment on its position. What was built before is kept. |
| PropertySearch.FixedText | app/server/database.js:121-148 | The text of the fragments without a placeholder: the SELECT (lines 121-125), `WHERE `, `AND ` and `GROUP BY properties.id `. |
| PropertySearch.SlotPrefix | app/server/database.js:128-154 | The text before `$k` of each placeholder fragment: `city LIKE `, `properties.owner_id = `, `properties.cost_per_night >= ` and `<= `, `HAVING avg(property_reviews.rating) >= ` and `ORDER BY cost_per_night LIMIT `. |
| PropertySearch.SlotSuffix | app/server/database.js:128-154 | The text after `$k`: a space after the city, `::integer ` after the owner and price predicates, `::real ` after HAVING, and nothing after the limit. |
| PropertySearch.Render | app/server/database.js:121-154 | A fragment's SQL text: its fixed text, or its prefix, then `$` and the decimal position, then its suffix. |
| PropertySearch.GetAllPropertiesText | app/server/database.js:121-154 | The query string: the texts of the fragments concatenated in order. |
| PropertySearch.AddWhere | app/server/database.js:130-147 | A later filter adds a bind value and two fragments exactly when it is truthy. The new bind value is the filter's value. The fragments are `WHERE` when no value was bound before and `AND` otherwise, then the filter's predicate on the new value's position. Everything already built is left unchanged. |
| PropertySearch.WhereStage | app/server/database.js:126-147 | After any prefix of the four filters, there are two fragments per bind value after the SELECT. There is at most one bind value per filter tried. |
| PropertySearch.CityStepIsGeneralStep | app/server/database.js:126-129 | The city step always writes `WHERE`. This equals the general WHERE-or-AND step, because no value is bound before it. |
| PropertySearch.WhereStageInvariant | app/server/database.js:126-147 | After the first k filters, the builder holds exactly the WHERE clause of the truthy ones among them, with one bind value each: the city as `%city%`, prices times 100, the owner unchanged. |
| PropertySearch.BuilderMatchesReference | app/server/database.js:112-154 | The step-by-step builder equals the declarative layout: SELECT, the WHERE clause over the truthy filters, GROUP BY, HAVING when the rating is truthy, ORDER BY/LIMIT. |
| PropertySearch.SetFiltersSorted | app/server/database.js:126-147 | Filtering a rank-ordered filter list keeps a filter exactly when it is listed and truthy, and keeps the rank order. |
| PropertySearch.SetFiltersOfAll | app/server/database.js:126-147 | The filters that contribute are exactly the truthy ones, each once, in the fixed order. Their number is the count of truthy filters. |
| PropertySearch.ReferenceShape | app/server/database.js:120-154 | The reference query is the layout over the truthy filters. It has one bind value per truthy filter, one more for a truthy rating, and one for the limit. |
| PropertySearch.ParamCount | app/server/database.js:120-154 | Number of bind values = number of truthy WHERE filters + 1 if the minimum rating is truthy + 1 for the limit. |
| PropertySearch.PlaceholderIndexing | app/server/database.js:126-154 | The placeholders are exactly 1, 2, ..., n, in order, where n is the number of bind values. Placeholder `$k` binds the value its clause calls for: the filter's value, the rating or the limit. |
| PropertySearch.ReferenceBindings | app/server/database.js:126-154 | In the reference, every placeholder is within range and indexes the value its fragment is meant to bind. |
| PropertySearch.WhereSequencing | app/server/database.js:126-147 | `WHERE` occurs once, right after the SELECT, exactly when some WHERE filter is truthy. Every other WHERE filter is joined by `AND`. Every predicate follows a conjunction. |
| PropertySearch.FalsyFilterAbsent | app/server/database.js:126-147 | A filter has a predicate in the query if and only if it is truthy. A missing, empty or zero option leaves no trace. |
| PropertySearch.PredicateOrder | app/server/database.js:126-147 | The predicates appear in the order city, owner, minimum price, maximum price. |
| PropertySearch.GroupByAlways | app/server/database.js:148 | `GROUP BY properties.id` occurs exactly once, right after the WHERE clause, whatever the options. |
| PropertySearch.HavingIffRating | app/server/database.js:149-152 | `HAVING` occurs if and only if the minimum rating is truthy. It comes right after GROUP BY, on the second-to-last placeholder, which binds the rating. |
| PropertySearch.WhereClauseSlots | app/server/database.js:126-147 | The WHERE clause over k filters carries the placeholders 1..k in order. |
| PropertySearch.WhereClauseConjunctions | app/server/database.js:131-143 | A non-empty WHERE clause has one `WHERE` and one `AND` for each further filter. An empty one has neither. |
| PropertySearch.LayoutSlots | app/server/database.js:126-154 | The whole layout carries the placeholders 1..n, with n its number of bind values. |
| PropertySearch.LayoutGrouping | app/server/database.js:148-152 | A layout has exactly one GROUP BY, and has a HAVING if and only if it is rated. |
| PropertySearch.LayoutPredicateOrder | app/server/database.js:126-147 | A layout over rank-ordered filters lists its predicates in rank order. |
| PropertySearch.RenderPlaceholders | app/server/database.js:121-154 | The SQL text of each fragment contains exactly that fragment's own placeholder `$k` (or none) and never starts with a digit. |
| PropertySearch.RenderQueryPlaceholders | app/server/database.js:121-154 | Scanning the concatenated SQL text for `$k` finds exactly the fragments' placeholders, in order. |
| PropertySearch.TextPlaceholders | app/server/database.js:121-154 | In the final SQL string, the placeholders read `$1` to `$n` in order, where n is the number of bind values. |
| PropertySearch.ExampleCity | app/server/database.js:112-154 | With city "Vancouver" and limit 5, the query is `WHERE city LIKE $1 GROUP BY ... LIMIT $2`, with bind values `%Vancouver%` and 5. |
| PropertySearch.ExampleOwnerRating | app/server/database.js:112-154 | With owner 3, minimum rating 4 and no limit, the query has an owner predicate on `$1` and HAVING on `$2`, and `LIMIT $3` binds 10. |
| PropertySearch.ExampleCityText | app/server/database.js:128 | The city predicate on placeholder 1 renders as `city LIKE $1 `. |
| PropertySearch.ExampleRatingText | app/server/database.js:151 | HAVING on placeholder 2 renders as `HAVING avg(property_reviews.rating) >= $2::real `. |
| PropertySearch.ExampleAllFalsy | app/server/database.js:112-154 | An empty city and zeros for every number are all falsy: the query is the SELECT, GROUP BY and `LIMIT $1`, and the only bind value is the default limit 10. |
| PropertySearch.ExampleLimitText | app/server/database.js:154 | The limit on placeholder 6, the highest a search can reach, renders as `ORDER BY cost_per_night LIMIT $6`. |
| Decimal.NatToString | app/server/database.js:128 | The decimal text of a placeholder number is canonical (digits only, no leading zero). It is one character long exactly for numbers below 10. |
| Decimal.ParseNatToString | app/server/database.js:128 | Reading back the decimal text of n gives n. |
| Decimal.NatToStringParse | app/server/database.js:128 | Every canonical digit string is the decimal text of the number it spells. |
| Decimal.NatToStringInjective | app/server/database.js:128 | Distinct placeholder numbers have distinct texts. |
| Sql.PlaceholdersAppend | app/server/database.js:121-154 | Scanning two glued texts scans each in turn, provided the second does not start with a digit. |
| Sql.PlaceholderToken | app/server/database.js:128 | `$` followed by the decimal text of k is read as placeholder k. |
| EnvConfig.Includes | app/server/database.js:10 | `name.includes(pat)`, by scanning every start position. |
| EnvConfig.Kept | app/server/database.js:10 | An entry is kept when its name contains `POSTG`. |
| EnvConfig.KeepPostgres | app/server/database.js:10 | Keeps at most as many entries as it is given. An entry is in the result exactly when it is in the input and its name contains `POSTG`. |
| EnvConfig.SliceFrom | app/server/database.js:11 | `slice(start)`, counting Unicode scalar values (see "Left out"): the characters from position `start` on, and an empty string when `start` is at or past the end. |
| EnvConfig.NewName | app/server/database.js:11 | Counting Unicode scalar values (see "Left out"), the settings name is as long as the environment name minus six, or empty if the name is shorter. Its i-th character is the lower-cased (i+6)-th character of the name. |
| EnvConfig.Rename | app/server/database.js:11 | Each kept entry, in order, with its name replaced by its settings name and its value unchanged. |
| EnvConfig.FromEntries | app/server/database.js:8 | `Object.fromEntries`: the names set are exactly the names of the entries. |
| EnvConfig.FromEntriesLastWins | app/server/database.js:8 | An entry that no later entry shares a name with sets its name to its own value: later entries win. |
| EnvConfig.PoolSettings | app/server/database.js:8-12 | The pool options: filter, rename, then collect, in the order the source chains them. |
| EnvConfig.IncludesSpec | app/server/database.js:10 | `includes` holds exactly when the pattern occurs at some index of the name. |
| EnvConfig.ToLower | app/server/database.js:11 | Lower-casing keeps the length and leaves no upper-case letter. Each upper-case letter moves up by 32, and every other character is unchanged. |
| EnvConfig.ToLowerIdempotent | app/server/database.js:11 | Lower-casing twice equals lower-casing once. |
| EnvConfig.PoolSettingsSnoc | app/server/database.js:8-12 | One more environment entry changes nothing unless its name contains `POSTG`. If it does, it sets its new name to its value. |
| EnvConfig.PoolSettingsDomain | app/server/database.js:8-12 | A setting name is present exactly when some kept entry's name maps to it. |
| EnvConfig.PoolSettingsLastWins | app/server/database.js:8-12 | A setting holds the value of the last kept entry that maps to its name. |
| EnvConfig.UnkeptIgnored | app/server/database.js:10 | Entries whose name lacks `POSTG` never affect the settings. |
| EnvConfig.KeepPostgresAppend | app/server/database.js:10 | Filtering a concatenation filters each part and concatenates the results, so the kept entries stay in their order, repetitions included. |
| EnvConfig.KeepPostgresIdempotent | app/server/database.js:10 | Filtering twice equals filtering once, and every entry left contains the marker. |
| AddProperty.InsertParams | app/server/database.js:184-199 | There are fourteen bind values, one per listed column. The sixth is the nightly cost times 100. |
| AddProperty.ParamsMatchColumns | app/server/database.js:184-233 | The i-th bind value is what the i-th column of the INSERT should receive. It is a number exactly when the i-th placeholder is cast to `integer`. |
| AddProperty.ParamsRoundTrip | app/server/database.js:184-199 | Decoding the bind values of a property, with the cost divided by 100, gives back the property. |
| AddProperty.PropertyOfParamsSound | app/server/database.js:184-199 | Whatever bind values decode to a property are exactly that property's bind values. |
| AddProperty.ValuesText | app/server/database.js:217-231 | The VALUES list: for each cast in `Casts` (the casts of lines 218-231, in the order of the columns `Columns` of lines 203-216), `$k::cast` numbered from k, separated by a comma, a newline and two spaces. |
| AddProperty.ExampleLastValueText | app/server/database.js:231 | The last entry of the VALUES list, with its two-digit placeholder, renders as `$14::integer`. |
| AddProperty.ValuesTextPlaceholders | app/server/database.js:217-232 | A VALUES list over m casts, numbered from k, holds the placeholders k, ..., k+m-1 in order. |
| AddProperty.InsertPlaceholders | app/server/database.js:217-232 | The INSERT's VALUES list holds the placeholders `$1` to `$14` in column order, one per bind value. |

## Left out

- Running queries: the pool, the `.then` row extraction and the `.catch` error channel (lines 155-158, 200-201 and 233-236) need a live database. The model stops at the query and its bind values.
- SQL meaning: what PostgreSQL does with the query (the LIKE matching, the averaging, the ordering) is not modelled.
- Loading `.env` and constructing the pool (lines 2 and 14) are I/O. The environment is a parameter of `EnvConfig.PoolSettings`.
- The other accessors in the file (`getUserWithEmail`, `getUserWithId`, `addUser`, `getAllReservations`) are single fixed queries, outside this model.
- PropertySearch.GetAllPropertiesQuery: options are typed. Text options are strings and number options are integers, so JavaScript's coercions are not modelled: `"0"` counts as truthy text, `NaN` does not occur, and `* 100` on a string does not occur.
- PropertySearch.GetAllPropertiesQuery: prices are whole currency units. `* 100` on fractional prices (floating point) is not modelled.
- PropertySearch.GetAllPropertiesQuery: a missing option and `null` are both `None`. A `limit` of `null` (which JavaScript binds as is instead of defaulting to 10) is not distinguished from an absent one.
- The limit is bound as given: the source does not check that it is positive, and neither does the model.
- EnvConfig.ToLower: lower-cases ASCII letters only. Unicode case mapping is not modelled.
- EnvConfig.SliceFrom: names are sequences of Unicode scalar values, while JavaScript's `slice(6)` counts UTF-16 code units. A name with a character outside the Basic Multilingual Plane among its first six positions is therefore cut at a different place: the model cuts `"\u{1F600}POSTGRES_USER"` to `res_user`, JavaScript to `gres_user`. Names made of ASCII or other BMP characters are cut identically. `Includes` is unaffected, because the marker `POSTG` is ASCII.
- EnvConfig.NewName: inherits the SliceFrom difference. Its length and its cut after six characters agree with JavaScript only for names whose first six characters lie in the Basic Multilingual Plane.
- AddProperty.InsertParams: property fields are typed (strings and integers). Missing fields and JavaScript coercions are not modelled.
- PropertySearch.GetAllPropertiesQuery: `options` is always a record of five optional values. The `TypeError` that destructuring `null` or `undefined` options throws (lines 113-119) is not modelled.
