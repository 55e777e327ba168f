# LightBnB property queries — a Dafny model

LightBnB is a small vacation-rental web application whose query layer
(`LightBnB_WebApp/server/database.js`) talks to a PostgreSQL database. This
project models two pieces of that layer:

- **The search-query builder of `getAllProperties`.** From an options record
  (`city`, `owner_id`, `minimum_price_per_night`, `maximum_price_per_night`) and
  a row limit (10 when left out), it builds the SQL text and the list of values
  bound to its positional parameters `$1`, `$2`, .... Each filter that is present
  pushes its value and then appends a clause that names the new list length.
  - `PropertyQuery.BuildQuery` does this step by step, as `getAllProperties` does.
    It is one method per `if` block of `getAllProperties` (`AddOwnerFilter`,
    `AddPriceFilter`, `AddCityFilter`), then the LIMIT footer.
  - It is proved equal to a declarative description. `Slots` lists which
    parameters are bound, in which order, and for which clause. `Text` and
    `ParamsOf` give the SQL text and the values those slots produce.
  - `PropertyQueryFacts` proves what that description promises:
    - the order of the clauses;
    - that the price filter applies only when both bounds are present;
    - the value bound to each clause;
    - that the placeholders read `$1 … $n`, in order and each once, with `$n`
      in the LIMIT clause;
    - that the SQL text depends only on which filters are present, never on
      their values, so no caller's value is ever written into the SQL.
- **The in-memory `addProperty`.** `PropertyStore.Store` holds the property
  table as a map from id to property object. `AddProperty` stamps the incoming
  object with the id "number of keys + 1", stores it under that id and returns
  the same object. When the ids already in the table are exactly 1 … n, the new
  id is free and the table stays that way. A lemma shows the id colliding with
  an existing entry when they are not.

Two modelling choices matter when reading the contracts:
- **When a filter counts as present.** `getAllProperties` tests JavaScript truthiness. A
  numeric filter counts when present and non-zero. The city counts when present
  and non-empty.
- **How the text is rendered.** The numeric filters are integers. `owner_id`
  goes straight into a template literal, modelled as `SqlText.IntToString`. The
  price bounds go through `parseInt` and are multiplied by 100, and an integer
  is its own `parseInt`. `$${queryParams.length}` is `SqlText.NatToString` of
  the list length. Both renderings write every decimal digit. That matches
  JavaScript's rendering of a number only below 10^21 (see "Left out").
  `toLowerCase()` is ASCII lower-casing (`SqlText.Lower`).

The builder appends the owner and price clauses without a separating space, so
the text reads e.g. `... = $1AND cost_per_night > $2AND ...`. The model keeps
the text exactly as `getAllProperties` writes it. `SqlText.Placeholders` reads each `$`
followed by a run of digits as one placeholder, and the lemmas show the
numbering is still `$1 … $n` under that reading. Whether a particular
PostgreSQL version accepts a parameter directly followed by a letter is not
modelled.

## Model

| member | source | states |
|---|---|---|
| `PropertyQuery.EffectiveLimit` | LightBnB_WebApp/server/database.js:111 | the limit bound is the caller's limit, or `DefaultLimit` (10) when none is passed; `EmptyOptionsUseDefaultLimit` proves the default is bound |
| `PropertyQuery.NumberTruthy` | LightBnB_WebApp/server/database.js:126 | JavaScript truthiness of a numeric option: present and not 0 |
| `PropertyQuery.StringTruthy` | LightBnB_WebApp/server/database.js:142 | JavaScript truthiness of a string option: present and not empty |
| `PropertyQuery.HasOwner` | LightBnB_WebApp/server/database.js:126 | the test `if (owner_id)` |
| `PropertyQuery.HasPriceRange` | LightBnB_WebApp/server/database.js:132 | the test `if (minimum_price_per_night && maximum_price_per_night)`; `PriceNeedsBothBounds` proves both bounds are needed |
| `PropertyQuery.HasCity` | LightBnB_WebApp/server/database.js:142 | the test `if (city)` |
| `PropertyQuery.Header` | LightBnB_WebApp/server/database.js:118-123 | the header template literal, character for character; `HeaderHasNoPlaceholders` proves it names no parameter |
| `PropertyQuery.OwnerFilter` | LightBnB_WebApp/server/database.js:128 | the owner clause up to its `$`; `FilterClausesEndInDollar` proves that `$` is its only one |
| `PropertyQuery.MinCostFilter` | LightBnB_WebApp/server/database.js:136 | the minimum-price clause up to its `$`, with the same proof |
| `PropertyQuery.MaxCostFilter` | LightBnB_WebApp/server/database.js:138 | the maximum-price clause up to its `$`, with the same proof |
| `PropertyQuery.CityFilter` | LightBnB_WebApp/server/database.js:144 | the city clause up to its `$`; its trailing space is `Tail(City)` |
| `PropertyQuery.Footer` | LightBnB_WebApp/server/database.js:149-152 | the GROUP BY / ORDER BY / LIMIT footer up to its `$`; `LimitClauseEndsInDollar` proves that `$` is its only one |
| `PropertyQuery.FooterEnd` | LightBnB_WebApp/server/database.js:152-153 | the `;` and the newline and indentation that close the footer literal |
| `PropertyQuery.CityPattern` | LightBnB_WebApp/server/database.js:143 | `%`, the lower-cased city, `%`; `CityPatternShape` proves its shape character by character |
| `PropertyQuery.Slots` | LightBnB_WebApp/server/database.js:114-153 | the reference description that `BuildQuery` is proved equal to: owner slots, price slots, city slots, then the limit; `ClauseColumns` and `QueryShape` prove what it contains |
| `PropertyQuery.OwnerSlots` | LightBnB_WebApp/server/database.js:126-129 | the owner id's decimal string when `owner_id` is truthy, else nothing |
| `PropertyQuery.PriceSlots` | LightBnB_WebApp/server/database.js:132-139 | minimum·100 then maximum·100 when both bounds are truthy, else nothing |
| `PropertyQuery.CitySlots` | LightBnB_WebApp/server/database.js:142-145 | the city pattern when the city is non-empty, else nothing |
| `PropertyQuery.Text` | LightBnB_WebApp/server/database.js:118-153 | the reference query text: the header followed by one numbered fragment per slot; `TextPlaceholders` and `TextIgnoresValues` prove what it contains |
| `PropertyQuery.Render` | LightBnB_WebApp/server/database.js:126-153 | the fragments of the slots, the i-th naming `$i`; `RenderPlaceholders` proves the numbering |
| `SqlText.NatToString` | LightBnB_WebApp/server/database.js:128 | the decimal rendering of `$${queryParams.length}` (also lines 136, 138, 144, 152); `DecimalRoundTrip` proves it is a digit string that reads back as the number |
| `SqlText.IntToString` | LightBnB_WebApp/server/database.js:127 | the rendering of `${owner_id}` for an owner id below 10^21 in size; `IntStringRoundTrip` proves it reads back as the id |
| `SqlText.LowerChar` | LightBnB_WebApp/server/database.js:143 | `toLowerCase` on one character: `A`–`Z` to `a`–`z`, all else kept |
| `SqlText.Lower` | LightBnB_WebApp/server/database.js:143 | `toLowerCase` character by character; `LowerIsLowerCase` proves what it does |
| `PropertyStore.DenseKeys` | LightBnB_WebApp/server/database.js:177 | every id in the table lies in 1 … n for n entries; `DenseIffUpTo` proves that means the ids are exactly 1 … n |
| `PropertyStore.Store.Valid` | LightBnB_WebApp/server/database.js:177-179 | the table is dense, so `AddProperty` picks a free id; `AddProperty` keeps it |
| `PropertyQuery.BuildQuery` | LightBnB_WebApp/server/database.js:111-153 | the SQL text and the parameter list built for any options and limit are exactly `Text` and `ParamsOf` of `Slots(options, limit)`, with limit 10 when none is passed |
| `PropertyQuery.AddOwnerFilter` | LightBnB_WebApp/server/database.js:126-129 | from a text/parameter pair that renders some slots, a truthy `owner_id` adds the owner slot (its decimal string) and its clause; otherwise nothing changes |
| `PropertyQuery.AddPriceFilter` | LightBnB_WebApp/server/database.js:132-139 | adds the two price slots (both bounds times 100, minimum first) and their clauses exactly when both bounds are truthy |
| `PropertyQuery.AddCityFilter` | LightBnB_WebApp/server/database.js:142-145 | a non-empty city adds the slot `%`+lower-cased city+`%` and the `LOWER(city) LIKE` clause with its trailing space |
| `PropertyQuery.Push` | LightBnB_WebApp/server/database.js:142-153 | pushing a value, then appending a clause's text, the new list length and the clause's tail, renders the slots extended by that one slot |
| `PropertyQuery.PushUntailed` | LightBnB_WebApp/server/database.js:127-128 | the same for a clause that ends with its placeholder number |
| `PropertyQuery.ParamsOf` | LightBnB_WebApp/server/database.js:114-153 | one bound value per slot |
| `PropertyQuery.Step` | LightBnB_WebApp/server/database.js:126-153 | one more slot appends exactly its clause, numbered by the new length, and exactly its value |
| `PropertyQuery.RenderSnoc` | LightBnB_WebApp/server/database.js:126-153 | appending a slot appends its fragment, for any wording of the clauses |
| `PropertyQuery.ParamsSnoc` | LightBnB_WebApp/server/database.js:126-153 | appending a slot appends its value to the parameters |
| `PropertyQuery.QueryShape` | LightBnB_WebApp/server/database.js:148-153 | the parameter count is 1 + [owner] + 2·[price range] + [city]; the limit is the last parameter; the text ends with the LIMIT clause naming `$n` for n parameters; its placeholders are `$1 … $n` |
| `PropertyQuery.HeaderHasNoPlaceholders` | LightBnB_WebApp/server/database.js:118-123 | the fixed SELECT … WHERE 1=1 header names no parameter |
| `PropertyQuery.ClauseEndsInDollar` | LightBnB_WebApp/server/database.js:128 | dollar-free text followed by `$` is a clause that leads into one placeholder |
| `PropertyQuery.FilterClausesEndInDollar` | LightBnB_WebApp/server/database.js:126-145 | the owner, minimum, maximum and city clauses each end in the `$` of their placeholder and contain no other `$` |
| `PropertyQuery.LimitClauseEndsInDollar` | LightBnB_WebApp/server/database.js:149-152 | the GROUP BY / ORDER BY / LIMIT footer ends in the `$` of its placeholder and contains no other `$` |
| `PropertyQuery.QueryWordingIsSafe` | LightBnB_WebApp/server/database.js:126-153 | every clause the builder appends names exactly one placeholder, and nothing after the number can lengthen it |
| `PropertyQuery.FragmentPlaceholders` | LightBnB_WebApp/server/database.js:128 | a clause followed by the number k and a dollar-free tail names exactly `$k` |
| `PropertyQuery.RenderPlaceholders` | LightBnB_WebApp/server/database.js:126-153 | under a safe wording, the fragments of n slots name `$1 … $n` in order |
| `PropertyQuery.TextPlaceholders` | LightBnB_WebApp/server/database.js:114-153 | the placeholders of the whole query text for n slots are `$1 … $n` in order |
| `PropertyQueryFacts.ClauseColumns` | LightBnB_WebApp/server/database.js:125-153 | the clauses are owner, minimum, maximum, city and limit, in that order, each present exactly when its filter is truthy (limit always) |
| `PropertyQueryFacts.PriceNeedsBothBounds` | LightBnB_WebApp/server/database.js:132 | each price clause is present if and only if both bounds are truthy; one bound alone adds neither |
| `PropertyQueryFacts.ColumnOrder` | LightBnB_WebApp/server/database.js:125-153 | clause kinds strictly increase along the query, so each filter appears at most once |
| `PropertyQueryFacts.RanksIncrease` | LightBnB_WebApp/server/database.js:125-153 | the pointwise form of the same order for two positions |
| `PropertyQueryFacts.NoFiltersQuery` | LightBnB_WebApp/server/database.js:114-153 | with no truthy filter the parameters are just the limit and the text is the header plus the footer with `$1` |
| `PropertyQueryFacts.EmptyOptionsUseDefaultLimit` | LightBnB_WebApp/server/database.js:111 | an empty options record and no limit bind the single parameter 10 |
| `PropertyQueryFacts.PlaceholdersNumberTheParams` | LightBnB_WebApp/server/database.js:114-153 | there are as many placeholders as parameters and the i-th one, in reading order, is `$i` |
| `PropertyQueryFacts.TextPrefix` | LightBnB_WebApp/server/database.js:114-153 | the text only grows: the text of the first slots is a prefix of the whole text |
| `PropertyQueryFacts.ParamsAt` | LightBnB_WebApp/server/database.js:114-153 | the i-th parameter is the i-th slot's value |
| `PropertyQueryFacts.TextSnoc` | LightBnB_WebApp/server/database.js:126-153 | the text of i+1 slots is that of i slots plus the i-th fragment |
| `PropertyQueryFacts.ClauseBindsParam` | LightBnB_WebApp/server/database.js:126-153 | the clause of the i-th slot names `$(i+1)`, and parameter i+1 is that slot's value |
| `PropertyQueryFacts.OwnerClause` | LightBnB_WebApp/server/database.js:126-128 | a truthy owner id yields `owner_id = $1` right after the header, bound to the id's decimal string, which reads back as the id |
| `PropertyQueryFacts.PriceClauses` | LightBnB_WebApp/server/database.js:132-138 | with both bounds, `cost_per_night > $k` then `cost_per_night < $(k+1)` follow the owner clause, bound to minimum·100 and maximum·100 |
| `PropertyQueryFacts.CityClause` | LightBnB_WebApp/server/database.js:142-144 | a non-empty city yields the LIKE clause just before the limit, bound to the city pattern |
| `PropertyQueryFacts.CityPatternShape` | LightBnB_WebApp/server/database.js:143 | the pattern is `%`, the city lower-cased character by character (no upper-case ASCII left), `%` |
| `PropertyQueryFacts.RenderIgnoresValues` | LightBnB_WebApp/server/database.js:126-153 | fragments depend only on the clause kinds, not on the bound values |
| `PropertyQueryFacts.TextIgnoresValues` | LightBnB_WebApp/server/database.js:114-153 | two calls whose filters are truthy in the same places get the same SQL text, whatever the values and limits |
| `SqlText.DigitChar` | LightBnB_WebApp/server/database.js:128 | a digit's character is a decimal digit whose value is that digit |
| `SqlText.DecimalRoundTrip` | LightBnB_WebApp/server/database.js:128 | the decimal rendering of a natural number is a non-empty digit string that reads back as the number |
| `SqlText.IntStringRoundTrip` | LightBnB_WebApp/server/database.js:127 | the template-literal rendering of an integer reads back as the integer |
| `SqlText.LowerIsLowerCase` | LightBnB_WebApp/server/database.js:143 | lower-casing keeps the length, turns each upper-case ASCII letter into its lower-case letter (code + 32), keeps every other character, leaves no upper-case ASCII letter and is idempotent |
| `SqlText.DigitRunIsDigits` | LightBnB_WebApp/server/database.js:128 | the digit run at the start of a string is made of digits |
| `SqlText.DigitRunOfDigits` | LightBnB_WebApp/server/database.js:128 | the digit run of a digit string is all of it |
| `SqlText.DigitRunAppend` | LightBnB_WebApp/server/database.js:128 | a digit run cannot continue into text that starts with a non-digit |
| `SqlText.NoDollarHasNoPlaceholders` | LightBnB_WebApp/server/database.js:118-123 | text without `$` names no parameter |
| `SqlText.PlaceholdersAppend` | LightBnB_WebApp/server/database.js:128 | `+=` of text that starts with a non-digit appends its placeholders to those already there |
| `SqlText.PlaceholderToken` | LightBnB_WebApp/server/database.js:128 | `$` followed by the decimal rendering of k names exactly parameter k |
| `SqlText.OneToAt` | LightBnB_WebApp/server/database.js:128 | the numbering 1 … n has n entries, the i-th being i+1 |
| `PropertyStore.Property.constructor` | LightBnB_WebApp/server/database.js:176 | a property record with the given id and fields |
| `PropertyStore.Store.constructor` | LightBnB_WebApp/server/database.js:1 | the table starts as the fixture's entries, and satisfies `Valid` when the fixture is numbered 1 … n |
| `PropertyStore.Store.AddProperty` | LightBnB_WebApp/server/database.js:176-181 | returns the same object, stamped with id = old key count + 1 and its fields untouched; the table maps that id to it and every other key as before; a table keyed 1 … n stays so and grows by one |
| `PropertyStore.UpTo` | LightBnB_WebApp/server/database.js:177 | the set 1 … n has n elements, exactly the numbers from 1 to n |
| `PropertyStore.DenseKeysAreUpTo` | LightBnB_WebApp/server/database.js:177 | when all n keys lie in 1 … n, every id from 1 to n is taken |
| `PropertyStore.DenseIffUpTo` | LightBnB_WebApp/server/database.js:177 | a table is keyed within 1 … n if and only if its keys are exactly 1 … n |
| `PropertyStore.InsertKeepsDense` | LightBnB_WebApp/server/database.js:177-179 | in a table keyed 1 … n the chosen id n+1 is free, and storing under it gives a table keyed 1 … n+1 of size n+1 |
| `PropertyStore.SparseKeysCollide` | LightBnB_WebApp/server/database.js:177-179 | with keys {1, 3} the chosen id is 3, already taken, and the stored entry is replaced |

## Left out

- `pool.query`, the promise chains and `console.log`: the database, its results and its errors are outside the model. What is modelled is the text and the parameters handed to `pool.query`, and the in-memory table.
- SQL semantics: how PostgreSQL evaluates the query (the join, `avg`, `GROUP BY`, `ORDER BY`, `LIKE` matching) is not modelled. Neither is whether a parameter directly followed by a letter (`$1AND`) is accepted.
- `getUserWithEmail`, `getUserWithId`, `addUser` and `getAllReservations`: they are fixed SQL statements with fixed parameters, not part of this model.
- Loading `properties.json` and `users.json`: the fixture is the constructor's argument.
- `LightBnB_WebApp/public/javascript/components/property_listing.js` (HTML rendering with jQuery, moment and floating point) is not part of this model.
- Numeric options that are strings or non-integers: the model takes the numeric filters as integers. In JavaScript a string option is truthy when non-empty (so `"0"` is truthy), `${owner_id}` of a string is that string unchanged (so `"007"` stays `"007"`), and `parseInt` of a non-numeric string gives `NaN`. None of these cases is modelled.
- SqlText.IntToString: JavaScript numbers are IEEE doubles, and `${x}` writes a number of size 10^21 or more in exponential form (`1e+21`). `IntToString` writes every digit, so for such an `owner_id` the bound string differs.
- PropertyQuery.PriceSlots: `parseInt` of a bound of size 10^21 or more reads its exponential form (`parseInt(1e21, 10)` is 1), and a product `bound * 100` beyond 2^53 is rounded to a double. The model binds the exact integer product, so for such bounds the bound values differ from JavaScript's.
- Synchronous `TypeError`s: `getAllProperties` throws before building anything when `options` is `undefined` or `null` (the destructuring at line 115), and when `city` is truthy but not a string (`city.toLowerCase` at line 143, e.g. an array from a repeated query key). `Filters` always holds a record and an optional string, so neither error path is modelled.
- `toLowerCase` beyond ASCII: `Lower` maps only `A`–`Z`; Unicode case mapping is not modelled.
- The limit's JavaScript type: any value the caller passes is bound unchanged as a `Param`; only the default (10) is fixed.
- Object keys: JavaScript stores `properties[propertyId]` under the string form of the id; the model keys the table by integer.
- `Promise.resolve(property)`: `AddProperty` returns the object directly.
- Concurrency: the builder and `addProperty` run to completion without interleaving, as one JavaScript turn does.
