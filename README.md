# A verified model of the dojos service's handlers

The `cd-dojos` plugin answers messages about coding dojos. Most of its
handlers pass a query to the entity store and hand back what the store
replies. The handlers that do real work in between are modelled here:

- the query normalisation of `search` and `my_dojos_search`;
- the live test a dojo must pass to be shown or counted;
- the grouping and sorting of `list`;
- the per-state tallies of `dojos_state_count`;
- the per-continent counts of `dojos_count`;
- the grouping of `get_stats`;
- the field rename of `update`;
- the ownership record of `create`;
- the length reply of `search_count`;
- the final sort of `dojos_by_country`.

What the store, or the countries service, replies is an input of the model.
A JavaScript object used as a dictionary is an `OrderedMap`: its own keys in
the order `Object.keys` lists them, and the value under each key. The two
objects the handlers change in place, `args.query` and `args.dojo`, are
instances of the class `Objects.JsObject`. Each loop is a method with a
`while` loop. Each method is proved equal to a declarative function, and
that function's meaning is proved in lemmas. The declarative functions are
built from `Filter`, the stable sort `SortBy` (lodash `_.sortBy`), and
`Group` (the push-into-an-array-per-key loop).

Modules, one per file:

- `Order`: string order and sort-key order.
- `Seqs`: filtering, and the stable sort.
- `Groups`: ordered objects, grouping and counting.
- `Text`: `split`.
- `Records`: values, dojo records and the live test. A `Dojo` holds the nine properties the handlers read as their own fields and every other property in `rest`, so two records that differ in any property are different values.
- `Wrappers`: the store's `(err, result)` outcomes.
- `Objects`: the mutable object.
- `Search`, `Listing`, `StateCount`, `DojoCount`, `Stats`, `ByCountry` and
  `Edits`: one for each handler or group of handlers.

## Model

| member | source | states |
|---|---|---|
| `Search.MoveKey` | dojos.js:38-41 | when `from` holds a defined value, that value moves to `to` and `from` is removed; otherwise nothing changes; every other key keeps its value and stays present or absent as before |
| `Search.NormaliseQuery` | dojos.js:38-51 | changes `args.query` in place into `Normalised` of its old properties |
| `Search.NormalisedMeaning` | dojos.js:330-343 | each of `skip`, `limit` and `sort`: if defined, it is gone and its `$` form holds its old value; if undefined, both keys keep their values and their presence. Every key outside the six control keys keeps its value and stays present or absent as before |
| `Search.SearchCount` | dojos.js:62-68 | a store error is passed on unchanged; otherwise `totalItems` is the number of records listed |
| `Records.Truthy` | dojos.js:81 | the `dojo.coordinates &&` test: a value is falsy exactly when it is `undefined`, `null`, `false`, `0` or the empty string |
| `Records.IsLive` | dojos.js:162 | the live test `deleted !== 1 && verified !== 0 && stage === 2` of `list` (and of `dojos_state_count`, dojos.js:81) accepts exactly the dojos that `getDojos`'s rejection test `deleted === 1 \|\| verified === 0 \|\| stage !== 2` (dojos.js:123) lets through |
| `Seqs.Filter` | dojos.js:162 | the selected elements satisfy the predicate, and there are no more of them than input elements |
| `Seqs.FilterMultiset` | dojos.js:162 | `Filter` keeps exactly the elements that satisfy the predicate, each as many times as the input holds it |
| `Seqs.SortBy` | dojos.js:160 | `_.sortBy` returns a permutation of its input |
| `Seqs.SortBySorted` | dojos.js:160 | `_.sortBy`'s result never puts a larger key before a smaller one; undefined keys go last |
| `Seqs.SortByStable` | dojos.js:160 | `_.sortBy` is stable: the elements with any one key keep their input order |
| `Seqs.FilterLast` | dojos.js:84-85 | the last element a filter keeps is the input's last element that satisfies the predicate |
| `Order.LessMeaning` | dojos.js:160 | the string `<` that `_.sortBy` applies to its keys is the comparison of section 7.2.13 of ECMA-262: a proper prefix is smaller, and otherwise the first differing character decides |
| `Order.KeyLessTotal` | dojos.js:160 | any two sort keys are equal or ordered one way round |
| `Order.KeyLeqTransitive` | dojos.js:160 | "not after" is transitive, so a sorted run stays sorted |
| `Groups.GroupMeaning` | dojos.js:381-387 | the push-per-key object holds, under each key, exactly the input elements with that key in input order; its keys are exactly the keys some element has; there are no duplicate keys |
| `Groups.GroupKeysFirstSeen` | dojos.js:381-384 | the push-per-key object's keys are in the order in which each key first occurs in the input: wherever an element has a later key, an element with an earlier key occurs before it |
| `Groups.GroupFirstSeen` | dojos.js:81-83 | the same for a loop that pushes only the elements passing a test: the keys follow the first occurrences among the elements that pass |
| `Groups.GroupKeysAscending` | dojos.js:160-166 | on input sorted by key, the object's keys are created in strictly ascending order |
| `Groups.GroupTotal` | dojos.js:381-387 | the group sizes add up to the input length |
| `Text.Split` | dojos.js:84-85 | `split(',')` gives at least one field, and no field contains the separator |
| `Text.JoinSplit` | dojos.js:84-85 | joining the fields with the separator gives back the string |
| `Text.SplitJoin` | dojos.js:84-85 | splitting a join of separator-free fields gives back the fields |
| `Listing.List` | dojos.js:154-186 | the reply of `list` is `Listing(response)` |
| `Listing.GroupLive` | dojos.js:161-174 | the first loop builds the two-level object of the live dojos of the sorted reply |
| `Listing.AddDojo` | dojos.js:163-172 | one iteration creates the country's `{states: {}}` and the state's array when missing, then pushes the dojo |
| `Listing.NestPushStep` | dojos.js:163-172 | grouping one more dojo equals one more iteration of the first loop |
| `Listing.NestValid` | dojos.js:161-174 | the countries object and every `states` object have distinct keys that all hold values |
| `Listing.SortCountries` | dojos.js:176-182 | the second loop sorts every state's array of every country by name |
| `Listing.SortStates` | dojos.js:178-181 | the inner loop sorts every state's array of one country by name |
| `Listing.CountryInReplyOrder` | dojos.js:160-162 | the live dojos of one country keep their reply order through the sort by country name |
| `Listing.SameCountry` | dojos.js:160 | selecting by country name and by its sort key selects the same dojos |
| `Listing.LiveOfSorted` | dojos.js:160-162 | the live dojos of the sorted reply are exactly the live dojos of the reply |
| `Listing.ListingCountries` | dojos.js:160-176 | the countries of the reply are exactly the country names of live dojos, with no duplicates, in strictly ascending order |
| `Listing.LiveInCountryMembers` | dojos.js:162-164 | one country's live dojos are exactly the reply's live dojos with that country name |
| `Listing.ListingAt` | dojos.js:163-181 | a country's `states` is the grouping by state of its live dojos in reply order, each array sorted by name |
| `Listing.SortLeavesMeaning` | dojos.js:178-181 | sorting the arrays keeps the states object's keys, and each array becomes its group sorted by name |
| `Listing.ListingStates` | dojos.js:161-181 | a country's states are exactly the states of its live dojos; each state's array is its live dojos of that country and state, in reply order, then sorted by name |
| `Listing.ListingStateContents` | dojos.js:161-181 | each state's array is sorted by name and is a permutation of the live dojos of that country and state; it holds only live dojos of that country and state, and every such dojo as often as the reply does |
| `Listing.LiveInCounts` | dojos.js:162-172 | the dojos of one country and state are live and match both names; each such reply dojo occurs as often as in the reply |
| `Listing.LiveInMember` | dojos.js:162-172 | a dojo selected for a country and a state is live and has that country and state |
| `Listing.LiveInCount` | dojos.js:162-172 | a live dojo of that country and state is selected as often as the reply holds it |
| `Listing.CountsSortLeaves` | dojos.js:178-181 | sorting the arrays does not change their sizes |
| `Listing.CountryTotalsOfListing` | dojos.js:161-181 | a country's arrays together hold as many dojos as the country has live dojos |
| `Listing.ListingTotal` | dojos.js:161-181 | all the arrays together hold exactly as many dojos as the reply has live dojos |
| `StateCount.Coordinate` | dojos.js:84-85 | a field that exists is a string without a comma |
| `StateCount.StateCount` | dojos.js:79-88 | the loop's reply is `StateCountOf(country, response)`: a `TypeError` when a counted dojo has a different `alpha2` or coordinates that are not a string; otherwise each state's tally |
| `StateCount.TallyDojo` | dojos.js:82-85 | the loop body for a counted dojo with string coordinates is one `Bump`: the state is created with `{total: 0}` when missing, its total goes up by one, and its latitude and longitude become fields 0 and 1 of the coordinates |
| `StateCount.TalliesStep` | dojos.js:82-85 | counting one more dojo equals one more iteration of the loop |
| `StateCount.TalliesSnoc` | dojos.js:80-86 | one more record of the reply is one more `Bump` when it is live with truthy coordinates, and changes nothing otherwise |
| `StateCount.TalliesStates` | dojos.js:80-83 | the states are exactly the states of live dojos with truthy coordinates, with no duplicates, listed in the order in which each state's first such dojo occurs in the reply |
| `StateCount.TalliesTotals` | dojos.js:81-83 | a state's `total` is the number of live dojos with truthy coordinates in that state |
| `StateCount.TalliesCoordinates` | dojos.js:84-85 | a state's `latitude` and `longitude` are fields 0 and 1 of the coordinates of the last such dojo in input order |
| `StateCount.CellOfState` | dojos.js:81-85 | a state that is present has a non-empty run of live dojos with coordinates, and its group is that run |
| `StateCount.CellTallied` | dojos.js:81-82 | the counted dojos of a state are the live dojos with coordinates in that state |
| `StateCount.StateCountTotal` | dojos.js:81-83 | the states' totals add up to the number of live dojos with coordinates |
| `StateCount.StateCountReplies` | dojos.js:77-88 | when every record has the requested `alpha2`, and string or falsy coordinates, the loop does not throw |
| `DojoCount.LiveDojos` | dojos.js:122-128 | `getDojos` keeps exactly the live dojos, in reply order |
| `DojoCount.CountDojos` | dojos.js:139-150 | `getDojoCount`'s loop builds `ContinentCounts(dojos, continentOf)` |
| `DojoCount.CountOne` | dojos.js:143-147 | one iteration creates the continent's `{total: 0, countries: {}}` and the country's `{total: 0}` when missing, then adds one to both |
| `DojoCount.CountDojoStep` | dojos.js:142-147 | counting one more mapped dojo equals one more iteration of the loop |
| `DojoCount.SkipDojoStep` | dojos.js:142 | a dojo whose country code has no continent changes nothing |
| `DojoCount.CellCountSnoc` | dojos.js:145-147 | one more dojo in a continent adds one to its total and to its country's count |
| `DojoCount.SummarisePush` | dojos.js:144-147 | the counts of a grouping with one more dojo are the counts after one more iteration |
| `DojoCount.DojosCount` | dojos.js:111-150 | the waterfall passes on the countries service's error; otherwise it replies with the continent counts of the live dojos |
| `DojoCount.ContinentsPresent` | dojos.js:141-144 | the continents are exactly the continents of the dojos whose country code is mapped, with no duplicates, listed in the order in which each continent's first mapped dojo occurs |
| `DojoCount.ContinentTotalIsSum` | dojos.js:145-147 | each continent's `total` is the sum of its countries' totals |
| `DojoCount.CountryTotals` | dojos.js:146-147 | a country code under a continent belongs to that continent, and its total is the number of dojos with that code |
| `DojoCount.CountriesListed` | dojos.js:142-148 | every continent's `countries` object has distinct keys that all hold a count, and every dojo whose code is mapped has its code listed under its own continent, which is present |
| `DojoCount.CountryOfContinent` | dojos.js:143-146 | a continent's group is its mapped dojos, and only its own country codes occur in it |
| `DojoCount.CountryCell` | dojos.js:146-147 | a continent's dojos with one of its own country codes are all the dojos with that code |
| `DojoCount.MappedCounted` | dojos.js:142-145 | the continents' totals add up to the number of mapped dojos, so a dojo whose country has no continent is counted nowhere |
| `DojoCount.DojosCountLive` | dojos.js:123-145 | the reply's continent totals add up to the number of live dojos of mapped countries |
| `Stats.GetStats` | dojos.js:379-387 | the loop builds the grouping of the records by continent |
| `Stats.GetStatsMeaning` | dojos.js:379-387 | each continent holds exactly its records in input order; the continents are exactly the records' continents, with no duplicates, listed in the order of each continent's first record (the `Object.keys` order of the reply); the group sizes add up to the number of records |
| `ByCountry.DojosByCountry` | dojos.js:103 | the sorted replies are a permutation of the replies, and no reply comes after one with a larger first country key |
| `ByCountry.DojosByCountryStable` | dojos.js:103 | replies with the same first country, and the empty replies, keep their arrival order |
| `ByCountry.DojosByCountryOrder` | dojos.js:103 | empty replies come last, and the first countries of the other replies ascend |
| `Edits.CountryRenamed` | dojos.js:224-225 | `countryName` holds what `country` held, or `undefined`; `country` is gone; every other key keeps its value and stays present or absent as before |
| `Edits.Update` | dojos.js:222-225 | changes `args.dojo` in place into `CountryRenamed` of its old properties |
| `Edits.Create` | dojos.js:198-217 | `creator` is set to the user and nothing else changes. A failed first save is passed on and skips the ownership record. Otherwise the ownership record is `owner = 1`, `user_id` = the dojo's `creator`, `dojo_id` = the saved dojo's `id`; a failed second save is passed on, and a successful one returns the saved dojo |
| `Objects.JsObject.constructor` | dojos.js:199 | the object starts with the given properties |
| `Objects.JsObject.Set` | dojos.js:204 | assigning a property replaces its value and leaves the others alone |
| `Objects.JsObject.Delete` | dojos.js:225 | `delete` removes the property and leaves the others alone |

## Left out

- Storage and service calls are not modelled. Each handler's store calls (`list$`, `load$`, `save$`, `remove$`) and the countries service call are outside this model. Their answers are inputs.
- The `if (err) return done(err)` checks after store calls are not modelled, except in `search_count`, `create` and the countries step of `dojos_count`. In the other handlers the error is only passed on.
- Message dispatch is not modelled: the `seneca.add` registrations and `seneca.act` routing (dojos.js:15-29, dojos.js:97, dojos.js:133) are framework plumbing.
- The asynchronous fan-out in `bulk_update`, `bulk_delete` and `dojos_by_country` is left out. Its point is unordered concurrent completion, with the first error winning. For `dojos_by_country`, the order in which the replies arrive is an input of `ByCountry.DojosByCountry`.
- `delete` is left out. Its load-failure path calls `done(err)` and then carries on (dojos.js:239-243), which is defective control flow with no clear contract.
- In `getDojos`, a store error is swallowed (`if(err) return response;`, dojos.js:121), so the waterfall never completes. The model only covers the success path.
- `load` is left out, because `parseInt` depends on JavaScript number parsing.
- The regular expression that `my_dojos_search` builds from `name` is left out, because it depends on JavaScript regex semantics. The rest of that handler after normalisation (the `_.pluck` of ownership ids and the second query) is store plumbing. It plucks `dojoId`, but `create` stores the id as `dojo_id`; that mismatch is outside this model.
- `my_dojos_count` is left out: it lists the user's ownership records with no limit and replies with the bare number `response.length` (dojos.js:308-318). Unlike `search_count`, it neither sets `limit$` nor wraps the count in `{totalItems}`; the only computation is a length.
- The store-side limits are left out: the literal values that `list`, `search_count`, `dojos_state_count`, `dojos_count` and `get_stats` write into their queries (`limit$` of `1500` or `'NULL'`).
- `Order.Less` compares characters by their code; JavaScript compares UTF-16 code units. The two orders differ only for characters outside the Basic Multilingual Plane.
- `Groups.OrderedMap` lists keys in insertion order. `Object.keys` lists integer-like keys (such as `"12"`) first, in numeric order, so the model's key order is exact only for keys that are not array indices. The same applies to `ByCountry.FirstKey`.
- The text fields that the handlers use as object keys are always strings in the model (`countryName`, `admin1Name`, `alpha2`, `continent`, `name`). JavaScript would turn an undefined one into the key `"undefined"`, and `_.sortBy` would sort an undefined `name` or `countryName` last.
- Keys that name `Object.prototype` properties (such as `constructor`) are not modelled; in JavaScript such a key would find the inherited value, so `!obj[key]` would not create the entry.
- In `dojos_count`, each entry of the countries service's map is assumed to be an object, and so truthy, holding a string `continent`. `DojoCount.ContinentCounts` models only `countData.dojos.continents`, the object the outer `{dojos: {continents}}` wraps.
- `args.query` and `args.dojo` are always objects in the model. When either is `undefined`, `search`, `my_dojos_search`, `create` and `update` throw a `TypeError` on their first property access (dojos.js:38, dojos.js:204, dojos.js:224, dojos.js:330); that path is not modelled.
- Numbers are integers. The handlers only compare flags with `===` and `!==` and add one to counters, so floating point plays no part.
- `StateCount.Reply` models `countData` as the one states object under the requested country, or `Thrown` when the loop raises a `TypeError`, in which case the handler never calls `done`.
