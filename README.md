# laravel-structure-craft: repository query composition and DTO hydration

This project models the core of the `laravel-structure-craft` package: the
repository trait that turns a request into an Eloquent query (filters, free-text
search over fields and relations, ordering), the self-validating filter
objects and their registry lookup, and the data-transfer objects that
whitelist request input before it is stored or written onto a record.

Modules, one per source file plus two support modules:

- `Php` (`php.dfy`): PHP values and ordered arrays (`seq<(string, Value)>`,
  read through `AsMap`, where the last entry for a key wins), `isset`,
  truthiness, string conversion, and the errors the core can raise. PHP
  warnings (an undefined array key, `foreach` over a non-array) are errors,
  as Laravel escalates them to exceptions.
- `Query` (`query.dfy`): the Eloquent builder as a class holding the
  appended WHERE clauses and ORDER BY entries; a closure passed to `where`
  becomes a fresh sub-builder whose clauses are wrapped as a nested group.
  A ghost evaluation semantics says which records a clause list selects: SQL
  precedence (AND binds tighter than OR), nested groups holding no condition left
  out as Eloquent does, `LIKE` with `%` and `_`, and the condition a filter's
  `apply` adds left as a parameter.
- `BaseDto` (`base_dto.dfy`): `BaseDTO`.
- `Filters` (`filter.dfy`): `Filter`, with the validator as a parameter.
- `FilterFactory` (`filter_factory.dfy`): `FilterFactory::create`.
- `Repository` (`repository.dfy`): `BaseRepo`'s four tables and the
  operations of `RepoTrait`.
- `SearchMeaning` (`search_meaning.dfy`): what the built queries select.

Each imperative operation of the trait is a method on the `Repo` class that
appends clauses to a `Builder`, looping where the source does (`filter`,
`searchField`, `searchRelation`) and otherwise calling those methods. Each
is proved against a specification
function (`FieldGroups`, `RelationGroups`, `SearchGroup`, `FilterWheres`,
`IndexWheres`) that says exactly which clauses, in which order, with which
pattern. Lemmas then state what those clause lists mean.

### Behaviour of the code worth noting

- `update` writes the DTO's full `toArray()`, nulls and defaults included,
  onto the record. A declared property the input leaves out is reset to its
  default (`UpdateOverwritesDeclared`).
- Hydration stores an array value as the property's value, as it is.
- An unregistered filter key is an undefined-array-key error.
- A registered key whose class does not exist: `FilterFactory::create`
  falls off the end of a function declared to return a `Filter`, which is a
  `TypeError`. The trait's `createFilterFactory` returns null there, and
  `filter` then fails calling `apply` on null.
- `getData` sends an array to `fromRequest(?Request)`, which refuses it (see
  Findings). `Store` and `Update` are built on the corrected `GetData`;
  `StoreAsWritten` and `UpdateAsWritten` are the code as written.
- A nested group is left out of the SQL when it holds no condition after
  its closure has run, including when every group inside it was left out;
  `EmptyGroup` states this recursively.

## Model

| member | source | states |
|---|---|---|
| `BaseDto.Dto.constructor` | src/DTOs/BaseDTO.php:13 | A fresh instance holds every declared property at its default, and nothing else. |
| `BaseDto.Dto.HandleAdditionalParams` | src/DTOs/BaseDTO.php:29-32 | The base hook leaves every property as it was. |
| `BaseDto.Dto.ToArray` | src/DTOs/BaseDTO.php:34-37 | Exactly the declared properties, whatever the input was, each with its current value, nulls included. |
| `BaseDto.FromRequest` | src/DTOs/BaseDTO.php:11-26 | A fresh instance of the class whose properties are the assignment loop's result over the request input (`Hydrated`); the hook changes nothing after it; a null request fails calling `all()`. |
| `BaseDto.HydratedIsMerge` | src/DTOs/BaseDTO.php:16-20 | The assignment loop equals the declared defaults overridden by the input's value for each declared key the input supplies. |
| `BaseDto.UndeclaredKeysIgnored` | src/DTOs/BaseDTO.php:16-20 | Two inputs that agree on the declared keys hydrate identically: undeclared input keys have no effect. |
| `BaseDto.HydratedValues` | src/DTOs/BaseDTO.php:13-18 | A declared key supplied by the input holds exactly the input's value, arrays included (no nested hydration); a declared key it does not supply keeps its default. |
| `BaseDto.GetArg` | src/DTOs/BaseDTO.php:40-53 | The value at the key of the first element of the first argument that is an array with the key set and non-null, skipping every other element; null exactly when no element qualifies; errors when there is no first argument or it is not an array. |
| `Filters.ValidateKey` | src/Filters/Filter.php:44-52 | A key passes exactly when it has a rule and the validator accepts its value under that rule alone; a missing rule is an undefined-key error; a rejected value raises the validator's messages for that key. |
| `Filters.ValidationPassesIffEveryKeyPasses` | src/Filters/Filter.php:30-36 | Validation passes exactly when every supplied key passes on its own; empty data always passes. |
| `Filters.ValidationStopsAtFirstFailure` | src/Filters/Filter.php:32-35 | A failure is the error of the first failing key; later keys are not checked. |
| `Filters.ValidationOfConcat` | src/Filters/Filter.php:32-35 | Validating a concatenation checks the second part only when the first passes. |
| `Filters.Filter.Init` | src/Filters/Filter.php:9 | The promoted constructor parameter stores the filter data. |
| `Filters.Filter.Validate` | src/Filters/Filter.php:30-36 | The loop's outcome is the first-failure fold `Validation`, and it passes exactly when every key passes. |
| `Filters.Filter.Get` | src/Filters/Filter.php:67-74 | A declared property gives its value; any other name gives the filter data's entry for that key, and an undefined-key error exactly when the data has no such key. |
| `Filters.Filter.Apply` | src/Filters/Filter.php:18 | The filter's condition over its data is appended to the query, conjoined; the ordering is untouched. |
| `Filters.NewFilter` | src/Filters/Filter.php:9-12 | Non-array data is a `TypeError`; otherwise a fresh filter holding the data is returned exactly when validation passes, and a failure carries validation's error. |
| `FilterFactory.Resolve` | src/Filters/FilterFactory.php:21-26 | An unregistered key is an undefined-key error, and a registered key never an error; it gives a class exactly when its path names a loadable class, and then that class. |
| `FilterFactory.Create` | src/Filters/FilterFactory.php:18-35 | A fresh, validated instance of the registered class holding the given data and the class's declared properties; an undefined-key error for an unregistered key; a `TypeError` when the path names no class; for a loadable class, the constructor's `TypeError` for non-array data, success exactly when the data validates, and otherwise validation's error. |
| `Repository.Repo.Base` | src/Repositories/BaseRepo.php:12-25 | A bare repository has an empty filter registry, search-field table, relation list and relation-field table. |
| `Repository.Repo.constructor` | src/Traits/RepoTrait.php:18-20 | Stores the DTO class and the four tables a subclass declares. |
| `Repository.BareRepoDefaults` | src/Repositories/BaseRepo.php:16-25 | On a bare repository every requested filter fails with an undefined-key error for its first key, and the search group holds no condition, so it is dropped and excludes no record. |
| `Repository.Repo.CreateFilterFactory` | src/Traits/RepoTrait.php:82-90 | A fresh instance of the registered class, holding the given data and its class's declared properties, only when the key is registered, names a loadable class and the data is a validating array; null when the path names no class; an undefined-key error when unregistered; agrees with one step of the filter fold. |
| `Repository.Repo.Filter` | src/Traits/RepoTrait.php:98-111 | A fresh, unordered query whose clauses are exactly the requested filters' clauses, in request order; it fails with the first failing filter's error. |
| `Repository.FilterClausesAllSucceed` | src/Traits/RepoTrait.php:104-107 | The filters succeed exactly when every requested filter does, and then there is one clause per filter, in request order. |
| `Repository.FilterClausesFirstError` | src/Traits/RepoTrait.php:104-107 | A failing request fails with the error of its first failing filter. |
| `Repository.FilterErrorPersists` | src/Traits/RepoTrait.php:104-107 | Once a prefix of the requested filters fails, later filters cannot change the error. |
| `Repository.FilterStepSucceeds` | src/Traits/RepoTrait.php:105-106 | One filter step succeeds exactly when the key is registered, its class exists, its data is an array and validates; it then adds the class's condition over that data. |
| `Query.Pattern` | src/Traits/RepoTrait.php:129 | The LIKE pattern is the term between two `%`: length of the term plus two. |
| `Query.PatternIsSubstringSearch` | src/Traits/RepoTrait.php:149 | For a term without wildcards, the pattern matches a value exactly when the value contains the term. |
| `Repository.Repo.SearchField` | src/Traits/RepoTrait.php:145-154 | Appends exactly one OR-group per search field, in table order, each a LIKE on that field with the term's pattern; orders untouched. |
| `Repository.Repo.SearchRelation` | src/Traits/RepoTrait.php:120-136 | Appends one `orWhereHas` per relation, in table order, each holding a group of OR-ed LIKEs over that relation's fields; the term is the request's `search-key`, not the argument. |
| `Repository.Repo.Searchs` | src/Traits/RepoTrait.php:162-176 | Conjoins one group: (field search group) OR (relation search group). |
| `Repository.Repo.CallFilter` | src/Traits/RepoTrait.php:184-190 | With `filters` present, the fresh filtered query (the given one discarded); otherwise the given query. |
| `Repository.Repo.Index` | src/Traits/RepoTrait.php:197-209 | A fresh query with the filters when `filters` is present, then the search group when `search-key` is truthy, then ordered by `created_at` ascending. |
| `SearchMeaning.FieldGroupsAt` | src/Traits/RepoTrait.php:147-151 | The field search has one group per field, the i-th for the i-th field. |
| `SearchMeaning.RelationLikesAt` | src/Traits/RepoTrait.php:128-130 | A relation's inner group has one LIKE per field, in order. |
| `SearchMeaning.RelationGroupsAt` | src/Traits/RepoTrait.php:125-133 | The relation search has one `orWhereHas` per relation, in order. |
| `SearchMeaning.LikeMeaning` | src/Traits/RepoTrait.php:149 | One search LIKE selects a record exactly when the field exists and contains the term. |
| `SearchMeaning.FieldSearchMeaning` | src/Traits/RepoTrait.php:145-154 | The field search selects a record exactly when some listed field contains the term. |
| `SearchMeaning.LikesMeaning` | src/Traits/RepoTrait.php:127-131 | A relation's inner group selects a related record exactly when one of the fields contains the term. |
| `SearchMeaning.RelationGroupMeaning` | src/Traits/RepoTrait.php:126-132 | One `orWhereHas` selects a record exactly when it has a related record matching the relation's fields (any related record when the relation lists no fields). |
| `SearchMeaning.RelationSearchMeaning` | src/Traits/RepoTrait.php:120-136 | The relation search selects a record exactly when one relation matches it. |
| `SearchMeaning.SearchGroupMeaning` | src/Traits/RepoTrait.php:162-176 | The search group selects a record exactly when the field search or the relation search matches it, and every record when both tables are empty. |
| `SearchMeaning.FilterWheresAreConjoined` | src/Traits/RepoTrait.php:98-111 | The filter clauses are all conjoined, and together select a record exactly when every requested filter's condition holds of it. |
| `SearchMeaning.EvalAppendAnd` | src/Traits/RepoTrait.php:167 | A clause appended with `where` adds one conjunct to what the query selects, a true one when the group is dropped. |
| `SearchMeaning.IndexMeaning` | src/Traits/RepoTrait.php:197-209 | The listing query selects a record exactly when every requested filter holds of it and, when `search-key` is truthy, the search matches it. |
| `Repository.DataSourceAsWritten` | src/Traits/RepoTrait.php:237-244 | As written, a request reaches hydration and an array is refused with a `TypeError`. |
| `Repository.ArrayDataRejectedAsWritten` | src/Traits/RepoTrait.php:241 | `store(['name' => 'x'])` cannot reach hydration as written. |
| `Repository.DataSource` | src/Traits/RepoTrait.php:237-244 | The input hydrated from: the request's input, or the array itself. |
| `Repository.Repo.GetDataAsWritten` | src/Traits/RepoTrait.php:237-244 | As written: no DTO class is an error; an array is a `TypeError`; a request gives a fresh DTO of the repository's class hydrated from its input. |
| `Repository.Repo.GetData` | src/Traits/RepoTrait.php:237-244 | A fresh DTO of the repository's class hydrated from the request's input or the array; an error when the repository has no DTO class. |
| `Repository.Entity.Create` | src/Traits/RepoTrait.php:256 | A created record holds exactly the given attributes. |
| `Repository.Entity.Update` | src/Traits/RepoTrait.php:268 | The given attributes overwrite, the others stay. |
| `Repository.Repo.StoreAsWritten` | src/Traits/RepoTrait.php:254-257 | As written: a `TypeError` for an array; for a request, a fresh record whose attributes are the DTO's full `toArray()`. |
| `Repository.Repo.Store` | src/Traits/RepoTrait.php:254-257 | With the corrected `getData`: a fresh record whose attributes are the DTO's full `toArray()`, every declared property, a default where the input supplies none, for a request or an array. |
| `Repository.Repo.UpdateAsWritten` | src/Traits/RepoTrait.php:266-270 | As written: a `TypeError` for an array, the record untouched; for a request, the same record, returned, with the DTO's full `toArray()` written over its attributes. |
| `Repository.Repo.Update` | src/Traits/RepoTrait.php:266-270 | With the corrected `getData`: the same record, returned, with the DTO's full `toArray()` written over its attributes, for a request or an array. |
| `Repository.UpdateOverwritesDeclared` | src/Traits/RepoTrait.php:268 | After `update`, a declared property holds the input's value or, when the input leaves it out, its default; undeclared attributes are unchanged. |

## Left out

- `relations`: the table is declared and stored, and no operation reads it.
- BaseDto.FromRequest: every declared property is taken to be assignable
  from `BaseDTO`; a private property of a subclass passes `property_exists`
  but writing it from `BaseDTO` raises an error, which is not modelled.
- BaseDto.Dto.ToArray: every declared property is listed; `get_object_vars`
  called from `BaseDTO` would leave out a subclass's private properties.
- Repository.Repo.Store, Repository.Repo.Update: they use the corrected
  `getData`, so an array is hydrated; the code as written refuses it, which
  `StoreAsWritten` and `UpdateAsWritten` state.
- The rule language of the validator: the validator is a parameter giving a
  verdict and messages from one key, its value and its rule.
- The HTTP response a validation failure throws: it is the error value
  `ValidationFailed` carrying the validator's messages per key.
- Each concrete filter's `apply`: it appends one AND-ed `Applied` clause;
  what that clause selects is a parameter of the evaluation semantics. A
  filter whose `apply` adds OR-ed or several clauses is not modelled.
- The database: LIKE is case-sensitive here and compares characters;
  collation, escapes and column types are not modelled. The meaning of the
  search is proved for terms without `%` or `_` only.
- `search-key` values that are arrays: they convert to `"Array"` and the
  warning PHP raises for that conversion is not modelled. Floats and objects
  are not among the modelled values, and integer array keys are written as
  strings.
- Request input is the list of `all()` entries; dot-notation keys of
  `input()` and `has()` are not modelled.
- Typed DTO properties: properties are untyped, so no type coercion and no
  uninitialized state.
- Static properties, and the mass-assignment guard of `create` and `update`.
- `__call`, `updateModel`, `search`, `searchRealation`, `applyScope`,
  `igonreScope`, `deleteMedia` and `getModelPath`: single calls into
  Eloquent, the file system or the class system.
- `ApiResponseService`, the console commands and the service provider:
  HTTP formatting, file generation and framework registration.
- The mixed namespaces across files.

## Findings

| source | as written | input that shows it | evidently intended | confidence | as-written member | corrected member |
|---|---|---|---|---|---|---|
| src/Traits/RepoTrait.php:241 | `getData` passes an array to `fromRequest`, whose parameter is typed `?Request`, so `store`/`update` with an array raise a `TypeError` | `store(['name' => 'x'])` | hydrate the DTO from the array's entries | high, not executed | `Repository.Repo.GetDataAsWritten` | `Repository.Repo.GetData` |
