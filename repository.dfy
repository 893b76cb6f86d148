/** The repository (src/Repositories/BaseRepo.php with the operations of
    src/Traits/RepoTrait.php): dynamic filtering, free-text search over
    fields and relations, the listing query, and DTO-driven create/update.
    The clause lists each operation builds are given by the functions of the
    first half; the class's methods are proved to build exactly those. */
module Repository {
  import opened Php
  import opened Query
  import opened BaseDto
  import opened Filters
  import FilterFactory

  /** What the code reaches through the framework's global helpers:
      `request()`, `class_exists()` and `validator()`. */
  datatype Env = Env(request: Request, classes: map<string, FilterClass>, validator: Validator)

  /** `request()->has($key)`: the key is present, whatever its value. */
  predicate HasInput(req: Request, key: string)
  {
    key in KeysOf(req.all)
  }

  /** `request()->input($key)`: the key's value, null when absent. */
  function Input(req: Request, key: string): Value
  {
    if key in AsMap(req.all) then AsMap(req.all)[key] else Null
  }

  /** The term both searches use: the request's `search-key`, as `.` converts it. */
  function SearchTerm(req: Request): string
  {
    Stringify(Input(req, "search-key"))
  }

  /** A relation name with the fields searched on its related records, in table order. */
  type RelationTable = seq<(string, seq<string>)>

  // ---------------------------------------------------------------------
  // The clauses each operation appends.

  /** What one `searchFileds` entry adds: an OR-group holding one LIKE. */
  function FieldGroup(field: string, term: string): Clause
  {
    Nested(Or, [Like(Or, field, Pattern(term))])
  }

  function FieldGroups(fields: seq<string>, term: string): seq<Clause>
  {
    if fields == [] then []
    else FieldGroups(fields[..|fields| - 1], term) + [FieldGroup(fields[|fields| - 1], term)]
  }

  function RelationLikes(fields: seq<string>, term: string): seq<Clause>
  {
    if fields == [] then []
    else RelationLikes(fields[..|fields| - 1], term) + [Like(Or, fields[|fields| - 1], Pattern(term))]
  }

  /** What one `realationFileds` entry adds: `orWhereHas` whose inner group ORs a LIKE per field. */
  function RelationGroup(relation: string, fields: seq<string>, term: string): Clause
  {
    Has(Or, relation, [Nested(And, RelationLikes(fields, term))])
  }

  function RelationGroups(relations: RelationTable, term: string): seq<Clause>
  {
    if relations == [] then []
    else
      var last := relations[|relations| - 1];
      RelationGroups(relations[..|relations| - 1], term) + [RelationGroup(last.0, last.1, term)]
  }

  /** What `searchs` adds: (field search) OR (relation search), as one conjoined group. */
  function SearchGroup(fields: seq<string>, relations: RelationTable, term: string): Clause
  {
    Nested(And, [Nested(And, FieldGroups(fields, term)), Nested(Or, RelationGroups(relations, term))])
  }

  /** One iteration of `filter`'s loop: resolve, construct (validating), apply. */
  function FilterStep(registry: map<string, string>, classes: map<string, FilterClass>, v: Validator,
                      key: string, value: Value): Result<Clause>
  {
    match FilterFactory.Resolve(registry, classes, key)
    case Err(e) => Err(e)
    case Ok(None) => Err(MethodCallOnNull("apply"))
    case Ok(Some(cls)) =>
      if !value.Arr? then Err(FilterDataNotArray)
      else match Validation(cls.rules, v, value.entries)
        case Fail(e) => Err(e)
        case Pass => Ok(Applied(cls.name, value.entries))
  }

  /** `filter`'s loop over the requested filters, in order, stopping at the first error. */
  function FilterClauses(registry: map<string, string>, classes: map<string, FilterClass>, v: Validator,
                         es: Entries): Result<seq<Clause>>
  {
    if es == [] then Ok([])
    else match FilterClauses(registry, classes, v, es[..|es| - 1])
      case Err(e) => Err(e)
      case Ok(cs) =>
        match FilterStep(registry, classes, v, es[|es| - 1].0, es[|es| - 1].1)
        case Err(e) => Err(e)
        case Ok(c) => Ok(cs + [c])
  }

  /** The WHERE clauses `filter($filters)` builds; `foreach` needs an array. */
  function FilterWheres(registry: map<string, string>, classes: map<string, FilterClass>, v: Validator,
                        filters: Value): Result<seq<Clause>>
  {
    if !filters.Arr? then Err(ForeachOverNonArray) else FilterClauses(registry, classes, v, filters.entries)
  }

  /** The WHERE clauses of `index()`: the filters when the request has
      `filters`, then the search group when its `search-key` is truthy. */
  function IndexWheres(registry: map<string, string>, fields: seq<string>, relations: RelationTable,
                       env: Env): Result<seq<Clause>>
  {
    var base := if HasInput(env.request, "filters")
      then FilterWheres(registry, env.classes, env.validator, Input(env.request, "filters"))
      else Ok([]);
    match base
    case Err(e) => Err(e)
    case Ok(ws) =>
      if Truthy(Input(env.request, "search-key"))
      then Ok(ws + [SearchGroup(fields, relations, SearchTerm(env.request))])
      else Ok(ws)
  }

  // ---------------------------------------------------------------------
  // Where the DTO's data comes from.

  /** `getData`'s argument: a request or a plain array. */
  datatype Data = RequestData(request: Request) | ArrayData(entries: Entries)

  /** What `fromRequest(?Request $request)` receives from `getData` as written:
      a request binds; an array is refused by the parameter's type. */
  function DataSourceAsWritten(data: Data): (r: Result<Request>)
    ensures data.RequestData? ==> r == Ok(data.request)
    ensures data.ArrayData? ==> r.Err? && r.error.TypeError?
  {
    match data
    case RequestData(req) => Ok(req)
    case ArrayData(_) =>
      Err(TypeError("BaseDTO::fromRequest(): Argument #1 ($request) must be of type ?Request, array given"))
  }

  /** `store(['name' => 'x'])` cannot reach hydration as written. */
  lemma ArrayDataRejectedAsWritten()
    ensures DataSourceAsWritten(ArrayData([("name", Str("x"))])).Err?
  {
  }

  /** The input hydration reads: a request's `all()`, or the array itself. */
  function DataSource(data: Data): (r: Request)
    ensures data.ArrayData? ==> r.all == data.entries
    ensures data.RequestData? ==> r == data.request
  {
    match data
    case RequestData(req) => req
    case ArrayData(es) => Request(es)
  }

  /** A persisted record, reduced to its attributes. */
  class Entity {
    var attributes: map<string, Value>

    /** `create($attributes)`: a new record holding exactly the given attributes. */
    constructor Create(attributes: map<string, Value>)
      ensures this.attributes == attributes
    {
      this.attributes := attributes;
    }

    /** `update($attributes)`: the given attributes overwrite, the others stay. */
    method Update(attrs: map<string, Value>)
      modifies this
      ensures attributes == old(attributes) + attrs
    {
      attributes := attributes + attrs;
    }
  }

  // ---------------------------------------------------------------------
  // The repository object.

  class Repo {
    /** The DTO class given to the constructor (`objectDataClass`), if any. */
    const dtoClass: Option<Shape>
    /** Filter key to filter class path. */
    const filtersKeys: map<string, string>
    /** Plain fields searched for the term, in order. */
    const searchFields: seq<string>
    /** Declared, and read by no operation. */
    const relations: seq<Value>
    /** Relation name to the fields searched within it, in order. */
    const relationFields: RelationTable

    /** A bare `BaseRepo`: every table is empty. */
    constructor Base(dtoClass: Option<Shape>)
      ensures this.dtoClass == dtoClass
      ensures filtersKeys == map[] && searchFields == [] && relations == [] && relationFields == []
    {
      this.dtoClass := dtoClass;
      filtersKeys, searchFields, relations, relationFields := map[], [], [], [];
    }

    /** A subclass that overrides the four tables. */
    constructor (dtoClass: Option<Shape>, filtersKeys: map<string, string>, searchFields: seq<string>,
                 relations: seq<Value>, relationFields: RelationTable)
      ensures this.dtoClass == dtoClass && this.filtersKeys == filtersKeys
      ensures this.searchFields == searchFields && this.relations == relations
      ensures this.relationFields == relationFields
    {
      this.dtoClass := dtoClass;
      this.filtersKeys, this.searchFields := filtersKeys, searchFields;
      this.relations, this.relationFields := relations, relationFields;
    }

    /** `createFilterFactory`: an instance only when the key is registered and
        its path names a loadable class; null when the path does not. */
    method CreateFilterFactory(filterKey: string, filterData: Value, env: Env) returns (r: Result<Option<Filter>>)
      ensures filterKey !in filtersKeys ==> r == Err(UndefinedArrayKey(filterKey))
      ensures filterKey in filtersKeys ==> (r == Ok(None) <==> filtersKeys[filterKey] !in env.classes)
      ensures r.Err? ==> FilterStep(filtersKeys, env.classes, env.validator, filterKey, filterData) == Err(r.error)
      ensures r.Ok? && r.value.None? ==>
        FilterStep(filtersKeys, env.classes, env.validator, filterKey, filterData) == Err(MethodCallOnNull("apply"))
      ensures r.Ok? && r.value.Some? ==> fresh(r.value.value)
      ensures r.Ok? && r.value.Some? ==>
        filterKey in filtersKeys && filtersKeys[filterKey] in env.classes && filterData.Arr? &&
        r.value.value.cls == env.classes[filtersKeys[filterKey]] &&
        r.value.value.filterData == filterData.entries && r.value.value.props == r.value.value.cls.declared
      ensures r.Ok? && r.value.Some? ==>
        FilterStep(filtersKeys, env.classes, env.validator, filterKey, filterData)
          == Ok(Applied(r.value.value.cls.name, r.value.value.filterData))
    {
      var resolved := FilterFactory.Resolve(filtersKeys, env.classes, filterKey);
      if resolved.Err? {
        return Err(resolved.error);
      }
      if resolved.value.None? {
        return Ok(None);
      }
      var made := NewFilter(resolved.value.value, filterData, env.validator);
      if made.Err? {
        return Err(made.error);
      }
      return Ok(Some(made.value));
    }

    /** `filter`: a fresh query with the requested filters applied to it, in order. */
    method Filter(filters: Value, env: Env) returns (r: Result<Builder>)
      ensures r.Ok? <==> FilterWheres(filtersKeys, env.classes, env.validator, filters).Ok?
      ensures r.Ok? ==> fresh(r.value) && r.value.orders == []
      ensures r.Ok? ==> r.value.wheres == FilterWheres(filtersKeys, env.classes, env.validator, filters).value
      ensures r.Err? ==> r.error == FilterWheres(filtersKeys, env.classes, env.validator, filters).error
    {
      var q := new Builder();
      if !filters.Arr? {
        return Err(ForeachOverNonArray);
      }
      var es := filters.entries;
      var i := 0;
      while i < |es|
        invariant 0 <= i <= |es|
        invariant fresh(q) && q.orders == []
        invariant FilterClauses(filtersKeys, env.classes, env.validator, es[..i]) == Ok(q.wheres)
      {
        assert es[..i + 1][..i] == es[..i];
        var (key, value) := es[i];
        var made := CreateFilterFactory(key, value, env);
        if made.Err? {
          FilterErrorPersists(filtersKeys, env.classes, env.validator, es[..i + 1], es);
          return Err(made.error);
        }
        if made.value.None? {
          FilterErrorPersists(filtersKeys, env.classes, env.validator, es[..i + 1], es);
          return Err(MethodCallOnNull("apply"));
        }
        made.value.value.Apply(q);
        i := i + 1;
      }
      assert es[..i] == es;
      return Ok(q);
    }

    /** `searchField`: one OR-group per search field, in table order. */
    method SearchField(input: Value, q: Builder) returns (r: Builder)
      modifies q
      ensures r == q && q.orders == old(q.orders)
      ensures q.wheres == old(q.wheres) + FieldGroups(searchFields, Stringify(input))
    {
      var term := Stringify(input);
      var i := 0;
      while i < |searchFields|
        invariant 0 <= i <= |searchFields|
        invariant q.orders == old(q.orders)
        invariant q.wheres == old(q.wheres) + FieldGroups(searchFields[..i], term)
      {
        assert searchFields[..i + 1][..i] == searchFields[..i];
        var sub := new Builder();
        sub.AddWhere(Like(Or, searchFields[i], Pattern(term)));
        assert sub.wheres == [Like(Or, searchFields[i], Pattern(term))];
        q.AddWhere(Nested(Or, sub.wheres));
        assert FieldGroups(searchFields[..i + 1], term) == FieldGroups(searchFields[..i], term) + [FieldGroup(searchFields[i], term)];
        i := i + 1;
      }
      assert searchFields[..i] == searchFields;
      return q;
    }

    /** `searchRelation`: one `orWhereHas` per relation, in table order. The
        term is the request's `search-key`; the `input` argument is unused. */
    method SearchRelation(input: Value, q: Builder, env: Env) returns (r: Builder)
      modifies q
      ensures r == q && q.orders == old(q.orders)
      ensures q.wheres == old(q.wheres) + RelationGroups(relationFields, SearchTerm(env.request))
    {
      var term := Stringify(Input(env.request, "search-key"));
      var i := 0;
      while i < |relationFields|
        invariant 0 <= i <= |relationFields|
        invariant q.orders == old(q.orders)
        invariant q.wheres == old(q.wheres) + RelationGroups(relationFields[..i], term)
      {
        assert relationFields[..i + 1][..i] == relationFields[..i];
        var (relation, fields) := relationFields[i];
        var sub := new Builder();
        var subSub := new Builder();
        var j := 0;
        while j < |fields|
          invariant 0 <= j <= |fields|
          invariant subSub.wheres == RelationLikes(fields[..j], term)
          modifies subSub
        {
          assert fields[..j + 1][..j] == fields[..j];
          subSub.AddWhere(Like(Or, fields[j], Pattern(term)));
          j := j + 1;
        }
        assert fields[..j] == fields;
        sub.AddWhere(Nested(And, subSub.wheres));
        assert sub.wheres == [Nested(And, RelationLikes(fields, term))];
        q.AddWhere(Has(Or, relation, sub.wheres));
        assert RelationGroups(relationFields[..i + 1], term)
          == RelationGroups(relationFields[..i], term) + [RelationGroup(relation, fields, term)];
        i := i + 1;
      }
      assert relationFields[..i] == relationFields;
      return q;
    }

    /** `searchs`: conjoins (field search) OR (relation search) onto the query. */
    method Searchs(q: Builder, env: Env) returns (r: Builder)
      modifies q
      ensures r == q && q.orders == old(q.orders)
      ensures q.wheres == old(q.wheres) + [SearchGroup(searchFields, relationFields, SearchTerm(env.request))]
    {
      var input := Input(env.request, "search-key");
      var subQuery := new Builder();
      var fieldQuery := new Builder();
      fieldQuery := SearchField(input, fieldQuery);
      assert fieldQuery.wheres == FieldGroups(searchFields, Stringify(input));
      subQuery.AddWhere(Nested(And, fieldQuery.wheres));
      var relationQuery := new Builder();
      relationQuery := SearchRelation(input, relationQuery, env);
      assert relationQuery.wheres == RelationGroups(relationFields, SearchTerm(env.request));
      subQuery.AddWhere(Nested(Or, relationQuery.wheres));
      assert subQuery.wheres == [Nested(And, FieldGroups(searchFields, Stringify(input))),
                                 Nested(Or, RelationGroups(relationFields, SearchTerm(env.request)))];
      q.AddWhere(Nested(And, subQuery.wheres));
      return q;
    }

    /** `callFilter`: the filtered fresh query when the request has `filters`,
        otherwise the query it was given. */
    method CallFilter(q: Builder, env: Env) returns (r: Result<Builder>)
      ensures !HasInput(env.request, "filters") ==> r == Ok(q)
      ensures HasInput(env.request, "filters") ==>
        var w := FilterWheres(filtersKeys, env.classes, env.validator, Input(env.request, "filters"));
        (r.Ok? <==> w.Ok?) && (r.Err? ==> r.error == w.error)
          && (r.Ok? ==> fresh(r.value) && r.value.wheres == w.value && r.value.orders == [])
    {
      if HasInput(env.request, "filters") {
        r := Filter(Input(env.request, "filters"), env);
        return;
      }
      return Ok(q);
    }

    /** `index`: filter, then search, then order by creation time, ascending. */
    method Index(env: Env) returns (r: Result<Builder>)
      ensures r.Ok? <==> IndexWheres(filtersKeys, searchFields, relationFields, env).Ok?
      ensures r.Err? ==> r.error == IndexWheres(filtersKeys, searchFields, relationFields, env).error
      ensures r.Ok? ==> fresh(r.value) && r.value.orders == [Order("created_at", Asc)]
      ensures r.Ok? ==> r.value.wheres == IndexWheres(filtersKeys, searchFields, relationFields, env).value
    {
      var query := new Builder();
      if HasInput(env.request, "filters") {
        var filtered := CallFilter(query, env);
        if filtered.Err? {
          return Err(filtered.error);
        }
        query := filtered.value;
      }
      if Truthy(Input(env.request, "search-key")) {
        query := Searchs(query, env);
      }
      query.OrderBy("created_at", Asc);
      return Ok(query);
    }

    /** `getData` as written: an array argument reaches `fromRequest(?Request)` and is refused. */
    method GetDataAsWritten(data: Data) returns (r: Result<Dto>)
      ensures dtoClass.None? ==> r == Err(NoDtoClass)
      ensures dtoClass.Some? && data.ArrayData? ==> r.Err? && r.error.TypeError?
      ensures dtoClass.Some? && data.RequestData? ==>
        r.Ok? && fresh(r.value) && r.value.Valid() && r.value.shape == dtoClass.value
      ensures dtoClass.Some? && data.RequestData? ==> r.value.props == Hydrated(dtoClass.value, data.request.all)
    {
      if dtoClass.None? {
        return Err(NoDtoClass);
      }
      var source := DataSourceAsWritten(data);
      if source.Err? {
        return Err(source.error);
      }
      r := FromRequest(dtoClass.value, Some(source.value), []);
    }

    /** `getData`, taking an array as the input to hydrate from, as its signature intends. */
    method GetData(data: Data) returns (r: Result<Dto>)
      ensures dtoClass.None? ==> r == Err(NoDtoClass)
      ensures dtoClass.Some? ==> r.Ok? && fresh(r.value) && r.value.Valid() && r.value.shape == dtoClass.value
      ensures dtoClass.Some? ==> r.value.props == Hydrated(dtoClass.value, DataSource(data).all)
    {
      if dtoClass.None? {
        return Err(NoDtoClass);
      }
      r := FromRequest(dtoClass.value, Some(DataSource(data)), []);
    }

    /** `store` as written: a new record from the DTO's full `toArray()`;
        an array argument is refused by `getData` before anything is created. */
    method StoreAsWritten(data: Data) returns (r: Result<Entity>)
      ensures dtoClass.None? ==> r == Err(NoDtoClass)
      ensures dtoClass.Some? && data.ArrayData? ==> r.Err? && r.error.TypeError?
      ensures dtoClass.Some? && data.RequestData? ==> r.Ok? && fresh(r.value)
      ensures dtoClass.Some? && data.RequestData? ==>
        r.value.attributes == Hydrated(dtoClass.value, data.request.all)
    {
      var dto := GetDataAsWritten(data);
      if dto.Err? {
        return Err(dto.error);
      }
      var created := new Entity.Create(dto.value.ToArray());
      return Ok(created);
    }

    /** `update` as written: the DTO's full `toArray()` onto the given record;
        an array argument is refused by `getData` and the record is untouched. */
    method UpdateAsWritten(data: Data, model: Entity) returns (r: Result<Entity>)
      modifies model
      ensures dtoClass.None? ==> r == Err(NoDtoClass)
      ensures dtoClass.Some? && data.ArrayData? ==> r.Err? && r.error.TypeError?
      ensures r.Err? ==> model.attributes == old(model.attributes)
      ensures dtoClass.Some? && data.RequestData? ==> r == Ok(model)
      ensures dtoClass.Some? && data.RequestData? ==>
        model.attributes == old(model.attributes) + Hydrated(dtoClass.value, data.request.all)
    {
      var dto := GetDataAsWritten(data);
      if dto.Err? {
        return Err(dto.error);
      }
      model.Update(dto.value.ToArray());
      return Ok(model);
    }

    /** `store` with the corrected `getData`: a new record from the DTO's
        full `toArray()`, defaults included, for a request or an array. */
    method Store(data: Data) returns (r: Result<Entity>)
      ensures dtoClass.None? ==> r == Err(NoDtoClass)
      ensures dtoClass.Some? ==> r.Ok? && fresh(r.value)
      ensures dtoClass.Some? ==> r.value.attributes == Hydrated(dtoClass.value, DataSource(data).all)
    {
      var dto := GetData(data);
      if dto.Err? {
        return Err(dto.error);
      }
      var created := new Entity.Create(dto.value.ToArray());
      return Ok(created);
    }

    /** `update` with the corrected `getData`: the DTO's full `toArray()`,
        nulls and defaults included, is written onto the given record, which
        is returned. */
    method Update(data: Data, model: Entity) returns (r: Result<Entity>)
      modifies model
      ensures dtoClass.None? ==> r == Err(NoDtoClass) && model.attributes == old(model.attributes)
      ensures dtoClass.Some? ==> r == Ok(model)
      ensures dtoClass.Some? ==> model.attributes == old(model.attributes) + Hydrated(dtoClass.value, DataSource(data).all)
    {
      var dto := GetData(data);
      if dto.Err? {
        return Err(dto.error);
      }
      model.Update(dto.value.ToArray());
      return Ok(model);
    }
  }

  /** What `update` does to a record: every declared property is written,
      a property the input leaves out going back to the DTO's default, and
      attributes the DTO does not declare are left as they were. */
  lemma UpdateOverwritesDeclared(before: map<string, Value>, shape: Shape, input: Entries, k: string)
    ensures k in shape ==> k in before + Hydrated(shape, input)
    ensures k in shape && k in AsMap(input) ==> (before + Hydrated(shape, input))[k] == AsMap(input)[k]
    ensures k in shape && k !in AsMap(input) ==> (before + Hydrated(shape, input))[k] == shape[k]
    ensures k !in shape ==> (k in before + Hydrated(shape, input) <==> k in before)
    ensures k !in shape && k in before ==> (before + Hydrated(shape, input))[k] == before[k]
  {
    if k in shape {
      HydratedValues(shape, input, k);
    }
  }

  // ---------------------------------------------------------------------
  // Properties of the filter loop.

  /** Once a prefix of the requested filters fails, the whole request fails with that error. */
  lemma {:induction false} FilterErrorPersists(registry: map<string, string>, classes: map<string, FilterClass>,
                                             v: Validator, p: Entries, es: Entries)
    requires p <= es
    requires FilterClauses(registry, classes, v, p).Err?
    ensures FilterClauses(registry, classes, v, es) == FilterClauses(registry, classes, v, p)
  {
    if |es| > |p| {
      assert p <= es[..|es| - 1];
      FilterErrorPersists(registry, classes, v, p, es[..|es| - 1]);
    } else {
      assert p == es;
    }
  }

  /** The filters succeed exactly when every requested filter does; then
      there is one clause per filter, in request order. */
  lemma {:induction false} FilterClausesAllSucceed(registry: map<string, string>, classes: map<string, FilterClass>,
                                                 v: Validator, es: Entries)
    ensures FilterClauses(registry, classes, v, es).Ok? <==>
      forall i :: 0 <= i < |es| ==> FilterStep(registry, classes, v, es[i].0, es[i].1).Ok?
    ensures FilterClauses(registry, classes, v, es).Ok? ==>
      |FilterClauses(registry, classes, v, es).value| == |es| &&
      forall i :: 0 <= i < |es| ==>
        FilterClauses(registry, classes, v, es).value[i] == FilterStep(registry, classes, v, es[i].0, es[i].1).value
  {
    if es != [] {
      var init := es[..|es| - 1];
      FilterClausesAllSucceed(registry, classes, v, init);
      assert forall i :: 0 <= i < |init| ==> init[i] == es[i];
    }
  }

  /** A failing request fails with the error of its first failing filter. */
  lemma {:induction false} FilterClausesFirstError(registry: map<string, string>, classes: map<string, FilterClass>,
                                                 v: Validator, es: Entries, i: nat)
    requires i < |es|
    requires forall j :: 0 <= j < i ==> FilterStep(registry, classes, v, es[j].0, es[j].1).Ok?
    requires FilterStep(registry, classes, v, es[i].0, es[i].1).Err?
    ensures FilterClauses(registry, classes, v, es) == Err(FilterStep(registry, classes, v, es[i].0, es[i].1).error)
  {
    var p := es[..i];
    FilterClausesAllSucceed(registry, classes, v, p);
    assert forall j :: 0 <= j < i ==> p[j] == es[j];
    assert es[..i + 1][..i] == p;
    FilterErrorPersists(registry, classes, v, es[..i + 1], es);
  }

  /** A successful filter step is the registered class's condition over the given data. */
  lemma FilterStepSucceeds(registry: map<string, string>, classes: map<string, FilterClass>, v: Validator,
                           key: string, value: Value)
    ensures FilterStep(registry, classes, v, key, value).Ok? <==>
      key in registry && registry[key] in classes && value.Arr?
        && Validation(classes[registry[key]].rules, v, value.entries) == Pass
    ensures FilterStep(registry, classes, v, key, value).Ok? ==>
      FilterStep(registry, classes, v, key, value).value == Applied(classes[registry[key]].name, value.entries)
  {
  }

  /** A bare `BaseRepo` resolves no filter, and its search group holds no
      condition, so the framework drops it and a search excludes no record. */
  lemma BareRepoDefaults(classes: map<string, FilterClass>, v: Validator, es: Entries, term: string)
    ensures es != [] ==> FilterClauses(map[], classes, v, es) == Err(UndefinedArrayKey(es[0].0))
    ensures EmptyGroup(SearchGroup([], [], term))
  {
    if es != [] {
      FilterClausesFirstError(map[], classes, v, es, 0);
    }
  }
}
