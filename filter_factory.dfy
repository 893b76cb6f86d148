/** Filter resolution (src/Filters/FilterFactory.php): a filter key is looked
    up in the model's registry of class paths, and the class is instantiated
    when the path names a loadable class. */
module FilterFactory {
  import opened Php
  import opened Filters

  /** The registry lookup and `class_exists` check. Reading an unregistered
      key is an error; a path that names no loadable class gives no class. */
  function Resolve(registry: map<string, string>, classes: map<string, FilterClass>, key: string)
    : (r: Result<Option<FilterClass>>)
    ensures key !in registry <==> r == Err(UndefinedArrayKey(key))
    ensures key in registry ==> r.Ok?
    ensures r.Ok? ==> (r.value.Some? <==> registry[key] in classes)
    ensures r.Ok? && r.value.Some? ==> r.value.value == classes[registry[key]]
  {
    if key !in registry then Err(UndefinedArrayKey(key))
    else if registry[key] in classes then Ok(Some(classes[registry[key]]))
    else Ok(None)
  }

  /** `FilterFactory::create`: a fresh, validated instance of the registered
      class. The function is declared to return a Filter, so falling off its
      end when the class does not exist is a TypeError. */
  method Create(filterKey: string, filterData: Value, registry: map<string, string>,
                classes: map<string, FilterClass>, v: Validator) returns (r: Result<Filter>)
    ensures filterKey !in registry ==> r == Err(UndefinedArrayKey(filterKey))
    ensures filterKey in registry && registry[filterKey] !in classes ==> r.Err? && r.error.TypeError?
    ensures filterKey in registry && registry[filterKey] in classes && filterData.Arr? ==>
      (r.Ok? <==> Validation(classes[registry[filterKey]].rules, v, filterData.entries) == Pass)
    ensures filterKey in registry && registry[filterKey] in classes && !filterData.Arr? ==>
      r == Err(FilterDataNotArray)
    ensures filterKey in registry && registry[filterKey] in classes && filterData.Arr? && r.Err? ==>
      Fail(r.error) == Validation(classes[registry[filterKey]].rules, v, filterData.entries)
    ensures r.Ok? ==> fresh(r.value) && filterKey in registry && registry[filterKey] in classes
    ensures r.Ok? ==> r.value.cls == classes[registry[filterKey]] && Arr(r.value.filterData) == filterData
    ensures r.Ok? ==> r.value.props == classes[registry[filterKey]].declared
  {
    var resolved := Resolve(registry, classes, filterKey);
    if resolved.Err? {
      return Err(resolved.error);
    }
    if resolved.value.None? {
      return Err(TypeError("FilterFactory::create(): Return value must be of type Filter, none returned"));
    }
    r := NewFilter(resolved.value.value, filterData, v);
  }
}
