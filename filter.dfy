/** Self-validating filters (src/Filters/Filter.php). A concrete filter class
    supplies its static rule table and its `apply`; constructing a filter
    validates every supplied key against that key's own rule, one key at a
    time, and aborts at the first failure. */
module Filters {
  import opened Php
  import opened Query

  /** A validation rule of the framework's rule language, left uninterpreted. */
  type Rule = string

  /** The framework's validator, as `validator([$key => $value], [$key => $rule])`
      sees it: a verdict and an error bag computed from one key, its value and
      its rule, and from nothing else. */
  datatype Validator = Validator(
    passes: (Rule, string, Value) -> bool,
    messages: (Rule, string, Value) -> seq<string>)

  /** A concrete filter class: its name, its static `rules()`, and the
      properties it declares besides `filterData`, with their values. */
  datatype FilterClass = FilterClass(name: string, rules: map<string, Rule>, declared: map<string, Value>)

  /** `validateKey`: the rule is read without a guard, so a key without a rule
      is an error; a failing verdict raises the validator's errors. */
  function ValidateKey(rules: map<string, Rule>, v: Validator, key: string, value: Value): (r: Result<bool>)
    ensures r.Ok? <==> key in rules && v.passes(rules[key], key, value)
    ensures r.Ok? ==> r.value
    ensures key !in rules ==> r == Err(UndefinedArrayKey(key))
    ensures key in rules && !v.passes(rules[key], key, value) ==>
      r == Err(ValidationFailed(map[key := v.messages(rules[key], key, value)]))
  {
    if key !in rules then Err(UndefinedArrayKey(key))
    else if !v.passes(rules[key], key, value) then
      Err(ValidationFailed(map[key := v.messages(rules[key], key, value)]))
    else Ok(true)
  }

  /** What `validate` does with `filterData`: check the keys in order and stop at the first error. */
  function Validation(rules: map<string, Rule>, v: Validator, data: Entries): Outcome
  {
    if data == [] then Pass
    else match ValidateKey(rules, v, data[0].0, data[0].1)
      case Err(e) => Fail(e)
      case Ok(_) => Validation(rules, v, data[1..])
  }

  /** Every key passes exactly when validation passes; empty data always passes. */
  lemma {:induction false} ValidationPassesIffEveryKeyPasses(rules: map<string, Rule>, v: Validator, data: Entries)
    ensures Validation(rules, v, data) == Pass <==>
      forall i :: 0 <= i < |data| ==> ValidateKey(rules, v, data[i].0, data[i].1).Ok?
  {
    if data != [] {
      ValidationPassesIffEveryKeyPasses(rules, v, data[1..]);
      assert forall i :: 0 <= i < |data[1..]| ==> data[1..][i] == data[i + 1];
    }
  }

  /** A failure is the error of the first failing key; later keys are not looked at. */
  lemma {:induction false} ValidationStopsAtFirstFailure(rules: map<string, Rule>, v: Validator, data: Entries, i: nat)
    requires i < |data|
    requires forall j :: 0 <= j < i ==> ValidateKey(rules, v, data[j].0, data[j].1).Ok?
    requires ValidateKey(rules, v, data[i].0, data[i].1).Err?
    ensures Validation(rules, v, data) == Fail(ValidateKey(rules, v, data[i].0, data[i].1).error)
  {
    if i > 0 {
      assert ValidateKey(rules, v, data[0].0, data[0].1).Ok?;
      ValidationStopsAtFirstFailure(rules, v, data[1..], i - 1);
    }
  }

  /** Validation of a concatenation: the second part is only checked when the first passes. */
  lemma {:induction false} ValidationOfConcat(rules: map<string, Rule>, v: Validator, a: Entries, b: Entries)
    ensures Validation(rules, v, a + b) ==
      if Validation(rules, v, a).Fail? then Validation(rules, v, a) else Validation(rules, v, b)
  {
    if a != [] {
      assert (a + b)[0] == a[0] && (a + b)[1..] == a[1..] + b;
      ValidationOfConcat(rules, v, a[1..], b);
    } else {
      assert a + b == b;
    }
  }

  class Filter {
    const cls: FilterClass
    var filterData: Entries
    var props: map<string, Value>

    /** The promoted constructor parameter: stores `filterData`. */
    constructor Init(cls: FilterClass, filterData: Entries)
      ensures this.cls == cls && this.filterData == filterData && props == cls.declared
    {
      this.cls := cls;
      this.filterData := filterData;
      props := cls.declared;
    }

    /** `validate`: the loop over `filterData`, aborting at the first failing key. */
    method Validate(v: Validator) returns (r: Outcome)
      ensures r == Validation(cls.rules, v, filterData)
      ensures r.Pass? <==> forall i :: 0 <= i < |filterData| ==>
        ValidateKey(cls.rules, v, filterData[i].0, filterData[i].1).Ok?
    {
      ValidationPassesIffEveryKeyPasses(cls.rules, v, filterData);
      var i := 0;
      while i < |filterData|
        invariant 0 <= i <= |filterData|
        invariant Validation(cls.rules, v, filterData) == Validation(cls.rules, v, filterData[i..])
      {
        var (key, value) := filterData[i];
        assert filterData[i..][0] == (key, value) && filterData[i..][1..] == filterData[i + 1..];
        var ok := ValidateKey(cls.rules, v, key, value);
        if ok.Err? {
          return Fail(ok.error);
        }
        i := i + 1;
      }
      return Pass;
    }

    /** `__get`: a declared property gives its value; any other name is read
        from `filterData`, where a missing key is an error. */
    function Get(key: string): (r: Result<Value>)
      reads this
      ensures key == "filterData" ==> r == Ok(Arr(filterData))
      ensures key != "filterData" && key in props ==> r == Ok(props[key])
      ensures key != "filterData" && key !in props ==>
        (r.Ok? <==> exists i :: 0 <= i < |filterData| && filterData[i].0 == key)
      ensures key != "filterData" && key !in props && r.Ok? ==> r.value == AsMap(filterData)[key]
      ensures key != "filterData" && key !in props && r.Err? ==> r.error == UndefinedArrayKey(key)
    {
      if key == "filterData" then Ok(Arr(filterData))
      else if key in props then Ok(props[key])
      else if key in AsMap(filterData) then Ok(AsMap(filterData)[key])
      else Err(UndefinedArrayKey(key))
    }

    /** `apply`: the filter's condition joins the query, by conjunction. */
    method Apply(q: Builder)
      modifies q
      ensures q.wheres == old(q.wheres) + [Applied(cls.name, filterData)]
      ensures q.orders == old(q.orders)
    {
      q.AddWhere(Applied(cls.name, filterData));
    }
  }

  /** What PHP raises when the constructor's `array $filterData` receives anything else. */
  const FilterDataNotArray: Error :=
    TypeError("Filter::__construct(): Argument #1 ($filterData) must be of type array")

  /** `new $class($filterData)`: the parameter is typed `array`; the instance
      stores the data, then validates it, and only a valid filter is returned. */
  method NewFilter(cls: FilterClass, data: Value, v: Validator) returns (r: Result<Filter>)
    ensures !data.Arr? ==> r == Err(FilterDataNotArray)
    ensures data.Arr? ==> (r.Ok? <==> Validation(cls.rules, v, data.entries) == Pass)
    ensures data.Arr? && r.Err? ==> Fail(r.error) == Validation(cls.rules, v, data.entries)
    ensures r.Ok? ==> fresh(r.value) && r.value.cls == cls
    ensures r.Ok? ==> r.value.filterData == data.entries && r.value.props == cls.declared
  {
    if !data.Arr? {
      return Err(FilterDataNotArray);
    }
    var f := new Filter.Init(cls, data.entries);
    var outcome := f.Validate(v);
    if outcome.Fail? {
      return Err(outcome.error);
    }
    return Ok(f);
  }
}
