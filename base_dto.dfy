/** Data-transfer objects (src/DTOs/BaseDTO.php): a DTO class is the set of
    properties it declares, each with its default value; hydration copies
    onto a fresh instance only the input keys the class declares. */
module BaseDto {
  import opened Php

  /** A DTO class: its declared properties with the values `new static()` gives them. */
  type Shape = map<string, Value>

  /** An incoming request; `all()` gives its input, in order. */
  datatype Request = Request(all: Entries)

  class Dto {
    const shape: Shape
    var props: map<string, Value>

    /** Every declared property, and nothing else, is present. */
    ghost predicate Valid()
      reads this
    {
      props.Keys == shape.Keys
    }

    /** `new static()`: every property holds its default. */
    constructor (shape: Shape)
      ensures this.shape == shape && props == shape && Valid()
    {
      this.shape := shape;
      props := shape;
    }

    /** The extension hook run after the assignment loop; the base class's does nothing. */
    method HandleAdditionalParams(request: Request, params: seq<Value>)
      modifies this
      ensures props == old(props)
    {
    }

    /** `get_object_vars($this)`: every declared property with its current value. */
    function ToArray(): (r: map<string, Value>)
      reads this
      requires Valid()
      ensures r.Keys == shape.Keys
      ensures forall k :: k in r ==> r[k] == props[k]
    {
      props
    }
  }

  /** The state the assignment loop leaves after visiting `input`: a declared
      key takes the input's value, an undeclared one is skipped. */
  function Hydrated(shape: Shape, input: Entries): (m: map<string, Value>)
    ensures m.Keys == shape.Keys
  {
    if input == [] then shape
    else
      var m := Hydrated(shape, input[..|input| - 1]);
      var (k, v) := input[|input| - 1];
      if k in m then m[k := v] else m
  }

  /** The declared properties, each overridden by the input when it supplies that key. */
  function Merge(shape: Shape, input: map<string, Value>): (m: map<string, Value>)
  {
    map k | k in shape :: if k in input then input[k] else shape[k]
  }

  /** `fromRequest(?Request $request, ...$params)`: a fresh instance, the
      assignment loop, then the hook. A null request fails at `all()`. */
  method FromRequest(shape: Shape, request: Option<Request>, params: seq<Value>) returns (r: Result<Dto>)
    ensures request.None? ==> r == Err(MethodCallOnNull("all"))
    ensures request.Some? ==> r.Ok? && fresh(r.value) && r.value.shape == shape && r.value.Valid()
    ensures request.Some? ==> r.value.props == Hydrated(shape, request.value.all)
  {
    if request.None? {
      return Err(MethodCallOnNull("all"));
    }
    var d := new Dto(shape);
    var input := request.value.all;
    var i := 0;
    while i < |input|
      invariant 0 <= i <= |input|
      invariant d.shape == shape
      invariant d.props == Hydrated(shape, input[..i])
    {
      assert input[..i + 1][..i] == input[..i];
      var (key, value) := input[i];
      if key in d.props {
        d.props := d.props[key := value];
      }
      i := i + 1;
    }
    assert input[..i] == input;
    d.HandleAdditionalParams(request.value, params);
    return Ok(d);
  }

  /** Hydration is the merge of the input over the defaults, restricted to the declared properties. */
  lemma {:induction false} HydratedIsMerge(shape: Shape, input: Entries)
    ensures Hydrated(shape, input) == Merge(shape, AsMap(input))
  {
    if input != [] {
      HydratedIsMerge(shape, input[..|input| - 1]);
    }
  }

  /** Whitelist safety: the result depends only on the declared keys of the
      input, so undeclared keys have no effect. */
  lemma UndeclaredKeysIgnored(shape: Shape, a: Entries, b: Entries)
    requires forall k :: k in shape ==> (k in AsMap(a) <==> k in AsMap(b))
    requires forall k :: k in shape && k in AsMap(a) ==> AsMap(a)[k] == AsMap(b)[k]
    ensures Hydrated(shape, a) == Hydrated(shape, b)
  {
    HydratedIsMerge(shape, a);
    HydratedIsMerge(shape, b);
  }

  /** A declared key supplied by the input holds the input's value, arrays
      included (they are not hydrated further); every other declared
      property keeps its default. */
  lemma HydratedValues(shape: Shape, input: Entries, k: string)
    requires k in shape
    ensures k in AsMap(input) ==> Hydrated(shape, input)[k] == AsMap(input)[k]
    ensures k !in AsMap(input) ==> Hydrated(shape, input)[k] == shape[k]
  {
    HydratedIsMerge(shape, input);
  }

  /** An element `getArg` accepts: an array with `$key` set to a non-null value. */
  predicate Qualifies(arg: Value, key: string)
  {
    arg.Arr? && Isset(arg.entries, key)
  }

  /** `getArg`: among the elements of the first variadic argument, the first
      array with `$key` set to a non-null value gives the result; null when
      there is none. A missing or non-array first argument is a warning,
      hence an error. */
  method GetArg(key: string, args: seq<Value>) returns (r: Result<Value>)
    ensures |args| == 0 ==> r == Err(UndefinedArrayKey("0"))
    ensures |args| > 0 && !args[0].Arr? ==> r == Err(ForeachOverNonArray)
    ensures |args| > 0 && args[0].Arr? ==> r.Ok?
    ensures r.Ok? && r.value == Null ==>
      forall i :: 0 <= i < |args[0].entries| ==> !Qualifies(args[0].entries[i].1, key)
    ensures r.Ok? && r.value != Null ==>
      exists i :: 0 <= i < |args[0].entries| && Qualifies(args[0].entries[i].1, key)
        && r.value == AsMap(args[0].entries[i].1.entries)[key]
        && forall j :: 0 <= j < i ==> !Qualifies(args[0].entries[j].1, key)
  {
    if |args| == 0 {
      return Err(UndefinedArrayKey("0"));
    }
    if !args[0].Arr? {
      return Err(ForeachOverNonArray);
    }
    var elems := ValuesOf(args[0].entries);
    var i := 0;
    while i < |elems|
      invariant 0 <= i <= |elems|
      invariant forall j :: 0 <= j < i ==> !Qualifies(args[0].entries[j].1, key)
    {
      var arg := elems[i];
      if Qualifies(arg, key) {
        return Ok(AsMap(arg.entries)[key]);
      }
      i := i + 1;
    }
    return Ok(Null);
  }
}
