/** The code generated to turn JSON-RPC params into a method's arguments. */
module ParamsCode {
  import opened Basics
  import opened JsonRpc

  /** A parameter type: how a value is read, and whether the type is an `Option`. */
  datatype ParamType<!V> = ParamType(optional: bool, read: Value -> Option<V>)

  /** An argument: a plain value, or what an `Option` holds. */
  datatype Arg<+V> = Plain(value: V) | Given(value: V) | Absent

  datatype Args<+V> = Tuple(fields: seq<Arg<V>>) | RawParams(params: Params)

  datatype ParamStyle = PositionalStyle | NamedStyle | RawStyle

  /** An arm of the generated match: the count it is for, the types it reads, the arguments it leaves out. */
  datatype Arm<!V> = Arm(count: nat, types: seq<ParamType<V>>, missed: nat)

  /** The generated code. */
  datatype Code<!V> =
    | ExpectNone
    | PassRaw
    | ReadTuple(types: seq<ParamType<V>>)
    | Match(required: nat, arms: seq<Arm<V>>)

  const MAX_PARAMS := 16

  // ---------------------------------------------------------------- generating

  /** How many types at the end are `Option`s. */
  function Trailing<V>(types: seq<ParamType<V>>): (t: nat)
    ensures t <= |types|
  {
    if types == [] || !types[|types| - 1].optional then 0 else 1 + Trailing(types[..|types| - 1])
  }

  function ArmFor<V>(types: seq<ParamType<V>>, passed: nat): Arm<V>
    requires passed <= |types|
  {
    Arm(passed, types[..passed], |types| - passed)
  }

  function WithTrailing<V>(types: seq<ParamType<V>>, trailing: nat): Code<V>
    requires trailing <= |types|
  {
    var required := |types| - trailing;
    Match(required, seq(trailing + 1, i requires 0 <= i <= trailing => ArmFor(types, required + i)))
  }

  /** No code for more than 16 parameters, nor for named ones. */
  function Generate<V>(types: seq<ParamType<V>>, style: ParamStyle): Option<Code<V>> {
    if |types| > MAX_PARAMS then None
    else if Trailing(types) != 0 then Some(WithTrailing(types, Trailing(types)))
    else if types == [] then Some(ExpectNone)
    else match style
      case RawStyle => Some(PassRaw)
      case PositionalStyle => Some(ReadTuple(types))
      case NamedStyle => None
  }

  // ---------------------------------------------------------------- running the generated code

  function ReadArg<V>(t: ParamType<V>, value: Value): Option<Arg<V>> {
    if t.optional && value.Null? then Some(Absent)
    else match t.read(value)
      case None => None
      case Some(v) => Some(if t.optional then Given(v) else Plain(v))
  }

  /** Reading a tuple: as many values as types, the first one that does not fit spoiling it all. */
  function ReadFields<V>(types: seq<ParamType<V>>, values: seq<Value>): Option<seq<Arg<V>>> {
    if types == [] && values == [] then Some([])
    else if types == [] || values == [] then None
    else match ReadArg(types[0], values[0])
      case None => None
      case Some(field) =>
        match ReadFields(types[1..], values[1..])
        case None => None
        case Some(fields) => Some([field] + fields)
  }

  /** `Params::parse` into a tuple. */
  function Parse<V>(types: seq<ParamType<V>>, params: Params): Result<seq<Arg<V>>, Error> {
    match ParamsValue(params)
    case Array(values) =>
      (match ReadFields(types, values)
       case Some(fields) => Ok(fields)
       case None => Err(InvalidParams("Invalid params")))
    case _ => Err(InvalidParams("Invalid params"))
  }

  function ExpectNoParams(params: Params): Result<(), Error> {
    if params.NoParams? || (params.Positional? && params.args == []) then Ok(())
    else Err(InvalidParams("Invalid parameters: No parameters were expected"))
  }

  function Absents<V>(n: nat): seq<Arg<V>> { seq(n, _ => Absent) }

  function RunArm<V>(arm: Arm<V>, params: Params): Result<Args<V>, Error> {
    if arm.count == 0 then
      match ExpectNoParams(params)
      case Ok(_) => Ok(Tuple(Absents(arm.missed)))
      case Err(e) => Err(e)
    else
      match Parse(arm.types, params)
      case Ok(fields) => Ok(Tuple(fields + Absents(arm.missed)))
      case Err(e) => Err(e)
  }

  /** The first arm for this count, if any. */
  function RunArms<V>(arms: seq<Arm<V>>, count: nat, params: Params): Result<Args<V>, Error> {
    if arms == [] then Err(InvalidParams("Invalid parameters: Expected other number of parameters"))
    else if arms[0].count == count then RunArm(arms[0], params)
    else RunArms(arms[1..], count, params)
  }

  function Evaluate<V>(code: Code<V>, params: Params): Result<Args<V>, Error> {
    match code
    case ExpectNone =>
      (match ExpectNoParams(params)
       case Ok(_) => Ok(Tuple([]))
       case Err(e) => Err(e))
    case PassRaw => Ok(RawParams(params))
    case ReadTuple(types) =>
      (match Parse(types, params)
       case Ok(fields) => Ok(Tuple(fields))
       case Err(e) => Err(e))
    case Match(required, arms) =>
      match params
      case Named(_) => Err(InvalidParams("`params` should be an array"))
      case NoParams =>
        if 0 < required then Err(InvalidParams("`params` should have more arguments"))
        else RunArms(arms, 0, params)
      case Positional(args) =>
        if |args| < required then Err(InvalidParams("`params` should have more arguments"))
        else RunArms(arms, |args|, params)
  }

  // ---------------------------------------------------------------- what the generated code means

  /** The values passed; named params are no list of values. */
  function Passed(params: Params): seq<Value> { if params.Positional? then params.args else [] }

  /** A value fits a type that reads it; null also fits an `Option`. */
  predicate Fits<V>(t: ParamType<V>, value: Value) { (t.optional && value == Null) || t.read(value).Some? }

  /** The argument that a fitting value is: nothing for a null `Option`, else what the type reads. */
  function ArgFor<V>(t: ParamType<V>, value: Value): Arg<V>
    requires Fits(t, value)
  {
    if t.optional && value == Null then Absent
    else if t.optional then Given(t.read(value).value)
    else Plain(t.read(value).value)
  }

  predicate AllFit<V>(types: seq<ParamType<V>>, args: seq<Value>) {
    |args| <= |types| && forall i :: 0 <= i < |args| ==> Fits(types[i], args[i])
  }

  /** Everything behind the first `n` parameters may be left out. */
  predicate MayStopAt<V>(types: seq<ParamType<V>>, n: nat) { forall i :: n <= i < |types| ==> types[i].optional }

  /** The params are for these types: a list from which only `Option`s are missing, each value fitting its type. */
  predicate Acceptable<V>(types: seq<ParamType<V>>, params: Params) {
    !params.Named? && AllFit(types, Passed(params)) && MayStopAt(types, |Passed(params)|)
  }

  /** One argument for every type: the value passed for it, or nothing. */
  function Meant<V>(types: seq<ParamType<V>>, args: seq<Value>): seq<Arg<V>>
    requires AllFit(types, args)
  {
    seq(|types|, i requires 0 <= i < |types| => if i < |args| then ArgFor(types[i], args[i]) else Absent)
  }

  /** What a result says is what the params mean. */
  ghost predicate Means<V>(types: seq<ParamType<V>>, params: Params, r: Result<Args<V>, Error>) {
    && (r.Ok? <==> Acceptable(types, params))
    && (r.Ok? ==> r.value == Tuple(Meant(types, Passed(params))))
    && (r.Err? ==> r.error.code == -32602)
  }

  lemma ReadArgIs<V>(t: ParamType<V>, value: Value)
    ensures ReadArg(t, value) == if Fits(t, value) then Some(ArgFor(t, value)) else None
  {
  }

  lemma {:induction false} ReadFieldsIff<V>(types: seq<ParamType<V>>, values: seq<Value>)
    ensures ReadFields(types, values).Some? <==> |types| == |values| && AllFit(types, values)
    ensures ReadFields(types, values).Some? ==> ReadFields(types, values).value == Meant(types, values)
  {
    if types != [] && values != [] {
      ReadFieldsIff(types[1..], values[1..]);
      ReadArgIs(types[0], values[0]);
      AllFitNext(types, values);
    }
  }

  lemma AllFitNext<V>(types: seq<ParamType<V>>, values: seq<Value>)
    requires types != [] && values != []
    ensures AllFit(types, values) <==> Fits(types[0], values[0]) && AllFit(types[1..], values[1..])
  {
    assert forall i :: 0 < i < |types| ==> types[i] == types[1..][i - 1];
    assert forall i :: 0 < i < |values| ==> values[i] == values[1..][i - 1];
  }

  /** The `Option`s at the end are all that may be left out. */
  lemma {:induction false} TrailingIff<V>(types: seq<ParamType<V>>, n: nat)
    ensures |types| - Trailing(types) <= n <==> MayStopAt(types, n)
  {
    if types != [] {
      var front := types[..|types| - 1];
      if n < |types| && types[|types| - 1].optional {
        TrailingIff(front, n);
        assert forall i :: n <= i < |front| ==> front[i] == types[i];
      }
    }
  }

  /** Of the arms for `from`, `from + 1` and so on, the one for `count` is taken. */
  lemma {:induction false} ArmIsFound<V>(
    types: seq<ParamType<V>>, arms: seq<Arm<V>>, from: nat, count: nat, params: Params)
    requires |arms| == |types| + 1 - from && from <= count
    requires forall i :: 0 <= i < |arms| ==> arms[i] == ArmFor(types, from + i)
    ensures count <= |types| ==> RunArms(arms, count, params) == RunArm(ArmFor(types, count), params)
    ensures count > |types| ==> RunArms(arms, count, params).Err? && RunArms(arms, count, params).error.code == -32602
    decreases |arms|
  {
    if arms != [] && arms[0].count != count {
      var rest := arms[1..];
      assert forall i :: 0 <= i < |rest| ==> rest[i] == arms[i + 1];
      ArmIsFound(types, rest, from + 1, count, params);
    }
  }

  lemma MeantSplits<V>(types: seq<ParamType<V>>, args: seq<Value>)
    requires AllFit(types, args)
    ensures Meant(types, args) == Meant(types[..|args|], args) + Absents(|types| - |args|)
  {
  }

  lemma NothingPassed<V>(types: seq<ParamType<V>>, params: Params)
    requires !params.Named? && Passed(params) == [] && MayStopAt(types, 0)
    ensures RunArm(ArmFor(types, 0), params) == Ok(Tuple(Meant(types, []))) && Acceptable(types, params)
  {
    assert Absents<V>(|types|) == Meant(types, []);
  }

  lemma SomePassed<V>(types: seq<ParamType<V>>, args: seq<Value>)
    requires 0 < |args| <= |types|
    ensures var r := RunArm(ArmFor(types, |args|), Positional(args));
      && (r.Ok? <==> AllFit(types, args))
      && (r.Ok? ==> r.value == Tuple(Meant(types, args)))
      && (r.Err? ==> r.error.code == -32602)
  {
    var front := types[..|args|];
    ReadFieldsIff(front, args);
    assert forall i :: 0 <= i < |args| ==> front[i] == types[i];
    if ReadFields(front, args).Some? {
      MeantSplits(types, args);
    }
  }

  lemma ArmMeans<V>(types: seq<ParamType<V>>, params: Params)
    requires !params.Named? && MayStopAt(types, |Passed(params)|) && |Passed(params)| <= |types|
    ensures Means(types, params, RunArm(ArmFor(types, |Passed(params)|), params))
  {
    if Passed(params) == [] {
      NothingPassed(types, params);
    } else {
      SomePassed(types, Passed(params));
    }
  }

  /** The whole params are the one argument: raw style, unless `Option`s end the list or there are no types. */
  predicate TakesRaw<V>(types: seq<ParamType<V>>, style: ParamStyle) {
    style == RawStyle && types != [] && !types[|types| - 1].optional
  }

  /**
   Whatever the parameter types, the generated code accepts exactly the lists from which only
   `Option`s at the end are missing and whose values fit, gives one argument per type, and answers
   everything else with invalid params; in raw style it passes the params on as they are.
   */
  lemma GeneratedCodeIsCorrect<V>(types: seq<ParamType<V>>, style: ParamStyle, params: Params)
    requires Generate(types, style).Some?
    ensures var r := Evaluate(Generate(types, style).value, params);
      if TakesRaw(types, style) then r == Ok(RawParams(params)) else Means(types, params, r)
  {
    var t, args := Trailing(types), Passed(params);
    TrailingIff(types, |args|);
    if t != 0 {
      var code := WithTrailing(types, t);
      if !params.Named? && |args| >= |types| - t {
        ArmIsFound(types, code.arms, |types| - t, |args|, params);
        if |args| <= |types| {
          ArmMeans(types, params);
        }
      }
    } else if types != [] {
      ReadFieldsIff(types, args);
    } else {
      assert Meant(types, []) == [];
    }
  }

  function Nulls(n: nat): seq<Value> { seq(n, _ => Null) }

  lemma PaddingIsRead<V>(types: seq<ParamType<V>>, args: seq<Value>)
    requires MayStopAt(types, |args|) && |args| <= |types|
    ensures var padded := args + Nulls(|types| - |args|);
      && Acceptable(types, Positional(args)) == Acceptable(types, Positional(padded))
      && (Acceptable(types, Positional(args)) ==> Meant(types, args) == Meant(types, padded))
  {
    var padded := args + Nulls(|types| - |args|);
    assert forall i :: |args| <= i < |types| ==> Fits(types[i], padded[i]) && ArgFor(types[i], padded[i]) == Absent;
    assert forall i :: 0 <= i < |args| ==> padded[i] == args[i];
  }

  /** Leaving trailing arguments out is the same as passing nulls for them. */
  lemma MissingIsNull<V>(types: seq<ParamType<V>>, style: ParamStyle, params: Params)
    requires Generate(types, style).Some? && !TakesRaw(types, style)
    requires !params.Named? && MayStopAt(types, |Passed(params)|) && |Passed(params)| <= |types|
    ensures var code := Generate(types, style).value;
      var padded := Positional(Passed(params) + Nulls(|types| - |Passed(params)|));
      && Evaluate(code, params).Ok? == Evaluate(code, padded).Ok?
      && (Evaluate(code, params).Ok? ==> Evaluate(code, params) == Evaluate(code, padded))
  {
    var code, padded := Generate(types, style).value, Positional(Passed(params) + Nulls(|types| - |Passed(params)|));
    GeneratedCodeIsCorrect(types, style, params);
    GeneratedCodeIsCorrect(types, style, padded);
    SameMeaning(types, params, Evaluate(code, params), Evaluate(code, padded));
  }

  lemma SameMeaning<V>(types: seq<ParamType<V>>, params: Params, r: Result<Args<V>, Error>, s: Result<Args<V>, Error>)
    requires !params.Named? && MayStopAt(types, |Passed(params)|) && |Passed(params)| <= |types|
    requires Means(types, params, r) && Means(types, Positional(Passed(params) + Nulls(|types| - |Passed(params)|)), s)
    ensures r.Ok? == s.Ok? && (r.Ok? ==> r == s)
  {
    var args := Passed(params);
    PaddingIsRead(types, args);
    assert Acceptable(types, params) == Acceptable(types, Positional(args));
  }

  /** Code is generated for up to 16 parameters, unless they are named and do not end with an `Option`. */
  lemma WhichCode<V>(types: seq<ParamType<V>>, style: ParamStyle)
    ensures Generate(types, style) == None <==>
      |types| > 16 || (style == NamedStyle && types != [] && !types[|types| - 1].optional)
  {
  }
}
