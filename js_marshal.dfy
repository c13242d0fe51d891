// Conversion between script values and host values at the script binding
// layer (src/features/scripting/QJS.hpp): the `JsTypeToCpp` decoders and
// encoders, positional argument parsing, and the checks a wrapped host
// function runs before it is called.
module JsMarshal {
  import opened Wrappers

  // ---------------------------------------------------------------------
  // Script values

  /** An IEEE double as the engine sees it. */
  datatype Float = Finite(x: real) | NaN | Infinity(positive: bool)

  /**
   * A script value. `Int` is the engine's small-integer tag, `Num` its
   * double tag; an array's slots may be holes; objects carry their own
   * enumerable string-keyed properties in enumeration order.
   */
  datatype JsVal =
    | Null
    | Undefined
    | Bool(b: bool)
    | Int(i: int)
    | Num(f: Float)
    | Str(s: string)
    | Arr(slots: seq<Option<JsVal>>)
    | Obj(props: seq<(string, JsVal)>)
    | Class(classId: nat, props: seq<(string, JsVal)>)

  predicate IsNumber(v: JsVal) { v.Int? || v.Num? }
  predicate IsObject(v: JsVal) { v.Arr? || v.Obj? || v.Class? }

  /** `getTypeName` for a value that has a context. */
  function TypeName(v: JsVal): string
  {
    match v
    case Null => "null"
    case Undefined => "undefined"
    case Bool(_) => "bool"
    case Int(_) => "int"
    case Num(_) => "float64"
    case Str(_) => "string"
    case Arr(_) => "[object Array]"
    case Obj(_) => "[object Object]"
    case Class(_, _) => "[object Object]"
  }

  const TWO_32: int := 0x1_0000_0000

  /** Two's-complement reduction to a signed 32-bit integer. */
  function WrapInt32(n: int): (r: int)
    ensures -0x8000_0000 <= r < 0x8000_0000
    ensures (r - n) % TWO_32 == 0
    ensures -0x8000_0000 <= n < 0x8000_0000 ==> r == n
  {
    var m := n % TWO_32;
    if m >= 0x8000_0000 then m - TWO_32 else m
  }

  predicate IsInt32(n: int) { -0x8000_0000 <= n < 0x8000_0000 }

  /** Truncation toward zero. */
  function Truncate(x: real): int
  {
    if x >= 0.0 then x.Floor else -((-x).Floor)
  }

  /** ECMAScript ToBoolean. */
  function ToBool(v: JsVal): bool
  {
    match v
    case Null => false
    case Undefined => false
    case Bool(b) => b
    case Int(i) => i != 0
    case Num(f) => f.Infinity? || (f.Finite? && f.x != 0.0)
    case Str(s) => s != ""
    case _ => true
  }

  /** ECMAScript ToInt32 on a number: NaN and the infinities become 0. */
  function NumberToInt32(v: JsVal): (r: int)
    requires IsNumber(v)
    ensures IsInt32(r)
  {
    match v
    case Int(i) => WrapInt32(i)
    case Num(f) => if f.Finite? then WrapInt32(Truncate(f.x)) else 0
  }

  /** ECMAScript ToNumber on a number. */
  function NumberToFloat(v: JsVal): Float
    requires IsNumber(v)
  {
    match v
    case Int(i) => Finite(i as real)
    case Num(f) => f
  }

  /** The items `getArrayItems` yields: the present slots in index order, holes skipped. */
  function PresentItems(slots: seq<Option<JsVal>>): (r: seq<JsVal>)
    ensures |r| <= |slots|
  {
    if slots == [] then []
    else
      var rest := PresentItems(slots[1..]);
      if slots[0].Some? then [slots[0].value] + rest else rest
  }

  /** Without holes, the items are the slots' values in order. */
  lemma {:induction false} PresentItemsWithoutHoles(slots: seq<Option<JsVal>>)
    requires forall i :: 0 <= i < |slots| ==> slots[i].Some?
    ensures |PresentItems(slots)| == |slots|
    ensures forall i :: 0 <= i < |slots| ==> PresentItems(slots)[i] == slots[i].value
  {
    if slots != [] {
      PresentItemsWithoutHoles(slots[1..]);
    }
  }

  /** The own enumerable properties of an object; an array's are its present indices. */
  function Properties(v: JsVal): seq<(string, JsVal)>
    requires IsObject(v)
  {
    match v
    case Arr(slots) => IndexProperties(slots, 0)
    case Obj(props) => props
    case Class(_, props) => props
  }

  function IndexProperties(slots: seq<Option<JsVal>>, from: nat): seq<(string, JsVal)>
    decreases |slots| - from
  {
    if from >= |slots| then []
    else
      var here := if slots[from].Some? then [(NatToString(from), slots[from].value)] else [];
      here + IndexProperties(slots, from + 1)
  }

  // ---------------------------------------------------------------------
  // Host values

  /** The host types with a `JsTypeToCpp` specialisation. */
  datatype HostType =
    | TValue
    | TBool
    | TNull
    | TInt32
    | TFloat
    | TDouble
    | TString
    | TVector(elem: HostType)
    | TTuple(elems: seq<HostType>)
    | TMap(elem: HostType)

  datatype HostVal =
    | HValue(v: JsVal)
    | HBool(b: bool)
    | HNull
    | HInt32(i: int)
    | HNumber(f: Float)
    | HString(s: string)
    | HVector(items: seq<HostVal>)
    | HTuple(items: seq<HostVal>)
    | HMap(entries: map<string, HostVal>)

  predicate IsScalar(t: HostType)
  {
    !(t.TVector? || t.TTuple? || t.TMap?)
  }

  /**
   * A string as it passes through a C string (`JS_NewString` on the way in,
   * `JS_ToCString` into a `std::string` on the way out): cut at the first NUL.
   */
  function UpToNul(s: string): (r: string)
    ensures |r| <= |s| && r == s[..|r|]
    ensures '\0' !in r
    ensures '\0' !in s ==> r == s
    ensures '\0' in s ==> |r| < |s| && s[|r|] == '\0'
  {
    if s == [] then []
    else if s[0] == '\0' then []
    else [s[0]] + UpToNul(s[1..])
  }

  /** The scalar decoders: a value, a boolean and null never look inside; numbers and strings check the tag. */
  function ParseScalar(t: HostType, v: JsVal): Result<HostVal>
    requires IsScalar(t)
  {
    match t
    case TValue => Ok(HValue(v))
    case TBool => Ok(HBool(ToBool(v)))
    case TNull => if v.Null? then Err("Expected integer, got " + TypeName(v)) else Ok(HNull)
    case TInt32 => if IsNumber(v) then Ok(HInt32(NumberToInt32(v))) else Err("Expected integer, got " + TypeName(v))
    case TFloat => if IsNumber(v) then Ok(HNumber(NumberToFloat(v))) else Err("Expected number, got " + TypeName(v))
    case TDouble => if IsNumber(v) then Ok(HNumber(NumberToFloat(v))) else Err("Expected number, got " + TypeName(v))
    case TString => if v.Str? then Ok(HString(UpToNul(v.s))) else Err("Expected string, got " + TypeName(v))
  }

  /** What each scalar decoder accepts, what it yields and the message it refuses with. */
  lemma ScalarDecoders(t: HostType, v: JsVal)
    requires IsScalar(t)
    ensures var r := ParseScalar(t, v);
      && (t == TValue ==> r == Ok(HValue(v)))
      && (t == TBool ==> r == Ok(HBool(ToBool(v))))
      && (t == TNull ==> (r.Err? <==> v.Null?))
      && (t == TInt32 ==> (r.Ok? <==> IsNumber(v)))
      && (t == TInt32 && r.Ok? ==> r.value.HInt32? && IsInt32(r.value.i))
      && ((t == TFloat || t == TDouble) ==> (r.Ok? <==> IsNumber(v)))
      && (t == TString ==> (r.Ok? <==> v.Str?) && (r.Ok? ==> r.value == HString(UpToNul(v.s))))
      && (r.Err? ==> r.error == (if t == TString then "Expected string, got "
                                 else if t == TFloat || t == TDouble then "Expected number, got "
                                 else "Expected integer, got ") + TypeName(v))
  {
  }

  /** `parseJsType<T>`: decode a script value as host type `t`. */
  function Parse(t: HostType, v: JsVal): Result<HostVal>
    decreases t, 2, 0
  {
    match t
    case TVector(e) =>
      if !v.Arr? then Err("Expected array, got " + TypeName(v))
      else
        var r := ParseVectorFrom(t, PresentItems(v.slots), 0);
        if r.Err? then Err(r.error) else Ok(HVector(r.value))
    case TTuple(ts) =>
      if !v.Arr? then Err("Expected array, got " + TypeName(v))
      else if |v.slots| != |ts| then
        Err("Expected array of length " + NatToString(|ts|) + ", got " + NatToString(|v.slots|))
      else
        var r := ParseTypes(t, PresentItems(v.slots));
        if r.Err? then Err(r.error + " (in tuple of size " + NatToString(|ts|) + ")")
        else Ok(HTuple(r.value))
    case TMap(e) =>
      if !IsObject(v) then Err("Expected object, got " + TypeName(v))
      else
        var r := ParsePropsFrom(t, Properties(v), 0);
        if r.Err? then Err(r.error) else Ok(HMap(r.value))
    case _ => ParseScalar(t, v)
  }

  /** The array items from index `i` on, stopping at the first that fails. */
  function ParseVectorFrom(t: HostType, items: seq<JsVal>, i: nat): (r: Result<seq<HostVal>>)
    requires t.TVector? && i <= |items|
    decreases t, 1, |items| - i
  {
    if i == |items| then Ok([])
    else
      var head := Parse(t.elem, items[i]);
      if head.Err? then Err(head.error + " (in array at index " + NatToString(i) + ")")
      else
        var rest := ParseVectorFrom(t, items, i + 1);
        if rest.Err? then rest else Ok([head.value] + rest.value)
  }

  /** `parseJsTypes<Ts...>`: the argument count must equal the arity before anything converts. */
  function ParseTypes(t: HostType, args: seq<JsVal>): (r: Result<seq<HostVal>>)
    requires t.TTuple?
    ensures |args| != |t.elems| ==>
      r == Err("Expected " + NatToString(|t.elems|) + " arguments, got " + NatToString(|args|))
    decreases t, 1, |args| + 1
  {
    if |args| != |t.elems| then
      Err("Expected " + NatToString(|t.elems|) + " arguments, got " + NatToString(|args|))
    else ParseTypesFrom(t, args, 0)
  }

  /** Positional conversion from index `i` on; the first failure ends it, tagged with its index. */
  function ParseTypesFrom(t: HostType, args: seq<JsVal>, i: nat): (r: Result<seq<HostVal>>)
    requires t.TTuple? && |args| == |t.elems| && i <= |args|
    decreases t, 1, |args| - i
  {
    if i == |args| then Ok([])
    else
      var head := Parse(t.elems[i], args[i]);
      if head.Err? then Err(head.error + " (at index " + NatToString(i) + ")")
      else
        var rest := ParseTypesFrom(t, args, i + 1);
        if rest.Err? then rest else Ok([head.value] + rest.value)
  }

  /** The properties from index `i` on; a name met earlier keeps its earlier value, as `insert` does. */
  function ParsePropsFrom(t: HostType, props: seq<(string, JsVal)>, i: nat): (r: Result<map<string, HostVal>>)
    requires t.TMap? && i <= |props|
    decreases t, 1, |props| - i
  {
    if i == |props| then Ok(map[])
    else
      var head := Parse(t.elem, props[i].1);
      if head.Err? then Err(head.error + " (in object key \"" + props[i].0 + "\")")
      else
        var rest := ParsePropsFrom(t, props, i + 1);
        if rest.Err? then rest else Ok(rest.value[props[i].0 := head.value])
  }

  // ---------------------------------------------------------------------
  // Properties of the decoders

  /** Position `k` is the first from `i` on that fails, and the error is its own tagged with `k`. */
  ghost predicate FirstFailureAt(t: HostType, args: seq<JsVal>, i: nat, k: int)
    requires t.TTuple? && |args| == |t.elems| && i <= |args|
  {
    && i <= k < |args|
    && (forall j :: i <= j < k ==> Parse(t.elems[j], args[j]).Ok?)
    && Parse(t.elems[k], args[k]).Err?
    && ParseTypesFrom(t, args, i).Err?
    && ParseTypesFrom(t, args, i).error == Parse(t.elems[k], args[k]).error + " (at index " + NatToString(k) + ")"
  }

  /** Positional parsing succeeds iff every position does. */
  lemma {:induction false} ParseTypesFromOk(t: HostType, args: seq<JsVal>, i: nat)
    requires t.TTuple? && |args| == |t.elems| && i <= |args|
    ensures ParseTypesFrom(t, args, i).Ok? <==> forall j :: i <= j < |args| ==> Parse(t.elems[j], args[j]).Ok?
    decreases |args| - i
  {
    if i < |args| && Parse(t.elems[i], args[i]).Ok? {
      ParseTypesFromOk(t, args, i + 1);
    }
  }

  /** A successful positional parse holds each position's value, in order. */
  lemma {:induction false} ParseTypesFromValues(t: HostType, args: seq<JsVal>, i: nat)
    requires t.TTuple? && |args| == |t.elems| && i <= |args|
    requires ParseTypesFrom(t, args, i).Ok?
    ensures |ParseTypesFrom(t, args, i).value| == |args| - i
    ensures forall j :: i <= j < |args| ==> Parse(t.elems[j], args[j]) == Ok(ParseTypesFrom(t, args, i).value[j - i])
    decreases |args| - i
  {
    if i < |args| {
      var head := Parse(t.elems[i], args[i]);
      var rest := ParseTypesFrom(t, args, i + 1);
      ParseTypesFromValues(t, args, i + 1);
      var r := ParseTypesFrom(t, args, i).value;
      assert r == [head.value] + rest.value;
      forall j | i < j < |args|
        ensures Parse(t.elems[j], args[j]) == Ok(r[j - i])
      {
        assert r[j - i] == rest.value[j - (i + 1)];
      }
    }
  }

  /** A failure is the first failing position's error, tagged with its index. */
  lemma {:induction false} ParseTypesFromFirstFailure(t: HostType, args: seq<JsVal>, i: nat)
    requires t.TTuple? && |args| == |t.elems| && i <= |args|
    ensures ParseTypesFrom(t, args, i).Err? ==> exists k :: FirstFailureAt(t, args, i, k)
    decreases |args| - i
  {
    if i < |args| {
      var head := Parse(t.elems[i], args[i]);
      if head.Err? {
        assert FirstFailureAt(t, args, i, i);
      } else if ParseTypesFrom(t, args, i + 1).Err? {
        ParseTypesFromFirstFailure(t, args, i + 1);
        var k :| FirstFailureAt(t, args, i + 1, k);
        assert FirstFailureAt(t, args, i, k);
      }
    }
  }

  /** The same for whole argument lists: arity first, then the first failing position. */
  lemma ParseTypesRules(t: HostType, args: seq<JsVal>)
    requires t.TTuple?
    ensures ParseTypes(t, args).Ok? <==>
      |args| == |t.elems| && forall j :: 0 <= j < |args| ==> Parse(t.elems[j], args[j]).Ok?
    ensures ParseTypes(t, args).Ok? ==>
              (|ParseTypes(t, args).value| == |args|
               && forall j :: 0 <= j < |args| ==> ParseTypes(t, args).value[j] == Parse(t.elems[j], args[j]).value)
    ensures |args| == |t.elems| && ParseTypes(t, args).Err? ==>
              exists k :: FirstFailureAt(t, args, 0, k)
  {
    if |args| == |t.elems| {
      ParseTypesFromOk(t, args, 0);
      if ParseTypesFrom(t, args, 0).Ok? {
        ParseTypesFromValues(t, args, 0);
      }
      ParseTypesFromFirstFailure(t, args, 0);
    }
  }

  /** Item `k` is the first from `i` on that fails, and the error is its own tagged with `k`. */
  ghost predicate FirstBadItemAt(t: HostType, items: seq<JsVal>, i: nat, k: int)
    requires t.TVector? && i <= |items|
  {
    && i <= k < |items|
    && (forall j :: i <= j < k ==> Parse(t.elem, items[j]).Ok?)
    && Parse(t.elem, items[k]).Err?
    && ParseVectorFrom(t, items, i).Err?
    && ParseVectorFrom(t, items, i).error == Parse(t.elem, items[k]).error + " (in array at index " + NatToString(k) + ")"
  }

  /** Array items decode in order: all succeed, or the whole array fails. */
  lemma {:induction false} ParseVectorFromOk(t: HostType, items: seq<JsVal>, i: nat)
    requires t.TVector? && i <= |items|
    ensures ParseVectorFrom(t, items, i).Ok? <==> forall j :: i <= j < |items| ==> Parse(t.elem, items[j]).Ok?
    decreases |items| - i
  {
    if i < |items| && Parse(t.elem, items[i]).Ok? {
      ParseVectorFromOk(t, items, i + 1);
    }
  }

  /** A decoded array holds each item's value, in order. */
  lemma {:induction false} ParseVectorFromValues(t: HostType, items: seq<JsVal>, i: nat)
    requires t.TVector? && i <= |items|
    requires ParseVectorFrom(t, items, i).Ok?
    ensures |ParseVectorFrom(t, items, i).value| == |items| - i
    ensures forall j :: i <= j < |items| ==> Parse(t.elem, items[j]) == Ok(ParseVectorFrom(t, items, i).value[j - i])
    decreases |items| - i
  {
    if i < |items| {
      var head := Parse(t.elem, items[i]);
      var rest := ParseVectorFrom(t, items, i + 1);
      ParseVectorFromValues(t, items, i + 1);
      var r := ParseVectorFrom(t, items, i).value;
      assert r == [head.value] + rest.value;
      forall j | i < j < |items|
        ensures Parse(t.elem, items[j]) == Ok(r[j - i])
      {
        assert r[j - i] == rest.value[j - (i + 1)];
      }
    }
  }

  /** The first bad item reports its position among the present items. */
  lemma {:induction false} ParseVectorFromFirstFailure(t: HostType, items: seq<JsVal>, i: nat)
    requires t.TVector? && i <= |items|
    ensures ParseVectorFrom(t, items, i).Err? ==> exists k :: FirstBadItemAt(t, items, i, k)
    decreases |items| - i
  {
    if i < |items| {
      if Parse(t.elem, items[i]).Err? {
        FirstBadItemHere(t, items, i);
      } else if ParseVectorFrom(t, items, i + 1).Err? {
        ParseVectorFromFirstFailure(t, items, i + 1);
        var k :| FirstBadItemAt(t, items, i + 1, k);
        FirstBadItemLater(t, items, i, k);
      }
    }
  }

  lemma FirstBadItemHere(t: HostType, items: seq<JsVal>, i: nat)
    requires t.TVector? && i < |items| && Parse(t.elem, items[i]).Err?
    ensures FirstBadItemAt(t, items, i, i)
  {
  }

  lemma FirstBadItemLater(t: HostType, items: seq<JsVal>, i: nat, k: int)
    requires t.TVector? && i < |items| && Parse(t.elem, items[i]).Ok?
    requires FirstBadItemAt(t, items, i + 1, k)
    ensures FirstBadItemAt(t, items, i, k)
  {
    assert ParseVectorFrom(t, items, i) == ParseVectorFrom(t, items, i + 1);
  }

  /** Object decoding: every property must decode; the result's keys are exactly the property names. */
  lemma {:induction false} ParsePropsFromRules(t: HostType, props: seq<(string, JsVal)>, i: nat)
    requires t.TMap? && i <= |props|
    ensures ParsePropsFrom(t, props, i).Ok? <==> forall j :: i <= j < |props| ==> Parse(t.elem, props[j].1).Ok?
    ensures ParsePropsFrom(t, props, i).Ok? ==>
              ParsePropsFrom(t, props, i).value.Keys == set j | i <= j < |props| :: props[j].0
    ensures ParsePropsFrom(t, props, i).Err? ==>
              (exists k :: (i <= k < |props|
                 && Parse(t.elem, props[k].1).Err?
                 && ParsePropsFrom(t, props, i).error == Parse(t.elem, props[k].1).error + " (in object key \"" + props[k].0 + "\")"))
    decreases |props| - i
  {
    if i < |props| && Parse(t.elem, props[i].1).Ok? {
      ParsePropsFromRules(t, props, i + 1);
      var rest := ParsePropsFrom(t, props, i + 1);
      if rest.Ok? {
        var names := set j | i <= j < |props| :: props[j].0;
        var later := set j | i + 1 <= j < |props| :: props[j].0;
        assert names == later + {props[i].0};
      }
    }
  }

  /** A tuple is an array of exactly its arity; a hole inside it leaves too few items and fails as an arity error. */
  lemma TupleNeedsExactLength(ts: seq<HostType>, v: JsVal)
    ensures Parse(TTuple(ts), v).Ok? ==> v.Arr? && |v.slots| == |ts|
    ensures v.Arr? && |v.slots| != |ts| ==>
              Parse(TTuple(ts), v) == Err("Expected array of length " + NatToString(|ts|) + ", got " + NatToString(|v.slots|))
  {
  }

  /** A two-slot array with a hole is refused by a pair decoder though its length matches. */
  lemma TupleWithHole()
    ensures Parse(TTuple([TValue, TValue]), Arr([Some(Null), None])) ==
      Err("Expected " + "2" + " arguments, got " + "1" + " (in tuple of size " + "2" + ")")
  {
    HoleIsSkipped();
    PairArityError();
    TupleArgumentsFail([TValue, TValue], Arr([Some(Null), None]));
  }

  /** An array of the right length whose items do not convert fails with their error, tagged with the arity. */
  lemma TupleArgumentsFail(ts: seq<HostType>, v: JsVal)
    requires v.Arr? && |v.slots| == |ts| && ParseTypes(TTuple(ts), PresentItems(v.slots)).Err?
    ensures Parse(TTuple(ts), v)
      == Err(ParseTypes(TTuple(ts), PresentItems(v.slots)).error + " (in tuple of size " + NatToString(|ts|) + ")")
  {
  }

  lemma HoleIsSkipped()
    ensures PresentItems([Some(Null), None]) == [Null]
  {
    assert [Some(Null), None][1..] == [None];
    assert PresentItems([None]) == [];
  }

  lemma PairArityError()
    ensures NatToString(2) == "2"
    ensures ParseTypes(TTuple([TValue, TValue]), [Null]) == Err("Expected " + "2" + " arguments, got " + "1")
  {
    SmallNumerals();
  }

  lemma SmallNumerals()
    ensures NatToString(1) == "1" && NatToString(2) == "2"
  {
  }

  // ---------------------------------------------------------------------
  // The null decoder, as written and as evidently intended

  /** As written: the null decoder refuses null and accepts everything else. */
  lemma NullDecoderInverted(v: JsVal)
    ensures Parse(TNull, v).Err? <==> v.Null?
    ensures Parse(TNull, Null) == Err("Expected integer, got null")
    ensures Parse(TNull, Undefined) == Ok(HNull)
  {
  }

  /** As evidently intended: accept null alone. */
  function ParseNullIntended(v: JsVal): (r: Result<HostVal>)
    ensures r.Ok? <==> v.Null?
    ensures r.Ok? ==> r.value == HNull
    ensures r.Err? ==> r.error == "Expected null, got " + TypeName(v)
  {
    if v.Null? then Ok(HNull) else Err("Expected null, got " + TypeName(v))
  }

  // ---------------------------------------------------------------------
  // Encoders

  /** `JsTypeToCpp<T>::to`. Maps have no working encoder and are encoded as an empty object here (see README). */
  function ToJs(h: HostVal): (v: JsVal)
    ensures h.HVector? || h.HTuple? ==>
              (v.Arr? && |v.slots| == |h.items| && forall i :: 0 <= i < |h.items| ==> v.slots[i] == Some(ToJs(h.items[i])))
  {
    match h
    case HValue(v) => v
    case HBool(b) => Bool(b)
    case HNull => Null
    case HInt32(i) => Int(i)
    case HNumber(f) => Num(f)
    case HString(s) => Str(UpToNul(s))
    case HVector(items) => Arr(seq(|items|, i requires 0 <= i < |items| => Some(ToJs(items[i]))))
    case HTuple(items) => Arr(seq(|items|, i requires 0 <= i < |items| => Some(ToJs(items[i]))))
    case HMap(_) => Obj([])
  }

  /** `h` is a value the decoder for `t` can produce. */
  predicate WellTyped(h: HostVal, t: HostType)
  {
    match t
    case TValue => h.HValue?
    case TBool => h.HBool?
    case TNull => h.HNull?
    case TInt32 => h.HInt32? && IsInt32(h.i)
    case TFloat => h.HNumber?
    case TDouble => h.HNumber?
    case TString => h.HString?
    case TVector(e) => h.HVector? && forall i :: 0 <= i < |h.items| ==> WellTyped(h.items[i], e)
    case TTuple(ts) => h.HTuple? && |h.items| == |ts| && forall i :: 0 <= i < |ts| ==> WellTyped(h.items[i], ts[i])
    case TMap(_) => h.HMap?
  }

  /** No null and no map anywhere in the type: the encoders the round trip is about. */
  predicate Encodable(t: HostType)
  {
    match t
    case TNull => false
    case TMap(_) => false
    case TVector(e) => Encodable(e)
    case TTuple(ts) => forall i :: 0 <= i < |ts| ==> Encodable(ts[i])
    case _ => true
  }

  function AllPresent(items: seq<HostVal>): seq<Option<JsVal>>
  {
    seq(|items|, i requires 0 <= i < |items| => Some(ToJs(items[i])))
  }

  lemma PresentOfAllPresent(items: seq<HostVal>)
    ensures PresentItems(AllPresent(items)) == seq(|items|, i requires 0 <= i < |items| => ToJs(items[i]))
  {
    PresentItemsWithoutHoles(AllPresent(items));
  }

  /** No string inside `h` holds a NUL character. */
  predicate NulFree(h: HostVal)
  {
    match h
    case HString(s) => '\0' !in s
    case HVector(items) => forall i :: 0 <= i < |items| ==> NulFree(items[i])
    case HTuple(items) => forall i :: 0 <= i < |items| ==> NulFree(items[i])
    case _ => true
  }

  /** Decoding what was encoded gives the host value back, for every type without null or map and every value whose strings hold no NUL. */
  lemma {:induction false} RoundTrip(t: HostType, h: HostVal)
    requires Encodable(t) && WellTyped(h, t) && NulFree(h)
    ensures Parse(t, ToJs(h)) == Ok(h)
    decreases t, 1
  {
    match t
    case TVector(e) =>
      var items := seq(|h.items|, i requires 0 <= i < |h.items| => ToJs(h.items[i]));
      PresentOfAllPresent(h.items);
      forall j | 0 <= j < |items| ensures Parse(e, items[j]) == Ok(h.items[j]) {
        RoundTrip(e, h.items[j]);
      }
      ParseVectorFromOk(t, items, 0);
      ParseVectorFromValues(t, items, 0);
      var r := ParseVectorFrom(t, items, 0);
      assert r.value == h.items;
    case TTuple(ts) =>
      var items := seq(|h.items|, i requires 0 <= i < |h.items| => ToJs(h.items[i]));
      PresentOfAllPresent(h.items);
      forall j | 0 <= j < |items| ensures Parse(ts[j], items[j]) == Ok(h.items[j]) {
        RoundTrip(ts[j], h.items[j]);
      }
      ParseTypesRules(t, items);
      var r := ParseTypes(t, items);
      assert r.value == h.items;
    case _ =>
  }

  /** A string with a NUL comes back cut short: "a", NUL, "b" decodes as "a". */
  lemma NulStringTruncated()
    ensures Parse(TString, ToJs(HString(['a', '\0', 'b']))) == Ok(HString(['a']))
  {
    assert UpToNul(['a', '\0', 'b']) == ['a'] + UpToNul(['\0', 'b']);
  }

  /** The encoder for null does not survive the decoder as written. */
  lemma NullRoundTripFails()
    ensures Parse(TNull, ToJs(HNull)).Err?
    ensures ParseNullIntended(ToJs(HNull)) == Ok(HNull)
  {
  }

  // ---------------------------------------------------------------------
  // The decoders and encoders as the host runs them

  /** A successful prefix in front of the rest's result. */
  function Prepend(done: seq<HostVal>, r: Result<seq<HostVal>>): Result<seq<HostVal>>
  {
    if r.Ok? then Ok(done + r.value) else r
  }

  lemma PrependFacts(done: seq<HostVal>, h: HostVal, rest: Result<seq<HostVal>>)
    ensures Prepend([], rest) == rest
    ensures Prepend(done, Ok([])) == Ok(done)
    ensures Prepend(done, if rest.Ok? then Ok([h] + rest.value) else rest) == Prepend(done + [h], rest)
  {
    if rest.Ok? {
      assert [] + rest.value == rest.value;
      assert done + ([h] + rest.value) == (done + [h]) + rest.value;
    }
    assert done + [] == done;
  }

  /** Entries decoded earlier in front of the rest's result; an earlier name wins. */
  function MergeEarlier(done: map<string, HostVal>, r: Result<map<string, HostVal>>): Result<map<string, HostVal>>
  {
    if r.Ok? then Ok(r.value + done) else r
  }

  /** `getArrayItems`: walk the indices below the length, keeping the present ones. */
  method ArrayItems(slots: seq<Option<JsVal>>) returns (items: seq<JsVal>)
    ensures items == PresentItems(slots)
  {
    items := [];
    var i := |slots|;
    while i > 0
      invariant 0 <= i <= |slots|
      invariant items == PresentItems(slots[i..])
    {
      i := i - 1;
      assert slots[i..][1..] == slots[i + 1..];
      if slots[i].Some? {
        items := [slots[i].value] + items;
      }
    }
  }

  /** `JsTypeToCpp<T>::from`, with the array and object loops. */
  method Decode(t: HostType, v: JsVal) returns (r: Result<HostVal>)
    ensures r == Parse(t, v)
    decreases t, 2
  {
    match t
    case TVector(_) =>
      r := DecodeVector(t, v);
    case TTuple(_) =>
      r := DecodeTuple(t, v);
    case TMap(_) =>
      r := DecodeMap(t, v);
    case _ =>
      r := ParseScalar(t, v);
  }

  /** `JsTypeToCpp<std::vector<T>>::from`: the items in order; the first failure ends it. */
  method DecodeVector(t: HostType, v: JsVal) returns (r: Result<HostVal>)
    requires t.TVector?
    ensures r == Parse(t, v)
    decreases t, 1
  {
    if !v.Arr? {
      return Err("Expected array, got " + TypeName(v));
    }
    var items := ArrayItems(v.slots);
    var result: seq<HostVal> := [];
    var ix := 0;
    PrependFacts(result, HNull, ParseVectorFrom(t, items, 0));
    while ix < |items|
      invariant 0 <= ix <= |items|
      invariant ParseVectorFrom(t, items, 0) == Prepend(result, ParseVectorFrom(t, items, ix))
    {
      var cpp := Decode(t.elem, items[ix]);
      if cpp.Err? {
        return Err(cpp.error + " (in array at index " + NatToString(ix) + ")");
      }
      var rest := ParseVectorFrom(t, items, ix + 1);
      assert ParseVectorFrom(t, items, ix) == if rest.Ok? then Ok([cpp.value] + rest.value) else rest;
      PrependFacts(result, cpp.value, rest);
      result := result + [cpp.value];
      ix := ix + 1;
    }
    PrependFacts(result, HNull, Ok([]));
    return Ok(HVector(result));
  }

  /** `JsTypeToCpp<std::tuple<Ts...>>::from`: exact length first, then the positional decoders. */
  method DecodeTuple(t: HostType, v: JsVal) returns (r: Result<HostVal>)
    requires t.TTuple?
    ensures r == Parse(t, v)
    decreases t, 1
  {
    if !v.Arr? {
      return Err("Expected array, got " + TypeName(v));
    }
    if |v.slots| != |t.elems| {
      return Err("Expected array of length " + NatToString(|t.elems|) + ", got " + NatToString(|v.slots|));
    }
    var items := ArrayItems(v.slots);
    var ret := DecodeArgs(t, items);
    if ret.Err? {
      return Err(ret.error + " (in tuple of size " + NatToString(|t.elems|) + ")");
    }
    return Ok(HTuple(ret.value));
  }

  /**
   * `Value::getProperties` as written. `status` is what `JS_GetOwnPropertyNames`
   * returns: QuickJS gives 0 on success and -1 on an exception, and the
   * source treats any result `<= 0` as failure, so the list is always empty.
   */
  function GetPropertiesAsWritten(v: JsVal, status: int): seq<(string, JsVal)>
    requires IsObject(v)
  {
    if status <= 0 then [] else Properties(v)
  }

  /** `getProperties` with the failure test QuickJS's convention calls for: only a negative result is a failure. */
  function GetPropertiesIntended(v: JsVal, status: int): seq<(string, JsVal)>
    requires IsObject(v)
  {
    if status < 0 then [] else Properties(v)
  }

  /** The map decoder as written: the same walk, over the properties `getProperties` as written reports. */
  function ParseMapAsWritten(t: HostType, v: JsVal, status: int): Result<HostVal>
    requires t.TMap?
  {
    if !IsObject(v) then Err("Expected object, got " + TypeName(v))
    else
      var r := ParsePropsFrom(t, GetPropertiesAsWritten(v, status), 0);
      if r.Err? then Err(r.error) else Ok(HMap(r.value))
  }

  /**
   * As written, every object decodes to the empty map whatever its properties;
   * on success the intended `getProperties` reports the object's own
   * properties, the ones `Parse` (and `DecodeMap`) decode.
   */
  lemma MapDecoderSeesNoProperties(t: HostType, v: JsVal, status: int)
    requires t.TMap? && (status == 0 || status == -1)
    ensures ParseMapAsWritten(t, v, status) == if IsObject(v) then Ok(HMap(map[])) else Parse(t, v)
    ensures IsObject(v) && status == 0 ==> GetPropertiesIntended(v, status) == Properties(v)
  {
  }

  /** `{a: 1}` decodes as written to an empty map, and `{a: "x"}` is accepted where the intended decoder refuses it. */
  lemma MapDecoderDropsProperties()
    ensures ParseMapAsWritten(TMap(TInt32), Obj([("a", Int(1))]), 0) == Ok(HMap(map[]))
    ensures Parse(TMap(TInt32), Obj([("a", Int(1))])) == Ok(HMap(map["a" := HInt32(1)]))
    ensures ParseMapAsWritten(TMap(TInt32), Obj([("a", Str("x"))]), 0).Ok?
    ensures Parse(TMap(TInt32), Obj([("a", Str("x"))])).Err?
  {
    var t := TMap(TInt32);
    var good := [("a", Int(1))];
    assert ParsePropsFrom(t, good, 1) == Ok(map[]);
    assert Parse(TInt32, Int(1)) == Ok(HInt32(1));
    assert ParsePropsFrom(t, good, 0) == Ok(map["a" := HInt32(1)]);
    var bad := [("a", Str("x"))];
    assert Parse(TInt32, Str("x")).Err?;
    assert ParsePropsFrom(t, bad, 0).Err?;
  }

  /** `JsTypeToCpp<std::unordered_map<std::string, T>>::from`: every property, earlier names kept. */
  method DecodeMap(t: HostType, v: JsVal) returns (r: Result<HostVal>)
    requires t.TMap?
    ensures r == Parse(t, v)
    decreases t, 1
  {
    if !IsObject(v) {
      return Err("Expected object, got " + TypeName(v));
    }
    var props := Properties(v);
    var result: map<string, HostVal> := map[];
    var i := 0;
    assert ParsePropsFrom(t, props, 0) == MergeEarlier(result, ParsePropsFrom(t, props, 0)) by {
      var r0 := ParsePropsFrom(t, props, 0);
      if r0.Ok? {
        assert r0.value + result == r0.value;
      }
    }
    while i < |props|
      invariant 0 <= i <= |props|
      invariant ParsePropsFrom(t, props, 0) == MergeEarlier(result, ParsePropsFrom(t, props, i))
    {
      var (name, js) := props[i];
      var cpp := Decode(t.elem, js);
      if cpp.Err? {
        return Err(cpp.error + " (in object key \"" + name + "\")");
      }
      var next := if name in result then result else result[name := cpp.value];
      var rest := ParsePropsFrom(t, props, i + 1);
      assert ParsePropsFrom(t, props, i) == if rest.Ok? then Ok(rest.value[name := cpp.value]) else rest;
      MergeStep(result, next, name, cpp.value, rest);
      result := next;
      i := i + 1;
    }
    assert ParsePropsFrom(t, props, i) == Ok(map[]);
    assert map[] + result == result;
    return Ok(HMap(result));
  }

  lemma MergeStep(done: map<string, HostVal>, next: map<string, HostVal>, name: string, h: HostVal,
                  rest: Result<map<string, HostVal>>)
    requires next == if name in done then done else done[name := h]
    ensures MergeEarlier(next, rest) == MergeEarlier(done, if rest.Ok? then Ok(rest.value[name := h]) else rest)
  {
    if rest.Ok? {
      assert rest.value + next == rest.value[name := h] + done;
    }
  }

  /** `parseJsTypes`: check the arity, then convert each position, skipping the rest after the first error. */
  method DecodeArgs(t: HostType, args: seq<JsVal>) returns (r: Result<seq<HostVal>>)
    requires t.TTuple?
    ensures r == ParseTypes(t, args)
    decreases t, 0
  {
    if |args| != |t.elems| {
      return Err("Expected " + NatToString(|t.elems|) + " arguments, got " + NatToString(|args|));
    }
    var result: seq<HostVal> := [];
    var error: Option<string> := None;
    PrependFacts(result, HNull, ParseTypesFrom(t, args, 0));
    for i := 0 to |args|
      invariant error.None? ==> |result| == i
      invariant error.None? ==> ParseTypesFrom(t, args, 0) == Prepend(result, ParseTypesFrom(t, args, i))
      invariant error.Some? ==> ParseTypesFrom(t, args, 0) == Err(error.value)
    {
      if error.None? {
        var res := Decode(t.elems[i], args[i]);
        if res.Ok? {
          var rest := ParseTypesFrom(t, args, i + 1);
          assert ParseTypesFrom(t, args, i) == if rest.Ok? then Ok([res.value] + rest.value) else rest;
          PrependFacts(result, res.value, rest);
          result := result + [res.value];
        } else {
          error := Some(res.error + " (at index " + NatToString(i) + ")");
        }
      }
    }
    if error.Some? {
      return Err(error.value);
    }
    PrependFacts(result, HNull, Ok([]));
    return Ok(result);
  }

  /** `JsTypeToCpp<T>::to`: arrays are built by pushing each encoded item. */
  method Encode(h: HostVal) returns (v: JsVal)
    ensures v == ToJs(h)
  {
    match h
    case HVector(items) =>
      var slots := EncodeItems(items);
      v := Arr(slots);
    case HTuple(items) =>
      var slots := EncodeItems(items);
      v := Arr(slots);
    case _ =>
      v := ToJs(h);
  }

  method EncodeItems(items: seq<HostVal>) returns (slots: seq<Option<JsVal>>)
    ensures slots == AllPresent(items)
    decreases items, 0
  {
    slots := [];
    for i := 0 to |items|
      invariant slots == AllPresent(items[..i])
    {
      var item := Encode(items[i]);
      slots := slots + [Some(item)];
    }
    assert items[..|items|] == items;
  }

  // ---------------------------------------------------------------------
  // Wrapped host functions

  /** What a wrapped call gives back to the script: a thrown type error, or the encoded result. */
  datatype CallOutcome = Thrown(message: string) | Returned(value: JsVal)

  /**
   * `parseJsTypesAndCall`: decode `this`, then the arguments, and only then
   * run the host function (given here as `f`) and encode its result.
   */
  function CallWrapped(name: string, f: (HostVal, seq<HostVal>) -> HostVal, thisType: HostType,
                       argTypes: seq<HostType>, thisValue: JsVal, args: seq<JsVal>): (r: CallOutcome)
    ensures Parse(thisType, thisValue).Err? ==>
      r == Thrown(Parse(thisType, thisValue).error + " ('this' in " + name + ")")
    ensures Parse(thisType, thisValue).Ok? && ParseTypes(TTuple(argTypes), args).Err? ==>
      r == Thrown(ParseTypes(TTuple(argTypes), args).error + " (arguments in " + name + ")")
    ensures r.Returned? <==> Parse(thisType, thisValue).Ok? && ParseTypes(TTuple(argTypes), args).Ok?
    ensures r.Returned? ==>
      r.value == ToJs(f(Parse(thisType, thisValue).value, ParseTypes(TTuple(argTypes), args).value))
  {
    var parsedThis := Parse(thisType, thisValue);
    if parsedThis.Err? then Thrown(parsedThis.error + " ('this' in " + name + ")")
    else
      var parsedArgs := ParseTypes(TTuple(argTypes), args);
      if parsedArgs.Err? then Thrown(parsedArgs.error + " (arguments in " + name + ")")
      else Returned(ToJs(f(parsedThis.value, parsedArgs.value)))
  }

  /** A call with the wrong number of arguments is refused before the host function runs. */
  lemma WrongArityNeverCalls(name: string, f: (HostVal, seq<HostVal>) -> HostVal, thisType: HostType,
                             argTypes: seq<HostType>, thisValue: JsVal, args: seq<JsVal>)
    requires |args| != |argTypes|
    ensures CallWrapped(name, f, thisType, argTypes, thisValue, args).Thrown?
    ensures Parse(thisType, thisValue).Ok? ==>
              CallWrapped(name, f, thisType, argTypes, thisValue, args) == Thrown("Expected " + NatToString(|argTypes|) + " arguments, got " + NatToString(|args|) + " (arguments in " + name + ")")
  {
  }

  /** The names `setProperty` gives a property's accessor functions: "<prop>.get", and "<prop>.set" when there is a setter. */
  function AccessorNames(prop: string, hasSetter: bool): (r: (string, Option<string>))
    ensures r.0 == prop + ".get"
    ensures r.1.Some? <==> hasSetter
    ensures r.1.Some? ==> r.1.value == prop + ".set"
  {
    (prop + ".get", if hasSetter then Some(prop + ".set") else None)
  }
}
