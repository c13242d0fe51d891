// Editing one property across a selection of objects at once
// (src/features/EditMixedValues.cpp): the "mixed" input of the group-ID
// layer, its arrows, its override and unmix buttons, and the z-order rules.
module MixedValues {
  import opened Wrappers

  const SHORT_MIN: int := -0x8000
  const SHORT_MAX: int := 0x7FFF
  const INT_MIN: int := -0x8000_0000
  const INT_MAX: int := 0x7FFF_FFFF
  /** The z-order value the game reserves for "mixed". */
  const MIXED_Z_ORDER: int := -1000

  /** `Direction`: how a value came to be set. */
  datatype Direction = Decrement | Increment | Reset

  /** The object fields the layer edits, with the game's own widths. */
  datatype GameObject = GameObject(
    editorLayer: int,    // short
    editorLayer2: int,   // short
    zOrder: int,
    defaultZOrder: int,
    ordValue: int,
    channelValue: int,
    isEffect: bool)      // an `EffectGameObject`

  /** The five inputs the layer replaces, each a `MixedValuesConfig`. */
  datatype Property = EditorLayer | EditorLayer2 | ZOrder | ChannelOrder | Channel

  /** Whether the property is stored as a `short` rather than an `int`. */
  predicate IsShort(p: Property)
  {
    p == EditorLayer || p == EditorLayer2
  }

  /** The type's range: `ValueLimits<T>::infToInf()`. */
  function TypeMin(p: Property): int { if IsShort(p) then SHORT_MIN else INT_MIN }
  function TypeMax(p: Property): int { if IsShort(p) then SHORT_MAX else INT_MAX }

  /**
   * `numFromString<T>(text).unwrapOr(0)`: the number when the text is one and
   * it fits the field's type (a larger one is out of range and fails), else 0.
   */
  function TypedNumber(p: Property, parsed: Option<int>): (n: int)
    ensures TypeMin(p) <= n <= TypeMax(p)
    ensures parsed.Some? && TypeMin(p) <= parsed.value <= TypeMax(p) ==> n == parsed.value
    ensures parsed.None? || parsed.value < TypeMin(p) || parsed.value > TypeMax(p) ==> n == 0
  {
    if parsed.Some? && TypeMin(p) <= parsed.value <= TypeMax(p) then parsed.value else 0
  }

  /** Typing 40000 into an editor-layer field sets 0, not the short maximum: the short parse fails. */
  lemma OutOfRangeTextGivesZero()
    ensures TypedNumber(EditorLayer, Some(40000)) == 0
    ensures TypedNumber(ChannelOrder, Some(40000)) == 40000
  {
  }

  /** `ValueLimits`: editor layers, channel order and channel are `zeroToInf`, z-order is `infToInf`. */
  function Limits(p: Property): (r: (int, int))
    ensures TypeMin(p) <= r.0 <= r.1 == TypeMax(p)
    ensures p != ZOrder ==> r.0 == 0
  {
    if p == ZOrder then (TypeMin(p), TypeMax(p)) else (0, TypeMax(p))
  }

  /** `static_cast<T>`: two's-complement wrap into the property's type. */
  function Wrap(p: Property, v: int): (r: int)
    ensures TypeMin(p) <= r <= TypeMax(p)
    ensures TypeMin(p) <= v <= TypeMax(p) ==> r == v
  {
    var m := TypeMax(p) - TypeMin(p) + 1;
    (v - TypeMin(p)) % m + TypeMin(p)
  }

  /** Channel order and channel only apply to triggers; the other inputs take every object. */
  predicate IsTarget(p: Property, o: GameObject)
  {
    p == ChannelOrder || p == Channel ==> o.isEffect
  }

  /** The placeholder text, whose presence makes a "0" show as empty. */
  function Placeholder(p: Property): Option<string>
  {
    match p
    case ChannelOrder => Some("ORD")
    case Channel => Some("CH")
    case _ => None
  }

  /** `get`: z-order reads the default when the stored value is 0. */
  function Get(p: Property, o: GameObject): int
  {
    match p
    case EditorLayer => o.editorLayer
    case EditorLayer2 => o.editorLayer2
    case ZOrder => if o.zOrder == 0 then o.defaultZOrder else o.zOrder
    case ChannelOrder => o.ordValue
    case Channel => o.channelValue
  }

  /** Whether the z-order setter steps over `value`: 0 on objects whose default is not 0, and -1000. */
  predicate ZOrderSkips(o: GameObject, value: int)
  {
    (o.defaultZOrder != 0 && value == 0) || value == MIXED_Z_ORDER
  }

  /** `set`: store the value; z-order steps over skipped values in the direction of travel, or resets to the default. */
  function Set(p: Property, o: GameObject, value: int, dir: Direction): GameObject
  {
    match p
    case EditorLayer => o.(editorLayer := value)
    case EditorLayer2 => o.(editorLayer2 := value)
    case ChannelOrder => o.(ordValue := value)
    case Channel => o.(channelValue := value)
    case ZOrder =>
      if ZOrderSkips(o, value) then
        match dir
        case Reset => o.(zOrder := o.defaultZOrder)
        case Decrement => o.(zOrder := value - 1)
        case Increment => o.(zOrder := value + 1)
      else o.(zOrder := value)
  }

  /** Setting a property changes that property's field and no other. */
  lemma SetTouchesOneField(p: Property, o: GameObject, value: int, dir: Direction)
    ensures var o' := Set(p, o, value, dir);
      o'.isEffect == o.isEffect && o'.defaultZOrder == o.defaultZOrder
      && (p != EditorLayer ==> o'.editorLayer == o.editorLayer)
      && (p != EditorLayer2 ==> o'.editorLayer2 == o.editorLayer2)
      && (p != ZOrder ==> o'.zOrder == o.zOrder)
      && (p != ChannelOrder ==> o'.ordValue == o.ordValue)
      && (p != Channel ==> o'.channelValue == o.channelValue)
      && (p != ZOrder ==> Get(p, o') == value)
  {
  }

  /**
   * Stepping the z-order never lands on -1000, nor on 0 when the object's
   * default is not 0; a reset over a skipped value restores the default.
   */
  lemma ZOrderStepAvoidsReserved(o: GameObject, value: int, dir: Direction)
    requires dir != Reset
    ensures var z := Set(ZOrder, o, value, dir).zOrder;
      z != MIXED_Z_ORDER && (o.defaultZOrder != 0 ==> z != 0)
      && (ZOrderSkips(o, value) ==> z == (if dir == Increment then value + 1 else value - 1))
      && (!ZOrderSkips(o, value) ==> z == value)
  {
  }

  /** What the getter reads back after a z-order set: the stored value, or the default when 0 was stored. */
  lemma ZOrderReadBack(o: GameObject, value: int, dir: Direction)
    ensures var o' := Set(ZOrder, o, value, dir);
      Get(ZOrder, o') == (if o'.zOrder == 0 then o.defaultZOrder else o'.zOrder)
      && (dir == Reset && ZOrderSkips(o, value) ==> Get(ZOrder, o') == o.defaultZOrder)
      && (!ZOrderSkips(o, value) && value != 0 ==> Get(ZOrder, o') == value)
  {
  }

  /** The targets `init` collects: `obj` first when it is a target, then the targets among `objs`, in order. */
  function CollectTargets(p: Property, obj: Option<GameObject>, objs: seq<GameObject>): seq<GameObject>
  {
    (if obj.Some? && IsTarget(p, obj.value) then [obj.value] else []) + FilterTargets(p, objs)
  }

  function FilterTargets(p: Property, objs: seq<GameObject>): seq<GameObject>
  {
    if objs == [] then []
    else FilterTargets(p, objs[..|objs| - 1]) + (if IsTarget(p, objs[|objs| - 1]) then [objs[|objs| - 1]] else [])
  }

  /** The filter keeps exactly the targets among `objs`. */
  lemma {:induction false} FilterTargetsExact(p: Property, objs: seq<GameObject>)
    ensures forall o :: o in FilterTargets(p, objs) <==> o in objs && IsTarget(p, o)
    ensures |FilterTargets(p, objs)| <= |objs|
  {
    if objs != [] {
      var init := objs[..|objs| - 1];
      FilterTargetsExact(p, init);
      assert objs == init + [objs[|objs| - 1]];
    }
  }

  /** The collected targets are `obj` first when it is a target, then exactly the targets among `objs`. */
  lemma CollectTargetsExact(p: Property, obj: Option<GameObject>, objs: seq<GameObject>)
    ensures var r := CollectTargets(p, obj, objs);
      (forall o :: o in r ==> IsTarget(p, o))
      && (forall o :: o in objs && IsTarget(p, o) ==> o in r)
      && (obj.Some? && IsTarget(p, obj.value) ==> |r| > 0 && r[0] == obj.value)
      && (obj.None? ==> r == FilterTargets(p, objs))
      && |r| <= |objs| + 1
  {
    FilterTargetsExact(p, objs);
  }

  /** The property's value on every target. */
  function Values(p: Property, targets: seq<GameObject>): (r: seq<int>)
    ensures |r| == |targets|
    ensures forall i :: 0 <= i < |targets| ==> r[i] == Get(p, targets[i])
  {
    if targets == [] then [] else Values(p, targets[..|targets| - 1]) + [Get(p, targets[|targets| - 1])]
  }

  /** Mixed: some value differs from the first one. */
  predicate Mixed(values: seq<int>)
  {
    |values| > 0 && exists i :: 0 <= i < |values| && values[i] != values[0]
  }

  function SeqMin(s: seq<int>): (m: int)
    requires |s| > 0
    ensures m in s && forall i :: 0 <= i < |s| ==> m <= s[i]
  {
    if |s| == 1 then s[0] else var m := SeqMin(s[..|s| - 1]); if s[|s| - 1] < m then s[|s| - 1] else m
  }

  function SeqMax(s: seq<int>): (m: int)
    requires |s| > 0
    ensures m in s && forall i :: 0 <= i < |s| ==> s[i] <= m
  {
    if |s| == 1 then s[0] else var m := SeqMax(s[..|s| - 1]); if s[|s| - 1] > m then s[|s| - 1] else m
  }

  lemma MinMaxStep(values: seq<int>, i: nat)
    requires 0 < i < |values|
    ensures SeqMin(values[..i + 1]) == if values[i] < SeqMin(values[..i]) then values[i] else SeqMin(values[..i])
    ensures SeqMax(values[..i + 1]) == if values[i] > SeqMax(values[..i]) then values[i] else SeqMax(values[..i])
  {
    assert values[..i + 1][..i] == values[..i];
  }

  /** The selection is mixed exactly when its minimum and maximum differ. */
  lemma MixedIffSpread(values: seq<int>)
    requires |values| > 0
    ensures Mixed(values) <==> SeqMin(values) < SeqMax(values)
  {
    if SeqMin(values) < SeqMax(values) {
      if values[0] == SeqMin(values) {
        var i :| 0 <= i < |values| && values[i] == SeqMax(values);
        assert values[i] != values[0];
      } else {
        var i :| 0 <= i < |values| && values[i] == SeqMin(values);
        assert values[i] != values[0];
      }
    }
  }

  /** The arrow step as written: wrap the sum into the type, then clamp. */
  function ArrowValue(p: Property, current: int, tag: int): (r: int)
    ensures Limits(p).0 <= r <= Limits(p).1
  {
    Clamp(Wrap(p, current + tag), Limits(p).0, Limits(p).1)
  }

  /** The arrow step as evidently intended: clamp the sum itself, so the arrows saturate at the limits. */
  function ArrowValueIntended(p: Property, current: int, tag: int): (r: int)
    ensures Limits(p).0 <= r <= Limits(p).1
  {
    Clamp(current + tag, Limits(p).0, Limits(p).1)
  }

  /** Pressing the right arrow on editor layer 32767 wraps to -32768, which the clamp turns into 0. */
  lemma EditorLayerArrowWrapsToZero()
    ensures ArrowValue(EditorLayer, SHORT_MAX, 1) == 0
    ensures ArrowValueIntended(EditorLayer, SHORT_MAX, 1) == SHORT_MAX
  {
  }

  /** The intended step moves by exactly one inside the limits and saturates at them; it agrees with the written one unless the sum leaves the type. */
  lemma ArrowValueIntendedSaturates(p: Property, current: int, tag: int)
    requires tag == 1 || tag == -1
    requires Limits(p).0 <= current <= Limits(p).1
    ensures Limits(p).0 <= current + tag <= Limits(p).1 ==> ArrowValueIntended(p, current, tag) == current + tag
    ensures tag == 1 ==> ArrowValueIntended(p, current, tag) >= current
    ensures tag == -1 ==> ArrowValueIntended(p, current, tag) <= current
    ensures TypeMin(p) <= current + tag <= TypeMax(p) ==> ArrowValue(p, current, tag) == ArrowValueIntended(p, current, tag)
  {
  }

  /** The label text `updateLabel` computes for a non-empty selection, before the placeholder rule. */
  function RawLabel(values: seq<int>): string
    requires |values| > 0
  {
    if Mixed(values) then IntToString(SeqMin(values)) + ".." + IntToString(SeqMax(values))
    else IntToString(values[0])
  }

  /** The shown label: "0" becomes empty when the input has a placeholder. */
  function LabelText(p: Property, values: seq<int>): (text: string)
    requires |values| > 0
    ensures Mixed(values) ==> text == IntToString(SeqMin(values)) + ".." + IntToString(SeqMax(values))
    ensures !Mixed(values) && Placeholder(p).Some? ==> (text == "" <==> values[0] == 0)
    ensures !Mixed(values) && (Placeholder(p).None? || values[0] != 0) ==> text == IntToString(values[0])
  {
    IntToStringZero(values[0]);
    if RawLabel(values) == "0" && Placeholder(p).Some? then "" else RawLabel(values)
  }

  /** The collecting loop of `init`. */
  method Collect(property: Property, obj: Option<GameObject>, objs: seq<GameObject>) returns (collected: seq<GameObject>)
    ensures collected == CollectTargets(property, obj, objs)
  {
    collected := if obj.Some? && IsTarget(property, obj.value) then [obj.value] else [];
    ghost var first := collected;
    var i := 0;
    while i < |objs|
      invariant 0 <= i <= |objs|
      invariant collected == first + FilterTargets(property, objs[..i])
    {
      CollectStep(property, first, objs, i, collected);
      collected := collected + if IsTarget(property, objs[i]) then [objs[i]] else [];
      i := i + 1;
    }
    assert objs[..i] == objs;
  }

  /** One pass of the collecting loop extends the collected list by the next object when it is a target. */
  lemma CollectStep(p: Property, first: seq<GameObject>, objs: seq<GameObject>, i: nat, collected: seq<GameObject>)
    requires i < |objs| && collected == first + FilterTargets(p, objs[..i])
    ensures first + FilterTargets(p, objs[..i + 1]) == collected + if IsTarget(p, objs[i]) then [objs[i]] else []
  {
    FilterTargetsStep(p, objs, i);
  }

  lemma FilterTargetsStep(p: Property, objs: seq<GameObject>, i: nat)
    requires i < |objs|
    ensures FilterTargets(p, objs[..i + 1]) == FilterTargets(p, objs[..i]) + if IsTarget(p, objs[i]) then [objs[i]] else []
  {
    assert objs[..i + 1][..i] == objs[..i];
  }

  class MixedValuesInput {
    const property: Property
    var targets: seq<GameObject>
    var text: string
    var inputEnabled: bool
    var unmixVisible: bool

    /** What `updateLabel` shows for non-empty targets: their value or range, with the input usable and the unmix button hidden exactly when the values agree. */
    ghost predicate LabelShows()
      reads this
    {
      && targets != []
      && text == LabelText(property, Values(property, targets))
      && inputEnabled == !Mixed(Values(property, targets))
      && unmixVisible == Mixed(Values(property, targets))
    }

    /** `init`: collect the targets in order, then show their value. */
    constructor (property: Property, obj: Option<GameObject>, objs: seq<GameObject>)
      ensures this.property == property
      ensures targets == CollectTargets(property, obj, objs)
      ensures targets != [] ==> LabelShows()
    {
      var collected := Collect(property, obj, objs);
      this.property := property;
      targets := collected;
      text := "";
      inputEnabled := true;
      unmixVisible := false;
      new;
      UpdateLabel();
    }

    /** `isMixed`: false with no targets, otherwise whether some target differs from the first. */
    method IsMixed() returns (mixed: bool)
      ensures mixed == Mixed(Values(property, targets))
    {
      if |targets| == 0 {
        return false;
      }
      var value := Get(property, targets[0]);
      var i := 0;
      while i < |targets|
        invariant 0 <= i <= |targets|
        invariant forall k :: 0 <= k < i ==> Get(property, targets[k]) == value
      {
        if Get(property, targets[i]) != value {
          assert Values(property, targets)[i] != Values(property, targets)[0];
          return true;
        }
        i := i + 1;
      }
      return false;
    }

    /** `getMinMax`: the least and greatest value over the (non-empty) targets. */
    method GetMinMax() returns (lo: int, hi: int)
      requires |targets| > 0
      ensures lo in Values(property, targets) && hi in Values(property, targets)
      ensures forall v :: v in Values(property, targets) ==> lo <= v <= hi
      ensures lo == SeqMin(Values(property, targets)) && hi == SeqMax(Values(property, targets))
    {
      ghost var values := Values(property, targets);
      lo, hi := Get(property, targets[0]), Get(property, targets[0]);
      var i := 0;
      while i < |targets|
        invariant 0 <= i <= |targets|
        invariant i == 0 ==> lo == hi == values[0]
        invariant i > 0 ==> lo == SeqMin(values[..i]) && hi == SeqMax(values[..i])
      {
        var value := Get(property, targets[i]);
        if i > 0 {
          MinMaxStep(values, i);
        }
        lo := if value < lo then value else lo;
        hi := if value > hi then value else hi;
        i := i + 1;
      }
      assert values[..i] == values;
    }

    /** `override`: set every target to the clamped value, as a reset. */
    method Override(value: int, updateLabel: bool)
      modifies this
      ensures |targets| == |old(targets)|
      ensures forall k :: 0 <= k < |targets| ==>
        targets[k] == Set(property, old(targets)[k], Clamp(value, Limits(property).0, Limits(property).1), Reset)
      ensures !updateLabel || targets == [] ==> text == old(text) && inputEnabled == old(inputEnabled) && unmixVisible == old(unmixVisible)
      ensures updateLabel && targets != [] ==> LabelShows()
    {
      var clamped := Clamp(value, Limits(property).0, Limits(property).1);
      var i := 0;
      while i < |targets|
        invariant 0 <= i <= |targets| == |old(targets)|
        invariant forall k :: 0 <= k < i ==> targets[k] == Set(property, old(targets)[k], clamped, Reset)
        invariant forall k :: i <= k < |targets| ==> targets[k] == old(targets)[k]
        invariant text == old(text) && inputEnabled == old(inputEnabled) && unmixVisible == old(unmixVisible)
      {
        targets := targets[i := Set(property, targets[i], clamped, Reset)];
        i := i + 1;
      }
      if updateLabel {
        UpdateLabel();
      }
    }

    /** `onArrow`: step every target by the button's tag, as written (wrap into the type, then clamp). */
    method OnArrow(tag: int)
      requires tag == 1 || tag == -1
      modifies this
      ensures |targets| == |old(targets)|
      ensures forall k :: 0 <= k < |targets| ==>
        targets[k] == Set(property, old(targets)[k], ArrowValue(property, Get(property, old(targets)[k]), tag),
                          if tag > 0 then Increment else Decrement)
      ensures targets == [] ==> text == old(text) && inputEnabled == old(inputEnabled) && unmixVisible == old(unmixVisible)
      ensures targets != [] ==> LabelShows()
    {
      var i := 0;
      while i < |targets|
        invariant 0 <= i <= |targets| == |old(targets)|
        invariant forall k :: 0 <= k < i ==> targets[k] == Set(property, old(targets)[k],
          ArrowValue(property, Get(property, old(targets)[k]), tag), if tag > 0 then Increment else Decrement)
        invariant forall k :: i <= k < |targets| ==> targets[k] == old(targets)[k]
        invariant text == old(text) && inputEnabled == old(inputEnabled) && unmixVisible == old(unmixVisible)
      {
        var val := Clamp(Wrap(property, Get(property, targets[i]) + tag), Limits(property).0, Limits(property).1);
        targets := targets[i := Set(property, targets[i], val, if tag > 0 then Increment else Decrement)];
        i := i + 1;
      }
      UpdateLabel();
    }

    /** The unmix button: override every target with the midpoint of the selection's range. */
    method Unmix()
      requires |targets| > 0
      modifies this
      ensures |targets| == |old(targets)|
      ensures var vs := Values(property, old(targets));
        forall k :: 0 <= k < |targets| ==>
          targets[k] == Set(property, old(targets)[k], Clamp(Midpoint(SeqMin(vs), SeqMax(vs)), Limits(property).0, Limits(property).1), Reset)
      ensures LabelShows()
    {
      var lo, hi := GetMinMax();
      ghost var vs := Values(property, targets);
      assert lo == SeqMin(vs) && hi == SeqMax(vs);
      var mid := lo + (hi - lo) / 2;
      assert mid == Midpoint(SeqMin(vs), SeqMax(vs));
      Override(mid, true);
    }

    /**
     * The text input's callback: `numFromString` of the field's type, or 0 when
     * it fails, without relabelling. `parsed` is the text read as an unbounded
     * integer (`None` when it is not one).
     */
    method OnTextChanged(parsed: Option<int>)
      modifies this
      ensures |targets| == |old(targets)|
      ensures forall k :: 0 <= k < |targets| ==>
        targets[k] == Set(property, old(targets)[k], Clamp(TypedNumber(property, parsed), Limits(property).0, Limits(property).1), Reset)
      ensures text == old(text) && inputEnabled == old(inputEnabled) && unmixVisible == old(unmixVisible)
    {
      Override(TypedNumber(property, parsed), false);
    }

    /** `updateLabel`: nothing without targets; otherwise the range (input disabled, unmix shown) or the single value. */
    method UpdateLabel()
      modifies this
      ensures targets == old(targets)
      ensures targets == [] ==> text == old(text) && inputEnabled == old(inputEnabled) && unmixVisible == old(unmixVisible)
      ensures targets != [] ==> LabelShows()
    {
      if |targets| == 0 {
        return;
      }
      var mixed := IsMixed();
      if mixed {
        var lo, hi := GetMinMax();
        inputEnabled := false;
        unmixVisible := true;
        text := IntToString(lo) + ".." + IntToString(hi);
      } else {
        inputEnabled := true;
        unmixVisible := false;
        text := IntToString(Get(property, targets[0]));
      }
      if text == "0" && Placeholder(property).Some? {
        text := "";
      }
    }
  }

  /** `min + (max - min) / 2`; the difference is never negative, so truncating and flooring division agree. */
  function Midpoint(lo: int, hi: int): (m: int)
    requires lo <= hi
    ensures lo <= m <= hi
    ensures m - lo == hi - m || m - lo + 1 == hi - m
  {
    lo + (hi - lo) / 2
  }

  /** After an override of a plain field every target holds the same value, so the selection is no longer mixed. */
  lemma {:induction false} OverrideUnmixes(p: Property, targets: seq<GameObject>, value: int)
    requires p != ZOrder
    ensures var written := SetAll(p, targets, value);
      |Values(p, written)| == |targets|
      && (forall k :: 0 <= k < |targets| ==> Values(p, written)[k] == value)
      && !Mixed(Values(p, written))
  {
    var written := SetAll(p, targets, value);
    forall k | 0 <= k < |targets|
      ensures Values(p, written)[k] == value
    {
      SetTouchesOneField(p, targets[k], value, Reset);
    }
  }

  /** Every target reset to `value`. */
  function SetAll(p: Property, targets: seq<GameObject>, value: int): (r: seq<GameObject>)
    ensures |r| == |targets|
    ensures forall k :: 0 <= k < |targets| ==> r[k] == Set(p, targets[k], value, Reset)
  {
    if targets == [] then [] else SetAll(p, targets[..|targets| - 1], value) + [Set(p, targets[|targets| - 1], value, Reset)]
  }
}
