// Ownership of the script engine's handles (src/features/scripting/QJS.cpp):
// runtimes, contexts and values as reference-counted handles, the accessors
// that do nothing without a context, the per-runtime registries, and the
// module promise's tick.
module QjsHandles {
  import opened Wrappers
  import JsMarshal

  // ---------------------------------------------------------------------
  // The engine's reference counts

  /** What a value handle holds besides its payload: a context, or a (weak) runtime. Pointer 0 is null. */
  datatype Holder = ContextHolder(ctx: nat) | RuntimeHolder(rt: nat)
  {
    /** The raw pointer the handle holds, null or not. */
    function Raw(): nat
    {
      if ContextHolder? then ctx else rt
    }
  }

  /** A raw engine value: null, an immediate without a count, or a cell with a reference count. */
  datatype Payload = JsNull | Immediate | Counted(cell: nat)

  /** The engine state the handles touch: value and context reference counts, each context's runtime, and the freed runtimes. */
  datatype Heap = Heap(valueRefs: map<nat, int>, contextRefs: map<nat, int>,
                       contextRuntime: map<nat, nat>, freedRuntimes: set<nat>)

  function Count(m: map<nat, int>, k: nat): int
  {
    if k in m then m[k] else 0
  }

  function Bump(m: map<nat, int>, k: nat, d: int): (r: map<nat, int>)
    ensures Count(r, k) == Count(m, k) + d
    ensures forall j :: j != k ==> Count(r, j) == Count(m, j)
  {
    m[k := Count(m, k) + d]
  }

  /** Undoing a bump gives the table back, when the key was already in it. */
  lemma BumpUndo(m: map<nat, int>, k: nat, d: int)
    requires k in m
    ensures Bump(Bump(m, k, d), k, -d) == m
  {
    assert Bump(Bump(m, k, d), k, -d) == m[k := m[k]];
  }

  /** The runtime a holder reaches: a context's own runtime, or the runtime held. */
  function RuntimeOf(h: Heap, holder: Holder): nat
  {
    match holder
    case ContextHolder(c) => if c != 0 && c in h.contextRuntime then h.contextRuntime[c] else 0
    case RuntimeHolder(r) => r
  }

  function DupValue(h: Heap, p: Payload): Heap
  {
    if p.Counted? then h.(valueRefs := Bump(h.valueRefs, p.cell, 1)) else h
  }

  function FreeValue(h: Heap, p: Payload): Heap
  {
    if p.Counted? then h.(valueRefs := Bump(h.valueRefs, p.cell, -1)) else h
  }

  function DupContext(h: Heap, c: nat): Heap
  {
    if c != 0 then h.(contextRefs := Bump(h.contextRefs, c, 1)) else h
  }

  function FreeContext(h: Heap, c: nat): Heap
  {
    if c != 0 then h.(contextRefs := Bump(h.contextRefs, c, -1)) else h
  }

  /** Copying the holder: a context is duplicated; a runtime is copied weakly, with no count. */
  function HolderCopied(h: Heap, holder: Holder): Heap
  {
    if holder.ContextHolder? then DupContext(h, holder.ctx) else h
  }

  /** Destroying the holder: a context is released; a weak runtime is not freed. */
  function HolderDropped(h: Heap, holder: Holder): Heap
  {
    if holder.ContextHolder? then FreeContext(h, holder.ctx) else h
  }

  // ---------------------------------------------------------------------
  // Value handles: own, copy, destroy, move, assign

  /** `Value::own`: the new handle keeps a copy of the context; the payload's count is not touched. */
  function ValueOwned(h: Heap, holder: Holder): (r: Heap)
    ensures r.valueRefs == h.valueRefs
    ensures r.contextRuntime == h.contextRuntime && r.freedRuntimes == h.freedRuntimes
  {
    HolderCopied(h, holder)
  }

  /** `Value::copy`: duplicate the payload when the context (or runtime) pointer is non-null. */
  function ValueCopyOf(h: Heap, holder: Holder, p: Payload): (r: Heap)
    ensures p.Counted? ==> Count(r.valueRefs, p.cell) == Count(h.valueRefs, p.cell) + (if holder.Raw() != 0 then 1 else 0)
    ensures forall k :: (!p.Counted? || k != p.cell) ==> Count(r.valueRefs, k) == Count(h.valueRefs, k)
  {
    var h1 := HolderCopied(h, holder);
    if holder.Raw() != 0 then DupValue(h1, p) else h1
  }

  /** The copy constructor: copy the holder, then duplicate the payload when a runtime is reachable. */
  function ValueCopied(h: Heap, holder: Holder, p: Payload): (r: Heap)
    ensures p.Counted? ==> Count(r.valueRefs, p.cell) == Count(h.valueRefs, p.cell) + (if RuntimeOf(h, holder) != 0 then 1 else 0)
    ensures r.contextRuntime == h.contextRuntime && r.freedRuntimes == h.freedRuntimes
  {
    var h1 := HolderCopied(h, holder);
    if RuntimeOf(h1, holder) != 0 then DupValue(h1, p) else h1
  }

  /** The destructor: release the payload when a runtime is reachable, then the holder. */
  function ValueDropped(h: Heap, holder: Holder, p: Payload): (r: Heap)
    ensures p.Counted? ==> Count(r.valueRefs, p.cell) == Count(h.valueRefs, p.cell) - (if RuntimeOf(h, holder) != 0 then 1 else 0)
    ensures r.contextRuntime == h.contextRuntime && r.freedRuntimes == h.freedRuntimes
  {
    var h1 := if RuntimeOf(h, holder) != 0 then FreeValue(h, p) else h;
    HolderDropped(h1, holder)
  }

  /** The counts a handle's destruction would release are present in the tables. */
  predicate Live(h: Heap, holder: Holder, p: Payload)
  {
    && (holder.ContextHolder? && holder.ctx != 0 ==> holder.ctx in h.contextRefs)
    && (p.Counted? ==> p.cell in h.valueRefs)
  }

  /** Copying a handle and destroying the copy leaves every count as it was. */
  lemma CopyThenDrop(h: Heap, holder: Holder, p: Payload)
    requires Live(h, holder, p)
    ensures ValueDropped(ValueCopied(h, holder, p), holder, p) == h
  {
    var h1 := HolderCopied(h, holder);
    if holder.ContextHolder? && holder.ctx != 0 {
      BumpUndo(h.contextRefs, holder.ctx, 1);
    }
    if p.Counted? {
      BumpUndo(h1.valueRefs, p.cell, 1);
    }
  }

  /** The holder a move leaves behind: the same alternative, with a null pointer. */
  function MovedFrom(holder: Holder): Holder
  {
    if holder.ContextHolder? then ContextHolder(0) else RuntimeHolder(0)
  }

  /** Destroying a moved-from handle releases nothing. */
  lemma MovedFromDropsNothing(h: Heap, holder: Holder)
    ensures ValueDropped(h, MovedFrom(holder), JsNull) == h
  {
  }

  /**
   * Copy-assignment as written: copy the source's holder into a temporary,
   * move it over the target's holder (the target's old context is released
   * only when the alternative changes), and duplicate the payload. The
   * target's old payload is never released.
   */
  function CopyAssigned(h: Heap, dst: Holder, src: Holder, srcPayload: Payload): Heap
  {
    var h1 := HolderCopied(h, src);
    var h2 := if dst.ContextHolder? != src.ContextHolder? then HolderDropped(h1, dst) else h1;
    if RuntimeOf(h2, src) != 0 then DupValue(h2, srcPayload) else h2
  }

  /** Move-assignment as written: the target's old payload, and its old context unless the alternative changes, are not released. */
  function MoveAssigned(h: Heap, dst: Holder, src: Holder): Heap
  {
    if dst.ContextHolder? != src.ContextHolder? then HolderDropped(h, dst) else h
  }

  /** Neither assignment touches the count of the target's old payload when it is a different cell from the source's. */
  lemma AssignmentKeepsOldPayload(h: Heap, dst: Holder, dstPayload: Payload, src: Holder, srcPayload: Payload)
    requires dstPayload.Counted? && (srcPayload.Counted? ==> srcPayload.cell != dstPayload.cell)
    ensures Count(CopyAssigned(h, dst, src, srcPayload).valueRefs, dstPayload.cell) == Count(h.valueRefs, dstPayload.cell)
    ensures Count(MoveAssigned(h, dst, src).valueRefs, dstPayload.cell) == Count(h.valueRefs, dstPayload.cell)
  {
  }

  /** Assignment as evidently intended: release what the target held, then copy the source. */
  function CopyAssignedIntended(h: Heap, dst: Holder, dstPayload: Payload, src: Holder, srcPayload: Payload): Heap
  {
    ValueCopied(ValueDropped(h, dst, dstPayload), src, srcPayload)
  }

  /** With the intended assignment, assigning and then destroying the target balances: it is as if the target had simply been destroyed. */
  lemma IntendedAssignThenDrop(h: Heap, dst: Holder, dstPayload: Payload, src: Holder, srcPayload: Payload)
    requires Live(ValueDropped(h, dst, dstPayload), src, srcPayload)
    ensures ValueDropped(CopyAssignedIntended(h, dst, dstPayload, src, srcPayload), src, srcPayload)
            == ValueDropped(h, dst, dstPayload)
  {
    CopyThenDrop(ValueDropped(h, dst, dstPayload), src, srcPayload);
  }

  /** As written, a target holding the only reference to a cell keeps that reference after being assigned over and destroyed. */
  lemma AssignmentLeaks()
    ensures var h := Heap(map[1 := 1, 2 := 1], map[5 := 2], map[5 := 9], {});
            var afterAssign := CopyAssigned(h, ContextHolder(5), ContextHolder(5), Counted(2));
            && Count(ValueDropped(afterAssign, ContextHolder(5), Counted(2)).valueRefs, 1) == 1
            && Count(ValueDropped(CopyAssignedIntended(h, ContextHolder(5), Counted(1), ContextHolder(5), Counted(2)),
                                  ContextHolder(5), Counted(2)).valueRefs, 1) == 0
  {
  }

  /**
   * The counts after `getProperty` or `getArrayItem` finds a property holding
   * `p`: the engine's lookup hands back a new reference, and the result is
   * wrapped with `Value::copy`, which takes one more.
   */
  function LookupCounts(h: Heap, holder: Holder, p: Payload): Heap
  {
    ValueCopyOf(DupValue(h, p), holder, p)
  }

  /** The lookup as evidently intended: the new reference is adopted with `Value::own`. */
  function LookupCountsIntended(h: Heap, holder: Holder, p: Payload): Heap
  {
    ValueOwned(DupValue(h, p), holder)
  }

  /** As written, a lookup whose result is then destroyed leaves the property's cell one count higher than before, and every other count as it was. */
  lemma LookupLeaks(h: Heap, holder: Holder, p: Payload)
    requires holder.ContextHolder? && RuntimeOf(h, holder) != 0 && Live(h, holder, p)
    ensures ValueDropped(LookupCounts(h, holder, p), holder, p) == DupValue(h, p)
  {
    BumpUndo(h.contextRefs, holder.ctx, 1);
    if p.Counted? {
      BumpUndo(DupValue(h, p).valueRefs, p.cell, 1);
    }
  }

  /** With the intended lookup, destroying the result returns every count to where it was. */
  lemma LookupIntendedBalances(h: Heap, holder: Holder, p: Payload)
    requires holder.ContextHolder? && RuntimeOf(h, holder) != 0 && Live(h, holder, p)
    ensures ValueDropped(LookupCountsIntended(h, holder, p), holder, p) == h
  {
    BumpUndo(h.contextRefs, holder.ctx, 1);
    if p.Counted? {
      BumpUndo(h.valueRefs, p.cell, 1);
    }
  }

  // ---------------------------------------------------------------------
  // Runtime and context handles

  /** A runtime handle frees its runtime on destruction only when it is managed and non-null. */
  function RuntimeDestroyed(h: Heap, raw: nat, managed: bool): (r: Heap)
    ensures r.freedRuntimes == if managed && raw != 0 then h.freedRuntimes + {raw} else h.freedRuntimes
    ensures r.valueRefs == h.valueRefs && r.contextRefs == h.contextRefs
  {
    if managed && raw != 0 then h.(freedRuntimes := h.freedRuntimes + {raw}) else h
  }

  /** `Context::from` and the copy constructor duplicate a non-null pointer; the destructor releases one. */
  lemma ContextCopyThenDrop(h: Heap, c: nat)
    requires c != 0 ==> c in h.contextRefs
    ensures FreeContext(DupContext(h, c), c) == h
  {
    if c != 0 {
      BumpUndo(h.contextRefs, c, 1);
    }
  }

  class RuntimeHandle {
    var raw: nat
    var managed: bool

    /** `Runtime::null()` and `Runtime::weak(rt)`: unmanaged handles. */
    constructor Weak(rt: nat)
      ensures raw == rt && !managed
    {
      raw := rt;
      managed := false;
    }
  }

  class ContextHandle {
    var raw: nat

    constructor (c: nat)
      ensures raw == c
    {
      raw := c;
    }
  }

  class ValueHandle {
    var holder: Holder
    var payload: Payload

    constructor (holder: Holder, payload: Payload)
      ensures this.holder == holder && this.payload == payload
    {
      this.holder := holder;
      this.payload := payload;
    }
  }

  /** The engine: the reference-count tables, and where fresh runtimes and contexts are allocated. */
  class Engine {
    var heap: Heap
    var nextPointer: nat

    constructor ()
      ensures heap == Heap(map[], map[], map[], {}) && nextPointer == 1
    {
      heap := Heap(map[], map[], map[], {});
      nextPointer := 1;
    }

    /** `Runtime::create()`: a fresh, managed runtime. */
    method CreateRuntime() returns (r: RuntimeHandle)
      requires nextPointer > 0
      modifies this
      ensures fresh(r) && r.raw == old(nextPointer) && r.managed
      ensures nextPointer == old(nextPointer) + 1 && heap == old(heap)
    {
      r := new RuntimeHandle.Weak(nextPointer);
      r.managed := true;
      nextPointer := nextPointer + 1;
    }

    /** `Runtime(Runtime&&)`: take over the pointer and leave the source null. */
    method MoveRuntime(src: RuntimeHandle) returns (dst: RuntimeHandle)
      modifies src
      ensures fresh(dst) && dst.raw == old(src.raw) && dst.managed == old(src.managed)
      ensures src.raw == 0 && src.managed == old(src.managed)
    {
      dst := new RuntimeHandle.Weak(src.raw);
      dst.managed := src.managed;
      src.raw := 0;
    }

    /** `Runtime::operator=(Runtime&&)`: the target's old runtime is overwritten, not freed. */
    method MoveAssignRuntime(dst: RuntimeHandle, src: RuntimeHandle)
      requires dst != src
      modifies dst, src
      ensures dst.raw == old(src.raw) && dst.managed == old(src.managed) && src.raw == 0
      ensures unchanged(this)
    {
      dst.raw := src.raw;
      dst.managed := src.managed;
      src.raw := 0;
    }

    /** `~Runtime`. */
    method DestroyRuntime(r: RuntimeHandle)
      modifies this
      ensures heap == RuntimeDestroyed(old(heap), r.raw, r.managed) && nextPointer == old(nextPointer)
    {
      if r.managed && r.raw != 0 {
        heap := heap.(freedRuntimes := heap.freedRuntimes + {r.raw});
      }
    }

    /** `Context::create(rt)`: a fresh context with one reference, not duplicated again. */
    method CreateContext(rt: RuntimeHandle) returns (c: ContextHandle)
      requires rt.raw != 0 && nextPointer > 0
      modifies this
      ensures fresh(c) && c.raw == old(nextPointer) && nextPointer == old(nextPointer) + 1
      ensures heap == old(heap).(contextRefs := old(heap.contextRefs)[c.raw := 1],
                                 contextRuntime := old(heap.contextRuntime)[c.raw := rt.raw])
    {
      c := new ContextHandle(nextPointer);
      heap := heap.(contextRefs := heap.contextRefs[nextPointer := 1],
                    contextRuntime := heap.contextRuntime[nextPointer := rt.raw]);
      nextPointer := nextPointer + 1;
    }

    /** `Context::from(ptr)` and the copy constructor: duplicate when non-null. */
    method CopyContext(raw: nat) returns (c: ContextHandle)
      modifies this
      ensures fresh(c) && c.raw == raw
      ensures heap == DupContext(old(heap), raw) && nextPointer == old(nextPointer)
    {
      c := new ContextHandle(raw);
      heap := DupContext(heap, raw);
    }

    /** `Context::operator=(Context const&)`: duplicate the new pointer; the old one is not released. */
    method CopyAssignContext(dst: ContextHandle, src: ContextHandle)
      modifies this, dst
      ensures dst.raw == old(src.raw)
      ensures heap == DupContext(old(heap), old(src.raw)) && nextPointer == old(nextPointer)
    {
      dst.raw := src.raw;
      heap := DupContext(heap, dst.raw);
    }

    /** `Context(Context&&)` and `operator=(Context&&)`: no count changes; the source becomes null and the target's old pointer is not released. */
    method MoveAssignContext(dst: ContextHandle, src: ContextHandle)
      requires dst != src
      modifies dst, src
      ensures dst.raw == old(src.raw) && src.raw == 0
      ensures unchanged(this)
    {
      dst.raw := src.raw;
      src.raw := 0;
    }

    /** `~Context`: release when non-null. */
    method DestroyContext(c: ContextHandle)
      modifies this
      ensures heap == FreeContext(old(heap), c.raw) && nextPointer == old(nextPointer)
    {
      heap := FreeContext(heap, c.raw);
    }

    /** `Value::own`. */
    method OwnValue(holder: Holder, p: Payload) returns (v: ValueHandle)
      modifies this
      ensures fresh(v) && v.holder == holder && v.payload == p
      ensures heap == ValueOwned(old(heap), holder) && nextPointer == old(nextPointer)
    {
      v := new ValueHandle(holder, p);
      heap := HolderCopied(heap, holder);
    }

    /** `Value::copy`. */
    method CopyOfValue(holder: Holder, p: Payload) returns (v: ValueHandle)
      modifies this
      ensures fresh(v) && v.holder == holder && v.payload == p
      ensures heap == ValueCopyOf(old(heap), holder, p) && nextPointer == old(nextPointer)
    {
      heap := HolderCopied(heap, holder);
      if holder.Raw() != 0 {
        heap := DupValue(heap, p);
      }
      v := new ValueHandle(holder, p);
    }

    /** `Value(Value const&)`. */
    method CopyValue(src: ValueHandle) returns (dst: ValueHandle)
      modifies this
      ensures fresh(dst) && dst.holder == src.holder && dst.payload == src.payload
      ensures heap == ValueCopied(old(heap), src.holder, src.payload) && nextPointer == old(nextPointer)
    {
      dst := new ValueHandle(src.holder, src.payload);
      heap := HolderCopied(heap, dst.holder);
      if RuntimeOf(heap, dst.holder) != 0 {
        heap := DupValue(heap, dst.payload);
      }
    }

    /** `Value(Value&&)`: the source keeps its alternative with a null pointer and a null payload. */
    method MoveValue(src: ValueHandle) returns (dst: ValueHandle)
      modifies src
      ensures fresh(dst) && dst.holder == old(src.holder) && dst.payload == old(src.payload)
      ensures src.holder == MovedFrom(old(src.holder)) && src.payload == JsNull
      ensures unchanged(this)
    {
      dst := new ValueHandle(src.holder, src.payload);
      src.holder := MovedFrom(src.holder);
      src.payload := JsNull;
    }

    /** `Value::operator=(Value const&)`. */
    method CopyAssignValue(dst: ValueHandle, src: ValueHandle)
      modifies this, dst
      ensures dst.holder == old(src.holder) && dst.payload == old(src.payload)
      ensures heap == CopyAssigned(old(heap), old(dst.holder), old(src.holder), old(src.payload))
      ensures nextPointer == old(nextPointer)
    {
      var srcHolder, srcPayload := src.holder, src.payload;
      heap := HolderCopied(heap, srcHolder);
      if dst.holder.ContextHolder? != srcHolder.ContextHolder? {
        heap := HolderDropped(heap, dst.holder);
      }
      dst.holder, dst.payload := srcHolder, srcPayload;
      if RuntimeOf(heap, dst.holder) != 0 {
        heap := DupValue(heap, dst.payload);
      }
    }

    /** `Value::operator=(Value&&)`. */
    method MoveAssignValue(dst: ValueHandle, src: ValueHandle)
      requires dst != src
      modifies this, dst, src
      ensures dst.holder == old(src.holder) && dst.payload == old(src.payload)
      ensures src.holder == MovedFrom(old(src.holder)) && src.payload == JsNull
      ensures heap == MoveAssigned(old(heap), old(dst.holder), old(src.holder)) && nextPointer == old(nextPointer)
    {
      heap := MoveAssigned(heap, dst.holder, src.holder);
      dst.holder, dst.payload := src.holder, src.payload;
      src.holder, src.payload := MovedFrom(src.holder), JsNull;
    }

    /** `~Value`. */
    method DestroyValue(v: ValueHandle)
      modifies this
      ensures heap == ValueDropped(old(heap), v.holder, v.payload) && nextPointer == old(nextPointer)
    {
      if RuntimeOf(heap, v.holder) != 0 {
        heap := FreeValue(heap, v.payload);
      }
      heap := HolderDropped(heap, v.holder);
    }
  }

  // ---------------------------------------------------------------------
  // Accessors without a context

  /** `toBool`: false without a context. */
  function ToBool(holder: Holder, v: JsMarshal.JsVal): (r: bool)
    ensures holder.RuntimeHolder? ==> !r
    ensures holder.ContextHolder? ==> r == JsMarshal.ToBool(v)
  {
    if holder.RuntimeHolder? then false else JsMarshal.ToBool(v)
  }

  /** `toInt32`: none without a context; with one, the engine's conversion (`convert`) decides, exactly for numbers. */
  function ToInt32(holder: Holder, v: JsMarshal.JsVal, convert: JsMarshal.JsVal -> Option<int>): (r: Option<int>)
    ensures holder.RuntimeHolder? ==> r.None?
    ensures holder.ContextHolder? && JsMarshal.IsNumber(v) ==> r == Some(JsMarshal.NumberToInt32(v))
  {
    if holder.RuntimeHolder? then None
    else if JsMarshal.IsNumber(v) then Some(JsMarshal.NumberToInt32(v))
    else convert(v)
  }

  /** `toNumber`: none without a context. */
  function ToNumber(holder: Holder, v: JsMarshal.JsVal, convert: JsMarshal.JsVal -> Option<JsMarshal.Float>): (r: Option<JsMarshal.Float>)
    ensures holder.RuntimeHolder? ==> r.None?
    ensures holder.ContextHolder? && JsMarshal.IsNumber(v) ==> r == Some(JsMarshal.NumberToFloat(v))
  {
    if holder.RuntimeHolder? then None
    else if JsMarshal.IsNumber(v) then Some(JsMarshal.NumberToFloat(v))
    else convert(v)
  }

  /**
   * `toString`: "" without a context; otherwise the engine's text of the
   * value (`convert` for a non-string), read back as a C string, so it stops
   * at the first NUL.
   */
  function ToText(holder: Holder, v: JsMarshal.JsVal, convert: JsMarshal.JsVal -> string): (r: string)
    ensures holder.RuntimeHolder? ==> r == ""
    ensures '\0' !in r
    ensures holder.ContextHolder? && v.Str? ==> r == JsMarshal.UpToNul(v.s)
    ensures holder.ContextHolder? && v.Str? && '\0' !in v.s ==> r == v.s
  {
    if holder.RuntimeHolder? then "" else JsMarshal.UpToNul(if v.Str? then v.s else convert(v))
  }

  /** The value of the first own property called `name`. */
  function FindProperty(props: seq<(string, JsMarshal.JsVal)>, name: string): (r: Option<JsMarshal.JsVal>)
    ensures r.None? <==> forall i :: 0 <= i < |props| ==> props[i].0 != name
    ensures r.Some? ==> (name, r.value) in props
  {
    if props == [] then None
    else if props[0].0 == name then Some(props[0].1)
    else FindProperty(props[1..], name)
  }

  /** `getProperty`: none without a context, on a non-object, or when the property is absent. */
  function GetProperty(holder: Holder, v: JsMarshal.JsVal, name: string): (r: Option<JsMarshal.JsVal>)
    ensures holder.RuntimeHolder? || !JsMarshal.IsObject(v) ==> r.None?
    ensures holder.ContextHolder? && JsMarshal.IsObject(v) ==>
              (r.Some? <==> exists i :: 0 <= i < |JsMarshal.Properties(v)| && JsMarshal.Properties(v)[i].0 == name)
  {
    if holder.RuntimeHolder? || !JsMarshal.IsObject(v) then None
    else FindProperty(JsMarshal.Properties(v), name)
  }

  /**
   * `getArrayItem`: none without a context or on a non-object; on an array,
   * none past the end or at a hole; on any other object, the property whose
   * name is the index written in decimal.
   */
  function GetArrayItem(holder: Holder, v: JsMarshal.JsVal, index: nat): (r: Option<JsMarshal.JsVal>)
    ensures v.Arr? ==> (r.Some? <==> holder.ContextHolder? && index < |v.slots| && v.slots[index].Some?)
    ensures v.Arr? && r.Some? ==> r == v.slots[index]
    ensures !v.Arr? ==> r == GetProperty(holder, v, NatToString(index))
  {
    if v.Arr? then (if holder.ContextHolder? && index < |v.slots| then v.slots[index] else None)
    else GetProperty(holder, v, NatToString(index))
  }

  /** The bound on array indices: an index is below 2^32 - 1 (section 6.1.7 of ECMA-262). */
  const MAX_ARRAY_INDEX_BOUND: nat := 0xFFFF_FFFF

  /** The value of a string of decimal digits. */
  function DecimalValue(s: string): nat
    requires forall i :: 0 <= i < |s| ==> '0' <= s[i] <= '9'
  {
    if s == [] then 0 else DecimalValue(s[..|s| - 1]) * 10 + (s[|s| - 1] as int - '0' as int)
  }

  /** Digits without a leading zero (a lone "0" is allowed): the canonical spelling of a number. */
  predicate CanonicalDecimal(s: string)
  {
    && |s| >= 1
    && (forall i :: 0 <= i < |s| ==> '0' <= s[i] <= '9')
    && (|s| == 1 || s[0] != '0')
  }

  lemma {:induction false} CanonicalDecimalPositive(s: string)
    requires CanonicalDecimal(s) && |s| > 1
    ensures DecimalValue(s) >= 10
  {
    var init := s[..|s| - 1];
    assert init[0] == s[0];
    if |init| > 1 {
      CanonicalDecimalPositive(init);
    }
  }

  /** A canonical digit string is the decimal spelling of its value. */
  lemma {:induction false} CanonicalDecimalSpells(s: string)
    requires CanonicalDecimal(s)
    ensures NatToString(DecimalValue(s)) == s
  {
    if |s| > 1 {
      var init := s[..|s| - 1];
      assert init[0] == s[0];
      CanonicalDecimalSpells(init);
      CanonicalDecimalPositive(s);
      var d := s[|s| - 1] as int - '0' as int;
      assert DecimalValue(s) / 10 == DecimalValue(init) && DecimalValue(s) % 10 == d;
      assert s == init + [s[|s| - 1]];
    }
  }

  /** The decimal spelling of a number is canonical and reads back as the number. */
  lemma {:induction false} SpellingIsCanonical(n: nat)
    ensures CanonicalDecimal(NatToString(n)) && DecimalValue(NatToString(n)) == n
    decreases n
  {
    if n >= 10 {
      SpellingIsCanonical(n / 10);
      var s := NatToString(n);
      var init := NatToString(n / 10);
      assert s == init + [DigitChar(n % 10)];
      assert s[..|s| - 1] == init;
      assert s[0] == init[0];
      if |init| > 1 {
        CanonicalDecimalPositive(init);
      }
    }
  }

  /**
   * The array index a property name denotes, if any: the canonical decimal
   * spelling of a number below 2^32 - 1. Any other name is a plain key.
   */
  function ArrayIndexOf(name: string): (r: Option<nat>)
    ensures r.Some? ==> r.value < MAX_ARRAY_INDEX_BOUND && NatToString(r.value) == name
  {
    if CanonicalDecimal(name) && DecimalValue(name) < MAX_ARRAY_INDEX_BOUND then
      CanonicalDecimalSpells(name);
      Some(DecimalValue(name))
    else None
  }

  /** Every index below 2^32 - 1 is denoted by exactly its decimal spelling. */
  lemma IndexSpellingRoundTrip(n: nat)
    requires n < MAX_ARRAY_INDEX_BOUND
    ensures ArrayIndexOf(NatToString(n)) == Some(n)
  {
    SpellingIsCanonical(n);
  }

  /** An array's slots after storing `x` at `index`: the slot is replaced, or the array grows with holes up to it. */
  function StoreSlot(slots: seq<Option<JsMarshal.JsVal>>, index: nat, x: JsMarshal.JsVal): (r: seq<Option<JsMarshal.JsVal>>)
    ensures |r| == if index < |slots| then |slots| else index + 1
    ensures r[index] == Some(x)
    ensures forall i :: 0 <= i < |slots| && i != index ==> r[i] == slots[i]
    ensures forall i :: |slots| <= i < index ==> r[i].None?
  {
    if index < |slots| then slots[index := Some(x)]
    else slots + seq(index - |slots|, _ => None) + [Some(x)]
  }

  /**
   * `setProperty` (a plain store): a no-op without a context. On a plain
   * object the property is replaced or added last; on an array a name that
   * spells an index stores that slot, growing the array with holes as
   * needed. A primitive keeps its value (the engine leaves a TypeError
   * pending instead).
   */
  function SetProperty(holder: Holder, v: JsMarshal.JsVal, name: string, x: JsMarshal.JsVal): (r: JsMarshal.JsVal)
    ensures holder.RuntimeHolder? ==> r == v
    ensures !JsMarshal.IsObject(v) ==> r == v
    ensures holder.ContextHolder? && v.Obj? ==> r.Obj? && FindProperty(r.props, name) == Some(x)
    ensures holder.ContextHolder? && v.Arr? && ArrayIndexOf(name).Some? ==>
              var index := ArrayIndexOf(name).value;
              r.Arr? && GetArrayItem(holder, r, index) == Some(x)
              && (forall i :: 0 <= i < |v.slots| && i != index ==> GetArrayItem(holder, r, i) == GetArrayItem(holder, v, i))
  {
    if holder.RuntimeHolder? then v
    else if v.Obj? then JsMarshal.Obj(Assign(v.props, name, x))
    else if v.Arr? && ArrayIndexOf(name).Some? then JsMarshal.Arr(StoreSlot(v.slots, ArrayIndexOf(name).value, x))
    else v
  }

  function Assign(props: seq<(string, JsMarshal.JsVal)>, name: string, x: JsMarshal.JsVal): (r: seq<(string, JsMarshal.JsVal)>)
    ensures FindProperty(r, name) == Some(x)
    ensures forall other :: other != name ==> FindProperty(r, other) == FindProperty(props, other)
  {
    if props == [] then [(name, x)]
    else if props[0].0 == name then [(name, x)] + props[1..]
    else [props[0]] + Assign(props[1..], name, x)
  }

  /**
   * `push`: store at index `length`; a no-op without a context. On an array
   * that is one past its last slot; on a plain object it is the key the
   * engine's length of that object spells (`objectLength`, 0 when the object
   * has no `length` property).
   */
  function Push(holder: Holder, v: JsMarshal.JsVal, x: JsMarshal.JsVal, objectLength: nat): (r: JsMarshal.JsVal)
    ensures holder.RuntimeHolder? || !(v.Arr? || v.Obj?) ==> r == v
    ensures holder.ContextHolder? && v.Arr? ==> r.Arr? && r.slots == v.slots + [Some(x)]
    ensures holder.ContextHolder? && v.Obj? ==>
              r.Obj? && GetProperty(holder, r, NatToString(objectLength)) == Some(x)
              && forall name :: name != NatToString(objectLength) ==> GetProperty(holder, r, name) == GetProperty(holder, v, name)
  {
    if holder.RuntimeHolder? then v
    else if v.Arr? then JsMarshal.Arr(v.slots + [Some(x)])
    else if v.Obj? then SetProperty(holder, v, NatToString(objectLength), x)
    else v
  }

  // ---------------------------------------------------------------------
  // Module tick

  /** The states of a promise (section 27.2 of ECMA-262). */
  datatype PromiseState = Pending | Fulfilled(result: JsMarshal.JsVal) | Rejected(reason: string)

  /** What running one pending job did: nothing to run, ran one, or threw (with the exception's text). */
  datatype JobOutcome = NoJob | RanJob | Threw(exception: string)

  /**
   * `Module::tick`: with no promise state (not a promise, or no context) or a
   * null module context, nothing; fulfilled gives the result; rejected the
   * reason's text; pending runs one job and fails only if it threw.
   */
  function Tick(hasContext: bool, state: Option<PromiseState>, job: JobOutcome): (r: Result<Option<JsMarshal.JsVal>>)
    ensures state.None? || !hasContext ==> r == Ok(None)
    ensures hasContext && state == Some(Pending) ==> (r.Err? <==> job.Threw?)
    ensures hasContext && state == Some(Pending) && job.Threw? ==> r == Err(job.exception)
    ensures hasContext && state.Some? && state.value.Fulfilled? ==> r == Ok(Some(state.value.result))
    ensures hasContext && state.Some? && state.value.Rejected? ==> r == Err(state.value.reason)
    ensures r.Ok? && r.value.Some? ==> hasContext && state.Some? && state.value.Fulfilled?
  {
    if state.None? || !hasContext then Ok(None)
    else match state.value
      case Fulfilled(result) => Ok(Some(result))
      case Rejected(reason) => Err(reason)
      case Pending => if job.Threw? then Err(job.exception) else Ok(None)
  }

  // ---------------------------------------------------------------------
  // Per-runtime registries

  /** The function-id counter, one for the whole program. */
  class IdCounter {
    var last: int

    constructor ()
      ensures last == 0
    {
      last := 0;
    }
  }

  /** `Runtime::OpaqueData`: the host functions, class ids and class finalizers of one runtime. */
  class OpaqueData<F> {
    const counter: IdCounter
    var functions: map<int, F>
    var classes: map<string, nat>
    var finalizers: map<nat, F>

    ghost predicate Valid()
      reads this, counter
    {
      forall id :: id in functions ==> id <= counter.last
    }

    constructor (counter: IdCounter)
      ensures this.counter == counter && Valid()
      ensures functions == map[] && classes == map[] && finalizers == map[]
    {
      this.counter := counter;
      functions := map[];
      classes := map[];
      finalizers := map[];
    }

    /** `addFunction`: the next id of the shared counter, registered here. */
    method AddFunction(f: F) returns (id: int)
      requires Valid()
      modifies this, counter
      ensures Valid()
      ensures id == old(counter.last) + 1 && counter.last == id
      ensures id !in old(functions) && functions == old(functions)[id := f]
      ensures classes == old(classes) && finalizers == old(finalizers)
    {
      counter.last := counter.last + 1;
      id := counter.last;
      functions := functions[id := f];
    }

    /**
     * `Runtime::createClass`, given the id the engine allocated and whether
     * the engine accepted the class: only on success are the name and the
     * finalizer registered, both under that id (a name or id already
     * registered keeps its first entry).
     */
    method CreateClass(name: string, finalizer: F, id: nat, accepted: bool) returns (r: Result<nat>)
      modifies this
      ensures !accepted ==> r == Err("Unable to create class") && unchanged(this)
      ensures accepted ==> r == Ok(id) && functions == old(functions)
      ensures accepted ==> classes == (if name in old(classes) then old(classes) else old(classes)[name := id])
      ensures accepted ==> finalizers == (if id in old(finalizers) then old(finalizers) else old(finalizers)[id := finalizer])
    {
      if !accepted {
        return Err("Unable to create class");
      }
      if name !in classes {
        classes := classes[name := id];
      }
      if id !in finalizers {
        finalizers := finalizers[id := finalizer];
      }
      return Ok(id);
    }

    /** `getClass`. */
    function GetClass(name: string): (r: Option<nat>)
      reads this
      ensures r.Some? <==> name in classes
      ensures r.Some? ==> r.value == classes[name]
    {
      if name in classes then Some(classes[name]) else None
    }
  }
}
