// The server client's request cache (src/server/Server.cpp): a bounded,
// insertion-ordered list of key/value pairs, the per-function cache built on
// it, and the mapping from an HTTP response to a result.
module Server {
  import opened Wrappers

  const DEFAULT_SIZE_LIMIT: nat := 20

  /** The value of the earliest pair whose key equals `key`. */
  function FindFirst<K(==), V>(values: seq<(K, V)>, key: K): (r: Option<V>)
    ensures r.None? <==> forall i :: 0 <= i < |values| ==> values[i].0 != key
    ensures r.Some? ==> exists i :: (0 <= i < |values| && values[i] == (key, r.value)
      && forall j :: 0 <= j < i ==> values[j].0 != key)
  {
    if values == [] then None
    else if values[0].0 == key then Some(values[0].1)
    else
      var r := FindFirst(values[1..], key);
      assert forall i :: 1 <= i < |values| ==> values[i] == values[1..][i - 1];
      r
  }

  /** Every pair whose key is not `key`, in order. */
  function RemoveKey<K(==), V>(values: seq<(K, V)>, key: K): (r: seq<(K, V)>)
    ensures |r| <= |values|
  {
    if values == [] then []
    else (if values[0].0 == key then [] else [values[0]]) + RemoveKey(values[1..], key)
  }

  /** `add`: below the limit append; at or above it drop the oldest pair, shift the rest left and store the new pair last. */
  function Added<K, V>(values: seq<(K, V)>, sizeLimit: nat, pair: (K, V)): (r: seq<(K, V)>)
    requires |values| > 0 || sizeLimit > 0
  {
    if |values| >= sizeLimit then values[1..] + [pair] else values + [pair]
  }

  /** Adding keeps the size within the limit: one more below it, unchanged at it. */
  lemma AddedSize<K, V>(values: seq<(K, V)>, sizeLimit: nat, pair: (K, V))
    requires 1 <= sizeLimit && |values| <= sizeLimit
    ensures |Added(values, sizeLimit, pair)| == if |values| < sizeLimit then |values| + 1 else |values|
    ensures |Added(values, sizeLimit, pair)| <= sizeLimit
    ensures Added(values, sizeLimit, pair)[|Added(values, sizeLimit, pair)| - 1] == pair
  {
  }

  /** After removing a key nothing is found under it. */
  lemma {:induction false} RemoveKeyForgets<K, V>(values: seq<(K, V)>, key: K)
    ensures FindFirst(RemoveKey(values, key), key).None?
  {
    if values != [] {
      RemoveKeyForgets(values[1..], key);
      var rest := RemoveKey(values[1..], key);
      if values[0].0 != key {
        assert RemoveKey(values, key) == [values[0]] + rest;
        assert ([values[0]] + rest)[1..] == rest;
      }
    }
  }

  /** Removing a key leaves what every other key finds unchanged. */
  lemma {:induction false} RemoveKeyKeepsOthers<K, V>(values: seq<(K, V)>, key: K, other: K)
    requires other != key
    ensures FindFirst(RemoveKey(values, key), other) == FindFirst(values, other)
  {
    if values != [] {
      RemoveKeyKeepsOthers(values[1..], key, other);
      var rest := RemoveKey(values[1..], key);
      if values[0].0 != key {
        assert RemoveKey(values, key) == [values[0]] + rest;
        assert ([values[0]] + rest)[1..] == rest;
      } else {
        assert RemoveKey(values, key) == rest;
      }
    }
  }

  /** Removal keeps exactly the pairs with other keys, in their order. */
  lemma {:induction false} RemoveKeyKeeps<K, V>(values: seq<(K, V)>, key: K)
    ensures forall p :: p in RemoveKey(values, key) <==> p in values && p.0 != key
  {
    if values != [] {
      RemoveKeyKeeps(values[1..], key);
      assert forall p :: p in values <==> p == values[0] || p in values[1..];
    }
  }

  /** A key added while absent is found with its new value: the new pair is always kept, last. */
  lemma {:induction false} AddedAbsentIsFound<K, V>(values: seq<(K, V)>, sizeLimit: nat, key: K, value: V)
    requires 1 <= sizeLimit
    requires FindFirst(values, key).None?
    ensures FindFirst(Added(values, sizeLimit, (key, value)), key) == Some(value)
  {
    var r := Added(values, sizeLimit, (key, value));
    var prefix := if |values| >= sizeLimit then values[1..] else values;
    assert r == prefix + [(key, value)];
    assert forall i :: 0 <= i < |prefix| ==> r[i].0 != key;
    assert r[|prefix|] == (key, value);
  }

  /** `add` never checks for the key: with a copy already held (and not the one evicted) lookups keep returning the older value. */
  lemma {:induction false} AddedDuplicateIsShadowed<K, V>(values: seq<(K, V)>, sizeLimit: nat, key: K, value: V)
    requires 1 <= sizeLimit && |values| > 0
    requires exists i :: (if |values| >= sizeLimit then 1 else 0) <= i < |values| && values[i].0 == key
    requires forall i :: 0 <= i < |values| && values[i].0 == key ==> values[i].1 != value
    ensures FindFirst(Added(values, sizeLimit, (key, value)), key).Some?
    ensures FindFirst(Added(values, sizeLimit, (key, value)), key) != Some(value)
  {
    var r := Added(values, sizeLimit, (key, value));
    var prefix := if |values| >= sizeLimit then values[1..] else values;
    assert r == prefix + [(key, value)];
    var i :| (if |values| >= sizeLimit then 1 else 0) <= i < |values| && values[i].0 == key;
    var j := if |values| >= sizeLimit then i - 1 else i;
    assert r[j] == values[i];
    var found := FindFirst(r, key);
    var k :| 0 <= k < |r| && r[k] == (key, found.value) && forall m :: 0 <= m < k ==> r[m].0 != key;
    assert k <= j;
    assert r[k] == prefix[k];
  }

  /** `CacheMap`: pairs in insertion order, at most `sizeLimit` of them. */
  class CacheMap<K(==), V> {
    var values: seq<(K, V)>
    var sizeLimit: nat

    ghost predicate Valid()
      reads this
    {
      1 <= sizeLimit && |values| <= sizeLimit
    }

    constructor ()
      ensures Valid() && values == [] && sizeLimit == DEFAULT_SIZE_LIMIT
    {
      values := [];
      sizeLimit := DEFAULT_SIZE_LIMIT;
    }

    /** `get`: the value of the earliest-inserted pair with the key. */
    function Get(key: K): Option<V>
      reads this
    {
      FindFirst(values, key)
    }

    /** `add`: store the pair last, evicting the oldest when at the limit. */
    method Add(key: K, value: V)
      requires Valid()
      modifies this
      ensures Valid()
      ensures values == Added(old(values), old(sizeLimit), (key, value)) && sizeLimit == old(sizeLimit)
    {
      var pair := (key, value);
      if |values| >= sizeLimit {
        values := values[1..] + [values[0]];
        values := values[|values| - 1 := pair];
        assert values == old(values)[1..] + [pair];
      } else {
        values := values + [pair];
      }
    }

    /** `remove`: drop every pair with the key. */
    method Remove(key: K)
      requires Valid()
      modifies this
      ensures Valid()
      ensures values == RemoveKey(old(values), key) && sizeLimit == old(sizeLimit)
    {
      values := RemoveKey(values, key);
    }

    /** `clear`: empty, keeping the limit. */
    method Clear()
      requires Valid()
      modifies this
      ensures Valid() && values == [] && sizeLimit == old(sizeLimit)
    {
      values := [];
    }

    /** `limit(size)`: set the limit and empty. */
    method SetLimit(size: nat)
      requires size >= 1
      modifies this
      ensures Valid() && values == [] && sizeLimit == size
    {
      sizeLimit := size;
      values := [];
    }

    function Size(): nat
      reads this
    {
      |values|
    }
  }

  /** The cache key of a call: its arguments followed by `false`, the "use cache" flag the cached call runs with. */
  function CacheKey<A>(args: A): (A, bool)
  {
    (args, false)
  }

  /** `FunCache`: one request cache per server function. */
  class FunCache<A(==), V> {
    const cache: CacheMap<(A, bool), V>
    /** How many times the underlying function ran. */
    var invocations: nat

    ghost predicate Valid()
      reads this, cache
    {
      cache.Valid()
    }

    constructor ()
      ensures Valid() && fresh(cache) && cache.values == [] && invocations == 0
    {
      cache := new CacheMap();
      invocations := 0;
    }

    /** `get`: the cached request for these arguments; on a miss run the function once, with caching off, and keep its request. */
    method Get(args: A, f: (A, bool) -> V) returns (v: V)
      requires Valid()
      modifies this, cache
      ensures Valid() && cache.sizeLimit == old(cache.sizeLimit)
      ensures old(cache.Get(CacheKey(args))).Some? ==>
        v == old(cache.Get(CacheKey(args))).value && invocations == old(invocations) && cache.values == old(cache.values)
      ensures old(cache.Get(CacheKey(args))).None? ==>
        v == f(args, false) && invocations == old(invocations) + 1
        && cache.values == Added(old(cache.values), cache.sizeLimit, (CacheKey(args), v))
        && cache.Get(CacheKey(args)) == Some(v)
    {
      var hit := cache.Get(CacheKey(args));
      if hit.Some? {
        return hit.value;
      }
      v := f(args, false);
      invocations := invocations + 1;
      cache.Add(CacheKey(args), v);
      AddedAbsentIsFound(old(cache.values), cache.sizeLimit, CacheKey(args), v);
    }

    /** `remove`: forget the cached request for these arguments. */
    method Remove(args: A)
      requires Valid()
      modifies cache
      ensures Valid() && cache.sizeLimit == old(cache.sizeLimit)
      ensures cache.values == RemoveKey(old(cache.values), CacheKey(args))
      ensures cache.Get(CacheKey(args)).None?
    {
      cache.Remove(CacheKey(args));
      RemoveKeyForgets(old(cache.values), CacheKey(args));
    }
  }

  // ---------------------------------------------------------------------
  // Response to result

  /** A parsed JSON body, as far as the mapping looks at it. */
  datatype Json = JsonString(text: string) | JsonOther

  /** A finished web response: whether the status is a success, the code, and the body parsed as JSON (None when it is not JSON). */
  datatype Response = Response(ok: bool, code: int, json: Option<Json>)

  const INVALID_JSON: string := "Invalid JSON response - this is a bug in BetterEdit!"
  const INVALID_SCHEMA: string := "Invalid response schema - this is a bug in BetterEdit!"

  /** The error of a failed response: its body when that is a JSON string, otherwise "Unknown error (code N)". */
  function FailureError(r: Response): (e: string)
    ensures r.json.Some? && r.json.value.JsonString? ==> e == r.json.value.text
    ensures !(r.json.Some? && r.json.value.JsonString?) ==> e == "Unknown error (code " + IntToString(r.code) + ")"
  {
    if r.json.Some? && r.json.value.JsonString? then r.json.value.text
    else "Unknown error (code " + IntToString(r.code) + ")"
  }

  /** A request with no result value: success iff the response is ok. */
  function EmptyResult(r: Response): (res: Result<()>)
    ensures res.Ok? <==> r.ok
    ensures !r.ok ==> res == Err(FailureError(r))
  {
    if r.ok then Ok(()) else Err(FailureError(r))
  }

  /** A request whose result is a string: an ok response must carry a JSON string. */
  function StringResult(r: Response): (res: Result<string>)
    ensures res.Ok? <==> r.ok && r.json.Some? && r.json.value.JsonString?
    ensures res.Ok? ==> res.value == r.json.value.text
    ensures r.ok && r.json.None? ==> res == Err(INVALID_JSON)
    ensures r.ok && r.json.Some? && !r.json.value.JsonString? ==> res == Err(INVALID_SCHEMA)
    ensures !r.ok ==> res == Err(FailureError(r))
  {
    if r.ok then
      if r.json.None? then Err(INVALID_JSON)
      else if !r.json.value.JsonString? then Err(INVALID_SCHEMA)
      else Ok(r.json.value.text)
    else Err(FailureError(r))
  }

  /** A request whose result is parsed by the type's schema: a schema error is reported with its own message appended. */
  function ParsedResult<T>(r: Response, parse: Json -> Result<T>): (res: Result<T>)
    ensures res.Ok? <==> r.ok && r.json.Some? && parse(r.json.value).Ok?
    ensures res.Ok? ==> res.value == parse(r.json.value).value
    ensures r.ok && r.json.None? ==> res == Err(INVALID_JSON)
    ensures r.ok && r.json.Some? && parse(r.json.value).Err? ==>
      res == Err(INVALID_SCHEMA + " (Error: " + parse(r.json.value).error + ")")
    ensures !r.ok ==> res == Err(FailureError(r))
  {
    if r.ok then
      if r.json.None? then Err(INVALID_JSON)
      else
        var parsed := parse(r.json.value);
        if parsed.Err? then Err(INVALID_SCHEMA + " (Error: " + parsed.error + ")")
        else Ok(parsed.value)
    else Err(FailureError(r))
  }

  /** Failed responses never succeed, whatever the expected result type. */
  lemma FailureNeverOk<T>(r: Response, parse: Json -> Result<T>)
    requires !r.ok
    ensures EmptyResult(r).Err? && StringResult(r).Err? && ParsedResult(r, parse).Err?
    ensures EmptyResult(r).error == StringResult(r).error == ParsedResult(r, parse).error
  {
  }
}
