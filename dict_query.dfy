/** `DictQuery.get` (bot.py:15-32): walking a `/`-separated key path through
    a parsed JSON document. */
module DictQuery {
  import opened Results
  import opened JsonValues
  import opened Text

  /** `d.get(key, default)` on a value that must be a dict: anything else has
      no `get` method, so the call raises. */
  function DictGet(v: Json, key: string, default: Json): (r: Result<Json>)
    ensures r.Ok? <==> v.JObj?
    ensures v.JObj? && key in v.fields ==> r == Ok(v.fields[key])
    ensures v.JObj? && key !in v.fields ==> r == Ok(default)
  {
    match v
    case JObj(m) => Ok(if key in m then m[key] else default)
    case _ => Err
  }

  /** What the comprehension puts in place of one element `v` of a list
      that does not raise: `v.get(key, default)` if `v` is truthy (and so a
      dict), `None` if it is falsy. */
  function Pick(v: Json, key: string, default: Json): Json
  {
    if !Truthy(v) then JNull
    else match v
      case JObj(m) => if key in m then m[key] else default
      case _ => JNull
  }

  /** The list comprehension of bot.py:23: every truthy element is asked for
      `key`, every falsy one becomes `None`. */
  function FanOut(items: seq<Json>, key: string, default: Json): (r: Result<seq<Json>>)
    ensures r.Ok? <==> forall k :: 0 <= k < |items| && Truthy(items[k]) ==> items[k].JObj?
    ensures r.Ok? ==> |r.value| == |items|
  {
    if items == [] then Ok([])
    else
      var head := if Truthy(items[0]) then DictGet(items[0], key, default) else Ok(JNull);
      match head
      case Err => Err
      case Ok(v) =>
        match FanOut(items[1..], key, default)
        case Err => Err
        case Ok(vs) => Ok([v] + vs)
  }

  /** The comprehension puts `Pick` of each element in its place. */
  lemma {:induction false} FanOutElements(items: seq<Json>, key: string, default: Json)
    ensures var r := FanOut(items, key, default);
      r.Ok? ==> forall k :: 0 <= k < |items| ==> r.value[k] == Pick(items[k], key, default)
  {
    if items != [] {
      FanOutElements(items[1..], key, default);
      var r := FanOut(items, key, default);
      if r.Ok? {
        forall k | 0 <= k < |items|
          ensures r.value[k] == Pick(items[k], key, default)
        {
          if k > 0 {
            assert items[1..][k - 1] == items[k];
          }
        }
      }
    }
  }

  /** `pre` in front of the pieces of a fan-out, if it did not raise. */
  function Prepend(pre: seq<Json>, r: Result<seq<Json>>): Result<seq<Json>>
  {
    match r
    case Err => Err
    case Ok(vs) => Ok(pre + vs)
  }

  /** Taking one more element of a fan-out into the prefix. */
  lemma PrependStep(pre: seq<Json>, v: Json, r: Result<seq<Json>>)
    ensures Prepend(pre, Prepend([v], r)) == Prepend(pre + [v], r)
  {
    if r.Ok? {
      assert pre + ([v] + r.value) == (pre + [v]) + r.value;
    }
  }

  /** The fan-out of a suffix, one element at a time. */
  lemma FanOutCons(items: seq<Json>, k: nat, key: string, default: Json)
    requires k < |items|
    ensures FanOut(items[k..], key, default) ==
      if Truthy(items[k]) && !items[k].JObj? then Err
      else Prepend([Pick(items[k], key, default)], FanOut(items[k + 1..], key, default))
  {
    assert items[k..][0] == items[k] && items[k..][1..] == items[k + 1..];
  }

  /** One step below the first key, taken only on a truthy value: a list is
      fanned out, anything else is asked for `key` directly. */
  function Descend(v: Json, key: string, default: Json): Result<Json>
  {
    if v.JArr? then
      match FanOut(v.items, key, default)
      case Err => Err
      case Ok(vs) => Ok(JArr(vs))
    else DictGet(v, key, default)
  }

  /** The rest of the walk from the value reached so far: it stops at the
      first falsy value, or when the keys run out, and returns that value. */
  function Walk(v: Json, keys: seq<string>, default: Json): Result<Json>
    decreases |keys|
  {
    if keys == [] || !Truthy(v) then Ok(v)
    else
      match Descend(v, keys[0], default)
      case Err => Err
      case Ok(next) => Walk(next, keys[1..], default)
  }

  /** What `DictQuery(root).get(...)` returns for the split path `keys`: the
      first key is looked up in the root dict itself, the rest by `Walk`. */
  function Query(root: map<string, Json>, keys: seq<string>, default: Json): Result<Json>
  {
    if keys == [] then Ok(JNull)
    else Walk(if keys[0] in root then root[keys[0]] else default, keys[1..], default)
  }

  /** The list comprehension of bot.py:23, element by element. */
  method FanOutList(items: seq<Json>, key: string, default: Json) returns (r: Result<seq<Json>>)
    ensures r == FanOut(items, key, default)
  {
    var mapped: seq<Json> := [];
    var k := 0;
    assert items[k..] == items;
    if FanOut(items, key, default).Ok? {
      assert [] + FanOut(items, key, default).value == FanOut(items, key, default).value;
    }
    while k < |items|
      invariant 0 <= k <= |items|
      invariant FanOut(items, key, default) == Prepend(mapped, FanOut(items[k..], key, default))
    {
      var v := items[k];
      FanOutCons(items, k, key, default);
      if Truthy(v) && !v.JObj? {
        return Err;
      }
      var got := if Truthy(v) then (if key in v.fields then v.fields[key] else default) else JNull;
      PrependStep(mapped, got, FanOut(items[k + 1..], key, default));
      mapped := mapped + [got];
      k := k + 1;
    }
    assert items[k..] == [];
    assert mapped + [] == mapped;
    r := Ok(mapped);
  }

  /** `DictQuery(root).get(path, default)`, as the loop of bot.py:17-32 runs it. */
  method Get(root: map<string, Json>, path: string, default: Json) returns (r: Result<Json>)
    ensures r == Query(root, Split(path, '/'), default)
  {
    var keys := Split(path, '/');
    var val := JNull;
    var i := 0;
    while i < |keys|
      invariant 0 <= i <= |keys|
      invariant i == 0 ==> val == JNull
      invariant i > 0 ==> Truthy(val) && Query(root, keys, default) == Walk(val, keys[i..], default)
    {
      var key := keys[i];
      assert keys[i..][0] == key && keys[i..][1..] == keys[i + 1..];
      if Truthy(val) {
        if val.JArr? {
          var mapped := FanOutList(val.items, key, default);
          if mapped.Err? {
            return Err;
          }
          val := JArr(mapped.value);
        } else {
          if !val.JObj? {
            return Err;
          }
          val := if key in val.fields then val.fields[key] else default;
        }
      } else {
        val := if key in root then root[key] else default;
      }
      assert Query(root, keys, default) == Walk(val, keys[i + 1..], default);
      if !Truthy(val) {
        break;
      }
      i := i + 1;
    }
    r := Ok(val);
  }

  /** Plain optional chaining (`root?.k1?.k2...`), the typed accessor the
      path walk is meant to provide: where it ends up. `depth` counts the
      keys already taken, so that a key missing from the root dict can be
      told apart from one missing further down. */
  datatype Chain =
    | Found(v: Json)                                  // every key was present
    | Missing(obj: map<string, Json>, depth: nat)     // key number `depth` is not in `obj`
    | NotObject(v: Json, rest: seq<string>)           // the keys `rest` remain but `v` is no dict

  function Follow(j: Json, keys: seq<string>, depth: nat): Chain
    decreases |keys|
  {
    if keys == [] then Found(j)
    else
      match j
      case JObj(m) => if keys[0] in m then Follow(m[keys[0]], keys[1..], depth + 1) else Missing(m, depth)
      case _ => NotObject(j, keys)
  }

  /** What happens to one element of a list the walk has fanned out: every
      remaining key is asked of it while it is truthy, and once it is falsy
      it becomes `None` for every later key instead of stopping the walk. */
  function ElemWalk(x: Json, keys: seq<string>, default: Json): Result<Json>
    decreases |keys|
  {
    if keys == [] then Ok(x)
    else if !Truthy(x) then ElemWalk(JNull, keys[1..], default)
    else
      match DictGet(x, keys[0], default)
      case Err => Err
      case Ok(y) => ElemWalk(y, keys[1..], default)
  }

  /** `r` is the walk of the list `xs` over `keys`, element by element: it
      raises exactly when some element's walk raises, and otherwise is the
      list of the elements' results. */
  ghost predicate FannedOut(xs: seq<Json>, keys: seq<string>, default: Json, r: Result<Json>)
  {
    && (r.Ok? <==> forall k :: 0 <= k < |xs| ==> ElemWalk(xs[k], keys, default).Ok?)
    && (r.Ok? ==>
          && r.value.JArr? && |r.value.items| == |xs|
          && (forall k :: 0 <= k < |xs| ==> Ok(r.value.items[k]) == ElemWalk(xs[k], keys, default)))
  }

  /** How the path walk's answer `r` relates to where optional chaining ends
      up, for a falsy default: a present path gives its value; a missing key
      gives the default, except below an empty dict, which is falsy and is
      returned itself; a falsy non-dict is returned; a truthy scalar raises;
      a non-empty list is fanned out element by element over the remaining
      keys. */
  ghost predicate Agrees(c: Chain, r: Result<Json>, default: Json)
  {
    match c
    case Found(w) => r == Ok(w)
    case Missing(m, depth) => r == Ok(if depth > 0 && m == map[] then JObj(m) else default)
    case NotObject(u, rest) =>
      if !Truthy(u) then r == Ok(u)
      else if u.JArr? then FannedOut(u.items, rest, default, r)
      else r.Err?
  }

  /** Walking from a non-empty list walks each element on its own. */
  lemma {:induction false} WalkFansOut(xs: seq<Json>, keys: seq<string>, default: Json)
    requires xs != []
    ensures FannedOut(xs, keys, default, Walk(JArr(xs), keys, default))
    decreases |keys|
  {
    if keys != [] {
      match FanOut(xs, keys[0], default)
      case Err =>
        var k :| 0 <= k < |xs| && Truthy(xs[k]) && !xs[k].JObj?;
        assert ElemWalk(xs[k], keys, default).Err?;
      case Ok(ys) =>
        FanOutElements(xs, keys[0], default);
        WalkFansOut(ys, keys[1..], default);
        forall k | 0 <= k < |xs|
          ensures ElemWalk(xs[k], keys, default) == ElemWalk(ys[k], keys[1..], default)
        {
        }
    }
  }

  /** Along a present path the walk returns the value at its end, whatever
      the default. */
  lemma {:induction false} WalkFound(v: Json, keys: seq<string>, depth: nat, default: Json)
    requires Follow(v, keys, depth).Found?
    ensures Walk(v, keys, default) == Ok(Follow(v, keys, depth).v)
    decreases |keys|
  {
    if keys != [] {
      var m := v.fields;
      assert keys[0] in m;
      WalkFound(m[keys[0]], keys[1..], depth + 1, default);
    }
  }

  /** Below the root the walk agrees with optional chaining. */
  lemma {:induction false} WalkChain(v: Json, keys: seq<string>, depth: nat, default: Json)
    requires depth > 0 && !Truthy(default)
    ensures Agrees(Follow(v, keys, depth), Walk(v, keys, default), default)
    decreases |keys|
  {
    if keys == [] {
    } else if v.JObj? {
      var m := v.fields;
      if keys[0] in m {
        WalkChain(m[keys[0]], keys[1..], depth + 1, default);
      } else if m != map[] {
        assert Walk(v, keys, default) == Walk(default, keys[1..], default);
      }
    } else if v.JArr? && Truthy(v) {
      WalkFansOut(v.items, keys, default);
    }
  }

  /** The path lookup agrees with optional chaining from the root dict
      whenever the default is falsy (the bot passes `None`). */
  lemma {:induction false} QueryChain(root: map<string, Json>, keys: seq<string>, default: Json)
    requires keys != [] && !Truthy(default)
    ensures Agrees(Follow(JObj(root), keys, 0), Query(root, keys, default), default)
  {
    if keys[0] in root {
      WalkChain(root[keys[0]], keys[1..], 1, default);
    }
  }

  /** A path present in the document yields the value at its end, whatever
      the default. */
  lemma {:induction false} QueryFound(root: map<string, Json>, keys: seq<string>, default: Json)
    requires keys != [] && Follow(JObj(root), keys, 0).Found?
    ensures Query(root, keys, default) == Ok(Follow(JObj(root), keys, 0).v)
  {
    WalkFound(root[keys[0]], keys[1..], 1, default);
  }
}
