/**
 * JSON values as the services build them for `res.json(...)`, with the
 * JavaScript notions the code depends on: truthiness, and object spread
 * (`{...a, ...b}`), where a later key overrides the value of an earlier one
 * but keeps its position.
 */
module Json {

  import opened Wrappers

  datatype Json =
    | JNull
    | JBool(b: bool)
    | JNum(n: int)
    | JStr(s: string)
    | JArr(items: seq<Json>)
    | JObj(fields: seq<Field>)

  type Field = (string, Json)

  /** JavaScript truthiness of a defined value. */
  predicate Truthy(v: Json) {
    match v
    case JNull => false
    case JBool(b) => b
    case JNum(n) => n != 0
    case JStr(s) => s != ""
    case _ => true
  }

  /** Truthiness of a value that may be `undefined`. */
  predicate TruthyOpt(v: Option<Json>) { v.Some? && Truthy(v.value) }

  /** An optional string property: `undefined` properties are dropped by `JSON.stringify`. */
  function OptStr(key: string, v: Option<string>): seq<Field> {
    if v.Some? then [(key, JStr(v.value))] else []
  }

  function Keys(fs: seq<Field>): (ks: seq<string>)
    ensures |ks| == |fs|
    ensures forall i :: 0 <= i < |fs| ==> ks[i] == fs[i].0
  {
    if fs == [] then [] else [fs[0].0] + Keys(fs[1..])
  }

  predicate UniqueKeys(fs: seq<Field>) {
    forall i, j :: 0 <= i < j < |fs| ==> fs[i].0 != fs[j].0
  }

  /** Property lookup: the value of the first field with that key. */
  function Get(fs: seq<Field>, key: string): (r: Option<Json>)
  {
    if fs == [] then None
    else if fs[0].0 == key then Some(fs[0].1)
    else Get(fs[1..], key)
  }

  lemma {:induction false} GetSomeIff(fs: seq<Field>, key: string)
    ensures Get(fs, key).Some? <==> key in Keys(fs)
  {
    if fs != [] {
      GetSomeIff(fs[1..], key);
      assert Keys(fs) == [fs[0].0] + Keys(fs[1..]);
    }
  }

  /** The value of the first field carrying a key is what a lookup of that key gives. */
  lemma {:induction false} GetFirst(fs: seq<Field>, i: nat)
    requires i < |fs|
    requires forall j :: 0 <= j < i ==> fs[j].0 != fs[i].0
    ensures Get(fs, fs[i].0) == Some(fs[i].1)
  {
    if i > 0 {
      GetFirst(fs[1..], i - 1);
    }
  }

  /** `obj[key] = v`: an existing key keeps its place, a new key goes last. */
  function Assign(fs: seq<Field>, key: string, v: Json): (r: seq<Field>)
    ensures Get(r, key) == Some(v)
    ensures forall k :: k != key ==> Get(r, k) == Get(fs, k)
    ensures key in Keys(fs) ==> Keys(r) == Keys(fs)
    ensures key !in Keys(fs) ==> Keys(r) == Keys(fs) + [key]
  {
    if fs == [] then [(key, v)]
    else if fs[0].0 == key then [(key, v)] + fs[1..]
    else
      var rest := Assign(fs[1..], key, v);
      assert Keys([fs[0]] + rest) == [fs[0].0] + Keys(rest);
      [fs[0]] + rest
  }

  /** `{...base, ...extra}`. */
  function Spread(base: seq<Field>, extra: seq<Field>): seq<Field>
    decreases |extra|
  {
    if extra == [] then base else Spread(Assign(base, extra[0].0, extra[0].1), extra[1..])
  }

  /** After a spread every key of `extra` has its `extra` value and every other key its `base` value. */
  lemma {:induction false} SpreadGet(base: seq<Field>, extra: seq<Field>, k: string)
    requires UniqueKeys(extra)
    ensures Get(Spread(base, extra), k) == if k in Keys(extra) then Get(extra, k) else Get(base, k)
    decreases |extra|
  {
    if extra != [] {
      var b' := Assign(base, extra[0].0, extra[0].1);
      assert UniqueKeys(extra[1..]);
      SpreadGet(b', extra[1..], k);
      assert Keys(extra) == [extra[0].0] + Keys(extra[1..]);
      if k == extra[0].0 {
        assert k !in Keys(extra[1..]);
      }
    }
  }

  /** A spread keeps the keys of `base` first, in their order. */
  lemma {:induction false} SpreadKeepsBaseOrder(base: seq<Field>, extra: seq<Field>)
    ensures |Keys(Spread(base, extra))| >= |Keys(base)|
    ensures Keys(Spread(base, extra))[..|base|] == Keys(base)
    decreases |extra|
  {
    if extra != [] {
      var b' := Assign(base, extra[0].0, extra[0].1);
      SpreadKeepsBaseOrder(b', extra[1..]);
      assert Keys(b')[..|base|] == Keys(base);
    }
  }
}
