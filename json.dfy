/** JSON values as the HTTP client hands them back after decoding a response
    body, together with the two Python built-ins generate.py applies to them
    without looking at their type first: `len(...)` and `list += ...`. */
module Json {

  datatype Option<+T> = None | Some(value: T)

  /** A decoded JSON value. An object keeps its entries in document order;
      a decoded object has pairwise distinct keys. Numbers are integers. */
  datatype Json =
    | Null
    | Bool(b: bool)
    | Num(n: int)
    | Str(s: string)
    | Arr(items: seq<Json>)
    | Obj(entries: seq<(string, Json)>)

  /** A response body: decoded JSON, or text the JSON decoder rejects. */
  datatype Body = Parsed(value: Json) | Undecodable

  /** Python truthiness: None, False, 0, "", [] and {} are false. */
  predicate Truthy(v: Json) {
    match v
    case Null => false
    case Bool(b) => b
    case Num(n) => n != 0
    case Str(s) => s != ""
    case Arr(xs) => xs != []
    case Obj(es) => es != []
  }

  /** The keys of an object, in order. */
  function Keys(es: seq<(string, Json)>): (ks: seq<string>)
    ensures |ks| == |es|
    ensures forall i :: 0 <= i < |es| ==> ks[i] == es[i].0
  {
    if es == [] then [] else [es[0].0] + Keys(es[1..])
  }

  /** `d.get(key)` on a dict: the value stored under `key`, or None. */
  function Get(es: seq<(string, Json)>, key: string): Json {
    if es == [] then Null
    else if es[0].0 == key then es[0].1
    else Get(es[1..], key)
  }

  /** `Get` is `dict.get`: a key the dict lacks gives None, a key it holds
      gives a value stored under that key. */
  lemma {:induction false} GetIsLookup(es: seq<(string, Json)>, key: string)
    ensures key !in Keys(es) ==> Get(es, key) == Null
    ensures key in Keys(es) ==> (key, Get(es, key)) in es
  {
    if es != [] {
      GetIsLookup(es[1..], key);
    }
  }

  /** `len(v)`: the number of elements, keys or characters, or None where
      Python raises TypeError (None, booleans, numbers). */
  function Len(v: Json): Option<nat> {
    match v
    case Arr(xs) => Some(|xs|)
    case Obj(es) => Some(|es|)
    case Str(s) => Some(|s|)
    case _ => None
  }

  /** What `list += v` appends: the elements of a list, the keys of a dict,
      the one-character strings of a string; None where Python raises
      TypeError because `v` is not iterable. */
  function Iter(v: Json): (r: Option<seq<Json>>)
    ensures r.Some? <==> Len(v).Some?
    ensures r.Some? ==> |r.value| == Len(v).value
  {
    match v
    case Arr(xs) => Some(xs)
    case Obj(es) => Some(seq(|es|, i requires 0 <= i < |es| => Str(es[i].0)))
    case Str(s) => Some(seq(|s|, i requires 0 <= i < |s| => Str([s[i]])))
    case _ => None
  }
}
