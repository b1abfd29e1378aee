// The JSON values the pages send to and receive from their webhooks, and
// the JavaScript truthiness and `||` the pages apply to them. An object
// keeps its members in insertion order, as `JSON.stringify` writes them;
// the member names of any object the pages see are distinct.
module Json {

  import opened Wrappers

  datatype Json =
    | JNull
    | JBool(b: bool)
    | JNum(n: int)
    | JStr(s: string)
    | JArr(items: seq<Json>)
    | JObj(members: seq<(string, Json)>)

  /** JavaScript truthiness (`NaN` is not modelled). */
  predicate Truthy(v: Option<Json>) {
    match v
    case None => false
    case Some(j) =>
      match j
      case JNull => false
      case JBool(b) => b
      case JNum(n) => n != 0
      case JStr(s) => s != ""
      case _ => true
  }

  /** `a || b`: `a` when it is truthy, otherwise `b`. */
  function Or(a: Option<Json>, b: Option<Json>): (r: Option<Json>)
    ensures Truthy(r) <==> Truthy(a) || Truthy(b)
    ensures r == a || r == b
  {
    if Truthy(a) then a else b
  }

  /** The member names of an object, in order; no names for anything else. */
  function Keys(v: Json): (ks: seq<string>)
    ensures v.JObj? ==> |ks| == |v.members|
    ensures v.JObj? ==> forall i :: 0 <= i < |ks| ==> ks[i] == v.members[i].0
    ensures !v.JObj? ==> ks == []
  {
    match v
    case JObj(ms) => seq(|ms|, i requires 0 <= i < |ms| => ms[i].0)
    case _ => []
  }

  /** Property access `v[key]`: the first member with that name, if any. */
  function Get(v: Json, key: string): (r: Option<Json>)
    decreases if v.JObj? then |v.members| else 0
  {
    match v
    case JObj(ms) =>
      if ms == [] then None
      else if ms[0].0 == key then Some(ms[0].1)
      else Get(JObj(ms[1..]), key)
    case _ => None
  }

  lemma {:induction false} GetFound(ms: seq<(string, Json)>, i: nat)
    requires i < |ms|
    requires forall j :: 0 <= j < i ==> ms[j].0 != ms[i].0
    ensures Get(JObj(ms), ms[i].0) == Some(ms[i].1)
  {
    if i > 0 {
      GetFound(ms[1..], i - 1);
    }
  }

  lemma {:induction false} GetMissing(ms: seq<(string, Json)>, key: string)
    requires forall j :: 0 <= j < |ms| ==> ms[j].0 != key
    ensures Get(JObj(ms), key) == None
  {
    if ms != [] {
      GetMissing(ms[1..], key);
    }
  }

  /** No two members of an object share a name. */
  predicate DistinctNames(ms: seq<(string, Json)>) {
    forall i, j :: 0 <= i < j < |ms| ==> ms[i].0 != ms[j].0
  }

  /** In an object with distinct names, every member is found by its name. */
  lemma GetDistinct(ms: seq<(string, Json)>)
    requires DistinctNames(ms)
    ensures forall i :: 0 <= i < |ms| ==> Get(JObj(ms), ms[i].0) == Some(ms[i].1)
  {
    forall i | 0 <= i < |ms|
      ensures Get(JObj(ms), ms[i].0) == Some(ms[i].1)
    {
      GetFound(ms, i);
    }
  }

  /** Every member of `p` named in `keys` is present and truthy: what a
      form checks before it sends `p`. */
  predicate Complete(p: Json, keys: seq<string>) {
    forall k :: k in keys ==> Truthy(Get(p, k))
  }

  /** The names a plain JavaScript object (`{}`) already answers with a
      truthy value, inherited from `Object.prototype`: all of them are
      functions except `__proto__`, which is the prototype itself. */
  const InheritedNames: set<string> := {
    "constructor", "hasOwnProperty", "isPrototypeOf", "propertyIsEnumerable",
    "toLocaleString", "toString", "valueOf", "__proto__",
    "__defineGetter__", "__defineSetter__", "__lookupGetter__", "__lookupSetter__"
  }
}
