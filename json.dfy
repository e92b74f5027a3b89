/** The values the JSON parser hands to the loader, and the few Python operations the
    loader applies to them: truthiness, `dict.get`, iteration and use as a dict key. */
module Json {
  import opened Wrappers

  /** A parsed JSON value. An object keeps its members in document order, repeated
      keys included; `Lookup` and `Keys` give it the behaviour of the Python dict that
      the parser builds from it. NaN and the infinities are not represented. */
  datatype Json =
    | Null
    | Bool(b: bool)
    | Int(i: int)
    | Float(f: real)
    | Str(s: string)
    | Arr(items: seq<Json>)
    | Obj(members: seq<(string, Json)>)

  /** Python truthiness, decided per kind of value. */
  predicate Truthy(v: Json) {
    match v
    case Null => false
    case Bool(b) => b
    case Int(i) => i != 0
    case Float(f) => f != 0.0
    case Str(s) => s != ""
    case Arr(items) => items != []
    case Obj(members) => members != []
  }

  /** The falsy values are exactly None, False, 0, 0.0, "", [] and {}. */
  lemma FalsyExactly(v: Json)
    ensures !Truthy(v) <==> v in {Null, Bool(false), Int(0), Float(0.0), Str(""), Arr([]), Obj([])}
  {
  }

  /** Python's `a or b`: `a` when it is truthy, otherwise `b`. */
  function Or(a: Json, b: Json): Json {
    if Truthy(a) then a else b
  }

  /** The value the parsed dict holds under `key`: a repeated key keeps the value of its
      last occurrence, as Python's JSON parser does. */
  function Lookup(members: seq<(string, Json)>, key: string): (r: Option<Json>)
    ensures r.None? <==> forall i :: 0 <= i < |members| ==> members[i].0 != key
    ensures r.Some? ==>
      exists i :: 0 <= i < |members| && members[i] == (key, r.value)
        && forall j :: i < j < |members| ==> members[j].0 != key
  {
    if |members| == 0 then None
    else if members[|members| - 1].0 == key then Some(members[|members| - 1].1)
    else Lookup(members[..|members| - 1], key)
  }

  /** A key written once in an object reads back the value written with it. */
  lemma LookupSingle(members: seq<(string, Json)>, i: nat)
    requires i < |members|
    requires forall j :: 0 <= j < |members| && j != i ==> members[j].0 != members[i].0
    ensures Lookup(members, members[i].0) == Some(members[i].1)
  {
  }

  /** `d.get(key, default)` on the parsed dict. */
  function Get(members: seq<(string, Json)>, key: string, default: Json): Json {
    match Lookup(members, key)
    case Some(v) => v
    case None => default
  }

  /** Position of the first member with key `key`. */
  function FirstIndex(members: seq<(string, Json)>, key: string): (n: nat)
    ensures n <= |members|
    ensures forall j :: 0 <= j < n ==> members[j].0 != key
    ensures n < |members| ==> members[n].0 == key
  {
    if |members| == 0 || members[0].0 == key then 0
    else 1 + FirstIndex(members[1..], key)
  }

  /** Iterating the parsed dict: each key once, in the order it first appeared. */
  function Keys(members: seq<(string, Json)>): (ks: seq<string>)
    ensures forall k :: k in ks <==> exists i :: 0 <= i < |members| && members[i].0 == k
    ensures forall i, j :: 0 <= i < j < |ks| ==> ks[i] != ks[j]
  {
    if |members| == 0 then []
    else
      var front := members[..|members| - 1];
      var k := members[|members| - 1].0;
      assert forall i :: 0 <= i < |front| ==> front[i] == members[i];
      var ks := Keys(front);
      if k in ks then ks else ks + [k]
  }

  /** The keys come in the order of their first appearance. */
  lemma {:induction false} KeysInFirstAppearanceOrder(members: seq<(string, Json)>)
    ensures forall i, j :: 0 <= i < j < |Keys(members)| ==>
      FirstIndex(members, Keys(members)[i]) < FirstIndex(members, Keys(members)[j])
  {
    if |members| > 0 {
      var n := |members| - 1;
      var front := members[..n];
      var k := members[n].0;
      var ks := Keys(front);
      KeysInFirstAppearanceOrder(front);
      FirstIndexOfPrefix(members);
      forall i | 0 <= i < |ks|
        ensures FirstIndex(front, ks[i]) < n
        ensures FirstIndex(members, ks[i]) == FirstIndex(front, ks[i])
      {
        assert ks[i] in ks;
      }
      if k !in ks {
        assert Keys(members) == ks + [k];
        assert FirstIndex(members, k) == n;
      } else {
        assert Keys(members) == ks;
      }
    }
  }

  /** First positions found in all but the last member are the same in the whole list. */
  lemma {:induction false} FirstIndexOfPrefix(members: seq<(string, Json)>)
    requires |members| > 0
    ensures forall k :: FirstIndex(members[..|members| - 1], k) < |members| - 1 ==>
      FirstIndex(members, k) == FirstIndex(members[..|members| - 1], k)
  {
    if |members| > 1 {
      assert members[1..][..|members| - 2] == members[..|members| - 1][1..];
      FirstIndexOfPrefix(members[1..]);
    }
  }

  /** `for x in v`: a list yields its items, a string its characters as one-character
      strings, a dict its keys; None, booleans and numbers are not iterable. */
  function Iterate(v: Json): (r: Option<seq<Json>>)
    ensures r.None? <==> (v.Null? || v.Bool? || v.Int? || v.Float?)
    ensures v.Arr? ==> r == Some(v.items)
    ensures v.Str? ==>
      r.Some? && |r.value| == |v.s|
      && forall i :: 0 <= i < |v.s| ==> r.value[i] == Str([v.s[i]])
    ensures v.Obj? ==>
      r.Some? && |r.value| == |Keys(v.members)|
      && forall i :: 0 <= i < |r.value| ==> r.value[i] == Str(Keys(v.members)[i])
  {
    match v
    case Arr(items) => Some(items)
    case Str(s) => Some(seq(|s|, i requires 0 <= i < |s| => Str([s[i]])))
    case Obj(members) =>
      var ks := Keys(members);
      Some(seq(|ks|, i requires 0 <= i < |ks| => Str(ks[i])))
    case _ => None
  }

  /** A dict key up to Python equality: True, 1 and 1.0 are one key, and so are
      False, 0 and 0.0. */
  datatype Key = NoneKey | NumKey(n: real) | StrKey(s: string)

  /** The key a value stands for in a dict; lists and dicts are unhashable. */
  function HashKey(v: Json): (k: Option<Key>)
    ensures k.None? <==> (v.Arr? || v.Obj?)
    ensures v.Str? ==> k == Some(StrKey(v.s))
    ensures v.Int? ==> k == Some(NumKey(v.i as real))
    ensures v.Bool? ==> k == Some(NumKey(if v.b then 1.0 else 0.0))
    ensures v.Float? ==> k == Some(NumKey(v.f))
    ensures v.Null? ==> k == Some(NoneKey)
  {
    match v
    case Null => Some(NoneKey)
    case Bool(b) => Some(NumKey(if b then 1.0 else 0.0))
    case Int(i) => Some(NumKey(i as real))
    case Float(f) => Some(NumKey(f))
    case Str(s) => Some(StrKey(s))
    case _ => None
  }
}
