/** Ordered association lists: the model of a JavaScript plain object.

    A JavaScript object enumerates its string-named properties in insertion
    order, and assigning to a property that already exists replaces its value
    without moving it. Integer-like names (`"0"`, `"42"`), which JavaScript
    lists first in ascending numeric order, are not distinguished: the model
    keeps every name in insertion order. `Put` is one such assignment and `Assign` is `Object.assign`:
    the properties of the second object, in order, assigned onto the first. */
module Assoc {
  import opened Wrappers
  import opened Strings

  /** A JavaScript object whose property names and values are strings. */
  type Dict = seq<(string, string)>

  /** The keys of `m`, in order. */
  function Keys(m: Dict): (ks: seq<string>)
    ensures |ks| == |m|
    ensures forall i :: 0 <= i < |m| ==> ks[i] == m[i].0
  {
    if m == [] then [] else [m[0].0] + Keys(m[1..])
  }

  /** No key occurs twice: true of every JavaScript object. */
  predicate NoDupKeys(m: Dict) {
    forall i, j :: 0 <= i < j < |m| ==> m[i].0 != m[j].0
  }

  /** Property lookup: the value of the first entry with key `k`. */
  function Get(m: Dict, k: string): Option<string> {
    if m == [] then None
    else if m[0].0 == k then Some(m[0].1)
    else Get(m[1..], k)
  }

  /** The value of the LAST entry with key `k`: what assigning the entries
      of `m` one after the other leaves behind under `k`. */
  function GetLast(m: Dict, k: string): Option<string> {
    if m == [] then None
    else
      var later := GetLast(m[1..], k);
      if later.Some? then later
      else if m[0].0 == k then Some(m[0].1)
      else None
  }

  /** `m[k] = v`: replaces the value of an existing key in place, or appends
      a new entry at the end. */
  function Put(m: Dict, k: string, v: string): (r: Dict)
    ensures |r| == if k in Keys(m) then |m| else |m| + 1
  {
    if m == [] then [(k, v)]
    else if m[0].0 == k then [(k, v)] + m[1..]
    else [m[0]] + Put(m[1..], k, v)
  }

  /** `Object.assign(m, n)`. */
  function Assign(m: Dict, n: Dict): Dict
    decreases |n|
  {
    if n == [] then m else Assign(Put(m, n[0].0, n[0].1), n[1..])
  }

  /** The elements of `ks` that do not occur in `present`, in order. */
  function Missing(ks: seq<string>, present: seq<string>): (r: seq<string>)
    ensures |r| <= |ks|
  {
    if ks == [] then []
    else (if ks[0] in present then [] else [ks[0]]) + Missing(ks[1..], present)
  }

  /** A lookup finds a value exactly for the keys the object has. */
  lemma {:induction false} GetHas(m: Dict, k: string)
    ensures Get(m, k).Some? <==> k in Keys(m)
  {
    if m != [] {
      GetHas(m[1..], k);
      assert Keys(m) == [m[0].0] + Keys(m[1..]);
    }
  }

  lemma {:induction false} GetLastHas(m: Dict, k: string)
    ensures GetLast(m, k).Some? <==> k in Keys(m)
  {
    if m != [] {
      GetLastHas(m[1..], k);
      assert Keys(m) == [m[0].0] + Keys(m[1..]);
    }
  }

  /** On an object, the first and the last entry for a key are the same. */
  lemma {:induction false} GetLastIsGet(m: Dict, k: string)
    requires NoDupKeys(m)
    ensures GetLast(m, k) == Get(m, k)
  {
    if m != [] {
      assert NoDupKeys(m[1..]);
      GetLastIsGet(m[1..], k);
      if m[0].0 == k {
        GetLastHas(m[1..], k);
        assert k !in Keys(m[1..]);
      }
    }
  }

  /** After `m[k] = v`, `k` holds `v`. */
  lemma {:induction false} PutGet(m: Dict, k: string, v: string)
    ensures Get(Put(m, k, v), k) == Some(v)
  {
    if m != [] && m[0].0 != k {
      PutGet(m[1..], k, v);
    }
  }

  /** After `m[k] = v`, every other property is as it was. */
  lemma {:induction false} PutOther(m: Dict, k: string, v: string, j: string)
    requires j != k
    ensures Get(Put(m, k, v), j) == Get(m, j)
  {
    if m != [] && m[0].0 != k {
      PutOther(m[1..], k, v, j);
    }
  }

  /** `m[k] = v` keeps the order of the existing keys and appends `k` only
      when it is new. */
  lemma {:induction false} PutKeys(m: Dict, k: string, v: string)
    ensures Keys(Put(m, k, v)) == if k in Keys(m) then Keys(m) else Keys(m) + [k]
  {
    if m != [] && m[0].0 != k {
      PutKeys(m[1..], k, v);
      assert Keys(m) == [m[0].0] + Keys(m[1..]);
    }
  }

  /** An entry put in front of an object whose keys do not include its own. */
  lemma NoDupCons(e: (string, string), m: Dict)
    requires NoDupKeys(m) && e.0 !in Keys(m)
    ensures NoDupKeys([e] + m)
  {
    forall j | 0 < j < |[e] + m|
      ensures ([e] + m)[j].0 != e.0
    {
      assert ([e] + m)[j] == m[j - 1];
      assert Keys(m)[j - 1] == m[j - 1].0;
    }
  }

  lemma {:induction false} PutNoDup(m: Dict, k: string, v: string)
    requires NoDupKeys(m)
    ensures NoDupKeys(Put(m, k, v))
  {
    if m != [] {
      HeadNotInTail(m);
      if m[0].0 == k {
        NoDupCons((k, v), m[1..]);
      } else {
        var r := Put(m[1..], k, v);
        PutNoDup(m[1..], k, v);
        PutKeys(m[1..], k, v);
        assert m[0].0 !in Keys(r);
        NoDupCons(m[0], r);
      }
    }
  }

  /** `Object.assign` onto an object yields an object. */
  lemma {:induction false} AssignNoDup(m: Dict, n: Dict)
    requires NoDupKeys(m)
    ensures NoDupKeys(Assign(m, n))
    decreases |n|
  {
    if n != [] {
      PutNoDup(m, n[0].0, n[0].1);
      AssignNoDup(Put(m, n[0].0, n[0].1), n[1..]);
    }
  }

  /** After `Object.assign(m, n)`, a key of `n` holds the value `n` gives it
      last, and every other key holds its value from `m`. */
  lemma {:induction false} AssignGet(m: Dict, n: Dict, k: string)
    ensures Get(Assign(m, n), k) == if k in Keys(n) then GetLast(n, k) else Get(m, k)
    decreases |n|
  {
    if n != [] {
      var m' := Put(m, n[0].0, n[0].1);
      AssignGet(m', n[1..], k);
      assert Keys(n) == [n[0].0] + Keys(n[1..]);
      GetLastHas(n[1..], k);
      if k == n[0].0 {
        PutGet(m, k, n[0].1);
      } else {
        PutOther(m, n[0].0, n[0].1, k);
      }
    }
  }

  /** The same for an `n` without repeated keys, as every JavaScript object is. */
  lemma AssignGetDistinct(m: Dict, n: Dict, k: string)
    requires NoDupKeys(n)
    ensures Get(Assign(m, n), k) == if k in Keys(n) then Get(n, k) else Get(m, k)
  {
    AssignGet(m, n, k);
    GetLastIsGet(n, k);
  }

  lemma {:induction false} MissingHas(ks: seq<string>, present: seq<string>, x: string)
    ensures x in Missing(ks, present) <==> x in ks && x !in present
  {
    if ks != [] {
      MissingHas(ks[1..], present, x);
      assert ks == [ks[0]] + ks[1..];
    }
  }

  lemma {:induction false} MissingAgrees(ks: seq<string>, p: seq<string>, q: seq<string>)
    requires forall x :: x in ks ==> (x in p <==> x in q)
    ensures Missing(ks, p) == Missing(ks, q)
  {
    if ks != [] {
      assert ks[0] in ks;
      assert forall x :: x in ks[1..] ==> x in ks;
      MissingAgrees(ks[1..], p, q);
    }
  }

  lemma {:induction false} MissingConcat(s: seq<string>, t: seq<string>, p: seq<string>)
    ensures Missing(s + t, p) == Missing(s, p) + Missing(t, p)
  {
    if s != [] {
      assert (s + t)[0] == s[0];
      assert (s + t)[1..] == s[1..] + t;
      MissingConcat(s[1..], t, p);
    } else {
      assert s + t == t;
    }
  }

  lemma {:induction false} MissingTwice(ks: seq<string>, p: seq<string>, q: seq<string>)
    ensures Missing(Missing(ks, p), q) == Missing(ks, p + q)
  {
    if ks != [] {
      MissingTwice(ks[1..], p, q);
      assert ks[0] in p + q <==> ks[0] in p || ks[0] in q;
      var r := Missing(ks, p);
      if ks[0] in p {
        assert r == Missing(ks[1..], p);
      } else {
        assert r == [ks[0]] + Missing(ks[1..], p);
        assert r[0] == ks[0] && r[1..] == Missing(ks[1..], p);
      }
    }
  }

  lemma {:induction false} MissingExtend(ks: seq<string>, p: seq<string>, k: string)
    requires k !in ks
    ensures Missing(ks, p + [k]) == Missing(ks, p)
  {
    if ks != [] {
      assert ks[0] in p + [k] <==> ks[0] in p;
      assert k !in ks[1..];
      MissingExtend(ks[1..], p, k);
    }
  }

  /** The first key of an object occurs nowhere else in it. */
  lemma HeadNotInTail(n: Dict)
    requires NoDupKeys(n) && n != []
    ensures n[0].0 !in Keys(n[1..])
    ensures NoDupKeys(n[1..])
    ensures Keys(n) == [n[0].0] + Keys(n[1..])
  {
    forall j | 0 <= j < |n| - 1
      ensures Keys(n[1..])[j] != n[0].0
    {
      assert n[1..][j] == n[j + 1];
    }
  }

  lemma {:induction false} MissingNone(ks: seq<string>, p: seq<string>)
    requires forall x :: x in ks ==> x in p
    ensures Missing(ks, p) == []
  {
    if ks != [] {
      assert ks[0] in ks;
      assert forall x :: x in ks[1..] ==> x in ks;
      MissingNone(ks[1..], p);
    }
  }

  /** Order of `Object.assign(m, n)`: the keys of `m` keep their positions and
      the keys new to `m` follow, in the order `n` lists them. */
  lemma MissingCons(k: string, ks: seq<string>, p: seq<string>)
    ensures Missing([k] + ks, p) == (if k in p then [] else [k]) + Missing(ks, p)
  {
    assert ([k] + ks)[1..] == ks;
  }

  lemma {:induction false} AssignKeys(m: Dict, n: Dict)
    requires NoDupKeys(n)
    ensures Keys(Assign(m, n)) == Keys(m) + Missing(Keys(n), Keys(m))
    decreases |n|
  {
    if n != [] {
      var k, rest := n[0].0, n[1..];
      var m' := Put(m, k, n[0].1);
      HeadNotInTail(n);
      AssignKeys(m', rest);
      PutKeys(m, k, n[0].1);
      var km, kr := Keys(m), Keys(rest);
      var tail := Missing(kr, km);
      MissingCons(k, kr, km);
      assert Keys(Assign(m, n)) == Keys(m') + Missing(kr, Keys(m'));
      if k in km {
        assert Keys(m') == km;
        assert Missing(Keys(n), km) == tail;
      } else {
        assert Keys(m') == km + [k];
        MissingExtend(kr, km, k);
        assert Missing(Keys(n), km) == [k] + tail;
        AppendAssociative(km, [k], tail);
      }
    }
  }

  lemma {:induction false} PutFresh(m: Dict, k: string, v: string)
    requires k !in Keys(m)
    ensures Put(m, k, v) == m + [(k, v)]
  {
    if m != [] {
      assert Keys(m) == [m[0].0] + Keys(m[1..]);
      PutFresh(m[1..], k, v);
      assert [m[0]] + (m[1..] + [(k, v)]) == m + [(k, v)];
    }
  }

  /** Assigning an object none of whose keys the target has appends it. */
  lemma {:induction false} AssignDisjoint(m: Dict, n: Dict)
    requires NoDupKeys(n)
    requires forall k :: k in Keys(n) ==> k !in Keys(m)
    ensures Assign(m, n) == m + n
    decreases |n|
  {
    if n != [] {
      var k, rest := n[0].0, n[1..];
      HeadNotInTail(n);
      assert k in Keys(n);
      PutFresh(m, k, n[0].1);
      var m' := m + [n[0]];
      assert Keys(m') == Keys(m) + [k];
      forall j | j in Keys(rest)
        ensures j !in Keys(m')
      {
        assert j in Keys(n);
      }
      AssignDisjoint(m', rest);
      assert Assign(m, n) == Assign(m', rest);
      assert n == [n[0]] + rest;
      AppendAssociative(m, [n[0]], rest);
    }
  }

  /** `Object.assign({}, n)` is a copy of `n`. */
  lemma AssignOntoEmpty(n: Dict)
    requires NoDupKeys(n)
    ensures Assign([], n) == n
  {
    AssignDisjoint([], n);
  }

  lemma {:induction false} GetAt(m: Dict, i: nat)
    requires NoDupKeys(m)
    requires i < |m|
    ensures Get(m, m[i].0) == Some(m[i].1)
  {
    if i > 0 {
      assert NoDupKeys(m[1..]);
      assert m[i] == m[1..][i - 1];
      GetAt(m[1..], i - 1);
    }
  }

  /** Two objects with the same keys in the same order and the same value
      under every key are the same object. */
  lemma SameEntries(m1: Dict, m2: Dict)
    requires NoDupKeys(m1) && NoDupKeys(m2)
    requires Keys(m1) == Keys(m2)
    requires forall k :: Get(m1, k) == Get(m2, k)
    ensures m1 == m2
  {
    forall i | 0 <= i < |m1|
      ensures m1[i] == m2[i]
    {
      GetAt(m1, i);
      GetAt(m2, i);
    }
  }

  lemma AssignAssociativeKeys(x: Dict, a: Dict, b: Dict)
    requires NoDupKeys(x) && NoDupKeys(a) && NoDupKeys(b)
    ensures Keys(Assign(Assign(x, a), b)) == Keys(Assign(x, Assign(a, b)))
  {
    var kx, ka, kb := Keys(x), Keys(a), Keys(b);
    var xa, ab := Assign(x, a), Assign(a, b);
    AssignNoDup(a, b);
    AssignKeys(x, a);
    AssignKeys(xa, b);
    AssignKeys(a, b);
    AssignKeys(x, ab);
    MissingConcat(ka, Missing(kb, ka), kx);
    MissingTwice(kb, ka, kx);
    forall y | y in kb
      ensures y in kx + Missing(ka, kx) <==> y in ka + kx
    {
      MissingHas(ka, kx, y);
    }
    MissingAgrees(kb, kx + Missing(ka, kx), ka + kx);
    AppendAssociative(kx, Missing(ka, kx), Missing(kb, ka + kx));
  }

  lemma AssignAssociativeGet(x: Dict, a: Dict, b: Dict, k: string)
    requires NoDupKeys(x) && NoDupKeys(a) && NoDupKeys(b)
    ensures Get(Assign(Assign(x, a), b), k) == Get(Assign(x, Assign(a, b)), k)
  {
    var xa, ab := Assign(x, a), Assign(a, b);
    AssignNoDup(a, b);
    AssignKeys(a, b);
    AssignGetDistinct(xa, b, k);
    AssignGetDistinct(x, a, k);
    AssignGetDistinct(x, ab, k);
    AssignGetDistinct(a, b, k);
    MissingHas(Keys(b), Keys(a), k);
  }

  /** `Object.assign` is associative on objects: assigning `a` and then `b`
      onto `x` is assigning onto `x` the result of assigning `b` onto `a`. */
  lemma AssignAssociative(x: Dict, a: Dict, b: Dict)
    requires NoDupKeys(x) && NoDupKeys(a) && NoDupKeys(b)
    ensures Assign(Assign(x, a), b) == Assign(x, Assign(a, b))
  {
    var lhs, rhs := Assign(Assign(x, a), b), Assign(x, Assign(a, b));
    AssignNoDup(x, a);
    AssignNoDup(a, b);
    AssignNoDup(Assign(x, a), b);
    AssignNoDup(x, Assign(a, b));
    AssignAssociativeKeys(x, a, b);
    forall k
      ensures Get(lhs, k) == Get(rhs, k)
    {
      AssignAssociativeGet(x, a, b, k);
    }
    SameEntries(lhs, rhs);
  }

  /** Assigning an object onto itself changes nothing. */
  lemma AssignSelf(m: Dict)
    requires NoDupKeys(m)
    ensures Assign(m, m) == m
  {
    var r := Assign(m, m);
    AssignNoDup(m, m);
    AssignKeys(m, m);
    MissingNone(Keys(m), Keys(m));
    forall k
      ensures Get(r, k) == Get(m, k)
    {
      AssignGetDistinct(m, m, k);
      GetHas(m, k);
    }
    SameEntries(r, m);
  }
}
