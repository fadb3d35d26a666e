/** Request headers: the lower-casing of header names done by
    `normalizeHeaders` of the fetch library, and the merge of a client's
    default headers with the headers of one call. */
module Headers {
  import opened Assoc

  predicate IsUpper(c: char) {
    'A' <= c <= 'Z'
  }

  /** `toLowerCase` on one character (ASCII letters only). */
  function LowerChar(c: char): (d: char)
    ensures !IsUpper(d)
    ensures !IsUpper(c) ==> d == c
    ensures IsUpper(c) ==> 'a' <= d <= 'z' && d as int - c as int == 'a' as int - 'A' as int
  {
    if IsUpper(c) then (c as int + ('a' as int - 'A' as int)) as char else c
  }

  /** A name without upper-case letters. */
  predicate IsLower(s: string) {
    forall i :: 0 <= i < |s| ==> !IsUpper(s[i])
  }

  /** `s.toLowerCase()`. */
  function Lower(s: string): (r: string)
    ensures |r| == |s|
    ensures forall i :: 0 <= i < |s| ==> r[i] == LowerChar(s[i])
    ensures IsLower(r)
    ensures IsLower(s) ==> r == s
  {
    if s == [] then []
    else
      var t := Lower(s[1..]);
      assert forall i :: 1 <= i < |s| ==> ([LowerChar(s[0])] + t)[i] == t[i - 1];
      [LowerChar(s[0])] + t
  }

  /** Lower-casing works character by character. */
  lemma {:induction false} LowerConcat(s: string, t: string)
    ensures Lower(s + t) == Lower(s) + Lower(t)
  {
    if s != [] {
      assert (s + t)[0] == s[0];
      assert (s + t)[1..] == s[1..] + t;
      LowerConcat(s[1..], t);
      assert [LowerChar(s[0])] + (Lower(s[1..]) + Lower(t))
          == ([LowerChar(s[0])] + Lower(s[1..])) + Lower(t);
    } else {
      assert s + t == t;
    }
  }

  /** Every name in `ks` is lower-case. */
  predicate AllLower(ks: seq<string>) {
    forall i :: 0 <= i < |ks| ==> IsLower(ks[i])
  }

  /** The headers a request carries: an object whose names are lower-case. */
  predicate WellFormed(h: Dict) {
    NoDupKeys(h) && AllLower(Keys(h))
  }

  /** The entries of `h` with their names lower-cased, in order. */
  function LowerNames(h: Dict): (r: Dict)
    ensures |r| == |h|
    ensures AllLower(Keys(r))
  {
    if h == [] then []
    else
      var t := LowerNames(h[1..]);
      var r := [(Lower(h[0].0), h[0].1)] + t;
      assert forall i :: 1 <= i < |r| ==> Keys(r)[i] == Keys(t)[i - 1];
      r
  }

  lemma AllLowerConcat(a: seq<string>, b: seq<string>)
    requires AllLower(a) && AllLower(b)
    ensures AllLower(a + b)
  {
    forall i | 0 <= i < |a + b|
      ensures IsLower((a + b)[i])
    {
      if i >= |a| {
        assert (a + b)[i] == b[i - |a|];
      }
    }
  }

  /** Assigning lower-case names onto lower-case names gives lower-case names. */
  lemma {:induction false} AssignLower(m: Dict, n: Dict)
    requires AllLower(Keys(m)) && AllLower(Keys(n))
    ensures AllLower(Keys(Assign(m, n)))
    decreases |n|
  {
    if n != [] {
      var k := n[0].0;
      assert IsLower(Keys(n)[0]);
      PutKeys(m, k, n[0].1);
      AllLowerConcat(Keys(m), [k]);
      assert AllLower(Keys(n[1..])) by {
        forall i | 0 <= i < |n| - 1
          ensures IsLower(Keys(n[1..])[i])
        {
          assert Keys(n[1..])[i] == Keys(n)[i + 1];
        }
      }
      AssignLower(Put(m, k, n[0].1), n[1..]);
    }
  }

  /** `normalizeHeaders(h)`: the entries of `h` assigned, with lower-cased
      names, onto a fresh object. */
  function Normalize(h: Dict): (r: Dict)
    ensures WellFormed(r)
  {
    var lowered := LowerNames(h);
    AssignNoDup([], lowered);
    AssignLower([], lowered);
    Assign([], lowered)
  }

  /** After normalizing, a name holds the value of the LAST header whose
      lower-cased name it is, so `Some-Header` and `SOME-HEADER` are one
      header and the later one wins. */
  lemma NormalizeGet(h: Dict, k: string)
    ensures Get(Normalize(h), k) == GetLast(LowerNames(h), k)
  {
    AssignGet([], LowerNames(h), k);
    GetLastHas(LowerNames(h), k);
  }

  lemma {:induction false} LowerNamesOfWellFormed(h: Dict)
    requires AllLower(Keys(h))
    ensures LowerNames(h) == h
  {
    if h != [] {
      assert IsLower(Keys(h)[0]);
      assert AllLower(Keys(h[1..])) by {
        forall i | 0 <= i < |h| - 1
          ensures IsLower(Keys(h[1..])[i])
        {
          assert Keys(h[1..])[i] == Keys(h)[i + 1];
        }
      }
      LowerNamesOfWellFormed(h[1..]);
      assert [h[0]] + h[1..] == h;
    }
  }

  /** Normalizing headers that are already normalized changes nothing; in
      particular normalizing is idempotent. */
  lemma NormalizeWellFormed(h: Dict)
    requires WellFormed(h)
    ensures Normalize(h) == h
  {
    LowerNamesOfWellFormed(h);
    AssignOntoEmpty(h);
  }

  lemma NormalizeIdempotent(h: Dict)
    ensures Normalize(Normalize(h)) == Normalize(h)
  {
    NormalizeWellFormed(Normalize(h));
  }

  /** `Object.assign(defaults, normalizeHeaders(perCall))`: the merge the
      constructor does with configured headers and `api` does with the
      headers of one call. */
  function Merge(defaults: Dict, perCall: Dict): (r: Dict)
    requires WellFormed(defaults)
    ensures WellFormed(r)
  {
    var n := Normalize(perCall);
    AssignNoDup(defaults, n);
    AssignLower(defaults, n);
    Assign(defaults, n)
  }

  /** The per-call headers win: a name they give, in any case, takes their
      value; every other name keeps its default value. */
  lemma MergeGet(defaults: Dict, perCall: Dict, k: string)
    requires WellFormed(defaults)
    ensures Get(Merge(defaults, perCall), k) ==
            if k in Keys(Normalize(perCall)) then GetLast(LowerNames(perCall), k)
            else Get(defaults, k)
  {
    AssignGetDistinct(defaults, Normalize(perCall), k);
    NormalizeGet(perCall, k);
  }

  /** The default headers keep their positions and the per-call names new to
      them follow. */
  lemma MergeKeys(defaults: Dict, perCall: Dict)
    requires WellFormed(defaults)
    ensures Keys(Merge(defaults, perCall)) ==
            Keys(defaults) + Missing(Keys(Normalize(perCall)), Keys(defaults))
  {
    AssignKeys(defaults, Normalize(perCall));
  }

  /** Merging the same headers twice is merging them once. */
  lemma MergeTwice(defaults: Dict, perCall: Dict)
    requires WellFormed(defaults)
    ensures Merge(Merge(defaults, perCall), perCall) == Merge(defaults, perCall)
  {
    var n := Normalize(perCall);
    AssignAssociative(defaults, n, n);
    AssignSelf(n);
  }
}
