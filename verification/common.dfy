/** Vocabulary shared by every part of the deployment tracker: identifiers,
    optional values, order-preserving filtering, JavaScript's rounding and
    `Array.prototype.slice(-n)`. */
module Common {

  /** Document identifiers (Mongo ObjectIds) and clock readings in milliseconds. */
  type DeploymentId = int
  type UserId = int
  type Millis = int

  /** A field that may be absent from a document or a request. */
  datatype Option<T> = None | Some(value: T) {
    function GetOr(default: T): T {
      if Some? then value else default
    }
  }

  /** JavaScript truthiness of an optional string: absent and "" are both false. */
  predicate IsSet(s: Option<string>) {
    s.Some? && s.value != ""
  }

  /** `Math.round(x)`: the nearest integer, ties rounded towards +infinity. */
  function RoundHalfUp(x: real): (r: int)
    ensures x - 0.5 < r as real <= x + 0.5
  {
    (x + 0.5).Floor
  }

  /** `Math.round(x * 100) / 100`: rounding to two decimal places. */
  function Round2(x: real): (r: real)
    ensures x - 0.005 < r <= x + 0.005
    ensures (r * 100.0).Floor as real == r * 100.0
  {
    var k := RoundHalfUp(x * 100.0);
    assert k as real / 100.0 * 100.0 == k as real;
    k as real / 100.0
  }

  /** `Array.prototype.filter`: the elements satisfying `p`, in their original order. */
  function Filter<T>(s: seq<T>, p: T -> bool): (r: seq<T>)
    ensures |r| <= |s|
    ensures forall i :: 0 <= i < |r| ==> p(r[i]) && r[i] in s
    decreases |s|
  {
    if s == [] then []
    else if p(s[0]) then [s[0]] + Filter(s[1..], p)
    else Filter(s[1..], p)
  }

  /** Filtering keeps each element with its full multiplicity, or drops it entirely. */
  lemma {:induction false} FilterMultiset<T>(s: seq<T>, p: T -> bool)
    ensures forall x :: multiset(Filter(s, p))[x] == if p(x) then multiset(s)[x] else 0
    decreases |s|
  {
    if s != [] {
      FilterMultiset(s[1..], p);
      assert s == [s[0]] + s[1..];
    }
  }

  /** Filtering a sequence extended at the end extends the filtered sequence. */
  lemma {:induction false} FilterSnoc<T>(s: seq<T>, x: T, p: T -> bool)
    ensures Filter(s + [x], p) == Filter(s, p) + (if p(x) then [x] else [])
    decreases |s|
  {
    if s == [] {
      assert [x][1..] == [];
    } else {
      assert (s + [x])[0] == s[0];
      assert (s + [x])[1..] == s[1..] + [x];
      FilterSnoc(s[1..], x, p);
    }
  }

  /** A second filter whose condition implies the first one's sees through it. */
  lemma {:induction false} FilterAbsorbs<T>(s: seq<T>, p: T -> bool, q: T -> bool)
    requires forall x :: q(x) ==> p(x)
    ensures Filter(Filter(s, p), q) == Filter(s, q)
    decreases |s|
  {
    if s != [] {
      FilterAbsorbs(s[1..], p, q);
    }
  }

  /** The index of the last element satisfying `p`, or -1 when there is none. */
  function LastIndex<T>(s: seq<T>, p: T -> bool): (i: int)
    ensures -1 <= i < |s|
    ensures i >= 0 ==> p(s[i])
    ensures forall j :: i < j < |s| ==> !p(s[j])
    decreases |s|
  {
    if s == [] then -1
    else if p(s[|s| - 1]) then |s| - 1
    else LastIndex(s[..|s| - 1], p)
  }

  /** The last element kept by a filter is the last element satisfying its condition. */
  lemma {:induction false} FilterLast<T>(s: seq<T>, p: T -> bool)
    ensures Filter(s, p) == [] <==> LastIndex(s, p) == -1
    ensures Filter(s, p) != [] ==> Filter(s, p)[|Filter(s, p)| - 1] == s[LastIndex(s, p)]
    decreases |s|
  {
    if s != [] {
      var front := s[..|s| - 1];
      assert s == front + [s[|s| - 1]];
      FilterSnoc(front, s[|s| - 1], p);
      FilterLast(front, p);
    }
  }

  /** `s.slice(-n)` for `n >= 1`: the newest `n` elements, or all of them when
      there are fewer, in their original order. */
  function KeepLast<T>(s: seq<T>, n: nat): (r: seq<T>)
    requires n > 0
    ensures |r| == if |s| < n then |s| else n
    ensures r == s[|s| - |r|..]
  {
    if |s| <= n then s else s[|s| - n..]
  }

  /** `Array.prototype.reverse`. */
  function Reverse<T>(s: seq<T>): (r: seq<T>)
    ensures |r| == |s|
    ensures forall i :: 0 <= i < |s| ==> r[i] == s[|s| - 1 - i]
  {
    if s == [] then [] else Reverse(s[1..]) + [s[0]]
  }

  /** The last `n` elements, most recent first. */
  function NewestN<T>(s: seq<T>, n: nat): (r: seq<T>)
    requires n > 0
    ensures |r| == Min(n, |s|)
    ensures forall i :: 0 <= i < |r| ==> r[i] == s[|s| - 1 - i]
  {
    var kept := KeepLast(s, n);
    assert |kept| == Min(n, |s|);
    assert forall i :: 0 <= i < |kept| ==> kept[i] == s[|s| - |kept| + i];
    var r := Reverse(kept);
    assert forall i :: 0 <= i < |r| ==> r[i] == kept[|kept| - 1 - i];
    r
  }

  function Min(a: int, b: int): int {
    if a <= b then a else b
  }

  /** `Math.floor(Math.random() * span) + base` for a draw `r` in [0, 1). */
  function RandomInt(r: real, span: nat, base: int): (t: int)
    requires 0.0 <= r < 1.0 && span > 0
    ensures base <= t < base + span
  {
    var x := r * span as real;
    ScaleBelow(r, span as real);
    x.Floor + base
  }

  /** A fraction in [0, 1) of a positive amount lies in [0, amount). */
  lemma ScaleBelow(r: real, a: real)
    requires 0.0 <= r < 1.0 && a > 0.0
    ensures 0.0 <= r * a < a
  {
    var gap := 1.0 - r;
    assert gap * a > 0.0;
    assert a - r * a == gap * a;
  }
}
