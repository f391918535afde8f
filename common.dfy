/** Small value-level vocabulary shared by every component of the model. */
module Common {

  /** A value that may be absent: JavaScript `undefined`/`null`, Python `None`. */
  datatype Option<T> = None | Some(value: T) {
    function GetOr(default: T): T {
      if Some? then value else default
    }
  }

  /** The outcome of an operation that can be refused. */
  datatype Result<T, E> = Ok(value: T) | Err(error: E)

  function Min(a: int, b: int): int {
    if a <= b then a else b
  }

  /** `s.slice(0, k)` in JavaScript, `s[:k]` in Python. */
  function Take<T>(s: seq<T>, k: nat): (r: seq<T>)
    ensures |r| == Min(k, |s|)
    ensures r == s[..|r|]
  {
    if k <= |s| then s[..k] else s
  }

  /** A prefix holds each element at most as often as the whole sequence. */
  lemma TakeSubMultiset<T>(s: seq<T>, k: nat)
    ensures multiset(Take(s, k)) <= multiset(s)
  {
    var r := Take(s, k);
    assert s == r + s[|r|..];
  }

  /**
   * `Math.round(c / n * 100)` for an exact ratio with n > 0: the integer nearest to
   * 100c/n, halves rounded up.
   */
  function RoundedPercent(c: nat, n: nat): (r: nat)
    requires n > 0
    ensures -(n as int) <= 200 * c - 2 * n * r < n
    ensures c <= n ==> r <= 100
    ensures c == n ==> r == 100
    ensures c == 0 ==> r == 0
  {
    var q := (200 * c + n) / (2 * n);
    RoundedPercentFacts(c, n, q);
    q
  }

  /** The facts behind `RoundedPercent`, on the quotient itself. */
  lemma RoundedPercentFacts(c: nat, n: nat, q: int)
    requires n > 0 && q == (200 * c + n) / (2 * n)
    ensures q >= 0
    ensures -(n as int) <= 200 * c - 2 * n * q < n
    ensures c <= n ==> q <= 100
    ensures c == n ==> q == 100
    ensures c == 0 ==> q == 0
  {
    var a, b := 200 * c + n, 2 * n;
    var m := a % b;
    assert a == b * q + m && 0 <= m < b;
    MulCancel(b, -1, q);
    if c <= n {
      assert b * 101 == 202 * n;
      MulCancel(b, q, 101);
    }
    if c == n {
      DivUnique(a, b, 100, n);
    }
    if c == 0 {
      DivUnique(a, b, 0, n);
    }
  }

  /** A product with a positive factor is strictly monotone in the other factor. */
  lemma MulCancel(b: nat, x: int, y: int)
    requires b > 0 && b * x < b * y
    ensures x < y
  {
    if x >= y {
      MulMonotone(b, y, x);
    }
  }

  lemma MulMonotone(b: nat, x: int, y: int)
    requires x <= y
    ensures b * x <= b * y
  {}

  lemma DivUnique(a: int, b: int, q: int, m: int)
    requires b > 0 && 0 <= m < b && a == b * q + m
    ensures a / b == q
  {
    var q', m' := a / b, a % b;
    assert a == b * q' + m';
    if q' < q {
      MulMonotone(b, q' + 1, q);
    } else if q' > q {
      MulMonotone(b, q + 1, q');
    }
  }

  /** The elements of `s` satisfying `p`, in order (`Array.prototype.filter`, a list comprehension). */
  function Filter<T>(s: seq<T>, p: T -> bool): (r: seq<T>)
    ensures |r| <= |s|
  {
    if s == [] then []
    else (if p(s[0]) then [s[0]] else []) + Filter(s[1..], p)
  }

  /** The filtered sequence holds exactly the elements of `s` that satisfy `p`. */
  lemma {:induction false} FilterMembers<T>(s: seq<T>, p: T -> bool)
    ensures forall x :: x in Filter(s, p) <==> x in s && p(x)
  {
    if s != [] {
      FilterMembers(s[1..], p);
      assert forall x :: x in s <==> x == s[0] || x in s[1..];
    }
  }

  lemma {:induction false} FilterAppend<T>(a: seq<T>, b: seq<T>, p: T -> bool)
    ensures Filter(a + b, p) == Filter(a, p) + Filter(b, p)
  {
    if a == [] {
      assert a + b == b;
    } else {
      var ab := a + b;
      assert ab[0] == a[0] && ab[1..] == a[1..] + b;
      FilterAppend(a[1..], b, p);
      var h := if p(a[0]) then [a[0]] else [];
      assert Filter(ab, p) == h + (Filter(a[1..], p) + Filter(b, p));
      assert Filter(a, p) == h + Filter(a[1..], p);
    }
  }
}
