/** Products, remainders and counting, kept apart from the lemmas that use them. */
module Arithmetic {
  lemma Products(a: nat, d: nat, c: nat)
    ensures (a + d) * c == a * c + d * c && d * c >= 0
    ensures d >= 1 ==> d * c >= c
  {
    if d >= 1 {
      assert d * c == (d - 1) * c + c;
    }
  }

  /** Multiplication is monotone. */
  lemma Monotone(a: nat, b: nat, c: nat)
    ensures a <= b ==> a * c <= b * c
    ensures a < b ==> a * c + c <= b * c
  {
    if a <= b {
      Products(a, b - a, c);
    }
  }

  lemma UniqueDivision(n: nat, q: nat, r: nat, q': nat, r': nat)
    requires r < n && r' < n && q * n + r == q' * n + r'
    ensures q == q' && r == r'
  {
    Monotone(q, q', n);
    Monotone(q', q, n);
  }

  lemma Division(x: nat, n: nat, q: nat, r: nat)
    requires r < n && x == q * n + r
    ensures x / n == q && x % n == r
  {
    var q', r' := x / n, x % n;
    assert x == q' * n + r';
    UniqueDivision(n, q, r, q', r');
  }

  // ---- counting

  function One(b: bool): nat { if b then 1 else 0 }

  /** How often x occurs in s. */
  function Count<T(==)>(s: seq<T>, x: T): nat {
    if s == [] then 0 else Count(s[..|s| - 1], x) + One(s[|s| - 1] == x)
  }

  lemma CountMore<T>(s: seq<T>, y: T, x: T)
    ensures Count(s + [y], x) == Count(s, x) + One(y == x)
  {
    assert (s + [y])[..|s + [y]| - 1] == s;
  }
}
