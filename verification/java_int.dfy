/**
 Java's `int` division and remainder (section 15.17.2 and 15.17.3 of the Java
 Language Specification). Java rounds the quotient toward zero, whereas Dafny's
 `/` on `int` is Euclidean; the two differ when exactly one operand is negative
 and the division is inexact, e.g. Java's `-21 / 2` is `-10`, Dafny's is `-11`.
 */
module JavaInt {

  function Abs(x: int): (r: nat)
    ensures r == x || r == -x
  {
    if x < 0 then -x else x
  }

  /** Java's `n / d`: the quotient of the magnitudes, negated when the signs differ. */
  function JavaDiv(n: int, d: int): (r: int)
    requires d != 0
    ensures Abs(r) == Abs(n) / Abs(d)
    ensures r > 0 ==> (n < 0) == (d < 0)
    ensures r < 0 ==> (n < 0) != (d < 0)
  {
    var q: int := Abs(n) / Abs(d);
    assert 0 <= q;
    if (n < 0) == (d < 0) then q else -q
  }

  /** Java's `n % d`, which the language defines by `(n / d) * d + n % d == n`. */
  function JavaRem(n: int, d: int): (r: int)
    requires d != 0
    ensures JavaDiv(n, d) * d + r == n
    ensures Abs(r) < Abs(d)
    ensures n > 0 ==> r >= 0
    ensures n < 0 ==> r <= 0
  {
    JavaDivIsTruncated(n, d);
    n - JavaDiv(n, d) * d
  }

  /** The language's own description of the division, independent of any
      implementation: `q * d` differs from `n` by less than one divisor, and the
      remainder is zero or has the sign of the dividend. */
  ghost predicate IsTruncatedQuotient(n: int, d: int, q: int)
  {
    var r := n - q * d;
    && Abs(r) < Abs(d)
    && (n > 0 ==> r >= 0)
    && (n < 0 ==> r <= 0)
  }

  /** Multiplying a natural number by a factor of at least one does not shrink it. */
  lemma {:induction false} MulAtLeastOne(k: nat, d: nat)
    requires 1 <= k
    ensures k * d >= d
  {
    if k > 1 {
      MulAtLeastOne(k - 1, d);
      assert k * d == (k - 1) * d + d;
    }
  }

  /** The magnitude of a product is the product of the magnitudes. */
  lemma AbsOfProduct(k: int, d: int)
    ensures Abs(k * d) == Abs(k) * Abs(d)
  {
    if k < 0 && d < 0 {
      assert k * d == (-k) * (-d);
    } else if k < 0 {
      assert -(k * d) == (-k) * d;
    } else if d < 0 {
      assert -(k * d) == k * (-d);
    }
  }

  /** A multiple of `d` whose magnitude is below `|d|` is zero. */
  lemma SmallMultipleIsZero(d: int, k: int)
    requires d != 0
    requires Abs(k * d) < Abs(d)
    ensures k == 0
  {
    if k != 0 {
      AbsOfProduct(k, d);
      MulAtLeastOne(Abs(k), Abs(d));
    }
  }

  /** Java's quotient times the divisor is the Euclidean multiple of the
      magnitudes, carrying the sign of the dividend. */
  lemma JavaDivTimesDivisor(n: int, d: int)
    requires d != 0
    ensures JavaDiv(n, d) * d == (if n < 0 then -1 else 1) * ((Abs(n) / Abs(d)) * Abs(d))
  {
    var q: int := Abs(n) / Abs(d);
    var b: int := Abs(d);
    if n >= 0 && d < 0 {
      assert JavaDiv(n, d) * d == (-q) * (-b);
    } else if n < 0 && d > 0 {
      assert JavaDiv(n, d) * d == (-q) * b;
    } else if n < 0 {
      assert JavaDiv(n, d) * d == q * (-b);
    }
  }

  /** `JavaDiv` meets the language's description of the quotient. */
  lemma JavaDivIsTruncated(n: int, d: int)
    requires d != 0
    ensures IsTruncatedQuotient(n, d, JavaDiv(n, d))
  {
    var a: int, b: int := Abs(n), Abs(d);
    var m: int := a - (a / b) * b;
    assert 0 <= m < b;
    JavaDivTimesDivisor(n, d);
    assert n - JavaDiv(n, d) * d == (if n < 0 then -m else m);
  }

  /** At most one quotient meets the description. */
  lemma TruncatedQuotientsAgree(n: int, d: int, q: int, q': int)
    requires d != 0
    requires IsTruncatedQuotient(n, d, q) && IsTruncatedQuotient(n, d, q')
    ensures q == q'
  {
    var r, r' := n - q * d, n - q' * d;
    assert (q' - q) * d == r - r';
    if n == 0 {
      assert r == (-q) * d && r' == (-q') * d;
      SmallMultipleIsZero(d, -q);
      SmallMultipleIsZero(d, -q');
    } else {
      // Both remainders lie on the side of zero the dividend is on, each
      // within one divisor of it, so they differ by less than one divisor.
      assert Abs(r - r') < Abs(d);
      SmallMultipleIsZero(d, q' - q);
    }
  }

  /** The description determines the quotient: `JavaDiv` is the only value meeting it. */
  lemma TruncatedQuotientIsUnique(n: int, d: int, q: int)
    requires d != 0
    requires IsTruncatedQuotient(n, d, q)
    ensures q == JavaDiv(n, d)
  {
    JavaDivIsTruncated(n, d);
    TruncatedQuotientsAgree(n, d, q, JavaDiv(n, d));
  }

  /** Both directions: a value is Java's quotient exactly when it meets the description. */
  lemma JavaDivCharacterization(n: int, d: int, q: int)
    requires d != 0
    ensures IsTruncatedQuotient(n, d, q) <==> q == JavaDiv(n, d)
  {
    JavaDivIsTruncated(n, d);
    if IsTruncatedQuotient(n, d, q) {
      TruncatedQuotientIsUnique(n, d, q);
    }
  }

  /** For a non-negative dividend and a positive divisor, truncation and
      Dafny's Euclidean division agree. */
  lemma JavaDivMatchesEuclideanOnNonNegative(n: int, d: int)
    requires 0 <= n && 0 < d
    ensures JavaDiv(n, d) == n / d
  {
  }

  /** The two divisions differ on a negative odd dividend: `-21 / 2`. */
  lemma JavaDivDiffersFromEuclidean()
    ensures JavaDiv(-21, 2) == -10
    ensures -21 / 2 == -11
  {
  }
}
