/** Vocabulary shared by every model: an optional column, blank text, and rounding as PostgreSQL rounds. */
module Common {

  /** A nullable column, or the result of a query that may find no row. */
  datatype Option<+T> = None | Some(value: T)

  /** The white space that Go's strings.TrimSpace removes. */
  predicate IsSpace(c: char) {
    || '\U{0009}' <= c <= '\U{000D}'
    || c in {' ', '\U{0085}', '\U{00A0}', '\U{1680}', '\U{2028}', '\U{2029}', '\U{202F}', '\U{205F}', '\U{3000}'}
    || '\U{2000}' <= c <= '\U{200A}'
  }

  predicate Blank(s: string) {
    forall c :: c in s ==> IsSpace(c)
  }

  /** PostgreSQL's `numeric::int` for a non-negative quotient: to the nearest, halves up. */
  function RoundedQuotient(numerator: nat, denominator: nat): (q: nat)
    requires denominator > 0
    ensures 2 * numerator - denominator < 2 * denominator * q <= 2 * numerator + denominator
  {
    var q := (2 * numerator + denominator) / (2 * denominator);
    QuotientBounds(2 * numerator + denominator, 2 * denominator);
    q
  }

  lemma QuotientBounds(n: nat, d: nat)
    requires d > 0
    ensures d * (n / d) <= n < d * (n / d) + d
  {
  }

  lemma Scaled(a: int, b: int, factor: nat)
    ensures a <= b ==> a * factor <= b * factor
  {
  }

  lemma OneMore(a: int, factor: int)
    ensures (a + 1) * factor == a * factor + factor
  {
  }

  lemma DivisionUnique(n: nat, d: nat, q: nat, r: nat)
    requires r < d && n == q * d + r
    ensures n / d == q && n % d == r
  {
    var q' := n / d;
    QuotientBounds(n, d);
    Scaled(q' + 1, q, d);
    Scaled(q + 1, q', d);
    OneMore(q', d);
    OneMore(q, d);
  }
}
