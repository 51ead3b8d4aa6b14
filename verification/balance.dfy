/** How evenly the rotation loads the workers, with its 32-bit counter. */
module Balance {
  import opened HrunTypes

  /** Of the first `t` assignments, how many went to the worker at place `j` of `m`. */
  function Load(m: nat, t: nat, j: nat): nat
    requires m > 0
  {
    if t == 0 then 0
    else Load(m, t - 1, j) + if (t - 1) % U32_LIMIT % m == j then 1 else 0
  }

  ghost predicate BalancedUpTo(m: nat, t: nat)
    requires m > 0
  {
    forall t', i, j | 0 <= t' <= t && 0 <= i < m && 0 <= j < m :: Load(m, t', i) <= Load(m, t', j) + 1
  }

  /** While the counter's wrap-around cannot be seen, loads are an even division with a remainder. */
  lemma {:induction false} LoadClosedForm(m: nat, t: nat, j: nat)
    requires m > 0 && j < m && (t <= U32_LIMIT || U32_LIMIT % m == 0)
    ensures Load(m, t, j) == t / m + (if j < t % m then 1 else 0)
  {
    if t == 0 {
      assert 0 / m == 0 && 0 % m == 0;
    } else {
      LoadClosedForm(m, t - 1, j);
      WrapInvisible(m, t - 1);
      DivisionStep(m, t - 1);
    }
  }

  lemma WrapInvisible(m: nat, k: nat)
    requires m > 0 && (k < U32_LIMIT || U32_LIMIT % m == 0)
    ensures k % U32_LIMIT % m == k % m
  {
    if k >= U32_LIMIT {
      var q := k / U32_LIMIT;
      var c := U32_LIMIT / m;
      assert k == q * U32_LIMIT + k % U32_LIMIT;
      assert U32_LIMIT == c * m;
      assert q * U32_LIMIT == q * c * m;
      ModPlusMultiple(k % U32_LIMIT, q * c, m);
    }
  }

  lemma ModPlusMultiple(a: nat, q: nat, m: nat)
    requires m > 0
    ensures (q * m + a) % m == a % m
  {
    assert a == a / m * m + a % m;
    assert q * m + a == (q + a / m) * m + a % m;
    Quotient(m, q * m + a, q + a / m, a % m);
  }

  lemma DivisionStep(m: nat, k: nat)
    requires m > 0
    ensures if k % m == m - 1 then (k + 1) / m == k / m + 1 && (k + 1) % m == 0
            else (k + 1) / m == k / m && (k + 1) % m == k % m + 1
  {
    var q, r := k / m, k % m;
    assert k == q * m + r;
    if r == m - 1 {
      assert k + 1 == (q + 1) * m;
      Quotient(m, k + 1, q + 1, 0);
    } else {
      Quotient(m, k + 1, q, r + 1);
    }
  }

  lemma ScaleUp(a: nat, b: nat, m: nat)
    ensures a <= b ==> a * m <= b * m
  {}

  lemma Quotient(m: nat, k: nat, q: nat, r: nat)
    requires m > 0 && r < m && k == q * m + r
    ensures k / m == q && k % m == r
  {
    var q' := k / m;
    assert k == q' * m + k % m;
    ScaleUp(q' + 1, q, m);
    ScaleUp(q + 1, q', m);
  }

  /** Just past the wrap-around the first worker is two ahead of the last, if m does not divide 2^32. */
  lemma UnevenAfterWrap(m: nat, wrap: nat)
    requires m > 0 && wrap == U32_LIMIT && U32_LIMIT % m != 0
    ensures Load(m, wrap + 1, 0) == Load(m, wrap + 1, m - 1) + 2
  {
    LoadClosedForm(m, wrap, 0);
    LoadClosedForm(m, wrap, m - 1);
    assert m > 1;
    assert wrap % U32_LIMIT == 0 && 0 % m == 0;
    assert Load(m, wrap + 1, 0) == Load(m, wrap, 0) + 1;
    assert Load(m, wrap + 1, m - 1) == Load(m, wrap, m - 1);
  }

  /**
   * The loads of the m rotating workers stay within one of each other up to assignment t exactly
   * when the 32-bit counter has not wrapped by then, or m divides 2^32.
   */
  lemma BalancedExactly(m: nat, t: nat)
    requires m > 0
    ensures BalancedUpTo(m, t) <==> t <= U32_LIMIT || U32_LIMIT % m == 0
  {
    if t <= U32_LIMIT || U32_LIMIT % m == 0 {
      forall t', i, j | 0 <= t' <= t && 0 <= i < m && 0 <= j < m
        ensures Load(m, t', i) <= Load(m, t', j) + 1
      {
        LoadClosedForm(m, t', i);
        LoadClosedForm(m, t', j);
      }
    } else {
      var wrap: nat := U32_LIMIT;
      UnevenAfterWrap(m, wrap);
      assert Load(m, wrap + 1, 0) > Load(m, wrap + 1, m - 1) + 1;
    }
  }
}
