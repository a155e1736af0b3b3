/** Facts about integer multiplication, division and remainder used by the layout proofs. */
module Arith {

  lemma MulLe(a: int, b: int, c: int)
    requires 0 <= a <= b && 0 <= c
    ensures a * c <= b * c
  {
  }

  /** The only integer multiple of a positive `h` strictly between `-h` and `h` is zero. */
  lemma {:induction false} SmallMultiple(m: int, h: int)
    requires h > 0 && -h < m * h < h
    ensures m == 0
  {
    if m >= 1 {
      MulLe(1, m, h);
    } else if m <= -1 {
      MulLe(1, -m, h);
    }
  }

  /** Floor division recovers the band a value lies in. */
  lemma {:induction false} DivBand(d: int, h: int, k: int)
    requires h > 0 && k * h <= d < k * h + h
    ensures d / h == k
  {
    var q, r := d / h, d % h;
    assert d == q * h + r && 0 <= r < h;
    assert (q - k) * h == q * h - k * h;
    SmallMultiple(q - k, h);
  }

  /** The remainder of a value in a band: what is left above the band's floor. */
  lemma {:induction false} ModBand(d: int, h: int, k: int)
    requires h > 0 && k * h <= d < k * h + h
    ensures d % h == d - k * h
  {
    DivBand(d, h, k);
    assert d == (d / h) * h + d % h;
  }

  /** Taking the remainder before adding one does not change the remainder after. */
  lemma {:induction false} ModAddOne(a: int, n: int)
    requires n > 0
    ensures (a % n + 1) % n == (a + 1) % n
  {
    var q, r := a / n, a % n;
    assert a == q * n + r && 0 <= r < n;
    if r + 1 < n {
      ModBand(a + 1, n, q);
      ModBand(r + 1, n, 0);
    } else {
      assert (q + 1) * n == q * n + n;
      ModBand(a + 1, n, q + 1);
      ModBand(r + 1, n, 1);
    }
  }
}
