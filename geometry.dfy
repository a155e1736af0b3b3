/** Integer screen geometry: points and pygame-style rectangles. */
module Geometry {
  import opened Outcomes
  import opened Arith

  datatype Point = Point(x: int, y: int)

  /** A rectangle given by its top-left corner, width and height. */
  datatype Rect = Rect(x: int, y: int, w: int, h: int)

  /** `Rect.collidepoint`: the left and top edges are inside, the right and bottom edges are not. */
  predicate Contains(r: Rect, p: Point) {
    r.x <= p.x < r.x + r.w && r.y <= p.y < r.y + r.h
  }

  /** `rect.topleft = p`: the rectangle moved so that its corner is `p`, size kept. */
  function MoveTo(r: Rect, p: Point): (m: Rect)
    ensures m.x == p.x && m.y == p.y
    ensures m.w == r.w && m.h == r.h
    ensures forall q: Point :: Contains(m, q) <==> Contains(r, Point(q.x - p.x + r.x, q.y - p.y + r.y))
  {
    Rect(p.x, p.y, r.w, r.h)
  }

  /** Row `i` (0-based) of the list a dropdown unfolds below its anchor: same width and height,
      stacked directly beneath the anchor. */
  function RowRect(anchor: Rect, i: nat): Rect {
    Rect(anchor.x, anchor.y + (i + 1) * anchor.h, anchor.w, anchor.h)
  }

  /** The first row among rows `from .. n-1` containing `p`. */
  function FirstRowHitFrom(anchor: Rect, n: nat, p: Point, from: nat): (r: Option<nat>)
    requires from <= n
    decreases n - from
    ensures r.Some? ==> from <= r.value < n && Contains(RowRect(anchor, r.value), p)
    ensures r.Some? ==> forall j :: from <= j < r.value ==> !Contains(RowRect(anchor, j), p)
    ensures r.None? ==> forall j :: from <= j < n ==> !Contains(RowRect(anchor, j), p)
  {
    if from == n then None
    else if Contains(RowRect(anchor, from), p) then Some(from)
    else FirstRowHitFrom(anchor, n, p, from + 1)
  }

  /** The first of the `n` rows, in display order, that contains `p`, if any. */
  function FirstRowHit(anchor: Rect, n: nat, p: Point): (r: Option<nat>)
    ensures r.Some? ==> r.value < n && Contains(RowRect(anchor, r.value), p)
    ensures r.Some? ==> forall j :: 0 <= j < r.value ==> !Contains(RowRect(anchor, j), p)
    ensures r.None? ==> forall j :: 0 <= j < n ==> !Contains(RowRect(anchor, j), p)
  {
    FirstRowHitFrom(anchor, n, p, 0)
  }

  /** A point inside row `i` lies between `(i+1)*h` and `(i+2)*h` below the anchor's top. */
  lemma {:induction false} RowBand(anchor: Rect, i: nat, p: Point)
    requires Contains(RowRect(anchor, i), p)
    ensures anchor.h > 0 && anchor.w > 0
    ensures (i + 1) * anchor.h <= p.y - anchor.y < (i + 2) * anchor.h
  {
    assert (i + 2) * anchor.h == (i + 1) * anchor.h + anchor.h;
  }

  /** No point lies in two different rows: the first hit is the only hit. */
  lemma {:induction false} RowsDisjoint(anchor: Rect, i: nat, j: nat, p: Point)
    requires i != j && Contains(RowRect(anchor, i), p)
    ensures !Contains(RowRect(anchor, j), p)
  {
    RowBand(anchor, i, p);
    if Contains(RowRect(anchor, j), p) {
      RowBand(anchor, j, p);
      if i < j {
        MulLe(i + 2, j + 1, anchor.h);
      } else {
        MulLe(j + 2, i + 1, anchor.h);
      }
      assert false;
    }
  }

  /** No row overlaps the anchor itself. */
  lemma {:induction false} RowsBelowAnchor(anchor: Rect, i: nat, p: Point)
    requires Contains(RowRect(anchor, i), p)
    ensures !Contains(anchor, p)
  {
    RowBand(anchor, i, p);
    MulLe(1, i + 1, anchor.h);
  }

  /** Which row contains a point, in closed form: the quotient of the point's depth below the
      anchor by the row height, minus one, when the point is in the anchor's column. */
  lemma {:induction false} RowIndexOf(anchor: Rect, i: nat, p: Point)
    requires anchor.h > 0
    ensures Contains(RowRect(anchor, i), p) <==>
      anchor.x <= p.x < anchor.x + anchor.w && p.y - anchor.y >= 0 && (p.y - anchor.y) / anchor.h == i + 1
  {
    var d := p.y - anchor.y;
    var h := anchor.h;
    assert (i + 2) * h == (i + 1) * h + h;
    if Contains(RowRect(anchor, i), p) {
      RowBand(anchor, i, p);
      DivBand(d, h, i + 1);
    }
    if anchor.x <= p.x < anchor.x + anchor.w && d >= 0 && d / h == i + 1 {
      assert d == (d / h) * h + d % h && 0 <= d % h < h;
    }
  }

  /** A row that is hit is the one the closed form names. */
  lemma {:induction false} HitRowClosedForm(anchor: Rect, n: nat, p: Point, i: nat)
    requires anchor.h > 0 && i < n && Contains(RowRect(anchor, i), p)
    ensures var d := p.y - anchor.y;
      anchor.x <= p.x < anchor.x + anchor.w && d >= anchor.h && d / anchor.h - 1 == i
  {
    RowIndexOf(anchor, i, p);
    var d := p.y - anchor.y;
    MulLe(1, d / anchor.h, anchor.h);
    assert d >= (d / anchor.h) * anchor.h;
  }

  /** When the closed form names a row in range, that row is hit. */
  lemma {:induction false} ClosedFormRowHit(anchor: Rect, n: nat, p: Point)
    requires anchor.h > 0
    requires anchor.x <= p.x < anchor.x + anchor.w && p.y - anchor.y >= anchor.h
    ensures (p.y - anchor.y) / anchor.h >= 1
    ensures Contains(RowRect(anchor, (p.y - anchor.y) / anchor.h - 1), p)
  {
    var d := p.y - anchor.y;
    var q := d / anchor.h;
    assert d == q * anchor.h + d % anchor.h && d % anchor.h < anchor.h;
    if q < 1 {
      MulLe(q + 1, 1, anchor.h);
    }
    RowIndexOf(anchor, q - 1, p);
  }

  /** The row a click selects, in closed form. */
  lemma {:induction false} FirstRowHitClosedForm(anchor: Rect, n: nat, p: Point)
    requires anchor.h > 0
    ensures var d := p.y - anchor.y;
      FirstRowHit(anchor, n, p) ==
        if anchor.x <= p.x < anchor.x + anchor.w && d >= anchor.h && d / anchor.h - 1 < n
        then Some(d / anchor.h - 1) else None
  {
    var d := p.y - anchor.y;
    var r := FirstRowHit(anchor, n, p);
    if r.Some? {
      HitRowClosedForm(anchor, n, p, r.value);
    }
    if anchor.x <= p.x < anchor.x + anchor.w && d >= anchor.h && d / anchor.h - 1 < n {
      ClosedFormRowHit(anchor, n, p);
    }
  }
}
