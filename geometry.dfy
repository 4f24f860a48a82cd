/**
 * The size and bounding-box helpers of Masa/core/utils/utils.py, on
 * integers. Python's `int()` of a quotient truncates toward zero, written
 * out here as `TruncDiv`; the quotients themselves are exact.
 */
module Geometry {
  import opened Wrappers

  function Abs(a: int): (r: nat)
    ensures r == a || r == -a
  {
    if a < 0 then -a else a
  }

  /** `int(a / b)`: the quotient rounded toward zero. */
  function TruncDiv(a: int, b: int): (q: int)
    requires b != 0
    ensures Abs(q) == Abs(a) / Abs(b)
    ensures q > 0 ==> (a > 0) == (b > 0)
    ensures q < 0 ==> (a > 0) != (b > 0)
  {
    var na, nb := Abs(a), Abs(b);
    DivSign(na, nb);
    var n := na / nb;
    var q := if (a >= 0) == (b > 0) then n else -n;
    assert Abs(q) == n;
    q
  }

  lemma DivSign(na: int, nb: int)
    requires na >= 0 && nb > 0
    ensures na / nb >= 0 && (na / nb > 0 ==> na > 0)
  {
  }

  /** The truncated quotient has the largest magnitude whose multiple of the divisor stays within the dividend. */
  lemma DivBounds(a: int, b: int)
    requires b != 0
    ensures Abs(TruncDiv(a, b)) * Abs(b) <= Abs(a) < (Abs(TruncDiv(a, b)) + 1) * Abs(b)
  {
    var na: int, nb: int := Abs(a), Abs(b);
    var n: int := na / nb;
    assert Abs(TruncDiv(a, b)) == n;
    assert na == n * nb + na % nb && 0 <= na % nb < nb;
    assert (n + 1) * nb == n * nb + nb;
  }

  /** `int(a / 2)`: half of `a`, rounded toward zero. */
  function Half(a: int): (q: int)
    ensures a >= 0 ==> 0 <= a - 2 * q <= 1
    ensures a < 0 ==> 0 <= 2 * q - a <= 1
  {
    if a >= 0 then a / 2 else -((-a) / 2)
  }

  /** `Half` is `TruncDiv` by two. */
  lemma HalfIsTruncDiv(a: int)
    ensures Half(a) == TruncDiv(a, 2)
  {
    assert Abs(2) == 2;
  }

  /** Python truthiness of an optional integer argument: present and non-zero. */
  predicate Truthy(v: Option<int>) {
    v.Some? && v.value != 0
  }

  /**
   * `resize_calculator`: with `ratio`, the first truthy target fixes its side
   * and the other side is scaled to keep the aspect ratio (ValueError when
   * neither is given); without `ratio`, each missing target keeps the
   * original size.
   */
  function ResizeCalculator(ow: int, oh: int, tw: Option<int>, th: Option<int>, ratio: bool): (r: Result<(int, int)>)
    ensures r.Err? <==> ratio && (Truthy(tw) ==> ow == 0) && (!Truthy(tw) && Truthy(th) ==> oh == 0)
    ensures ratio && !Truthy(tw) && !Truthy(th) ==> r == Err(ValueError)
    ensures !ratio ==> r.value.0 == (if Truthy(tw) then tw.value else ow) && r.value.1 == (if Truthy(th) then th.value else oh)
    ensures ratio && Truthy(tw) && ow != 0 ==>
              r.value.0 == tw.value && Abs(r.value.1) == Abs(oh * tw.value) / Abs(ow)
    ensures ratio && !Truthy(tw) && Truthy(th) && oh != 0 ==>
              r.value.1 == th.value && Abs(r.value.0) == Abs(ow * th.value) / Abs(oh)
  {
    if ratio then
      if Truthy(tw) then
        if ow == 0 then Err(ZeroDivisionError) else Ok((tw.value, TruncDiv(oh * tw.value, ow)))
      else if Truthy(th) then
        if oh == 0 then Err(ZeroDivisionError) else Ok((TruncDiv(ow * th.value, oh), th.value))
      else Err(ValueError)
    else
      Ok((if Truthy(tw) then tw.value else ow, if Truthy(th) then th.value else oh))
  }

  /** With a truthy target width the target height plays no part. */
  lemma ResizeIgnoresHeight(ow: int, oh: int, w: int, th1: Option<int>, th2: Option<int>)
    requires w != 0
    ensures ResizeCalculator(ow, oh, Some(w), th1, true) == ResizeCalculator(ow, oh, Some(w), th2, true)
  {
  }

  /** A box as four integers: edges `(x1, y1, x2, y2)`, or a corner or centre with width and height. */
  datatype Box = Box(a: int, b: int, c: int, d: int)

  /** `calc_width_height`, unscaled: top-left corner with the absolute width and height. */
  function CalcWidthHeight(e: Box): (r: Box)
    ensures r.a == e.a && r.b == e.b && r.c >= 0 && r.d >= 0
    ensures r.c == e.c - e.a || r.c == e.a - e.c
    ensures r.d == e.d - e.b || r.d == e.b - e.d
  {
    Box(e.a, e.b, Abs(e.c - e.a), Abs(e.d - e.b))
  }

  /** `calc_bottom_coord`, unscaled: the corner plus width and height. */
  function CalcBottomCoord(g: Box): (r: Box)
    ensures r.a == g.a && r.b == g.b && r.c - r.a == g.c && r.d - r.b == g.d
  {
    Box(g.a, g.b, g.a + g.c, g.b + g.d)
  }

  /** A box whose second corner is right of and below its first. */
  predicate Ordered(e: Box) {
    e.a <= e.c && e.b <= e.d
  }

  /**
   * `calc_bottom_coord` undoes `calc_width_height` exactly on ordered boxes;
   * on any other box it returns a different box.
   */
  lemma BottomCoordInverts(e: Box)
    ensures CalcBottomCoord(CalcWidthHeight(e)) == e <==> Ordered(e)
  {
  }

  /** `calc_width_height` undoes `calc_bottom_coord` for a non-negative width and height. */
  lemma WidthHeightInverts(g: Box)
    requires g.c >= 0 && g.d >= 0
    ensures CalcWidthHeight(CalcBottomCoord(g)) == g
  {
  }

  /** `edge_bb_to_center_bb`, `as_int` and unscaled: the truncated centre and the absolute width and height. */
  function EdgeToCenter(e: Box): (r: Box)
    ensures Abs(2 * r.a - (e.a + e.c)) <= 1 && Abs(2 * r.b - (e.b + e.d)) <= 1
    ensures r.c == Abs(e.c - e.a) && r.d == Abs(e.d - e.b)
  {
    Box(Half(e.a + e.c), Half(e.b + e.d), Abs(e.c - e.a), Abs(e.d - e.b))
  }

  /** `center_bb_to_edge_bb`, `as_int` and unscaled: the centre minus and plus half the size, each truncated. */
  function CenterToEdge(m: Box): (r: Box)
    ensures Abs(2 * r.a - (2 * m.a - m.c)) <= 1 && Abs(2 * r.c - (2 * m.a + m.c)) <= 1
    ensures Abs(2 * r.b - (2 * m.b - m.d)) <= 1 && Abs(2 * r.d - (2 * m.b + m.d)) <= 1
  {
    Box(Half(2 * m.a - m.c), Half(2 * m.b - m.d), Half(2 * m.a + m.c), Half(2 * m.b + m.d))
  }

  /** On even numbers halving is exact. */
  lemma HalfEven(k: int)
    ensures Half(2 * k) == k
  {
  }

  /** On an odd number the truncated half loses a half toward zero. */
  lemma HalfOdd(k: int)
    ensures Half(2 * k + 1) == (if k >= 0 then k else k + 1)
  {
  }

  /** One axis of the round trip: exact when the coordinates sum to an even number. */
  lemma {:induction false} AxisRoundTrip(lo: int, hi: int)
    requires lo <= hi
    ensures var m := Half(lo + hi);
      (Half(2 * m - (hi - lo)) == lo && Half(2 * m + (hi - lo)) == hi) <==> (lo + hi) % 2 == 0
  {
    var m := Half(lo + hi);
    if (lo + hi) % 2 == 0 {
      var k := (lo + hi) / 2;
      HalfEven(k);
      assert 2 * m - (hi - lo) == 2 * lo;
      assert 2 * m + (hi - lo) == 2 * hi;
      HalfEven(lo);
      HalfEven(hi);
    } else {
      var k := (lo + hi - 1) / 2;
      assert lo + hi == 2 * k + 1;
      HalfOdd(k);
      if k >= 0 {
        // the centre is rounded down: both edges come back half a unit low
        assert 2 * m - (hi - lo) == 2 * (lo - 1) + 1;
        assert 2 * m + (hi - lo) == 2 * (hi - 1) + 1;
        HalfOdd(lo - 1);
        HalfOdd(hi - 1);
      } else {
        // the centre is rounded up: both edges come back half a unit high
        assert 2 * m - (hi - lo) == 2 * lo + 1;
        assert 2 * m + (hi - lo) == 2 * hi + 1;
        HalfOdd(lo);
        HalfOdd(hi);
      }
    }
  }

  /**
   * `center_bb_to_edge_bb` undoes `edge_bb_to_center_bb` on an ordered box
   * exactly when both coordinate sums are even; otherwise truncating the
   * centre loses half a unit.
   */
  lemma CenterEdgeRoundTrip(e: Box)
    requires Ordered(e)
    ensures CenterToEdge(EdgeToCenter(e)) == e <==> (e.a + e.c) % 2 == 0 && (e.b + e.d) % 2 == 0
  {
    AxisRoundTrip(e.a, e.c);
    AxisRoundTrip(e.b, e.d);
  }
}
