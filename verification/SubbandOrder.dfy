/** The order in which a slice's coefficients arrive: subband after subband, the coarsest level first. */
module SubbandOrder {
  import opened Planes
  import opened Dequantiser

  /** Level 0 is the lattice that the levels leave; each level adds the points between those of the coarser lattice:
      first those between two columns, then those between two rows, then those between both. */
  predicate InSubband(depth: nat, level: nat, band: nat, y: nat, x: nat)
    requires level <= depth
  {
    if level == 0 then
      band == 0 && y % Pow2(depth) == 0 && x % Pow2(depth) == 0
    else
      var t := Pow2(depth - level);
      || (band == 1 && y % (2 * t) == 0 && x % (2 * t) == t)
      || (band == 2 && y % (2 * t) == t && x % (2 * t) == 0)
      || (band == 3 && y % (2 * t) == t && x % (2 * t) == t)
  }

  /** Coarser levels precede finer ones, and in a level the subbands have their order; a subband is in raster order. */
  predicate Precedes(o: Origin, y: nat, x: nat, p: Origin, i: nat, k: nat) {
    || o.level < p.level
    || (o.level == p.level && o.band < p.band)
    || (o.level == p.level && o.band == p.band && (y < i || (y == i && x < k)))
  }

  lemma {:induction false} OriginSubband(h: nat, w: nat, depth: nat, j: nat, y: nat, x: nat)
    requires j <= depth && y < h && x < w && OnLattice(Pow2(j), y, x)
    ensures var o := OriginOf(h, w, depth, j, y, x);
            o.level <= depth - j && InSubband(depth, o.level, o.band, y, x)
    decreases depth - j
  {
    hide Rank, Before;
    if j < depth {
      BandOf(Pow2(j), y, x);
      if OnLattice(Pow2(j + 1), y, x) {
        OriginSubband(h, w, depth, j + 1, y, x);
      }
    }
  }

  lemma NumberOrder(n: nat, i: nat, j: nat, k: nat, l: nat)
    requires j < n && l < n
    ensures Number(n, i, j) < Number(n, k, l) <==> i < k || (i == k && j < l)
  {
    if i < k {
      Monotone(k, i + 1, n);
    } else if k < i {
      Monotone(i, k + 1, n);
    }
  }

  lemma QuoOrder(a: nat, b: nat, s: nat)
    requires s > 0 && a % s == b % s
    ensures a < b <==> Quo(a, s) < Quo(b, s)
  {
    assert a == a / s * s + a % s && b == b / s * s + b % s;
    if a / s < b / s {
      Monotone(b / s, a / s + 1, s);
    } else {
      Monotone(a / s, b / s, s);
    }
  }

  lemma RasterOrder(w: nat, s: nat, y: nat, x: nat, i: nat, k: nat, band: nat)
    requires s > 0 && x < w && k < w && InBand(s, band, y, x) && InBand(s, band, i, k)
    ensures Rank(w, s, y, x) < Rank(w, s, i, k) <==> y < i || (y == i && x < k)
  {
    hide Quo, Number, Along;
    InsideAlong(w, s, x);
    InsideAlong(w, s, k);
    QuoOrder(y, i, s);
    QuoOrder(i, y, s);
    QuoOrder(x, k, s);
    NumberOrder(Along(w, x % s, s), Quo(y, s), Quo(x, s), Quo(i, s), Quo(k, s));
  }

  /** The places of the coefficients are in that order. */
  lemma {:induction false} OriginOrder(h: nat, w: nat, depth: nat, j: nat, y: nat, x: nat, i: nat, k: nat)
    requires j <= depth && y < h && x < w && OnLattice(Pow2(j), y, x) && i < h && k < w && OnLattice(Pow2(j), i, k)
    ensures var o, p := OriginOf(h, w, depth, j, y, x), OriginOf(h, w, depth, j, i, k);
            o.index < p.index <==> Precedes(o, y, x, p, i, k)
    decreases depth - j
  {
    hide Points, Rank, OnLattice, InSubband;
    OriginSubband(h, w, depth, j, y, x);
    OriginSubband(h, w, depth, j, i, k);
    if j == depth {
      LatticeIsBand(Pow2(depth), y, x);
      LatticeIsBand(Pow2(depth), i, k);
      RasterOrder(w, Pow2(depth), y, x, i, k, 0);
    } else {
      OriginInside(h, w, depth, j, y, x);
      OriginInside(h, w, depth, j, i, k);
      if OnLattice(Pow2(j + 1), y, x) && OnLattice(Pow2(j + 1), i, k) {
        OriginOrder(h, w, depth, j + 1, y, x, i, k);
      } else if OnLattice(Pow2(j + 1), y, x) {
        OriginSubband(h, w, depth, j + 1, y, x);
      } else if OnLattice(Pow2(j + 1), i, k) {
        OriginSubband(h, w, depth, j + 1, i, k);
      } else {
        FineOrder(h, w, depth, j, y, x, i, k);
      }
    }
  }

  lemma FineOrder(h: nat, w: nat, depth: nat, j: nat, y: nat, x: nat, i: nat, k: nat)
    requires j < depth && y < h && x < w && OnLattice(Pow2(j), y, x) && i < h && k < w && OnLattice(Pow2(j), i, k)
    requires !OnLattice(Pow2(j + 1), y, x) && !OnLattice(Pow2(j + 1), i, k)
    ensures var o, p := OriginOf(h, w, depth, j, y, x), OriginOf(h, w, depth, j, i, k);
            o.index < p.index <==> Precedes(o, y, x, p, i, k)
  {
    hide Points, Rank, Before, OnLattice, OriginOf, InBand;
    FineBand(h, w, depth, j, y, x);
    FineBand(h, w, depth, j, i, k);
    FineLevel(h, w, depth, j, y, x);
    FineLevel(h, w, depth, j, i, k);
    var a, b := OriginOf(h, w, depth, j, y, x).band, OriginOf(h, w, depth, j, i, k).band;
    BandsApart(h, w, Pow2(j), a, b);
    BandsApart(h, w, Pow2(j), b, a);
    if a == b {
      RasterOrder(w, Pow2(j + 1), y, x, i, k, a);
    }
  }

  lemma FineLevel(h: nat, w: nat, depth: nat, j: nat, y: nat, x: nat)
    requires j < depth && !OnLattice(Pow2(j + 1), y, x)
    ensures OriginOf(h, w, depth, j, y, x).level == depth - j
  {}
}
