/** The columns at the end of a row that the last passes do not store, and those that they should not. */
module Losses {
  import opened Planes
  import opened JobGrid
  import opened Jobs
  import opened Picture
  import opened Decoding
  import Output
  import VectorOutput

  // ----- the column not stored

  /** The slices of an overlap, so many that they span up to 32 samples. */
  function OverlapOf(size: nat): nat
    requires size > 0
  {
    32 / size
  }

  lemma OverlapNotFour(size: nat)
    requires size > 0
    ensures OverlapOf(size) * size != 4
    ensures size % 2 == 0 ==> OverlapOf(size) * (size / 2) != 4
  {
    var o := 32 / size;
    assert 32 == o * size + 32 % size;
    if size % 2 == 0 {
      var h := size / 2;
      assert o * size == o * h * 2;
    }
  }

  /** Four samples between the end of what a job delivers and the end of its window. */
  lemma EndsFourShort(g: Grid, jy: nat, jx: nat, j: nat)
    requires g.Valid() && Covered(g.ay) && Covered(g.ax) && jy < g.ay.jobs && jx < g.ax.jobs
    requires g.ax.overlap * g.ax.size != 4
    ensures ColumnMissed(g, jy, jx, j) <==> jx == g.ax.jobs - 1 && PostMargin(g.ax) == 4 && j == g.ax.length - 1
  {
    var a, s, o := g.ax, g.ax.size, g.ax.overlap;
    OutputEnds(a, jx);
    OwnSamples(a, jx);
    Margin(a);
    ThreeParts(if jx > 0 then o else 0, a.Own(jx), if jx < a.jobs - 1 then o else 0, s);
    hide Target, OutputSize, Axis.Own, PostMargin, Covered;
    OutputEnds(g.ay, jy);
  }

  /** With the overlap the decoder chooses, only the last job can lose a column, and it does so exactly when four
      samples were padded. */
  lemma ColumnMissedExactly(g: Grid, c: nat, jy: nat, jx: nat, j: nat)
    requires g.Valid() && Covered(g.ay) && Covered(g.ax) && jy < g.ay.jobs && jx < g.ax.jobs
    requires g.ax.overlap == OverlapOf(g.ax.size) && g.ax.size % 2 == 0 && g.ax.length % 2 == 0
    ensures PlaneGrid(g, c).Valid() && Covered(PlaneGrid(g, c).ax)
    ensures ColumnMissed(PlaneGrid(g, c), jy, jx, j) <==>
            jx == g.ax.jobs - 1 && PostMargin(PlaneGrid(g, c).ax) == 4 && j == PlaneGrid(g, c).ax.length - 1
  {
    OverlapNotFour(g.ax.size);
    PlaneGridValid(g, c);
    ChromaAxis(g.ax, jx);
    EndsFourShort(PlaneGrid(g, c), jy, jx, j);
  }

  /** A picture 1916 samples wide loses its last column of luma, in slices of 8 samples and in slices of 16,
      where every other condition is met. */
  lemma WidthsThatLose()
    ensures var g := Grid(Axis(135, 8, 1, 8, 1080), Axis(240, 8, 4, 8, 1916));
            && g.Valid() && Cut(g.ay, 3) && Cut(g.ax, 3) && ColumnMissed(g, 0, 7, 1915)
    ensures var g := Grid(Axis(135, 8, 1, 8, 1080), Axis(120, 8, 2, 16, 1916));
            Usable(g, 3) && ColumnMissed(g, 0, 7, 1915)
  {
    assert Pow2(3) == 8;
    var v, h, k := Axis(135, 8, 1, 8, 1080), Axis(240, 8, 4, 8, 1916), Axis(120, 8, 2, 16, 1916);
    assert v.PerJob() == 17 && h.PerJob() == 30 && k.PerJob() == 15 && HalfAxis(k).PerJob() == 15;
    hide ColumnMissed;
    EndsFourShort(Grid(v, h), 0, 7, 1915);
    EndsFourShort(Grid(v, k), 0, 7, 1915);
  }

  /** The last job of a picture 1916 samples wide, row y of an output without padding: the vectorised pass stores four
      samples past the part, in the cells of the next row's first four, and past the output in its last row. */
  lemma StoredPastTheEnd(y: nat, k: nat)
    requires y < 1080 && k < 4
    ensures var g := Grid(Axis(135, 8, 1, 8, 1080), Axis(240, 8, 4, 8, 1916));
            && g.Valid() && Covered(g.ay) && Covered(g.ax) && PartOf(g, 7, 7).x == 32 && PartOf(g, 7, 7).w == 236
            && PartOf(g, 7, 7).toX == 1680 && g.ax.Count(7) * g.ax.size == 272
    ensures var s := Output.Slot(272, 32, 236, y * 1916 + 1680);
            && VectorOutput.Valid(s) && VectorOutput.Takes(s, 268 + k) && !s.Takes(268 + k)
            && s.Cell(268 + k) == (y + 1) * 1916 + k && (VectorOutput.Room(s, 1080 * 1916) <==> y < 1079)
  {
    assert Axis(135, 8, 1, 8, 1080).PerJob() == 17 && Axis(240, 8, 4, 8, 1916).PerJob() == 30;
  }
}
