/** What the inverse transform of a plane does to its lines, in terms of the lines alone. */
module PlaneLaws {
  import opened Lifting
  import opened LiftingLaws
  import opened Planes

  /** The columns of the lattice are synthesised, and no other sample changes. */
  ghost predicate ColumnsLifted(f: Filter, p: Plane, q: Plane, h: nat, w: nat, s: nat)
    requires Rect(p, h, w) && LevelOk(f, h, w, s)
  {
    && Rect(q, h, w)
    && (forall x: nat :: x < w && x % s == 0 ==> Lifted(f, Column(p, h, w, x, s), Column(q, h, w, x, s)))
    && forall y: nat, x: nat :: y < h && x < w && !OnLattice(s, y, x) ==> q[y][x] == p[y][x]
  }

  /** Its rows are synthesised and halved, and no other sample changes. */
  ghost predicate RowsLifted(f: Filter, p: Plane, q: Plane, h: nat, w: nat, s: nat)
    requires Rect(p, h, w) && LevelOk(f, h, w, s)
  {
    && Rect(q, h, w)
    && (forall y: nat :: y < h && y % s == 0 ==> RowLifted(f, Row(p, h, w, y, s), Row(q, h, w, y, s)))
    && forall y: nat, x: nat :: y < h && x < w && !OnLattice(s, y, x) ==> q[y][x] == p[y][x]
  }

  ghost predicate RowLifted(f: Filter, c: seq<int>, out: seq<int>)
    requires LineOk(f, |c|)
  {
    exists r :: PassOf(f, true, c, r, out)
  }

  lemma RowExactly(f: Filter, c: seq<int>, out: seq<int>)
    requires LineOk(f, |c|)
    ensures RowLifted(f, c, out) <==> out == Pass(f, true, c)
  {
    hide PassOf, Pass;
    PassLeaves(f, true, c);
    forall r | PassOf(f, true, c, r, out) ensures out == Pass(f, true, c) {
      PassExactly(f, true, c, r, out);
    }
  }

  lemma ColumnsExactly(f: Filter, p: Plane, q: Plane, h: nat, w: nat, s: nat)
    requires Rect(p, h, w) && LevelOk(f, h, w, s)
    ensures ColumnsLifted(f, p, q, h, w, s) <==> q == VPass(f, Synthesis, p, h, w, s)
  {
    hide Lifted, Synth, VPass, LineOk;
    var v := VPass(f, Synthesis, p, h, w, s);
    forall x: nat | x < w && x % s == 0
      ensures Lifted(f, Column(p, h, w, x, s), Column(v, h, w, x, s))
    {
      ColumnOfPass(f, Synthesis, p, h, w, s, x);
      SynthesisExactly(f, Column(p, h, w, x, s), Column(v, h, w, x, s));
    }
    if ColumnsLifted(f, p, q, h, w, s) {
      forall y: nat, x: nat | y < h && x < w ensures q[y][x] == v[y][x] {
        if OnLattice(s, y, x) {
          SynthesisExactly(f, Column(p, h, w, x, s), Column(q, h, w, x, s));
          SynthesisExactly(f, Column(p, h, w, x, s), Column(v, h, w, x, s));
          LatticeIndex(s, y, h);
        }
      }
      SamePlane(q, v, h, w);
    }
  }

  lemma RowsExactly(f: Filter, p: Plane, q: Plane, h: nat, w: nat, s: nat)
    requires Rect(p, h, w) && LevelOk(f, h, w, s)
    ensures RowsLifted(f, p, q, h, w, s) <==> q == HPass(f, Synthesis, p, h, w, s)
  {
    hide RowLifted, Pass, HPass, LineOk;
    var v := HPass(f, Synthesis, p, h, w, s);
    forall y: nat | y < h && y % s == 0
      ensures RowLifted(f, Row(p, h, w, y, s), Row(v, h, w, y, s))
    {
      RowOfPass(f, Synthesis, p, h, w, s, y);
      RowExactly(f, Row(p, h, w, y, s), Row(v, h, w, y, s));
    }
    if RowsLifted(f, p, q, h, w, s) {
      forall y: nat, x: nat | y < h && x < w ensures q[y][x] == v[y][x] {
        if OnLattice(s, y, x) {
          RowExactly(f, Row(p, h, w, y, s), Row(q, h, w, y, s));
          RowOfPass(f, Synthesis, p, h, w, s, y);
          LatticeIndex(s, x, w);
        }
      }
      SamePlane(q, v, h, w);
    }
  }

  /** The planes between the levels: spacing halves from one to the next, and each level lifts its columns first. */
  ghost predicate Levels(f: Filter, planes: seq<Plane>, h: nat, w: nat, depth: nat)
    requires LevelsOk(f, h, w, depth)
    decreases depth
  {
    && |planes| == depth + 1 && Rect(planes[0], h, w)
    && (depth > 0 ==>
          && LevelLifted(f, planes[0], planes[1], h, w, Pow2(depth - 1))
          && Levels(f, planes[1..], h, w, depth - 1))
  }

  ghost predicate LevelLifted(f: Filter, p: Plane, q: Plane, h: nat, w: nat, s: nat)
    requires Rect(p, h, w) && LevelOk(f, h, w, s)
  {
    exists m: Plane :: ColumnsLifted(f, p, m, h, w, s) && RowsLifted(f, m, q, h, w, s)
  }

  lemma LevelExactly(f: Filter, p: Plane, q: Plane, h: nat, w: nat, s: nat)
    requires Rect(p, h, w) && LevelOk(f, h, w, s)
    ensures LevelLifted(f, p, q, h, w, s) <==> q == SynthLevel(f, p, h, w, s)
  {
    hide Lifted, Column, RowsLifted, VPass, HPass;
    var v := VPass(f, Synthesis, p, h, w, s);
    ColumnsExactly(f, p, v, h, w, s);
    RowsExactly(f, v, q, h, w, s);
    if LevelLifted(f, p, q, h, w, s) {
      var m :| ColumnsLifted(f, p, m, h, w, s) && RowsLifted(f, m, q, h, w, s);
      ColumnsExactly(f, p, m, h, w, s);
    }
  }

  /** Exactly one plane comes out of the levels: the reconstruction. */
  lemma {:induction false} ReconstructionExactly(f: Filter, p: Plane, q: Plane, h: nat, w: nat, depth: nat)
    requires Rect(p, h, w) && LevelsOk(f, h, w, depth)
    ensures (exists planes :: Levels(f, planes, h, w, depth) && planes[0] == p && planes[depth] == q)
       <==> q == Reconstruct(f, p, h, w, depth)
    decreases depth
  {
    hide LevelLifted, SynthLevel, LevelOk;
    if depth == 0 {
      assert Levels(f, [p], h, w, 0);
    } else {
      var next := SynthLevel(f, p, h, w, Pow2(depth - 1));
      ReconstructionExactly(f, next, q, h, w, depth - 1);
      forall planes | Levels(f, planes, h, w, depth) && planes[0] == p && planes[depth] == q
        ensures q == Reconstruct(f, p, h, w, depth)
      {
        LevelExactly(f, p, planes[1], h, w, Pow2(depth - 1));
        assert Levels(f, planes[1..], h, w, depth - 1) && planes[1..][0] == next && planes[1..][depth - 1] == q;
      }
      if q == Reconstruct(f, p, h, w, depth) {
        var rest :| Levels(f, rest, h, w, depth - 1) && rest[0] == next && rest[depth - 1] == q;
        LevelExactly(f, p, next, h, w, Pow2(depth - 1));
        assert ([p] + rest)[1..] == rest;
        assert Levels(f, [p] + rest, h, w, depth);
      }
    }
  }
}
