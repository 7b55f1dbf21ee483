/** Slices as they lie in memory: a quantiser index, then for each of three components a length byte and
    that many units of data, and prefix bytes before the next slice. */
module SliceStream {
  import opened VlcMachine

  type Three = s: seq<nat> | |s| == 3 witness [0, 0, 0]

  datatype Record = Record(q: int, data: Three, length: Three)

  /** The bytes in memory, and the unit and the prefix that the transform parameters give. */
  datatype Source = Source(mem: nat -> Byte, scalar: nat, prefix: nat) {
    function Length(at: nat): nat {
      mem(at) * scalar
    }

    /** The slice whose quantiser index is at q. */
    function At(q: nat): Record {
      var l0 := Length(q + 1);
      var d0 := q + 2;
      var l1 := Length(d0 + l0);
      var d1 := d0 + l0 + 1;
      var l2 := Length(d1 + l1);
      var d2 := d1 + l1 + 1;
      Record(mem(q), [d0, d1, d2], [l0, l1, l2])
    }

    function Next(q: nat): (n: nat)
      ensures n > q
    {
      var r := At(q);
      r.data[2] + r.length[2] + prefix
    }

    /** The k-th slice of the data at base. */
    function Addr(base: nat, k: nat): nat {
      if k == 0 then base + prefix else Next(Addr(base, k - 1))
    }

    function Slice(base: nat, k: nat): Record {
      At(Addr(base, k))
    }

    /** The slice begins, or one of its first two components ends, past the data. */
    predicate Overruns(q: nat, limit: nat) {
      var r := At(q);
      q > limit || r.data[0] + r.length[0] > limit || r.data[1] + r.length[1] > limit
    }

    /** What the record stands for: the index and the bytes of each component. */
    function Bytes(at: nat, n: nat): seq<Byte> {
      seq<Byte>(n, i requires 0 <= i < n => mem(at + i))
    }

    function Content(r: Record): Content {
      Coded(r.q, [Bytes(r.data[0], r.length[0]), Bytes(r.data[1], r.length[1]), Bytes(r.data[2], r.length[2])])
    }

    predicate SameByte(from: nat, to: nat, i: nat) {
      mem(from + i) == mem(to + i)
    }

    /** n bytes in one place are also in another. */
    ghost predicate Copied(from: nat, to: nat, n: int) {
      forall i: nat :: i < n ==> SameByte(from, to, i)
    }

    lemma CopiedPart(from: nat, to: nat, n: int, d: nat)
      requires Copied(from, to, n)
      ensures Copied(from + d, to + d, n - d)
    {
      var f, t := from + d, to + d;
      forall i: nat | i < n - d ensures SameByte(f, t, i) {
        assert SameByte(from, to, d + i);
      }
    }

    lemma CopiedBytes(from: nat, to: nat, n: int, at: nat, k: nat)
      requires Copied(from, to, n) && at + k <= n
      ensures Bytes(from + at, k) == Bytes(to + at, k)
    {
      CopiedPart(from, to, n, at);
      var f, t := from + at, to + at;
      var b, c := Bytes(f, k), Bytes(t, k);
      forall i: nat | i < k ensures b[i] == c[i] {
        assert SameByte(f, t, i);
      }
    }

    /** A copied slice has the same content and the same extent. */
    lemma CopiedSlice(from: nat, to: nat, n: int)
      requires Copied(from, to, n) && Next(from) - from <= n + prefix
      ensures Next(to) - to == Next(from) - from
      ensures Content(At(to)) == Content(At(from))
    {
      CopiedFields(from, to, n);
      hide Copied, At, Next, Bytes;
      var r := At(from);
      forall c | 0 <= c < 3 ensures Bytes(At(to).data[c], r.length[c]) == Bytes(r.data[c], r.length[c]) {
        CopiedBytes(from, to, n, r.data[c] - from, r.length[c]);
      }
    }

    lemma CopiedFields(from: nat, to: nat, n: int)
      requires Copied(from, to, n) && Next(from) - from <= n + prefix
      ensures At(to).q == At(from).q && Next(to) - to == Next(from) - from
      ensures forall c :: 0 <= c < 3 ==>
        && At(to).data[c] - to == At(from).data[c] - from >= 0 && At(to).length[c] == At(from).length[c]
        && At(from).data[c] - from + At(from).length[c] <= n
    {
      hide Copied;
      var r := At(from);
      CopiedByte(from, to, n, 0);
      CopiedByte(from, to, n, 1);
      CopiedByte(from, to, n, r.data[0] + r.length[0] - from);
      CopiedByte(from, to, n, r.data[1] + r.length[1] - from);
    }

    lemma CopiedByte(from: nat, to: nat, n: int, i: nat)
      requires Copied(from, to, n) && i < n
      ensures mem(from + i) == mem(to + i)
    {
      assert SameByte(from, to, i);
    }

    lemma {:induction false} AddrGrows(base: nat, j: nat, k: nat)
      requires j <= k
      ensures base + prefix <= Addr(base, j) <= Addr(base, k) && (j < k ==> Next(Addr(base, j)) <= Addr(base, k))
      decreases k
    {
      hide Next;
      if j < k {
        AddrGrows(base, j, k - 1);
      } else if k > 0 {
        AddrGrows(base, 0, k - 1);
      }
    }

    /** A fragment holds slices k to k + n of the picture's data, each with the prefix before it. */
    ghost predicate Fragment(whole: nat, part: nat, k: nat, n: nat) {
      AddrGrows(whole, k, k + n);
      Copied(Addr(whole, k) - prefix, part, Addr(whole, k + n) - Addr(whole, k))
    }

    /** The slices of a fragment are those of the picture, wherever the fragment lies. */
    lemma {:induction false} FragmentSlices(whole: nat, part: nat, k: nat, n: nat, j: nat)
      requires Fragment(whole, part, k, n) && j <= n
      ensures Addr(part, j) - part == Addr(whole, k + j) - Addr(whole, k) + prefix
      ensures j < n ==> Content(Slice(part, j)) == Content(Slice(whole, k + j))
      decreases j
    {
      hide Next, Content, At, Copied;
      AddrGrows(whole, k, k + n);
      if j > 0 {
        FragmentSlices(whole, part, k, n, j - 1);
        CopiedFrom(whole, part, k, n, j - 1);
      }
      if j < n {
        var q, q' := Addr(whole, k + j), Addr(part, j);
        assert q' - part == q - Addr(whole, k) + prefix;
        CopiedFrom(whole, part, k, n, j);
      }
    }

    lemma CopiedFrom(whole: nat, part: nat, k: nat, n: nat, j: nat)
      requires Fragment(whole, part, k, n) && j < n
      requires Addr(part, j) - part == Addr(whole, k + j) - Addr(whole, k) + prefix
      ensures Next(Addr(part, j)) - Addr(part, j) == Next(Addr(whole, k + j)) - Addr(whole, k + j)
      ensures Content(Slice(part, j)) == Content(Slice(whole, k + j))
    {
      hide Next, Content, At, Copied;
      AddrGrows(whole, k, k + n);
      AddrGrows(whole, k, k + j);
      AddrGrows(whole, k + j, k + n);
      var from, to := Addr(whole, k + j), Addr(part, j);
      var start, size := Addr(whole, k) - prefix, Addr(whole, k + n) - Addr(whole, k);
      var d := from - start;
      CopiedPart(start, part, size, d);
      CopiedSlice(from, to, size - d);
    }
  }

  datatype Content = Coded(q: int, parts: seq<seq<Byte>>)
}
