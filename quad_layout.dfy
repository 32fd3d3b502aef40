/** The layout of a particle buffer as the upload functions of
    docs/js/MarkerContainer.js fill it: each child owns four consecutive
    vertex records of `stride` cells, and the two cells at the start of a
    record hold the vertex's x and y. */
module QuadLayout {
  import opened Geometry

  /** The four vertices written for one child, in record order. */
  datatype Quad = Quad(v0: Point, v1: Point, v2: Point, v3: Point) {
    function Vertex(k: nat): Point
      requires k < 4
    {
      if k == 0 then v0 else if k == 1 then v1 else if k == 2 then v2 else v3
    }
  }

  /** The cell holding slot `s` of vertex `k` of child `i`, for a fill that
      starts at `base`: the `i`-th child starts `4 * stride * i` cells on and
      each of its vertices `stride` cells after the previous one. */
  function Slot(base: int, stride: int, i: int, k: int, s: int): int {
    base + stride * (4 * i + k) + s
  }

  /** The records of child `i + 1` from `base` are those of child `i` from
      one child further on. */
  lemma SlotShift(base: int, stride: int, i: int, k: int, s: int)
    ensures Slot(base + 4 * stride, stride, i, k, s) == Slot(base, stride, i + 1, k, s)
  {
    assert stride * (4 * (i + 1) + k) == stride * (4 * i + k) + stride * 4;
  }

  /** With non-negative strides, later records lie further on. */
  lemma SlotMonotone(base: int, stride: int, r: int, r': int)
    requires 0 <= stride && r <= r'
    ensures base + stride * r <= base + stride * r'
  {
    assert stride * r' == stride * r + stride * (r' - r);
  }

  /** The buffer is long enough for `n` children written from `base`: each
      child's last written cell (slot 1 of vertex 3) is in range. */
  predicate Fits(base: int, stride: int, n: nat, len: nat)
    decreases n
  {
    n == 0 || (base + 3 * stride + 1 < len && Fits(base + 4 * stride, stride, n - 1, len))
  }

  /** With a non-negative stride, the buffer is long enough exactly when the
      very last cell written, slot 1 of vertex 3 of child `n - 1`, is in range. */
  lemma {:induction false} FitsLastCell(base: int, stride: int, n: nat, len: nat)
    requires 0 <= stride
    ensures Fits(base, stride, n, len) <==> n == 0 || Slot(base, stride, n - 1, 3, 1) < len
    decreases n
  {
    if n > 1 {
      FitsLastCell(base + 4 * stride, stride, n - 1, len);
      SlotShift(base, stride, n - 2, 3, 1);
      SlotMonotone(base, stride, 3, 4 * (n - 1) + 3);
    }
  }

  /** Cell `c` after the eight writes for one child at `base`: the later
      write wins where two of them meet. */
  function QuadCell(buf: seq<real>, base: int, stride: int, q: Quad, c: int): real
    requires 0 <= c < |buf|
  {
    if c == base + 3 * stride + 1 then q.v3.y
    else if c == base + 3 * stride then q.v3.x
    else if c == base + 2 * stride + 1 then q.v2.y
    else if c == base + 2 * stride then q.v2.x
    else if c == base + stride + 1 then q.v1.y
    else if c == base + stride then q.v1.x
    else if c == base + 1 then q.v0.y
    else if c == base then q.v0.x
    else buf[c]
  }

  /** The buffer after the eight writes for one child at `base`. */
  function WithQuad(buf: seq<real>, base: int, stride: int, q: Quad): (r: seq<real>)
    requires 0 <= base && 0 <= stride && base + 3 * stride + 1 < |buf|
    ensures |r| == |buf|
  {
    seq(|buf|, c requires 0 <= c < |buf| => QuadCell(buf, base, stride, q, c))
  }

  /** The eight writes one at a time, in the order the upload functions make
      them, leave the buffer `WithQuad` describes. */
  lemma WithQuadUpdates(buf: seq<real>, base: int, stride: int, q: Quad)
    requires 0 <= base && 0 <= stride && base + 3 * stride + 1 < |buf|
    ensures WithQuad(buf, base, stride, q)
            == buf[base := q.v0.x][base + 1 := q.v0.y]
                  [base + stride := q.v1.x][base + stride + 1 := q.v1.y]
                  [base + stride * 2 := q.v2.x][base + stride * 2 + 1 := q.v2.y]
                  [base + stride * 3 := q.v3.x][base + stride * 3 + 1 := q.v3.y]
  {
  }

  /** The buffer after the writes for the children `qs`, the first at `base`. */
  function Filled(buf: seq<real>, base: int, stride: int, qs: seq<Quad>): (r: seq<real>)
    requires 0 <= base && 0 <= stride && Fits(base, stride, |qs|, |buf|)
    ensures |r| == |buf|
    decreases |qs|
  {
    if |qs| == 0 then buf
    else
      Filled(WithQuad(buf, base, stride, qs[0]), base + 4 * stride, stride, qs[1..])
  }

  /** Cell `c` is one of the two slots of one of the `4 * n` records. */
  ghost predicate InQuads(base: int, stride: int, n: nat, c: int) {
    exists i, k, s :: 0 <= i < n && 0 <= k < 4 && 0 <= s < 2 && c == Slot(base, stride, i, k, s)
  }

  /** Nothing before `base` is written. */
  lemma {:induction false} FilledBelow(buf: seq<real>, base: int, stride: int, qs: seq<Quad>, c: int)
    requires 0 <= base && 0 <= stride && Fits(base, stride, |qs|, |buf|)
    requires 0 <= c < base && c < |buf|
    ensures Filled(buf, base, stride, qs)[c] == buf[c]
    decreases |qs|
  {
    if |qs| > 0 {
      var next := WithQuad(buf, base, stride, qs[0]);
      FilledBelow(next, base + 4 * stride, stride, qs[1..], c);
    }
  }

  /** Only the two leading slots of the children's records change: every
      other cell keeps its value. */
  lemma {:induction false} FilledFrame(buf: seq<real>, base: int, stride: int, qs: seq<Quad>, c: int)
    requires 0 <= base && 0 <= stride && Fits(base, stride, |qs|, |buf|)
    requires 0 <= c < |buf| && !InQuads(base, stride, |qs|, c)
    ensures Filled(buf, base, stride, qs)[c] == buf[c]
    decreases |qs|
  {
    if |qs| > 0 {
      var next := WithQuad(buf, base, stride, qs[0]);
      if InQuads(base + 4 * stride, stride, |qs| - 1, c) {
        var i, k, s :| 0 <= i < |qs| - 1 && 0 <= k < 4 && 0 <= s < 2 && c == Slot(base + 4 * stride, stride, i, k, s);
        SlotShift(base, stride, i, k, s);
        assert false;
      }
      FilledFrame(next, base + 4 * stride, stride, qs[1..], c);
      assert c != Slot(base, stride, 0, 0, 0) && c != Slot(base, stride, 0, 0, 1);
      assert c != Slot(base, stride, 0, 1, 0) && c != Slot(base, stride, 0, 1, 1);
      assert c != Slot(base, stride, 0, 2, 0) && c != Slot(base, stride, 0, 2, 1);
      assert c != Slot(base, stride, 0, 3, 0) && c != Slot(base, stride, 0, 3, 1);
    }
  }

  /** With records at least two cells apart, the eight writes for one child
      do not overwrite each other. */
  lemma WithQuadReadBack(buf: seq<real>, base: int, stride: int, q: Quad)
    requires 0 <= base && 2 <= stride && base + 3 * stride + 1 < |buf|
    ensures var r := WithQuad(buf, base, stride, q);
            && r[base] == q.v0.x && r[base + 1] == q.v0.y
            && r[base + stride] == q.v1.x && r[base + stride + 1] == q.v1.y
            && r[base + 2 * stride] == q.v2.x && r[base + 2 * stride + 1] == q.v2.y
            && r[base + 3 * stride] == q.v3.x && r[base + 3 * stride + 1] == q.v3.y
  {
    WithQuadUpdates(buf, base, stride, q);
  }

  /** Reading back the first child: the later children are written further on. */
  lemma FilledReadBackFirst(buf: seq<real>, base: int, stride: int, qs: seq<Quad>)
    requires 0 <= base && 2 <= stride && Fits(base, stride, |qs|, |buf|) && 0 < |qs|
    ensures var r, q := Filled(buf, base, stride, qs), qs[0];
            && r[base] == q.v0.x && r[base + 1] == q.v0.y
            && r[base + stride] == q.v1.x && r[base + stride + 1] == q.v1.y
            && r[base + 2 * stride] == q.v2.x && r[base + 2 * stride + 1] == q.v2.y
            && r[base + 3 * stride] == q.v3.x && r[base + 3 * stride + 1] == q.v3.y
  {
    var next := WithQuad(buf, base, stride, qs[0]);
    var far, rest := base + 4 * stride, qs[1..];
    assert Filled(buf, base, stride, qs) == Filled(next, far, stride, rest);
    WithQuadReadBack(buf, base, stride, qs[0]);
    FilledBelow(next, far, stride, rest, base);
    FilledBelow(next, far, stride, rest, base + 1);
    FilledBelow(next, far, stride, rest, base + stride);
    FilledBelow(next, far, stride, rest, base + stride + 1);
    FilledBelow(next, far, stride, rest, base + 2 * stride);
    FilledBelow(next, far, stride, rest, base + 2 * stride + 1);
    FilledBelow(next, far, stride, rest, base + 3 * stride);
    FilledBelow(next, far, stride, rest, base + 3 * stride + 1);
  }

  /** Reading back: after the fill, slots 0 and 1 of vertex `k` of child `i`
      hold that vertex's x and y. */
  lemma {:induction false} FilledReadBack(buf: seq<real>, base: int, stride: int, qs: seq<Quad>, i: nat, k: nat)
    requires 0 <= base && 2 <= stride && Fits(base, stride, |qs|, |buf|)
    requires i < |qs| && k < 4
    ensures 0 <= Slot(base, stride, i, k, 0) && Slot(base, stride, i, k, 1) < |buf|
    ensures Filled(buf, base, stride, qs)[Slot(base, stride, i, k, 0)] == qs[i].Vertex(k).x
    ensures Filled(buf, base, stride, qs)[Slot(base, stride, i, k, 1)] == qs[i].Vertex(k).y
    decreases i
  {
    if i == 0 {
      FilledReadBackFirst(buf, base, stride, qs);
      if k == 0 {
        assert Slot(base, stride, 0, k, 0) == base;
      } else if k == 1 {
        assert Slot(base, stride, 0, k, 0) == base + stride;
      } else if k == 2 {
        assert Slot(base, stride, 0, k, 0) == base + 2 * stride;
      } else {
        assert Slot(base, stride, 0, k, 0) == base + 3 * stride;
      }
    } else {
      var next := WithQuad(buf, base, stride, qs[0]);
      assert Filled(buf, base, stride, qs) == Filled(next, base + 4 * stride, stride, qs[1..]);
      FilledReadBack(next, base + 4 * stride, stride, qs[1..], i - 1, k);
      SlotShift(base, stride, i - 1, k, 0);
      SlotShift(base, stride, i - 1, k, 1);
    }
  }

  /** `n` copies of the same quad. */
  function Repeat(q: Quad, n: nat): (qs: seq<Quad>)
    ensures |qs| == n && forall i :: 0 <= i < n ==> qs[i] == q
  {
    seq(n, _ => q)
  }
}
