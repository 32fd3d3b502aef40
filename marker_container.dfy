/** The particle container and particle renderer as patched by
    docs/js/MarkerContainer.js: adding children, the two-flag property
    vector, the three upload functions that fill a vertex buffer in place,
    and the batching loop of `render`. Buffers on the graphics card are
    represented by their `_updateID` alone; the calls that draw, bind or
    upload them are recorded in the batch trace `render` returns. */
module MarkerContainer {
  import opened Geometry
  import opened QuadLayout

  /** A child: the upload functions read only its position. */
  datatype Sprite = Sprite(x: real, y: real)

  /** A texture frame: `orig` (width, height) and `trim` (x, y, width, height). */
  datatype Frame = Frame(x: real, y: real, width: real, height: real)

  /** `texture._uvs`: the texture coordinates of the four corners. */
  datatype TextureUvs = TextureUvs(x0: real, y0: real, x1: real, y1: real,
                                   x2: real, y2: real, x3: real, y3: real)

  datatype Texture = Texture(orig: Frame, trim: Option<Frame>, uvs: Option<TextureUvs>)

  /** The quad `(w1,h1), (w0,h1), (w0,h0), (w1,h0)`. */
  function Rectangle(w0: real, w1: real, h0: real, h1: real): Quad {
    Quad(Point(w1, h1), Point(w0, h1), Point(w0, h0), Point(w1, h0))
  }

  /** The vertex quad of `uploadVertices`: an axis-aligned rectangle the size
      of the trimmed frame, or of the whole frame when there is no trim,
      placed so that the anchor of the whole frame is at the origin. */
  function VertexQuad(t: Texture, anchor: Point): (q: Quad)
    ensures q.v0.x == q.v3.x && q.v1.x == q.v2.x && q.v0.y == q.v1.y && q.v2.y == q.v3.y
    ensures q.v1.x - q.v0.x == if t.trim.Some? then t.trim.value.width else t.orig.width
    ensures q.v2.y - q.v1.y == if t.trim.Some? then t.trim.value.height else t.orig.height
    ensures q.v0.x + anchor.x * t.orig.width == if t.trim.Some? then t.trim.value.x else 0.0
    ensures q.v0.y + anchor.y * t.orig.height == if t.trim.Some? then t.trim.value.y else 0.0
  {
    var orig := t.orig;
    match t.trim
    case Some(trim) =>
      var w1 := trim.x - anchor.x * orig.width;
      var h1 := trim.y - anchor.y * orig.height;
      Rectangle(w1 + trim.width, w1, h1 + trim.height, h1)
    case None =>
      Rectangle(orig.width * (1.0 - anchor.x), orig.width * -anchor.x,
                orig.height * (1.0 - anchor.y), orig.height * -anchor.y)
  }

  /** The quad of `uploadPosition`: the child's position at all four vertices. */
  function PositionQuad(s: Sprite): (q: Quad)
    ensures forall k :: 0 <= k < 4 ==> q.Vertex(k) == Point(s.x, s.y)
  {
    var p := Point(s.x, s.y);
    Quad(p, p, p, p)
  }

  /** The position quads of `amount` children from `startIndex`. */
  function PositionQuads(children: seq<Sprite>, startIndex: nat, amount: nat): (qs: seq<Quad>)
    requires startIndex + amount <= |children|
    ensures |qs| == amount
    ensures forall i :: 0 <= i < amount ==> qs[i] == PositionQuad(children[startIndex + i])
  {
    seq(amount, i requires 0 <= i < amount => PositionQuad(children[startIndex + i]))
  }

  /** The quad of `uploadUvs`: the texture's corners in order, or zeros when
      the texture has no coordinates. */
  function UvsQuad(t: Texture): (q: Quad)
    ensures t.uvs.None? ==> forall k :: 0 <= k < 4 ==> q.Vertex(k) == Point(0.0, 0.0)
    ensures t.uvs.Some? ==>
              var u := t.uvs.value;
              && q.v0 == Point(u.x0, u.y0) && q.v1 == Point(u.x1, u.y1)
              && q.v2 == Point(u.x2, u.y2) && q.v3 == Point(u.x3, u.y3)
  {
    match t.uvs
    case Some(u) => Quad(Point(u.x0, u.y0), Point(u.x1, u.y1), Point(u.x2, u.y2), Point(u.x3, u.y3))
    case None =>
      var z := Point(0.0, 0.0);
      Quad(z, z, z, z)
  }

  /** The eight writes for one child: vertex `k` at `base + k * stride`, its
      x then its y. */
  method WriteQuad(a: array<real>, base: int, stride: int, q: Quad)
    requires 0 <= base && 0 <= stride && base + 3 * stride + 1 < a.Length
    modifies a
    ensures a[..] == WithQuad(old(a[..]), base, stride, q)
  {
    a[base] := q.v0.x;
    a[base + 1] := q.v0.y;
    a[base + stride] := q.v1.x;
    a[base + stride + 1] := q.v1.y;
    a[base + stride * 2] := q.v2.x;
    a[base + stride * 2 + 1] := q.v2.y;
    a[base + stride * 3] := q.v3.x;
    a[base + stride * 3 + 1] := q.v3.y;
    WithQuadUpdates(old(a[..]), base, stride, q);
  }

  /** `_properties` for the argument of `setProperties`: each present key
      maps to the truthiness of its value; `None` is a missing argument. */
  function PropertyFlags(properties: Option<map<string, bool>>): (flags: seq<bool>)
    ensures |flags| == 2
    ensures flags[0] <==> Truthy(properties, "vertices") || Truthy(properties, "scale")
    ensures !flags[1] <==> properties.Some? && "position" in properties.value && !properties.value["position"]
  {
    var defaults := [false, true];
    match properties
    case None => defaults
    case Some(p) =>
      var f0 := if "vertices" in p || "scale" in p then Truthy(properties, "vertices") || Truthy(properties, "scale")
                else defaults[0];
      var f1 := if "position" in p then p["position"] else defaults[1];
      [f0, f1]
  }

  /** `!!properties[key]`: an absent key reads as `undefined`. */
  function Truthy(properties: Option<map<string, bool>>, key: string): bool {
    properties.Some? && key in properties.value && properties.value[key]
  }

  /** The indices `onChildrenChange` receives while `n` children are added
      one by one to a list of length `from`. */
  function AddedIndices(from: nat, n: nat): (r: seq<nat>)
    ensures |r| == n && forall k :: 0 <= k < n ==> r[k] == from + k
  {
    seq(n, k => from + k)
  }

  class ParticleContainer {
    var children: seq<Sprite>
    /** `_boundsID` */
    var boundsID: int
    /** The indices passed to `onChildrenChange`, in call order. */
    var childrenChanges: seq<nat>
    /** `_properties` */
    var properties: seq<bool>
    /** `_maxSize`, `_batchSize`, `autoResize` */
    const maxSize: nat
    const batchSize: nat
    const autoResize: bool
    /** `_updateID` and `_bufferUpdateIDs` */
    var updateID: int
    var bufferUpdateIDs: seq<int>
    /** `_glBuffers[renderer.CONTEXT_UID]`, each buffer as its `_updateID` */
    var glBuffers: Option<seq<int>>
    var texture: Texture
    var anchor: Point

    constructor (maxSize: nat, batchSize: nat, autoResize: bool, texture: Texture, anchor: Point)
      ensures this.maxSize == maxSize && this.batchSize == batchSize && this.autoResize == autoResize
      ensures this.texture == texture && this.anchor == anchor
      ensures children == [] && childrenChanges == [] && glBuffers == None
      ensures properties == PropertyFlags(None)
    {
      this.maxSize, this.batchSize, this.autoResize := maxSize, batchSize, autoResize;
      this.texture, this.anchor := texture, anchor;
      children, boundsID, childrenChanges := [], 0, [];
      properties := PropertyFlags(None);
      updateID, bufferUpdateIDs, glBuffers := 0, [], None;
    }

    /** `addChild(child)` with a single argument: append it, invalidate the
        bounds, report its index and return it. */
    method AddChild(child: Sprite) returns (r: Sprite)
      modifies this`children, this`boundsID, this`childrenChanges
      ensures children == old(children) + [child]
      ensures boundsID == old(boundsID) + 1
      ensures childrenChanges == old(childrenChanges) + [|children| - 1]
      ensures r == child
    {
      children := children + [child];
      boundsID := boundsID + 1;
      childrenChanges := childrenChanges + [|children| - 1];
      r := child;
    }

    /** `addChild(a, b, ...)`: several arguments are added one by one, in
        order; the first argument is returned. */
    method AddChildren(args: seq<Sprite>) returns (r: Sprite)
      requires |args| >= 1
      modifies this`children, this`boundsID, this`childrenChanges
      ensures children == old(children) + args
      ensures boundsID == old(boundsID) + |args|
      ensures childrenChanges == old(childrenChanges) + AddedIndices(|old(children)|, |args|)
      ensures r == args[0]
    {
      if |args| > 1 {
        var i := 0;
        while i < |args|
          invariant 0 <= i <= |args|
          invariant children == old(children) + args[..i]
          invariant boundsID == old(boundsID) + i
          invariant childrenChanges == old(childrenChanges) + AddedIndices(|old(children)|, i)
        {
          var _ := AddChild(args[i]);
          assert args[..i + 1] == args[..i] + [args[i]];
          i := i + 1;
        }
        assert args[..|args|] == args;
      } else {
        var _ := AddChild(args[0]);
        assert args == [args[0]];
      }
      r := args[0];
    }

    /** `setProperties(properties)` */
    method SetProperties(properties: Option<map<string, bool>>)
      modifies this`properties
      ensures this.properties == PropertyFlags(properties)
    {
      this.properties := PropertyFlags(properties);
    }
  }

  /** One iteration of `render`'s loop: the children `start .. start+amount`
      were uploaded to (dynamic part) and drawn from buffer `buffer`, and
      their static part was uploaded too when `uploadStatic`. */
  datatype Batch = Batch(start: nat, amount: nat, buffer: nat, uploadStatic: bool)

  /** The batches of a render and the buffers' `_updateID`s afterwards. */
  datatype Plan = Plan(batches: seq<Batch>, buffers: seq<int>)

  /** `container._bufferUpdateIDs[i] || 0` */
  function BufferUpdateID(bids: seq<int>, i: nat): int {
    if i < |bids| then bids[i] else 0
  }

  /** What `render`'s loop reads and never changes: the number of children
      to draw, the batch size, whether buffers may be added, the `_updateID`
      a new buffer starts with, the container's `_bufferUpdateIDs` and its
      `_updateID`. */
  datatype Batching = Batching(total: nat, batchSize: nat, autoResize: bool, newBufferID: int,
                               bufferUpdateIDs: seq<int>, updateID: int)

  /** The buffers once buffer `j` is needed: one more when they ran out. */
  function Grown(b: Batching, j: nat, buffers: seq<int>): (r: seq<int>)
    requires j <= |buffers|
    ensures j < |r| && buffers <= r
  {
    if j >= |buffers| then buffers + [b.newBufferID] else buffers
  }

  /** The flag after the batch from child `i` in buffer `j`: set once a
      buffer is older than the update of the children it draws. */
  function Sticky(b: Batching, i: nat, j: nat, grown: seq<int>, updateStatic: bool): bool
    requires j < |grown|
  {
    updateStatic || grown[j] < BufferUpdateID(b.bufferUpdateIDs, i)
  }

  /** The buffers after the batch in buffer `j`: stamped with the
      container's `_updateID` when its static part was uploaded. */
  function Stamped(b: Batching, j: nat, grown: seq<int>, sticky: bool): (r: seq<int>)
    requires j < |grown|
    ensures |r| == |grown|
  {
    if sticky then grown[j := b.updateID] else grown
  }

  /** The size of the batch from child `i`. */
  function Amount(b: Batching, i: nat): nat
    requires i < b.total
  {
    if b.total - i > b.batchSize then b.batchSize else b.total - i
  }

  /** `render`'s loop from child `i` ends: it moves on through the children,
      or it stops once the buffers run out, or there is nothing left to draw.
      Only a zero batch size on a container that may add buffers loops for
      ever. */
  predicate Ends(b: Batching, i: nat) {
    b.batchSize > 0 || !b.autoResize || b.total <= i
  }

  /** What `render`'s loop does from child `i` and buffer `j` on, with the
      sticky flag `updateStatic`: cut the children into batches of at most
      `batchSize`; when the buffers run out, stop unless `autoResize`, in
      which case add one buffer; once some buffer is older than its
      children's update, upload static data for it and for every later
      batch, stamping each with the container's `_updateID`. */
  function RenderPlan(b: Batching, i: nat, j: nat, buffers: seq<int>, updateStatic: bool): Plan
    requires Ends(b, i) && j <= |buffers|
    decreases b.total - i, |buffers| - j
  {
    if i >= b.total then Plan([], buffers)
    else if j >= |buffers| && !b.autoResize then Plan([], buffers)
    else
      var grown := Grown(b, j, buffers);
      var sticky := Sticky(b, i, j, grown, updateStatic);
      var rest := RenderPlan(b, i + b.batchSize, j + 1, Stamped(b, j, grown, sticky), sticky);
      Plan([Batch(i, Amount(b, i), j, sticky)] + rest.batches, rest.buffers)
  }

  /** `RenderPlan` while there are children and a buffer for them: the
      batch at child `i`, then the plan from the next child and buffer with
      the flag `sticky` and the buffers `stamped` that batch leaves. */
  lemma RenderPlanNext(b: Batching, i: nat, j: nat, buffers: seq<int>, updateStatic: bool,
                       sticky: bool, stamped: seq<int>)
    requires Ends(b, i) && j <= |buffers| && i < b.total && (j < |buffers| || b.autoResize)
    requires sticky == Sticky(b, i, j, Grown(b, j, buffers), updateStatic)
    requires stamped == Stamped(b, j, Grown(b, j, buffers), sticky)
    ensures var rest := RenderPlan(b, i + b.batchSize, j + 1, stamped, sticky);
            var plan := RenderPlan(b, i, j, buffers, updateStatic);
            && plan.batches == [Batch(i, Amount(b, i), j, sticky)] + rest.batches
            && plan.buffers == rest.buffers
  {
  }

  /** How many batches `total` children need from child `i` on. */
  function BatchCount(total: nat, batchSize: nat, i: nat): nat
    requires batchSize > 0
    decreases total - i
  {
    if i >= total then 0 else 1 + BatchCount(total, batchSize, i + batchSize)
  }

  /** The number of children the batches cover. */
  function Covered(batches: seq<Batch>): nat {
    if batches == [] then 0 else batches[0].amount + Covered(batches[1..])
  }

  /** Batch `x` is cut correctly: it starts before child `total` and takes
      `min(batchSize, total - start)` children, at least one. */
  predicate WellSized(x: Batch, b: Batching) {
    && x.start < b.total && 0 < x.amount <= b.batchSize && x.amount <= b.total - x.start
    && (x.amount == b.batchSize || x.amount == b.total - x.start)
  }

  /** The batches start at child `i`, follow each other `batchSize` apart,
      use consecutive buffers from `j`, and are each cut correctly. */
  ghost predicate Consecutive(bs: seq<Batch>, b: Batching, i: nat, j: nat) {
    && (|bs| > 0 ==> bs[0].start == i)
    && (forall k :: 0 <= k < |bs| - 1 ==> bs[k + 1].start == bs[k].start + b.batchSize)
    && (forall k :: 0 <= k < |bs| ==> bs[k].buffer == j + k)
    && (forall k :: 0 <= k < |bs| ==> WellSized(bs[k], b))
  }

  lemma ConsecutiveCons(x: Batch, rest: seq<Batch>, b: Batching, i: nat, j: nat)
    requires x.start == i && x.buffer == j && WellSized(x, b)
    requires Consecutive(rest, b, i + b.batchSize, j + 1)
    ensures Consecutive([x] + rest, b, i, j)
  {
    var bs := [x] + rest;
    forall k | 0 < k < |bs|
      ensures bs[k] == rest[k - 1]
    {
    }
  }

  /** Batches start at child `i`, follow each other `batchSize` apart, use
      consecutive buffers from `j`, and each takes `min(batchSize, total -
      start)` children, at least one. */
  lemma {:induction false} RenderPlanBatches(b: Batching, i: nat, j: nat, buffers: seq<int>, updateStatic: bool)
    requires b.batchSize > 0 && j <= |buffers|
    ensures Consecutive(RenderPlan(b, i, j, buffers, updateStatic).batches, b, i, j)
    decreases b.total - i
  {
    if i < b.total && (j < |buffers| || b.autoResize) {
      var sticky := Sticky(b, i, j, Grown(b, j, buffers), updateStatic);
      var stamped := Stamped(b, j, Grown(b, j, buffers), sticky);
      RenderPlanNext(b, i, j, buffers, updateStatic, sticky, stamped);
      RenderPlanBatches(b, i + b.batchSize, j + 1, stamped, sticky);
      ConsecutiveCons(Batch(i, Amount(b, i), j, sticky), RenderPlan(b, i + b.batchSize, j + 1, stamped, sticky).batches,
                      b, i, j);
    }
  }

  /** The loop runs once per batch needed, unless the buffers run out first
      on a container that may not grow; a growing container ends with at
      least one buffer per batch, a fixed one with the buffers it had. */
  lemma {:induction false} RenderPlanLength(b: Batching, i: nat, j: nat, buffers: seq<int>, updateStatic: bool)
    requires b.batchSize > 0 && j <= |buffers|
    ensures var plan := RenderPlan(b, i, j, buffers, updateStatic);
            var needed := BatchCount(b.total, b.batchSize, i);
            && (b.autoResize ==> |plan.batches| == needed)
            && (!b.autoResize ==> |plan.batches| == if needed <= |buffers| - j then needed else |buffers| - j)
            && (b.autoResize ==> |plan.buffers| == if j + needed <= |buffers| then |buffers| else j + needed)
            && (!b.autoResize ==> |plan.buffers| == |buffers|)
    decreases b.total - i
  {
    if i < b.total && (j < |buffers| || b.autoResize) {
      var sticky := Sticky(b, i, j, Grown(b, j, buffers), updateStatic);
      var stamped := Stamped(b, j, Grown(b, j, buffers), sticky);
      RenderPlanNext(b, i, j, buffers, updateStatic, sticky, stamped);
      RenderPlanLength(b, i + b.batchSize, j + 1, stamped, sticky);
    }
  }

  /** With a zero batch size on a container that may not add buffers, the
      loop stays at child `i` and draws one empty batch in each remaining
      buffer, then stops. */
  lemma {:induction false} RenderPlanZeroBatchSize(b: Batching, i: nat, j: nat, buffers: seq<int>, updateStatic: bool)
    requires b.batchSize == 0 && !b.autoResize && j <= |buffers| && i < b.total
    ensures var bs := RenderPlan(b, i, j, buffers, updateStatic).batches;
            && |bs| == |buffers| - j
            && forall k :: 0 <= k < |bs| ==> bs[k].start == i && bs[k].amount == 0 && bs[k].buffer == j + k
    decreases |buffers| - j
  {
    if j < |buffers| {
      var sticky := Sticky(b, i, j, Grown(b, j, buffers), updateStatic);
      var stamped := Stamped(b, j, Grown(b, j, buffers), sticky);
      RenderPlanNext(b, i, j, buffers, updateStatic, sticky, stamped);
      RenderPlanZeroBatchSize(b, i, j + 1, stamped, sticky);
      var rest := RenderPlan(b, i, j + 1, stamped, sticky).batches;
      var bs := [Batch(i, Amount(b, i), j, sticky)] + rest;
      forall k | 0 < k < |bs|
        ensures bs[k] == rest[k - 1]
      {
      }
    }
  }

  lemma AppendBatch(done: seq<Batch>, x: Batch, rest: seq<Batch>)
    ensures (done + [x]) + rest == done + ([x] + rest)
  {
  }

  /** One iteration of `render`'s loop keeps it on the plan: appending the
      batch it draws to those `done` before leaves the same plan ahead. */
  lemma RenderPlanAdvance(b: Batching, i: nat, j: nat, buffers: seq<int>, updateStatic: bool,
                          done: seq<Batch>, target: Plan, batch: Batch,
                          done': seq<Batch>, i': nat, j': nat, stamped: seq<int>, updateStatic': bool)
    requires Ends(b, i) && j <= |buffers| && i < b.total && (j < |buffers| || b.autoResize)
    requires var plan := RenderPlan(b, i, j, buffers, updateStatic);
             done + plan.batches == target.batches && plan.buffers == target.buffers
    requires batch == Batch(i, Amount(b, i), j, Sticky(b, i, j, Grown(b, j, buffers), updateStatic))
    requires stamped == Stamped(b, j, Grown(b, j, buffers), batch.uploadStatic)
    requires done' == done + [batch] && i' == i + b.batchSize && j' == j + 1 && updateStatic' == batch.uploadStatic
    ensures j' <= |stamped|
    ensures var rest := RenderPlan(b, i', j', stamped, updateStatic');
            done' + rest.batches == target.batches && rest.buffers == target.buffers
  {
    RenderPlanNext(b, i, j, buffers, updateStatic, batch.uploadStatic, stamped);
    AppendBatch(done, batch, RenderPlan(b, i', j', stamped, updateStatic').batches);
  }

  lemma CoveredCons(x: Batch, rest: seq<Batch>)
    ensures Covered([x] + rest) == x.amount + Covered(rest)
  {
    assert ([x] + rest)[1..] == rest;
  }

  /** The batches never cover more than the children from `i` on, and they
      cover all of them when buffers may be added or there are enough. */
  lemma {:induction false} RenderPlanCovers(b: Batching, i: nat, j: nat, buffers: seq<int>, updateStatic: bool)
    requires b.batchSize > 0 && j <= |buffers| && i <= b.total
    ensures var bs := RenderPlan(b, i, j, buffers, updateStatic).batches;
            && Covered(bs) <= b.total - i
            && (b.autoResize || BatchCount(b.total, b.batchSize, i) <= |buffers| - j ==> Covered(bs) == b.total - i)
    decreases b.total - i
  {
    if i < b.total && (j < |buffers| || b.autoResize) {
      var sticky := Sticky(b, i, j, Grown(b, j, buffers), updateStatic);
      var stamped := Stamped(b, j, Grown(b, j, buffers), sticky);
      RenderPlanNext(b, i, j, buffers, updateStatic, sticky, stamped);
      var rest := RenderPlan(b, i + b.batchSize, j + 1, stamped, sticky).batches;
      CoveredCons(Batch(i, Amount(b, i), j, sticky), rest);
      if i + b.batchSize <= b.total {
        RenderPlanCovers(b, i + b.batchSize, j + 1, stamped, sticky);
      } else {
        assert rest == [];
      }
    }
  }

  /** Once a batch uploads its static part, every later batch does too. */
  ghost predicate StaticIsSticky(bs: seq<Batch>) {
    forall k, l :: 0 <= k <= l < |bs| && bs[k].uploadStatic ==> bs[l].uploadStatic
  }

  /** Every batch uploads its static part. */
  ghost predicate AllStatic(bs: seq<Batch>) {
    forall k :: 0 <= k < |bs| ==> bs[k].uploadStatic
  }

  lemma StaticIsStickyCons(x: Batch, rest: seq<Batch>)
    requires StaticIsSticky(rest) && (x.uploadStatic ==> AllStatic(rest))
    ensures StaticIsSticky([x] + rest)
    ensures x.uploadStatic ==> AllStatic([x] + rest)
  {
    var bs := [x] + rest;
    forall k, l | 0 <= k <= l < |bs| && bs[k].uploadStatic
      ensures bs[l].uploadStatic
    {
      if l > 0 {
        assert bs[l] == rest[l - 1];
        if k > 0 {
          assert bs[k] == rest[k - 1];
        }
      }
    }
  }

  /** `updateStatic` is sticky: once a batch uploads its static part, every
      later batch does too, and all do if the flag starts set. */
  lemma {:induction false} RenderPlanStaticSticky(b: Batching, i: nat, j: nat, buffers: seq<int>, updateStatic: bool)
    requires b.batchSize > 0 && j <= |buffers|
    ensures var bs := RenderPlan(b, i, j, buffers, updateStatic).batches;
            StaticIsSticky(bs) && (updateStatic ==> AllStatic(bs))
    decreases b.total - i
  {
    if i < b.total && (j < |buffers| || b.autoResize) {
      var sticky := Sticky(b, i, j, Grown(b, j, buffers), updateStatic);
      var stamped := Stamped(b, j, Grown(b, j, buffers), sticky);
      RenderPlanNext(b, i, j, buffers, updateStatic, sticky, stamped);
      RenderPlanStaticSticky(b, i + b.batchSize, j + 1, stamped, sticky);
      StaticIsStickyCons(Batch(i, Amount(b, i), j, sticky), RenderPlan(b, i + b.batchSize, j + 1, stamped, sticky).batches);
    }
  }

  /** Every batch that uploaded its static part has its buffer stamped with
      `updateID` in `buffers`. */
  ghost predicate StaticStamped(bs: seq<Batch>, buffers: seq<int>, updateID: int) {
    forall k :: 0 <= k < |bs| && bs[k].uploadStatic ==> bs[k].buffer < |buffers| && buffers[bs[k].buffer] == updateID
  }

  lemma StaticStampedCons(x: Batch, rest: seq<Batch>, buffers: seq<int>, updateID: int)
    requires StaticStamped(rest, buffers, updateID)
    requires x.uploadStatic ==> x.buffer < |buffers| && buffers[x.buffer] == updateID
    ensures StaticStamped([x] + rest, buffers, updateID)
  {
    var bs := [x] + rest;
    forall k | 0 < k < |bs|
      ensures bs[k] == rest[k - 1]
    {
    }
  }

  /** `after` has at least the buffers of `before`, and the same ones before `j`. */
  ghost predicate Keeps(after: seq<int>, before: seq<int>, j: nat) {
    j <= |before| <= |after| && forall n :: 0 <= n < j ==> after[n] == before[n]
  }

  lemma KeepsTrans(a: seq<int>, b: seq<int>, c: seq<int>, j: nat, j': nat)
    requires Keeps(a, b, j') && Keeps(b, c, j) && j <= j'
    ensures Keeps(a, c, j)
  {
  }

  /** One batch in buffer `j` leaves the earlier buffers alone, and stamps
      buffer `j` when its static part was uploaded. */
  lemma StampedKeeps(b: Batching, j: nat, buffers: seq<int>, sticky: bool)
    requires j <= |buffers|
    ensures var r := Stamped(b, j, Grown(b, j, buffers), sticky);
            Keeps(r, buffers, j) && j < |r| && (sticky ==> r[j] == b.updateID)
  {
  }

  /** The `_updateID` buffer `n` had before the render, or the one a buffer
      added by the render starts with. */
  function Prior(b: Batching, before: seq<int>, n: nat): int {
    if n < |before| then before[n] else b.newBufferID
  }

  /** The buffers `after` the batches `bs`, drawn in buffers `j, j+1, ...`:
      the buffer of a batch that uploaded its static part holds the
      container's `_updateID`, the buffer of any other batch what it held
      before (or a new buffer's `_updateID`), and every buffer no batch
      used is one of `before`, unchanged; none of `before` is lost. */
  ghost predicate BufferIDs(after: seq<int>, before: seq<int>, bs: seq<Batch>, j: nat, b: Batching) {
    |before| <= |after| && BatchBuffers(after, before, bs, j, b) && OtherBuffers(after, before, j, |bs|)
  }

  /** Batch `k` was drawn from buffer `j + k`, which holds the container's
      `_updateID` if that batch uploaded its static part, and otherwise its
      prior one. */
  ghost predicate BatchBuffers(after: seq<int>, before: seq<int>, bs: seq<Batch>, j: nat, b: Batching) {
    forall k :: 0 <= k < |bs| ==>
      && bs[k].buffer == j + k && bs[k].buffer < |after|
      && after[bs[k].buffer] == if bs[k].uploadStatic then b.updateID else Prior(b, before, bs[k].buffer)
  }

  /** Every buffer outside `j .. j+count` is one of `before`, unchanged:
      buffers are added only for batches, and the others are not touched. */
  ghost predicate OtherBuffers(after: seq<int>, before: seq<int>, j: nat, count: nat) {
    && (|after| <= |before| || |after| <= j + count)
    && forall n :: 0 <= n < |before| && n < |after| && !(j <= n < j + count) ==> after[n] == before[n]
  }

  lemma OtherBuffersCons(b: Batching, j: nat, buffers: seq<int>, sticky: bool, count: nat, after: seq<int>)
    requires j <= |buffers|
    requires OtherBuffers(after, Stamped(b, j, Grown(b, j, buffers), sticky), j + 1, count)
    ensures OtherBuffers(after, buffers, j, count + 1)
  {
    var grown := Grown(b, j, buffers);
    var stamped := Stamped(b, j, grown, sticky);
    assert |stamped| <= |buffers| || |stamped| == j + 1;
    forall n | 0 <= n < |buffers| && n < |after| && !(j <= n < j + count + 1)
      ensures after[n] == buffers[n]
    {
      assert n < |stamped| && stamped[n] == grown[n] == buffers[n];
    }
  }

  lemma BatchBuffersCons(b: Batching, j: nat, buffers: seq<int>, sticky: bool, x: Batch, rest: seq<Batch>, after: seq<int>)
    requires j <= |buffers| && x.buffer == j && x.uploadStatic == sticky
    requires var stamped := Stamped(b, j, Grown(b, j, buffers), sticky);
             |stamped| <= |after| && BatchBuffers(after, stamped, rest, j + 1, b)
             && OtherBuffers(after, stamped, j + 1, |rest|)
    ensures BatchBuffers(after, buffers, [x] + rest, j, b)
  {
    var stamped := Stamped(b, j, Grown(b, j, buffers), sticky);
    var bs := [x] + rest;
    forall k | 0 <= k < |bs|
      ensures && bs[k].buffer == j + k && bs[k].buffer < |after|
              && after[bs[k].buffer] == if bs[k].uploadStatic then b.updateID else Prior(b, buffers, bs[k].buffer)
    {
      if k > 0 {
        assert bs[k] == rest[k - 1] && Prior(b, stamped, j + k) == Prior(b, buffers, j + k);
      } else {
        var v := after[j];
        assert v == stamped[j];
      }
    }
  }

  lemma BufferIDsCons(b: Batching, j: nat, buffers: seq<int>, sticky: bool, x: Batch, rest: seq<Batch>, after: seq<int>)
    requires j <= |buffers| && x.buffer == j && x.uploadStatic == sticky
    requires BufferIDs(after, Stamped(b, j, Grown(b, j, buffers), sticky), rest, j + 1, b)
    ensures BufferIDs(after, buffers, [x] + rest, j, b)
  {
    BatchBuffersCons(b, j, buffers, sticky, x, rest, after);
    OtherBuffersCons(b, j, buffers, sticky, |rest|, after);
  }

  /** Buffers before `j` are left alone, every buffer that received a
      static upload ends stamped with the container's `_updateID`, and
      every other buffer keeps the `_updateID` it had (a buffer the render
      added, the one it started with). */
  lemma {:induction false} RenderPlanStamps(b: Batching, i: nat, j: nat, buffers: seq<int>, updateStatic: bool)
    requires b.batchSize > 0 && j <= |buffers|
    ensures var plan := RenderPlan(b, i, j, buffers, updateStatic);
            && Keeps(plan.buffers, buffers, j) && StaticStamped(plan.batches, plan.buffers, b.updateID)
            && BufferIDs(plan.buffers, buffers, plan.batches, j, b)
    decreases b.total - i
  {
    if i < b.total && (j < |buffers| || b.autoResize) {
      var sticky := Sticky(b, i, j, Grown(b, j, buffers), updateStatic);
      var stamped := Stamped(b, j, Grown(b, j, buffers), sticky);
      RenderPlanNext(b, i, j, buffers, updateStatic, sticky, stamped);
      StampedKeeps(b, j, buffers, sticky);
      RenderPlanStamps(b, i + b.batchSize, j + 1, stamped, sticky);
      var rest := RenderPlan(b, i + b.batchSize, j + 1, stamped, sticky);
      KeepsTrans(rest.buffers, stamped, buffers, j, j + 1);
      assert sticky ==> rest.buffers[j] == b.updateID;
      var x := Batch(i, Amount(b, i), j, sticky);
      StaticStampedCons(x, rest.batches, rest.buffers, b.updateID);
      BufferIDsCons(b, j, buffers, sticky, x, rest.batches, rest.buffers);
    }
  }

  class ParticleRenderer {
    /** The texture and anchor `render` copies from the container for the
        upload functions. */
    var texture: Texture
    var anchor: Point

    constructor (texture: Texture, anchor: Point)
      ensures this.texture == texture && this.anchor == anchor
    {
      this.texture, this.anchor := texture, anchor;
    }

    /** `render(container)`'s batching: nothing without children; otherwise
        at most `maxSize` children, the buffers of this context (`generated`
        stands for what `generateBuffers` returns when there are none yet),
        and one loop iteration per batch as `RenderPlan` describes. */
    method Render(c: ParticleContainer, generated: seq<int>, newBufferID: int) returns (batches: seq<Batch>)
      requires c.batchSize > 0 || !c.autoResize || |c.children| == 0 || c.maxSize == 0
      modifies this`texture, this`anchor, c`glBuffers
      ensures |c.children| == 0 ==> batches == [] && unchanged(this) && unchanged(c)
      ensures |c.children| > 0 ==>
                var total := if |c.children| > c.maxSize then c.maxSize else |c.children|;
                var initial := if old(c.glBuffers).Some? then old(c.glBuffers).value else generated;
                var plan := RenderPlan(Batching(total, c.batchSize, c.autoResize, newBufferID,
                                                c.bufferUpdateIDs, c.updateID), 0, 0, initial, false);
                && texture == c.texture && anchor == c.anchor
                && batches == plan.batches && c.glBuffers == Some(plan.buffers)
    {
      var totalChildren := |c.children|;
      if totalChildren == 0 {
        return [];
      } else if totalChildren > c.maxSize {
        totalChildren := c.maxSize;
      }
      var buffers: seq<int>;
      if c.glBuffers.None? {
        buffers := generated;
      } else {
        buffers := c.glBuffers.value;
      }
      texture := c.texture;
      anchor := c.anchor;
      var batchSize := c.batchSize;
      var autoResize := c.autoResize;
      var bufferUpdateIDs := c.bufferUpdateIDs;
      var updateID := c.updateID;
      ghost var b := Batching(totalChildren, batchSize, autoResize, newBufferID, bufferUpdateIDs, updateID);
      var updateStatic := false;
      ghost var target := RenderPlan(b, 0, 0, buffers, false);
      batches := [];
      var i, j := 0, 0;
      while i < totalChildren
        invariant j <= |buffers|
        modifies {}
        invariant var rest := RenderPlan(b, i, j, buffers, updateStatic);
                  batches + rest.batches == target.batches && rest.buffers == target.buffers
        decreases totalChildren - i, |buffers| - j
      {
        var amount := totalChildren - i;
        if amount > batchSize {
          amount := batchSize;
        }
        if j >= |buffers| {
          if !autoResize {
            assert RenderPlan(b, i, j, buffers, updateStatic) == Plan([], buffers);
            break;
          }
        }
        ghost var buffers0, updateStatic0 := buffers, updateStatic;
        if j >= |buffers| {
          buffers := buffers + [newBufferID];
        }
        ghost var grown := buffers;
        var bid := BufferUpdateID(bufferUpdateIDs, i);
        updateStatic := updateStatic || buffers[j] < bid;
        if updateStatic {
          buffers := buffers[j := updateID];
        }
        var batch := Batch(i, amount, j, updateStatic);
        ghost var i0, j0, batches0 := i, j, batches;
        batches := batches + [batch];
        i, j := i + batchSize, j + 1;
        RenderPlanAdvance(b, i0, j0, buffers0, updateStatic0, batches0, target, batch,
                          batches, i, j, buffers, updateStatic);
      }
      // `buffers` is the container's own array: every push and stamp above
      // landed there
      c.glBuffers := Some(buffers);
    }

    /** `uploadVertices`: the same vertex quad for each of `amount` children,
        written from `offset` with records `stride` cells apart. */
    method UploadVertices(children: seq<Sprite>, startIndex: nat, amount: nat,
                          a: array<real>, stride: int, offset: int)
      requires 0 <= offset && 0 <= stride && Fits(offset, stride, amount, a.Length)
      modifies a
      ensures a[..] == Filled(old(a[..]), offset, stride, Repeat(VertexQuad(texture, anchor), amount))
    {
      ghost var qs := Repeat(VertexQuad(texture, anchor), amount);
      ghost var target := Filled(a[..], offset, stride, qs);
      var o := offset;
      var i := 0;
      while i < amount
        invariant 0 <= i <= amount && 0 <= o && Fits(o, stride, amount - i, a.Length)
        invariant Filled(a[..], o, stride, qs[i..]) == target
      {
        var q := VertexQuad(texture, anchor);
        assert qs[i..][0] == q && qs[i..][1..] == qs[i + 1..];
        WriteQuad(a, o, stride, q);
        o := o + stride * 4;
        i := i + 1;
      }
    }

    /** `uploadPosition`: each child's position at the four vertices of its
        quad. */
    method UploadPosition(children: seq<Sprite>, startIndex: nat, amount: nat,
                          a: array<real>, stride: int, offset: int)
      requires startIndex + amount <= |children|
      requires 0 <= offset && 0 <= stride && Fits(offset, stride, amount, a.Length)
      modifies a
      ensures a[..] == Filled(old(a[..]), offset, stride, PositionQuads(children, startIndex, amount))
    {
      ghost var qs := PositionQuads(children, startIndex, amount);
      ghost var target := Filled(a[..], offset, stride, qs);
      var o := offset;
      var i := 0;
      while i < amount
        invariant 0 <= i <= amount && 0 <= o && Fits(o, stride, amount - i, a.Length)
        invariant Filled(a[..], o, stride, qs[i..]) == target
      {
        var spritePosition := children[startIndex + i];
        var q := PositionQuad(spritePosition);
        assert qs[i..][0] == q && qs[i..][1..] == qs[i + 1..];
        WriteQuad(a, o, stride, q);
        o := o + stride * 4;
        i := i + 1;
      }
    }

    /** `uploadUvs`: the texture's corner coordinates, or zeros, for each
        child. */
    method UploadUvs(children: seq<Sprite>, startIndex: nat, amount: nat,
                     a: array<real>, stride: int, offset: int)
      requires 0 <= offset && 0 <= stride && Fits(offset, stride, amount, a.Length)
      modifies a
      ensures a[..] == Filled(old(a[..]), offset, stride, Repeat(UvsQuad(texture), amount))
    {
      ghost var qs := Repeat(UvsQuad(texture), amount);
      ghost var target := Filled(a[..], offset, stride, qs);
      var o := offset;
      var i := 0;
      while i < amount
        invariant 0 <= i <= amount && 0 <= o && Fits(o, stride, amount - i, a.Length)
        invariant Filled(a[..], o, stride, qs[i..]) == target
      {
        var q := UvsQuad(texture);
        assert qs[i..][0] == q && qs[i..][1..] == qs[i + 1..];
        WriteQuad(a, o, stride, q);
        o := o + stride * 4;
        i := i + 1;
      }
    }
  }
}
