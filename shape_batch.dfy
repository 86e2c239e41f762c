/** The shape batch (g_render_triangles): flat-coloured quads packed in a
    planar vertex buffer, all positions first and all colours after them,
    with draw_quad's overflow checks, draw_rect's corner derivation and the
    frame-start reset. */
module ShapeBatch {
  import opened LinAlg
  import opened GlUtils
  import opened GlBuffer
  import opened Batches

  /** Size of the vertex buffer: a float2 position and a float3 colour for
      each preallocated vertex. */
  const SHAPE_VERTEX_BUFFER_BYTES: nat := (FLOAT2_BYTES + FLOAT3_BYTES) * PREALLOC_VERTICES
  /** Size of the index buffer: one GLuint per preallocated index. */
  const SHAPE_INDEX_BUFFER_BYTES: nat := GLUINT_BYTES * PREALLOC_INDICES
  /** The colour region starts after room for every position. */
  const COLOR_REGION_OFFSET: nat := FLOAT2_BYTES * PREALLOC_VERTICES
  /** The divisor of draw_quad's vertex check: five floats per vertex. */
  const QUAD_CHECK_VERTEX_BYTES: nat := 5 * WORD_BYTES

  /** A vertex as the shader sees it: position and colour. */
  datatype ShapeVertex = ShapeVertex(pos: Float2, col: Float3)

  /** The four corners and the colour of one draw_quad call. */
  datatype Quad = Quad(a: Float2, b: Float2, c: Float2, d: Float2, col: Float3)

  /** Byte offset of the position of vertex `n`. */
  function PositionOffset(n: nat): nat
  {
    FLOAT2_BYTES * n
  }

  /** Byte offset of the colour of vertex `n`. */
  function ColorOffset(n: nat): nat
  {
    COLOR_REGION_OFFSET + FLOAT3_BYTES * n
  }

  /** Word index of the position of vertex `n`. */
  function PositionWord(n: nat): (w: nat)
    ensures WORD_BYTES * w == PositionOffset(n)
  {
    2 * n
  }

  /** Word index of the colour of vertex `n`. */
  function ColorWord(n: nat): (w: nat)
    ensures WORD_BYTES * w == ColorOffset(n)
  {
    2048 + 3 * n
  }

  /** For a quad that passes the capacity checks, the 32 position bytes lie
      in the position region [0, 8192) and the 48 colour bytes in the colour
      region [8192, 20480), so the two uploads never overlap. */
  lemma QuadUploadRanges(n: nat)
    requires n + 4 <= PREALLOC_VERTICES
    ensures PositionOffset(n) + 4 * FLOAT2_BYTES <= COLOR_REGION_OFFSET
    ensures COLOR_REGION_OFFSET <= ColorOffset(n)
    ensures ColorOffset(n) + 4 * FLOAT3_BYTES <= SHAPE_VERTEX_BUFFER_BYTES
  {
  }

  /** The shape batch's buffers have their allocated sizes, and the
      cursors are in step. */
  ghost predicate ShapeBatchValid(b: Batch)
  {
    && BufferSize(b.vertexWords) == SHAPE_VERTEX_BUFFER_BYTES
    && BufferSize(b.indexWords) == SHAPE_INDEX_BUFFER_BYTES
    && Lockstep(b)
    && b.nVertices <= PREALLOC_VERTICES
  }

  /** Vertex `m` read back from the planar buffer. */
  function ShapeVertexAt(w: seq<real>, m: nat): ShapeVertex
    requires BufferSize(w) == SHAPE_VERTEX_BUFFER_BYTES && m < PREALLOC_VERTICES
  {
    var p := PositionWord(m);
    var q := ColorWord(m);
    ShapeVertex(Float2(w[p], w[p + 1]), Float3(w[q], w[q + 1], w[q + 2]))
  }

  /** The first `count` vertices of the planar buffer `w`, in order. */
  function VertexList(w: seq<real>, count: nat): seq<ShapeVertex>
    requires BufferSize(w) == SHAPE_VERTEX_BUFFER_BYTES && count <= PREALLOC_VERTICES
  {
    seq(count, m requires 0 <= m < count => ShapeVertexAt(w, m))
  }

  /** ShapeVertexAt reads vertex `m` as the shape shader's two attributes
      fetch it: the position from byte offset 0 with stride sizeof(float2),
      the colour from byte offset PREALLOC_VERTICES*sizeof(float2) with
      stride sizeof(float3). */
  lemma ShapeVertexLayout(w: seq<real>, m: nat)
    requires BufferSize(w) == SHAPE_VERTEX_BUFFER_BYTES && m < PREALLOC_VERTICES
    ensures var p := (0 + m * FLOAT2_BYTES) / WORD_BYTES;
            ShapeVertexAt(w, m).pos == Float2(w[p], w[p + 1])
    ensures var q := (COLOR_REGION_OFFSET + m * FLOAT3_BYTES) / WORD_BYTES;
            ShapeVertexAt(w, m).col == Float3(w[q], w[q + 1], w[q + 2])
  {
  }

  /** The vertices written so far, in order. */
  function ShapeVertices(b: Batch): seq<ShapeVertex>
    requires ShapeBatchValid(b)
  {
    VertexList(b.vertexWords, b.nVertices)
  }

  /** The `vertices[4]` array of draw_quad as words. */
  function QuadPositionWords(a: Float2, b: Float2, c: Float2, d: Float2): (r: seq<real>)
    ensures WORD_BYTES * |r| == 4 * FLOAT2_BYTES
  {
    [a.x, a.y, b.x, b.y, c.x, c.y, d.x, d.y]
  }

  /** The `colors[4]` array of draw_quad as words. */
  function QuadColorWords(col: Float3): (r: seq<real>)
    ensures WORD_BYTES * |r| == 4 * FLOAT3_BYTES
  {
    [col.x, col.y, col.z, col.x, col.y, col.z, col.x, col.y, col.z, col.x, col.y, col.z]
  }

  /** Corner k of draw_quad's `vertices[4]` array lies at words 2k and
      2k+1, and every entry of its `colors[4]` array is col. */
  lemma QuadArraysLayout(a: Float2, b: Float2, c: Float2, d: Float2, col: Float3)
    ensures forall k :: 0 <= k < 4 ==>
      var r := QuadPositionWords(a, b, c, d); Float2(r[2 * k], r[2 * k + 1]) == [a, b, c, d][k]
    ensures forall k :: 0 <= k < 4 ==>
      var r := QuadColorWords(col); Float3(r[3 * k], r[3 * k + 1], r[3 * k + 2]) == col
  {
  }

  /** draw_quad's two overflow checks against the queried buffer sizes, in
      the order they are made. */
  function QuadCheck(nVertices: nat, nIndices: nat, vertexBufferBytes: nat, indexBufferBytes: nat): (s: Status)
    ensures s == Ok
        <==> nVertices + 4 <= vertexBufferBytes / QUAD_CHECK_VERTEX_BYTES && nIndices + 6 <= indexBufferBytes / GLUINT_BYTES
    ensures s == Aborted(VertexBufferOverflow) <==> nVertices + 4 > vertexBufferBytes / QUAD_CHECK_VERTEX_BYTES
    ensures s == Aborted(IndexBufferOverflow)
        <==> nVertices + 4 <= vertexBufferBytes / QUAD_CHECK_VERTEX_BYTES && nIndices + 6 > indexBufferBytes / GLUINT_BYTES
  {
    if nVertices + 4 > vertexBufferBytes / QUAD_CHECK_VERTEX_BYTES then Aborted(VertexBufferOverflow)
    else if nIndices + 6 > indexBufferBytes / GLUINT_BYTES then Aborted(IndexBufferOverflow)
    else Ok
  }

  /** With the allocated buffers the checks allow 1024 vertices and 1024
      indices, and report the vertex overflow first. */
  lemma QuadCheckAllocated(nVertices: nat, nIndices: nat)
    ensures QuadCheck(nVertices, nIndices, SHAPE_VERTEX_BUFFER_BYTES, SHAPE_INDEX_BUFFER_BYTES) == Ok
        <==> nVertices + 4 <= PREALLOC_VERTICES && nIndices + 6 <= PREALLOC_INDICES
    ensures QuadCheck(nVertices, nIndices, SHAPE_VERTEX_BUFFER_BYTES, SHAPE_INDEX_BUFFER_BYTES) == Aborted(VertexBufferOverflow)
        <==> nVertices + 4 > PREALLOC_VERTICES
  {
  }

  /** draw_quad on the shape batch: the checks first, then the uploads. */
  function DrawQuadSpec(batch: Batch, a: Float2, b: Float2, c: Float2, d: Float2, col: Float3): (r: Step)
    ensures var check := QuadCheck(batch.nVertices, batch.nIndices, BufferSize(batch.vertexWords), BufferSize(batch.indexWords));
      check != Ok ==> r == Step(check, batch)
    ensures r.status == Ok ==> r.after.nVertices == batch.nVertices + 4 && r.after.nIndices == batch.nIndices + 6
    ensures r.status != Ok ==>
      r.after.nVertices == batch.nVertices && r.after.nIndices == batch.nIndices && r.after.indexWords == batch.indexWords
  {
    var check := QuadCheck(batch.nVertices, batch.nIndices, BufferSize(batch.vertexWords), BufferSize(batch.indexWords));
    if check != Ok then Step(check, batch) else QuadUploads(batch, a, b, c, d, col)
  }

  /** The part of draw_quad after the checks: the position, colour and
      index uploads (each of which ends the process if GL reports an error),
      then the cursor updates. */
  function QuadUploads(batch: Batch, a: Float2, b: Float2, c: Float2, d: Float2, col: Float3): (r: Step)
    ensures r.status == Ok <==>
      && WORD_BYTES * PositionWord(batch.nVertices) + 4 * FLOAT2_BYTES <= BufferSize(batch.vertexWords)
      && WORD_BYTES * ColorWord(batch.nVertices) + 4 * FLOAT3_BYTES <= BufferSize(batch.vertexWords)
      && GLUINT_BYTES * batch.nIndices + 6 * GLUINT_BYTES <= BufferSize(batch.indexWords)
    ensures r.status != Ok ==>
      && r.status == Aborted(GlError(GL_INVALID_VALUE))
      && r.after.nVertices == batch.nVertices && r.after.nIndices == batch.nIndices
      && r.after.indexWords == batch.indexWords
    ensures r.status == Ok ==> r.after.nVertices == batch.nVertices + 4 && r.after.nIndices == batch.nIndices + 6
  {
    var n := batch.nVertices;
    var (e1, w1) := BufferSubData(batch.vertexWords, PositionWord(n), QuadPositionWords(a, b, c, d));
    if e1 != GL_NO_ERROR then Step(Aborted(GlError(e1)), batch)
    else
      var (e2, w2) := BufferSubData(w1, ColorWord(n), QuadColorWords(col));
      if e2 != GL_NO_ERROR then Step(Aborted(GlError(e2)), batch.(vertexWords := w1))
      else
        var (e3, iw) := BufferSubData(batch.indexWords, batch.nIndices, QuadIndices(n));
        if e3 != GL_NO_ERROR then Step(Aborted(GlError(e3)), batch.(vertexWords := w2))
        else Step(Ok, Batch(n + 4, batch.nIndices + 6, w2, iw))
  }

  /** On a valid shape batch whose checks pass, every upload of draw_quad
      succeeds: the state after it is the batch with the corners written at
      the vertex cursor and the indices at the index cursor. */
  lemma DrawQuadAccepted(batch: Batch, a: Float2, b: Float2, c: Float2, d: Float2, col: Float3)
    requires ShapeBatchValid(batch)
    requires batch.nVertices + 4 <= PREALLOC_VERTICES && batch.nIndices + 6 <= PREALLOC_INDICES
    ensures var n := batch.nVertices;
      DrawQuadSpec(batch, a, b, c, d, col)
      == Step(Ok, Batch(n + 4, batch.nIndices + 6, QuadVertexWrite(batch.vertexWords, n, a, b, c, d, col),
                        Overwrite(batch.indexWords, batch.nIndices, QuadIndices(n))))
  {
    var n := batch.nVertices;
    QuadCheckAllocated(n, batch.nIndices);
  }

  /** A draw_quad the checks reject reports the first failed check and
      changes nothing. */
  lemma DrawQuadRejected(batch: Batch, a: Float2, b: Float2, c: Float2, d: Float2, col: Float3)
    requires ShapeBatchValid(batch)
    requires batch.nVertices + 4 > PREALLOC_VERTICES || batch.nIndices + 6 > PREALLOC_INDICES
    ensures DrawQuadSpec(batch, a, b, c, d, col)
         == Step(QuadCheck(batch.nVertices, batch.nIndices, SHAPE_VERTEX_BUFFER_BYTES, SHAPE_INDEX_BUFFER_BYTES), batch)
    ensures DrawQuadSpec(batch, a, b, c, d, col).status != Ok
  {
    QuadCheckAllocated(batch.nVertices, batch.nIndices);
  }

  /** On a valid shape batch, draw_quad is accepted exactly when both
      checks pass, no upload fails, a rejected call changes nothing, and an
      accepted one appends the four corners, each with the quad's colour,
      and the quad's six indices, keeping the batch valid. */
  lemma DrawQuadAppends(batch: Batch, a: Float2, b: Float2, c: Float2, d: Float2, col: Float3)
    requires ShapeBatchValid(batch)
    ensures ShapeBatchValid(DrawQuadSpec(batch, a, b, c, d, col).after)
    ensures DrawQuadSpec(batch, a, b, c, d, col).status
         == QuadCheck(batch.nVertices, batch.nIndices, SHAPE_VERTEX_BUFFER_BYTES, SHAPE_INDEX_BUFFER_BYTES)
    ensures DrawQuadSpec(batch, a, b, c, d, col).status != Ok ==> DrawQuadSpec(batch, a, b, c, d, col).after == batch
    ensures DrawQuadSpec(batch, a, b, c, d, col).status == Ok ==>
      var after := DrawQuadSpec(batch, a, b, c, d, col).after;
      && after.nVertices == batch.nVertices + 4
      && after.nIndices == batch.nIndices + 6
      && ShapeVertices(after) == ShapeVertices(batch)
           + [ShapeVertex(a, col), ShapeVertex(b, col), ShapeVertex(c, col), ShapeVertex(d, col)]
      && Indices(after) == Indices(batch) + QuadIndices(batch.nVertices)
  {
    var n := batch.nVertices;
    QuadCheckAllocated(n, batch.nIndices);
    if n + 4 <= PREALLOC_VERTICES && batch.nIndices + 6 <= PREALLOC_INDICES {
      DrawQuadAccepted(batch, a, b, c, d, col);
      QuadAppended(batch, a, b, c, d, col);
    } else {
      DrawQuadRejected(batch, a, b, c, d, col);
    }
  }

  /** The vertex buffer after draw_quad's position and colour uploads at
      vertex `n`. */
  function QuadVertexWrite(w: seq<real>, n: nat, a: Float2, b: Float2, c: Float2, d: Float2, col: Float3): (r: seq<real>)
    requires BufferSize(w) == SHAPE_VERTEX_BUFFER_BYTES && n + 4 <= PREALLOC_VERTICES
    ensures BufferSize(r) == SHAPE_VERTEX_BUFFER_BYTES
  {
    Overwrite(Overwrite(w, PositionWord(n), QuadPositionWords(a, b, c, d)), ColorWord(n), QuadColorWords(col))
  }

  /** The state an accepted draw_quad leaves is valid and holds the old
      vertices and indices followed by the quad's. */
  lemma QuadAppended(batch: Batch, a: Float2, b: Float2, c: Float2, d: Float2, col: Float3)
    requires ShapeBatchValid(batch)
    requires batch.nVertices + 4 <= PREALLOC_VERTICES && batch.nIndices + 6 <= PREALLOC_INDICES
    ensures var n := batch.nVertices;
      var after := Batch(n + 4, batch.nIndices + 6, QuadVertexWrite(batch.vertexWords, n, a, b, c, d, col),
                         Overwrite(batch.indexWords, batch.nIndices, QuadIndices(n)));
      && ShapeBatchValid(after)
      && ShapeVertices(after) == ShapeVertices(batch)
           + [ShapeVertex(a, col), ShapeVertex(b, col), ShapeVertex(c, col), ShapeVertex(d, col)]
      && Indices(after) == Indices(batch) + QuadIndices(n)
  {
    var n := batch.nVertices;
    var w2 := QuadVertexWrite(batch.vertexWords, n, a, b, c, d, col);
    AppendQuadIndices(batch, w2);
    QuadVerticesReadBack(batch.vertexWords, n, a, b, c, d, col);
  }

  /** If the vertices below `n` read back unchanged from `w'` and the ones
      above it read back as `added`, the vertex list grew by `added`. */
  lemma VerticesAppended(w: seq<real>, w': seq<real>, n: nat, added: seq<ShapeVertex>)
    requires BufferSize(w) == SHAPE_VERTEX_BUFFER_BYTES && BufferSize(w') == SHAPE_VERTEX_BUFFER_BYTES
    requires n + |added| <= PREALLOC_VERTICES
    requires forall m :: 0 <= m < n ==> ShapeVertexAt(w', m) == ShapeVertexAt(w, m)
    requires forall j :: 0 <= j < |added| ==> ShapeVertexAt(w', n + j) == added[j]
    ensures VertexList(w', n + |added|) == VertexList(w, n) + added
  {
    forall m | 0 <= m < n + |added|
      ensures VertexList(w', n + |added|)[m] == (VertexList(w, n) + added)[m]
    {
      if m >= n {
        assert ShapeVertexAt(w', n + (m - n)) == added[m - n];
      }
    }
  }

  /** The two vertex uploads of an accepted quad leave the earlier vertices
      as they were and make vertices n..n+3 read back as the corners, each
      with the quad's colour: the position and colour regions do not
      overlap. */
  lemma QuadVerticesReadBack(w: seq<real>, n: nat, a: Float2, b: Float2, c: Float2, d: Float2, col: Float3)
    requires BufferSize(w) == SHAPE_VERTEX_BUFFER_BYTES && n + 4 <= PREALLOC_VERTICES
    ensures VertexList(QuadVertexWrite(w, n, a, b, c, d, col), n + 4)
         == VertexList(w, n) + [ShapeVertex(a, col), ShapeVertex(b, col), ShapeVertex(c, col), ShapeVertex(d, col)]
  {
    var w2 := QuadVertexWrite(w, n, a, b, c, d, col);
    var added := [ShapeVertex(a, col), ShapeVertex(b, col), ShapeVertex(c, col), ShapeVertex(d, col)];
    forall m | 0 <= m < n
      ensures ShapeVertexAt(w2, m) == ShapeVertexAt(w, m)
    {
      QuadVertexKept(w, n, a, b, c, d, col, m);
    }
    forall j | 0 <= j < 4
      ensures ShapeVertexAt(w2, n + j) == added[j]
    {
      QuadVertexSet(w, n, a, b, c, d, col, j);
    }
    VerticesAppended(w, w2, n, added);
  }

  /** A vertex below the cursor is untouched by the quad's uploads. */
  lemma QuadVertexKept(w: seq<real>, n: nat, a: Float2, b: Float2, c: Float2, d: Float2, col: Float3, m: nat)
    requires BufferSize(w) == SHAPE_VERTEX_BUFFER_BYTES && n + 4 <= PREALLOC_VERTICES && m < n
    ensures ShapeVertexAt(QuadVertexWrite(w, n, a, b, c, d, col), m) == ShapeVertexAt(w, m)
  {
    QuadVertexWrites(w, n, a, b, c, d, col);
  }

  /** Vertex n + j after the quad's uploads is corner j with the quad's
      colour. */
  lemma QuadVertexSet(w: seq<real>, n: nat, a: Float2, b: Float2, c: Float2, d: Float2, col: Float3, j: nat)
    requires BufferSize(w) == SHAPE_VERTEX_BUFFER_BYTES && n + 4 <= PREALLOC_VERTICES && j < 4
    ensures ShapeVertexAt(QuadVertexWrite(w, n, a, b, c, d, col), n + j) == ShapeVertex([a, b, c, d][j], col)
  {
    QuadVertexWrites(w, n, a, b, c, d, col);
  }

  /** The words of the vertex buffer after the quad's two uploads. */
  lemma QuadVertexWrites(w: seq<real>, n: nat, a: Float2, b: Float2, c: Float2, d: Float2, col: Float3)
    requires BufferSize(w) == SHAPE_VERTEX_BUFFER_BYTES && n + 4 <= PREALLOC_VERTICES
    ensures forall k :: 0 <= k < |w| ==>
      QuadVertexWrite(w, n, a, b, c, d, col)[k] ==
        (if ColorWord(n) <= k < ColorWord(n) + 12 then QuadColorWords(col)[k - ColorWord(n)]
         else if PositionWord(n) <= k < PositionWord(n) + 8 then QuadPositionWords(a, b, c, d)[k - PositionWord(n)]
         else w[k])
  {
    var w1 := Overwrite(w, PositionWord(n), QuadPositionWords(a, b, c, d));
    OverwriteReads(w, PositionWord(n), QuadPositionWords(a, b, c, d));
    OverwriteReads(w1, ColorWord(n), QuadColorWords(col));
  }

  /** The corners draw_rect passes to draw_quad: the rectangle whose top
      left corner is `topLeft`, `size.x` wide and extending `size.y`
      downwards, listed clockwise from the top left. */
  function RectCorners(topLeft: Float2, size: Float2, col: Float3): (q: Quad)
    ensures q.a == topLeft && q.col == col
    ensures q.b.x - q.a.x == size.x && q.a.y - q.d.y == size.y
    ensures q.b.y == q.a.y && q.c.x == q.b.x && q.d.x == q.a.x && q.c.y == q.d.y
  {
    Quad(topLeft, Float2(topLeft.x + size.x, topLeft.y), Float2(topLeft.x + size.x, topLeft.y - size.y),
         Float2(topLeft.x, topLeft.y - size.y), col)
  }

  /** draw_quad applied to a Quad value. */
  function DrawQuadOf(batch: Batch, q: Quad): Step
  {
    DrawQuadSpec(batch, q.a, q.b, q.c, q.d, q.col)
  }

  /** The four vertices draw_quad adds for `q`. */
  function QuadVertices(q: Quad): seq<ShapeVertex>
  {
    [ShapeVertex(q.a, q.col), ShapeVertex(q.b, q.col), ShapeVertex(q.c, q.col), ShapeVertex(q.d, q.col)]
  }

  /** draw_rect: draw_quad on the rectangle's corners. */
  function DrawRectSpec(batch: Batch, topLeft: Float2, size: Float2, col: Float3): (r: Step)
    ensures r == DrawQuadSpec(batch, topLeft, Float2(topLeft.x + size.x, topLeft.y),
                              Float2(topLeft.x + size.x, topLeft.y - size.y), Float2(topLeft.x, topLeft.y - size.y), col)
  {
    var q := RectCorners(topLeft, size, col);
    assert q == Quad(topLeft, Float2(topLeft.x + size.x, topLeft.y), Float2(topLeft.x + size.x, topLeft.y - size.y),
                     Float2(topLeft.x, topLeft.y - size.y), col);
    DrawQuadOf(batch, q)
  }

  /** On a valid shape batch draw_quad's checks pass exactly when fewer
      than 170 quads have been drawn, and the vertex check never fails:
      the index buffer fills first. */
  lemma ShapeCapacity(batch: Batch)
    requires ShapeBatchValid(batch)
    ensures batch.nVertices / 4 <= MAX_QUADS
    ensures QuadCheck(batch.nVertices, batch.nIndices, SHAPE_VERTEX_BUFFER_BYTES, SHAPE_INDEX_BUFFER_BYTES) == Ok
        <==> batch.nVertices / 4 < MAX_QUADS
    ensures QuadCheck(batch.nVertices, batch.nIndices, SHAPE_VERTEX_BUFFER_BYTES, SHAPE_INDEX_BUFFER_BYTES) != Aborted(VertexBufferOverflow)
  {
    QuadCheckAllocated(batch.nVertices, batch.nIndices);
  }

  /** After 170 quads the 171st is refused by the index check, while the
      vertex check alone would still let it through. */
  lemma QuadAfterFullFrame(batch: Batch)
    requires ShapeBatchValid(batch) && batch.nVertices == 4 * MAX_QUADS
    ensures batch.nIndices == 1020
    ensures batch.nVertices + 4 <= SHAPE_VERTEX_BUFFER_BYTES / QUAD_CHECK_VERTEX_BYTES
    ensures batch.nIndices + 6 > SHAPE_INDEX_BUFFER_BYTES / GLUINT_BYTES
    ensures QuadCheck(batch.nVertices, batch.nIndices, SHAPE_VERTEX_BUFFER_BYTES, SHAPE_INDEX_BUFFER_BYTES) == Aborted(IndexBufferOverflow)
  {
  }

  /** A frame's draw_quad calls in order, up to the first one that aborts. */
  function DrawQuads(batch: Batch, qs: seq<Quad>): Step
    decreases |qs|
  {
    if |qs| == 0 then Step(Ok, batch)
    else
      var r := DrawQuadOf(batch, qs[0]);
      if r.status != Ok then r else DrawQuads(r.after, qs[1..])
  }

  /** The vertices of the quads `qs`, four per quad. */
  function QuadsVertices(qs: seq<Quad>): (vs: seq<ShapeVertex>)
    ensures |vs| == 4 * |qs|
  {
    if |qs| == 0 then [] else QuadVertices(qs[0]) + QuadsVertices(qs[1..])
  }

  /** A run of draw_quad calls on a valid shape batch succeeds exactly when
      the frame still has room for all of them; otherwise it stops at the
      index check with the frame full. The batch stays valid either way. */
  lemma {:induction false} DrawQuadsStatus(batch: Batch, qs: seq<Quad>)
    requires ShapeBatchValid(batch)
    ensures ShapeBatchValid(DrawQuads(batch, qs).after)
    ensures DrawQuads(batch, qs).status == Ok <==> batch.nVertices / 4 + |qs| <= MAX_QUADS
    ensures DrawQuads(batch, qs).status != Ok ==>
      && DrawQuads(batch, qs).status == Aborted(IndexBufferOverflow)
      && DrawQuads(batch, qs).after.nVertices == 4 * MAX_QUADS
    decreases |qs|
  {
    if |qs| > 0 {
      var q := qs[0];
      DrawQuadAppends(batch, q.a, q.b, q.c, q.d, q.col);
      ShapeCapacity(batch);
      var r := DrawQuadOf(batch, q);
      if r.status == Ok {
        DrawQuadsStatus(r.after, qs[1..]);
      }
    }
  }

  /** A successful run of draw_quad calls appends the quads' vertices, four
      per quad, and their index groups, and moves the cursors by four and
      six per quad. */
  lemma {:induction false} DrawQuadsAppend(batch: Batch, qs: seq<Quad>)
    requires ShapeBatchValid(batch)
    requires DrawQuads(batch, qs).status == Ok
    ensures ShapeBatchValid(DrawQuads(batch, qs).after)
    ensures var after := DrawQuads(batch, qs).after;
      && after.nVertices == batch.nVertices + 4 * |qs|
      && after.nIndices == batch.nIndices + 6 * |qs|
      && ShapeVertices(after) == ShapeVertices(batch) + QuadsVertices(qs)
      && Indices(after) == Indices(batch) + QuadIndexRun(batch.nVertices, |qs|)
    decreases |qs|
  {
    if |qs| > 0 {
      var q := qs[0];
      DrawQuadAppends(batch, q.a, q.b, q.c, q.d, q.col);
      var r := DrawQuadOf(batch, q);
      var rest := DrawQuads(r.after, qs[1..]);
      DrawQuadsAppend(r.after, qs[1..]);
      AppendRegroup(ShapeVertices(rest.after), ShapeVertices(batch), QuadVertices(q), QuadsVertices(qs[1..]),
                    QuadsVertices(qs));
      var tail := QuadIndexRun(r.after.nVertices, |qs[1..]|);
      assert QuadIndexRun(batch.nVertices, |qs|) == QuadIndices(batch.nVertices) + tail;
      AppendRegroup(Indices(rest.after), Indices(batch), QuadIndices(batch.nVertices),
                    tail, QuadIndexRun(batch.nVertices, |qs|));
    }
  }

  /** The first quad after clear_screen: vertices 0..3 and the indices
      0, 1, 2, 2, 3, 0. */
  lemma FirstQuadOfFrame(batch: Batch, q: Quad)
    requires ShapeBatchValid(batch)
    ensures var s := DrawQuadOf(Cleared(batch), q);
      && s.status == Ok
      && ShapeBatchValid(s.after)
      && s.after.nVertices == 4 && s.after.nIndices == 6
      && Indices(s.after) == [0, 1, 2, 2, 3, 0]
      && ShapeVertices(s.after) == QuadVertices(q)
  {
    var c := Cleared(batch);
    ClearedProperties(batch);
    DrawQuadAppends(c, q.a, q.b, q.c, q.d, q.col);
    assert ShapeVertices(c) == [];
  }

  /** The opening of the demo frame: after clear_screen, two draw_rect calls
      leave 8 vertices and 12 indices, the second quad's indices offset by
      four. */
  lemma ClearThenTwoRects(batch: Batch, tl1: Float2, tl2: Float2, size: Float2, col: Float3)
    requires ShapeBatchValid(batch)
    ensures var s1 := DrawRectSpec(Cleared(batch), tl1, size, col);
      var s2 := DrawRectSpec(s1.after, tl2, size, col);
      && s1.status == Ok && s2.status == Ok
      && s2.after.nVertices == 8 && s2.after.nIndices == 12
      && ShapeBatchValid(s2.after)
      && Indices(s2.after) == [0, 1, 2, 2, 3, 0, 4, 5, 6, 6, 7, 4]
      && ShapeVertices(s2.after) == QuadVertices(RectCorners(tl1, size, col)) + QuadVertices(RectCorners(tl2, size, col))
  {
    var q1 := RectCorners(tl1, size, col);
    var q2 := RectCorners(tl2, size, col);
    FirstQuadOfFrame(batch, q1);
    var s1 := DrawQuadOf(Cleared(batch), q1);
    DrawQuadAppends(s1.after, q2.a, q2.b, q2.c, q2.d, q2.col);
    var s2 := DrawQuadOf(s1.after, q2);
    assert Indices(s2.after) == QuadIndices(0) + QuadIndices(4);
    FirstTwoQuadIndices();
    assert ShapeVertices(s2.after) == QuadVertices(q1) + QuadVertices(q2);
  }

  /** The index groups of the first two quads of a frame, computed apart
      from the scenario above so that its proof stays small. */
  lemma FirstTwoQuadIndices()
    ensures QuadIndices(0) + QuadIndices(4) == [0, 1, 2, 2, 3, 0, 4, 5, 6, 6, 7, 4]
  {
  }
}
