/** What the two geometry batches have in common: a vertex cursor and an
    index cursor over a vertex buffer and an index buffer of fixed size,
    the six-index pattern that turns four vertices into two triangles, the
    frame-start reset and the invariant that keeps the cursors in step. */
module Batches {
  import opened GlUtils
  import opened GlBuffer

  /** Vertices and indices each buffer is allocated for. */
  const PREALLOC_VERTICES: nat := 1024
  const PREALLOC_INDICES: nat := 1024

  const FLOAT2_BYTES: nat := 8
  const FLOAT3_BYTES: nat := 12
  const GLUINT_BYTES: nat := 4

  /** The state of one batch (render_step or text_render_step): the
      cursors, and the contents of its vertex buffer (one real per 4-byte
      float) and of its index buffer (one entry per GLuint). Shader, vertex
      array and texture handles are not modelled. */
  datatype Batch = Batch(nVertices: nat, nIndices: nat, vertexWords: seq<real>, indexWords: seq<nat>)

  /** Why a drawing operation ends the process: one of draw_quad's two
      overflow checks, or a GL error caught by GL_CALL. */
  datatype AbortReason = VertexBufferOverflow | IndexBufferOverflow | GlError(code: GLenum)

  datatype Status = Ok | Aborted(reason: AbortReason)

  /** The outcome of an operation on a batch and the batch it leaves. */
  datatype Step = Step(status: Status, after: Batch)

  /** The indices of the quad whose first vertex is `n`: the triangles
      (n, n+1, n+2) and (n+2, n+3, n), which share the diagonal n..n+2. */
  function QuadIndices(n: nat): (r: seq<nat>)
    ensures |r| == 6
    ensures forall k :: 0 <= k < 6 ==> n <= r[k] < n + 4
    ensures r[2] == r[3] && r[5] == r[0]
  {
    [n, n + 1, n + 2, n + 2, n + 3, n]
  }

  /** Each of the quad's four vertices is used by its triangles, and the
      two triangles are (n, n+1, n+2) and (n+2, n+3, n). */
  lemma QuadIndicesCover(n: nat)
    ensures n in QuadIndices(n) && n + 1 in QuadIndices(n) && n + 2 in QuadIndices(n) && n + 3 in QuadIndices(n)
    ensures QuadIndices(n)[..3] == [n, n + 1, n + 2] && QuadIndices(n)[3..] == [n + 2, n + 3, n]
  {
    var r := QuadIndices(n);
    assert r[0] == n && r[1] == n + 1 && r[2] == n + 2 && r[4] == n + 3;
  }

  /** The indices written so far. */
  function Indices(b: Batch): seq<nat>
    requires b.nIndices <= |b.indexWords|
  {
    b.indexWords[..b.nIndices]
  }

  /** The cursors move in step, four vertices and six indices per quad,
      and every index written refers to a vertex written. */
  ghost predicate Lockstep(b: Batch)
  {
    && b.nVertices % 4 == 0
    && b.nIndices == 6 * (b.nVertices / 4)
    && b.nIndices <= |b.indexWords|
    && forall k :: 0 <= k < b.nIndices ==> b.indexWords[k] < b.nVertices
  }

  /** The effect of clear_screen on one batch: both cursors back to zero,
      the buffers left as they are. */
  function Cleared(b: Batch): (r: Batch)
    ensures r.nVertices == 0 && r.nIndices == 0
    ensures r.vertexWords == b.vertexWords && r.indexWords == b.indexWords
  {
    b.(nVertices := 0, nIndices := 0)
  }

  /** Clearing empties the batch, keeps the buffers, restores the
      invariant, and a second clear changes nothing more. */
  lemma ClearedProperties(b: Batch)
    ensures Cleared(b).nVertices == 0 && Cleared(b).nIndices == 0
    ensures Cleared(b).vertexWords == b.vertexWords && Cleared(b).indexWords == b.indexWords
    ensures Lockstep(Cleared(b)) && Indices(Cleared(b)) == []
    ensures Cleared(Cleared(b)) == Cleared(b)
  {
  }

  /** Quads (or glyphs) a frame holds: the index buffer's 1024 entries give
      room for 170 groups of six. */
  const MAX_QUADS: nat := PREALLOC_INDICES / 6

  /** The indices of `g` consecutive quads starting at vertex `n`. */
  function QuadIndexRun(n: nat, g: nat): (r: seq<nat>)
    ensures |r| == 6 * g
    decreases g
  {
    if g == 0 then [] else QuadIndices(n) + QuadIndexRun(n + 4, g - 1)
  }

  /** The indices of g quads from vertex n all refer to those quads'
      vertices n .. n+4g-1. */
  lemma {:induction false} QuadIndexRunBounds(n: nat, g: nat)
    ensures forall k :: 0 <= k < |QuadIndexRun(n, g)| ==> n <= QuadIndexRun(n, g)[k] < n + 4 * g
    decreases g
  {
    if g > 0 {
      QuadIndexRunBounds(n + 4, g - 1);
    }
  }

  /** Writing a quad's indices at the index cursor and moving the cursors
      by four and six keeps them in step, and the indices read back are the
      old ones followed by the quad's. */
  lemma AppendQuadIndices(b: Batch, vertexWords: seq<real>)
    requires Lockstep(b)
    requires b.nIndices + 6 <= |b.indexWords|
    ensures var iw := Overwrite(b.indexWords, b.nIndices, QuadIndices(b.nVertices));
      && Lockstep(Batch(b.nVertices + 4, b.nIndices + 6, vertexWords, iw))
      && Indices(Batch(b.nVertices + 4, b.nIndices + 6, vertexWords, iw)) == Indices(b) + QuadIndices(b.nVertices)
  {
    var iw := Overwrite(b.indexWords, b.nIndices, QuadIndices(b.nVertices));
    OverwriteReads(b.indexWords, b.nIndices, QuadIndices(b.nVertices));
    var b' := Batch(b.nVertices + 4, b.nIndices + 6, vertexWords, iw);
    assert Indices(b') == Indices(b) + QuadIndices(b.nVertices);
  }

  /** Regrouping an append: `(prefix + mid) + tail` is `prefix` followed by
      `mid + tail`. */
  lemma AppendRegroup<T>(total: seq<T>, prefix: seq<T>, mid: seq<T>, tail: seq<T>, run: seq<T>)
    requires total == (prefix + mid) + tail && run == mid + tail
    ensures total == prefix + run
  {
  }

  /** A slice of `head + tail` past `head` is a slice of `tail`. */
  lemma SliceAfterHead<T>(head: seq<T>, tail: seq<T>, at: nat, len: nat)
    requires at + len <= |tail|
    ensures (head + tail)[|head| + at .. |head| + at + len] == tail[at .. at + len]
  {
  }

  /** The first |head| elements of `head + tail` are `head`. */
  lemma PrefixIsHead<T>(head: seq<T>, tail: seq<T>)
    ensures (head + tail)[..|head|] == head
  {
  }
}
