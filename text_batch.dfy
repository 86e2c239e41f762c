/** The glyph batch (g_render_text): one textured quad per non-space
    character, in a vertex buffer of interleaved 28-byte records (position,
    texture coordinates, colour), with the same six-index pattern per quad
    as the shape batch.

    draw_text checks no capacity. A glyph whose upload runs past the end of
    a buffer makes glNamedBufferSubData report GL_INVALID_VALUE, and the
    GL_CALL around it ends the process: that is how an overlong text ends
    here. */
module TextBatch {
  import opened LinAlg
  import opened GlUtils
  import opened GlBuffer
  import opened Batches
  import opened GlyphAtlas

  /** sizeof(text_vertex): a float2 position, a float2 texture coordinate
      and a float3 colour. */
  const TEXT_VERTEX_BYTES: nat := FLOAT2_BYTES + FLOAT2_BYTES + FLOAT3_BYTES
  /** Size of the vertex buffer: one record per preallocated vertex. */
  const TEXT_VERTEX_BUFFER_BYTES: nat := PREALLOC_VERTICES * TEXT_VERTEX_BYTES
  /** Size of the index buffer: one GLuint per preallocated index. */
  const TEXT_INDEX_BUFFER_BYTES: nat := PREALLOC_INDICES * GLUINT_BYTES

  /** One text_vertex. */
  datatype TextVertex = TextVertex(pos: Float2, tex: Float2, col: Float3)

  /** The seven floats of a record, in field order. */
  function TextVertexWords(v: TextVertex): (w: seq<real>)
    ensures |w| == 7
  {
    [v.pos.x, v.pos.y, v.tex.x, v.tex.y, v.col.x, v.col.y, v.col.z]
  }

  /** The `vs[4]` array of draw_text as words. */
  function GlyphWords(vs: seq<TextVertex>): (w: seq<real>)
    requires |vs| == 4
    ensures |w| == 28
  {
    TextVertexWords(vs[0]) + TextVertexWords(vs[1]) + TextVertexWords(vs[2]) + TextVertexWords(vs[3])
  }

  /** Word index of record `m`. */
  function RecordWord(m: nat): (w: nat)
    ensures WORD_BYTES * w == TEXT_VERTEX_BYTES * m
  {
    7 * m
  }

  /** Record `m` read back from the interleaved buffer. */
  function TextVertexAt(w: seq<real>, m: nat): TextVertex
    requires BufferSize(w) == TEXT_VERTEX_BUFFER_BYTES && m < PREALLOC_VERTICES
  {
    var p := RecordWord(m);
    TextVertex(Float2(w[p], w[p + 1]), Float2(w[p + 2], w[p + 3]), Float3(w[p + 4], w[p + 5], w[p + 6]))
  }

  /** TextVertexAt reads record `m` as the text shader's three attributes
      fetch it: all with stride sizeof(text_vertex), the position from byte
      offset 0, the texture coordinate from 2*sizeof(float) and the colour
      from 4*sizeof(float). */
  lemma TextVertexLayout(w: seq<real>, m: nat)
    requires BufferSize(w) == TEXT_VERTEX_BUFFER_BYTES && m < PREALLOC_VERTICES
    ensures var p := (0 + m * TEXT_VERTEX_BYTES) / WORD_BYTES;
            TextVertexAt(w, m).pos == Float2(w[p], w[p + 1])
    ensures var t := (2 * WORD_BYTES + m * TEXT_VERTEX_BYTES) / WORD_BYTES;
            TextVertexAt(w, m).tex == Float2(w[t], w[t + 1])
    ensures var c := (4 * WORD_BYTES + m * TEXT_VERTEX_BYTES) / WORD_BYTES;
            TextVertexAt(w, m).col == Float3(w[c], w[c + 1], w[c + 2])
  {
  }

  /** The first `count` records of `w`, in order. */
  function TextVertexList(w: seq<real>, count: nat): seq<TextVertex>
    requires BufferSize(w) == TEXT_VERTEX_BUFFER_BYTES && count <= PREALLOC_VERTICES
  {
    seq(count, m requires 0 <= m < count => TextVertexAt(w, m))
  }

  /** The glyph batch's buffers have their allocated sizes, and the
      cursors are in step. */
  ghost predicate TextBatchValid(b: Batch)
  {
    && BufferSize(b.vertexWords) == TEXT_VERTEX_BUFFER_BYTES
    && BufferSize(b.indexWords) == TEXT_INDEX_BUFFER_BYTES
    && Lockstep(b)
    && b.nVertices <= PREALLOC_VERTICES
  }

  /** The records written so far, in order. */
  function TextVertices(b: Batch): seq<TextVertex>
    requires TextBatchValid(b)
  {
    TextVertexList(b.vertexWords, b.nVertices)
  }

  /** The four records of the glyph for character `c` at position `i` of
      the text: the screen square of the i-th character cell, the glyph's
      atlas rectangle, and the text colour, corner by corner. */
  function GlyphQuad(pos: Float2, size: real, col: Float3, i: nat, c: CChar): (vs: seq<TextVertex>)
    ensures |vs| == 4
    ensures forall k :: 0 <= k < 4 ==>
      vs[k] == TextVertex(GlyphPositions(pos, size, i)[k], GlyphUVs(c)[k], col)
  {
    var p := GlyphPositions(pos, size, i);
    var uv := GlyphUVs(c);
    [TextVertex(p[0], uv[0], col), TextVertex(p[1], uv[1], col), TextVertex(p[2], uv[2], col), TextVertex(p[3], uv[3], col)]
  }

  /** The uploads of one glyph: its four records at the vertex cursor, then
      its six indices at the index cursor, each ending the process on a GL
      error; the cursors move only when both succeed. */
  function GlyphStep(b: Batch, vs: seq<TextVertex>): (r: Step)
    requires |vs| == 4
    ensures r.status == Ok <==>
      && TEXT_VERTEX_BYTES * b.nVertices + WORD_BYTES * 28 <= BufferSize(b.vertexWords)
      && GLUINT_BYTES * b.nIndices + WORD_BYTES * 6 <= BufferSize(b.indexWords)
    ensures r.status != Ok ==>
      && r.status == Aborted(GlError(GL_INVALID_VALUE))
      && r.after.nVertices == b.nVertices && r.after.nIndices == b.nIndices
      && r.after.indexWords == b.indexWords
    ensures r.status == Ok ==> r.after.nVertices == b.nVertices + 4 && r.after.nIndices == b.nIndices + 6
  {
    var n := b.nVertices;
    var (e1, w1) := BufferSubData(b.vertexWords, RecordWord(n), GlyphWords(vs));
    if e1 != GL_NO_ERROR then Step(Aborted(GlError(e1)), b)
    else
      var (e2, iw) := BufferSubData(b.indexWords, b.nIndices, QuadIndices(n));
      if e2 != GL_NO_ERROR then Step(Aborted(GlError(e2)), b.(vertexWords := w1))
      else Step(Ok, Batch(n + 4, b.nIndices + 6, w1, iw))
  }

  /** The vertex buffer after the record upload of a glyph at vertex `n`. */
  function GlyphVertexWrite(w: seq<real>, n: nat, vs: seq<TextVertex>): (r: seq<real>)
    requires BufferSize(w) == TEXT_VERTEX_BUFFER_BYTES && n + 4 <= PREALLOC_VERTICES && |vs| == 4
    ensures BufferSize(r) == TEXT_VERTEX_BUFFER_BYTES
  {
    Overwrite(w, RecordWord(n), GlyphWords(vs))
  }

  /** A record below the cursor is untouched by a glyph's upload. */
  lemma GlyphRecordKept(w: seq<real>, n: nat, vs: seq<TextVertex>, m: nat)
    requires BufferSize(w) == TEXT_VERTEX_BUFFER_BYTES && n + 4 <= PREALLOC_VERTICES && |vs| == 4 && m < n
    ensures TextVertexAt(GlyphVertexWrite(w, n, vs), m) == TextVertexAt(w, m)
  {
    OverwriteReads(w, RecordWord(n), GlyphWords(vs));
  }

  /** Record n + j after a glyph's upload is the glyph's corner j. */
  lemma GlyphRecordSet(w: seq<real>, n: nat, vs: seq<TextVertex>, j: nat)
    requires BufferSize(w) == TEXT_VERTEX_BUFFER_BYTES && n + 4 <= PREALLOC_VERTICES && |vs| == 4 && j < 4
    ensures TextVertexAt(GlyphVertexWrite(w, n, vs), n + j) == vs[j]
  {
    var gw := GlyphWords(vs);
    OverwriteReads(w, RecordWord(n), gw);
    assert gw[7 * j .. 7 * j + 7] == TextVertexWords(vs[j]);
  }

  /** If the records below `n` read back unchanged from `w'` and the ones
      above it read back as `added`, the record list grew by `added`. */
  lemma RecordsAppended(w: seq<real>, w': seq<real>, n: nat, added: seq<TextVertex>)
    requires BufferSize(w) == TEXT_VERTEX_BUFFER_BYTES && BufferSize(w') == TEXT_VERTEX_BUFFER_BYTES
    requires n + |added| <= PREALLOC_VERTICES
    requires forall m :: 0 <= m < n ==> TextVertexAt(w', m) == TextVertexAt(w, m)
    requires forall j :: 0 <= j < |added| ==> TextVertexAt(w', n + j) == added[j]
    ensures TextVertexList(w', n + |added|) == TextVertexList(w, n) + added
  {
    forall m | 0 <= m < n + |added|
      ensures TextVertexList(w', n + |added|)[m] == (TextVertexList(w, n) + added)[m]
    {
      if m >= n {
        assert TextVertexAt(w', n + (m - n)) == added[m - n];
      }
    }
  }

  /** A glyph's record upload leaves the records below the cursor and puts
      the glyph's four records right after them. */
  lemma GlyphRecordsReadBack(w: seq<real>, n: nat, vs: seq<TextVertex>)
    requires BufferSize(w) == TEXT_VERTEX_BUFFER_BYTES && n + 4 <= PREALLOC_VERTICES && |vs| == 4
    ensures TextVertexList(GlyphVertexWrite(w, n, vs), n + 4) == TextVertexList(w, n) + vs
  {
    var w' := GlyphVertexWrite(w, n, vs);
    forall m | 0 <= m < n
      ensures TextVertexAt(w', m) == TextVertexAt(w, m)
    {
      GlyphRecordKept(w, n, vs, m);
    }
    forall j | 0 <= j < 4
      ensures TextVertexAt(w', n + j) == vs[j]
    {
      GlyphRecordSet(w, n, vs, j);
    }
    RecordsAppended(w, w', n, vs);
  }

  /** On a valid glyph batch the record upload always fits: the index
      buffer fills first. The index upload fits exactly when fewer than
      170 glyphs have been drawn. */
  lemma GlyphUploadsFit(b: Batch)
    requires TextBatchValid(b)
    ensures b.nVertices <= 4 * MAX_QUADS
    ensures TEXT_VERTEX_BYTES * b.nVertices + WORD_BYTES * 28 <= TEXT_VERTEX_BUFFER_BYTES
    ensures GLUINT_BYTES * b.nIndices + WORD_BYTES * 6 <= TEXT_INDEX_BUFFER_BYTES <==> b.nVertices < 4 * MAX_QUADS
  {
  }

  /** A glyph on a valid batch is accepted exactly when fewer than 170
      glyphs have been drawn; otherwise the index upload fails with
      GL_INVALID_VALUE and the cursors stay. Either way the batch stays
      valid. */
  lemma GlyphStepStatus(b: Batch, vs: seq<TextVertex>)
    requires TextBatchValid(b) && |vs| == 4
    ensures TextBatchValid(GlyphStep(b, vs).after)
    ensures GlyphStep(b, vs).status == Ok <==> b.nVertices < 4 * MAX_QUADS
    ensures GlyphStep(b, vs).status != Ok ==>
      && GlyphStep(b, vs).status == Aborted(GlError(GL_INVALID_VALUE))
      && GlyphStep(b, vs).after.nVertices == b.nVertices == 4 * MAX_QUADS
      && GlyphStep(b, vs).after.nIndices == b.nIndices
      && GlyphStep(b, vs).after.indexWords == b.indexWords
    ensures GlyphStep(b, vs).status == Ok ==>
      && GlyphStep(b, vs).after.nVertices == b.nVertices + 4
      && GlyphStep(b, vs).after.nIndices == b.nIndices + 6
  {
    var n := b.nVertices;
    GlyphUploadsFit(b);
    if n < 4 * MAX_QUADS {
      AppendQuadIndices(b, GlyphVertexWrite(b.vertexWords, n, vs));
    }
  }

  /** What a glyph leaves in the buffers: when accepted, its four records
      and its six indices follow the earlier ones; when refused, its
      records have still been written just past the vertex cursor. */
  lemma GlyphStepContents(b: Batch, vs: seq<TextVertex>)
    requires TextBatchValid(b) && |vs| == 4
    ensures TextBatchValid(GlyphStep(b, vs).after)
    ensures GlyphStep(b, vs).status != Ok ==>
      TextVertexList(GlyphStep(b, vs).after.vertexWords, b.nVertices + 4) == TextVertices(b) + vs
    ensures GlyphStep(b, vs).status == Ok ==>
      && TextVertices(GlyphStep(b, vs).after) == TextVertices(b) + vs
      && Indices(GlyphStep(b, vs).after) == Indices(b) + QuadIndices(b.nVertices)
  {
    var n := b.nVertices;
    GlyphStepStatus(b, vs);
    GlyphUploadsFit(b);
    GlyphRecordsReadBack(b.vertexWords, n, vs);
    if n < 4 * MAX_QUADS {
      AppendQuadIndices(b, GlyphVertexWrite(b.vertexWords, n, vs));
    }
  }

  /** The number of characters of `text[i..len]` that are not spaces. */
  function GlyphCount(text: seq<CChar>, i: nat, len: nat): nat
    requires len <= |text|
    decreases len - i
  {
    if i >= len then 0 else (if text[i] == SPACE then 0 else 1) + GlyphCount(text, i + 1, len)
  }

  /** Every element of `qs` is the four records of one glyph. */
  ghost predicate AllQuads(qs: seq<seq<TextVertex>>)
  {
    forall k :: 0 <= k < |qs| ==> |qs[k]| == 4
  }

  /** The glyphs of the non-space characters of `text[i..len]`, in order,
      each placed by its position in the text. */
  function GlyphList(pos: Float2, size: real, col: Float3, text: seq<CChar>, i: nat, len: nat): (qs: seq<seq<TextVertex>>)
    requires len <= |text|
    ensures AllQuads(qs) && |qs| == GlyphCount(text, i, len)
    decreases len - i
  {
    if i >= len then []
    else if text[i] == SPACE then GlyphList(pos, size, col, text, i + 1, len)
    else [GlyphQuad(pos, size, col, i, text[i])] + GlyphList(pos, size, col, text, i + 1, len)
  }

  /** The records of a list of glyphs, one glyph after the other. */
  function Flatten(qs: seq<seq<TextVertex>>): (vs: seq<TextVertex>)
    requires AllQuads(qs)
    ensures |vs| == 4 * |qs|
    decreases |qs|
  {
    if |qs| == 0 then [] else qs[0] + Flatten(qs[1..])
  }

  /** The loop of draw_text from character `i` on: spaces are skipped,
      every other character uploads its glyph, and the first failed upload
      ends the loop. */
  function DrawTextFrom(b: Batch, pos: Float2, size: real, col: Float3, text: seq<CChar>, len: nat, i: nat): (r: Step)
    requires len <= |text|
    ensures r.status != Ok ==> r.status == Aborted(GlError(GL_INVALID_VALUE))
    ensures r.status == Ok ==>
      && r.after.nVertices == b.nVertices + 4 * GlyphCount(text, i, len)
      && r.after.nIndices == b.nIndices + 6 * GlyphCount(text, i, len)
    decreases len - i
  {
    if i >= len then Step(Ok, b)
    else if text[i] == SPACE then DrawTextFrom(b, pos, size, col, text, len, i + 1)
    else
      var r := GlyphStep(b, GlyphQuad(pos, size, col, i, text[i]));
      if r.status != Ok then r else DrawTextFrom(r.after, pos, size, col, text, len, i + 1)
  }

  /** draw_text(pos, size, col, text): the loop over the `strlen(text)`
      characters of the NUL-terminated `text`. */
  function DrawTextSpec(b: Batch, pos: Float2, size: real, col: Float3, text: seq<CChar>): (r: Step)
    requires NUL in text
    ensures r.status != Ok ==> r.status == Aborted(GlError(GL_INVALID_VALUE))
    ensures r.status == Ok ==>
      && r.after.nVertices == b.nVertices + 4 * GlyphCount(text, 0, StrLen(text))
      && r.after.nIndices == b.nIndices + 6 * GlyphCount(text, 0, StrLen(text))
  {
    DrawTextFrom(b, pos, size, col, text, StrLen(text), 0)
  }

  /** The uploads of a list of glyphs, in order, up to the first that
      fails. */
  function DrawGlyphs(b: Batch, qs: seq<seq<TextVertex>>): Step
    requires AllQuads(qs)
    decreases |qs|
  {
    if |qs| == 0 then Step(Ok, b)
    else
      var r := GlyphStep(b, qs[0]);
      if r.status != Ok then r else DrawGlyphs(r.after, qs[1..])
  }

  /** Skipping the spaces first and then uploading the remaining glyphs is
      the same as the loop that skips them as it goes. */
  lemma {:induction false} DrawTextFromGlyphs(b: Batch, pos: Float2, size: real, col: Float3, text: seq<CChar>, len: nat, i: nat)
    requires len <= |text|
    ensures DrawTextFrom(b, pos, size, col, text, len, i) == DrawGlyphs(b, GlyphList(pos, size, col, text, i, len))
    decreases len - i
  {
    if i < len {
      var rest := GlyphList(pos, size, col, text, i + 1, len);
      if text[i] == SPACE {
        DrawTextFromGlyphs(b, pos, size, col, text, len, i + 1);
      } else {
        var q := GlyphQuad(pos, size, col, i, text[i]);
        var qs := GlyphList(pos, size, col, text, i, len);
        assert qs[0] == q && qs[1..] == rest;
        var r := GlyphStep(b, q);
        if r.status == Ok {
          DrawTextFromGlyphs(r.after, pos, size, col, text, len, i + 1);
        }
      }
    }
  }

  /** Uploading glyphs on a valid batch succeeds exactly when the frame has
      room for all of them; otherwise it ends with GL_INVALID_VALUE with the
      frame full. The batch stays valid either way. */
  lemma {:induction false} DrawGlyphsStatus(b: Batch, qs: seq<seq<TextVertex>>)
    requires TextBatchValid(b) && AllQuads(qs)
    ensures TextBatchValid(DrawGlyphs(b, qs).after)
    ensures DrawGlyphs(b, qs).status == Ok <==> b.nVertices + 4 * |qs| <= 4 * MAX_QUADS
    ensures DrawGlyphs(b, qs).status != Ok ==>
      && DrawGlyphs(b, qs).status == Aborted(GlError(GL_INVALID_VALUE))
      && DrawGlyphs(b, qs).after.nVertices == 4 * MAX_QUADS
    decreases |qs|
  {
    if |qs| > 0 {
      GlyphStepStatus(b, qs[0]);
      var r := GlyphStep(b, qs[0]);
      if r.status == Ok {
        DrawGlyphsStatus(r.after, qs[1..]);
      }
    }
  }

  /** Uploading glyphs successfully appends their records and one index
      group per glyph, each referring to that glyph's four records, and
      moves the cursors by four and six per glyph. */
  lemma {:induction false} DrawGlyphsAppends(b: Batch, qs: seq<seq<TextVertex>>)
    requires TextBatchValid(b) && AllQuads(qs)
    requires DrawGlyphs(b, qs).status == Ok
    ensures TextBatchValid(DrawGlyphs(b, qs).after)
    ensures var after := DrawGlyphs(b, qs).after;
      && after.nVertices == b.nVertices + 4 * |qs|
      && after.nIndices == b.nIndices + 6 * |qs|
      && TextVertices(after) == TextVertices(b) + Flatten(qs)
      && Indices(after) == Indices(b) + QuadIndexRun(b.nVertices, |qs|)
    decreases |qs|
  {
    if |qs| > 0 {
      GlyphStepStatus(b, qs[0]);
      GlyphStepContents(b, qs[0]);
      var r := GlyphStep(b, qs[0]);
      var rest := DrawGlyphs(r.after, qs[1..]);
      DrawGlyphsAppends(r.after, qs[1..]);
      AppendRegroup(TextVertices(rest.after), TextVertices(b), qs[0], Flatten(qs[1..]), Flatten(qs));
      var tail := QuadIndexRun(r.after.nVertices, |qs[1..]|);
      assert QuadIndexRun(b.nVertices, |qs|) == QuadIndices(b.nVertices) + tail;
      AppendRegroup(Indices(rest.after), Indices(b), QuadIndices(b.nVertices), tail, QuadIndexRun(b.nVertices, |qs|));
    }
  }

  /** The loop on a valid batch succeeds exactly when the frame has room for
      all the remaining glyphs; otherwise it ends with GL_INVALID_VALUE with
      the frame full. The batch stays valid either way. */
  lemma DrawTextStatus(b: Batch, pos: Float2, size: real, col: Float3, text: seq<CChar>, len: nat, i: nat)
    requires TextBatchValid(b) && len <= |text|
    ensures TextBatchValid(DrawTextFrom(b, pos, size, col, text, len, i).after)
    ensures DrawTextFrom(b, pos, size, col, text, len, i).status == Ok
        <==> b.nVertices + 4 * GlyphCount(text, i, len) <= 4 * MAX_QUADS
    ensures DrawTextFrom(b, pos, size, col, text, len, i).status != Ok ==>
      && DrawTextFrom(b, pos, size, col, text, len, i).status == Aborted(GlError(GL_INVALID_VALUE))
      && DrawTextFrom(b, pos, size, col, text, len, i).after.nVertices == 4 * MAX_QUADS
  {
    DrawTextFromGlyphs(b, pos, size, col, text, len, i);
    DrawGlyphsStatus(b, GlyphList(pos, size, col, text, i, len));
  }

  /** A successful loop appends the records of the text's glyphs and one
      index group per glyph, and moves the cursors by four and six per
      glyph. */
  lemma DrawTextAppends(b: Batch, pos: Float2, size: real, col: Float3, text: seq<CChar>, len: nat, i: nat)
    requires TextBatchValid(b) && len <= |text|
    requires DrawTextFrom(b, pos, size, col, text, len, i).status == Ok
    ensures TextBatchValid(DrawTextFrom(b, pos, size, col, text, len, i).after)
    ensures var after := DrawTextFrom(b, pos, size, col, text, len, i).after;
      && after.nVertices == b.nVertices + 4 * GlyphCount(text, i, len)
      && after.nIndices == b.nIndices + 6 * GlyphCount(text, i, len)
      && TextVertices(after) == TextVertices(b) + Flatten(GlyphList(pos, size, col, text, i, len))
      && Indices(after) == Indices(b) + QuadIndexRun(b.nVertices, GlyphCount(text, i, len))
  {
    DrawTextFromGlyphs(b, pos, size, col, text, len, i);
    DrawGlyphsAppends(b, GlyphList(pos, size, col, text, i, len));
  }

  /** The glyph of a non-space character at text position `j` comes right
      after the glyphs of the non-space characters before it, and is placed
      by `j` itself: a space emits nothing but still moves the next glyph one
      cell to the right. */
  lemma {:induction false} GlyphListPlacement(pos: Float2, size: real, col: Float3, text: seq<CChar>, i: nat, len: nat, j: nat)
    requires len <= |text| && i <= j < len && text[j] != SPACE
    ensures GlyphCount(text, i, j) < GlyphCount(text, i, len)
    ensures GlyphList(pos, size, col, text, i, len)[GlyphCount(text, i, j)] == GlyphQuad(pos, size, col, j, text[j])
    decreases j - i
  {
    var rest := GlyphList(pos, size, col, text, i + 1, len);
    if text[i] != SPACE {
      assert GlyphList(pos, size, col, text, i, len) == [GlyphQuad(pos, size, col, i, text[i])] + rest;
    }
    if i < j {
      GlyphListPlacement(pos, size, col, text, i + 1, len, j);
    }
  }

  /** Glyph `k` of a list occupies records `4 * k` to `4 * k + 3` of the
      flattened list. */
  lemma {:induction false} FlattenPlacement(qs: seq<seq<TextVertex>>, k: nat)
    requires AllQuads(qs) && k < |qs|
    ensures Flatten(qs)[4 * k .. 4 * k + 4] == qs[k]
    decreases k
  {
    if k == 0 {
      PrefixIsHead(qs[0], Flatten(qs[1..]));
    } else {
      FlattenPlacement(qs[1..], k - 1);
      SliceAfterHead(qs[0], Flatten(qs[1..]), 4 * (k - 1), 4);
    }
  }

  /** Where each glyph's records land: those of the character at text
      position `j` start at record `4 * GlyphCount(text, i, j)` of the
      records the loop appends. */
  lemma GlyphPlacement(pos: Float2, size: real, col: Float3, text: seq<CChar>, i: nat, len: nat, j: nat)
    requires len <= |text| && i <= j < len && text[j] != SPACE
    ensures 4 * GlyphCount(text, i, j) + 4 <= 4 * GlyphCount(text, i, len)
    ensures Flatten(GlyphList(pos, size, col, text, i, len))[4 * GlyphCount(text, i, j) .. 4 * GlyphCount(text, i, j) + 4]
         == GlyphQuad(pos, size, col, j, text[j])
  {
    GlyphListPlacement(pos, size, col, text, i, len, j);
    FlattenPlacement(GlyphList(pos, size, col, text, i, len), GlyphCount(text, i, j));
  }
}
