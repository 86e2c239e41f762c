/** The renderer's state and the drawing calls as the program performs them:
    two batches whose cursors are bumped in place and whose GPU buffers are
    overwritten range by range. Each method is proved to do what the batch
    specifications in ShapeBatch and TextBatch say, so the properties proved
    there (capacity, contents, the cursor invariant) hold of the program's
    state. */
module Render2D {
  import opened LinAlg
  import opened GlUtils
  import opened GlBuffer
  import opened Batches
  import opened ShapeBatch
  import opened TextBatch
  import opened GlyphAtlas

  /** One batch (render_step / text_render_step): its two cursors and the
      storage of its vertex and index buffer objects. */
  class RenderStep {
    const vertexBuffer: array<real>
    const indexBuffer: array<nat>
    var nVertices: nat
    var nIndices: nat

    /** The batch as a value. */
    ghost function Model(): Batch
      reads this, vertexBuffer, indexBuffer
    {
      Batch(nVertices, nIndices, vertexBuffer[..], indexBuffer[..])
    }

    /** Buffers allocated with glBufferData (contents undefined, here zero)
        and cursors at zero, as for the zero-initialised globals. */
    constructor(vertexBytes: nat, indexBytes: nat)
      ensures BufferSize(vertexBuffer[..]) == WORD_BYTES * (vertexBytes / WORD_BYTES)
      ensures BufferSize(indexBuffer[..]) == WORD_BYTES * (indexBytes / WORD_BYTES)
      ensures nVertices == 0 && nIndices == 0
      ensures fresh(vertexBuffer) && fresh(indexBuffer)
    {
      vertexBuffer := new real[vertexBytes / WORD_BYTES](_ => 0.0);
      indexBuffer := new nat[indexBytes / WORD_BYTES](_ => 0);
      nVertices := 0;
      nIndices := 0;
    }

    /** The uploads of draw_quad after its checks: positions, colours and
        indices, then the cursor updates. */
    method UploadQuad(a: Float2, b: Float2, c: Float2, d: Float2, col: Float3) returns (status: Status)
      modifies this, vertexBuffer, indexBuffer
      ensures Step(status, Model()) == QuadUploads(old(Model()), a, b, c, d, col)
    {
      var n := nVertices;
      var err := SubData(vertexBuffer, PositionWord(n), QuadPositionWords(a, b, c, d));
      if err != GL_NO_ERROR {
        return Aborted(GlError(err));
      }
      err := SubData(vertexBuffer, ColorWord(n), QuadColorWords(col));
      if err != GL_NO_ERROR {
        return Aborted(GlError(err));
      }
      err := SubData(indexBuffer, nIndices, QuadIndices(n));
      if err != GL_NO_ERROR {
        return Aborted(GlError(err));
      }
      nVertices := n + 4;
      nIndices := nIndices + 6;
      status := Ok;
    }

    /** The body of draw_text's loop for one glyph: upload its four records
        at the vertex cursor and its six indices at the index cursor, and
        bump the cursors when both uploads succeed. */
    method UploadGlyph(vs: seq<TextVertex>) returns (status: Status)
      requires |vs| == 4
      modifies this, vertexBuffer, indexBuffer
      ensures Step(status, Model()) == GlyphStep(old(Model()), vs)
    {
      var n := nVertices;
      var err := SubData(vertexBuffer, RecordWord(n), GlyphWords(vs));
      if err != GL_NO_ERROR {
        return Aborted(GlError(err));
      }
      err := SubData(indexBuffer, nIndices, QuadIndices(n));
      if err != GL_NO_ERROR {
        return Aborted(GlError(err));
      }
      nVertices := n + 4;
      nIndices := nIndices + 6;
      status := Ok;
    }
  }

  /** The renderer's globals g_render_triangles and g_render_text. */
  class Renderer {
    const renderTriangles: RenderStep
    const renderText: RenderStep

    /** The two batches do not share storage, and each keeps its batch's
        invariant. */
    ghost predicate Valid()
      reads this, renderTriangles, renderText
      reads renderTriangles.vertexBuffer, renderTriangles.indexBuffer
      reads renderText.vertexBuffer, renderText.indexBuffer
    {
      && renderTriangles != renderText
      && renderTriangles.vertexBuffer != renderText.vertexBuffer
      && renderTriangles.indexBuffer != renderText.indexBuffer
      && ShapeBatchValid(renderTriangles.Model())
      && TextBatchValid(renderText.Model())
    }

    /** The buffer allocation of make_window: a planar 20-byte-per-vertex
        buffer and a 1024-entry index buffer for shapes, a 28-byte-per-record
        buffer and a 1024-entry index buffer for text. */
    constructor()
      ensures Valid()
      ensures fresh(renderTriangles) && fresh(renderText)
      ensures renderTriangles.nVertices == 0 && renderText.nVertices == 0
      ensures BufferSize(renderTriangles.Model().vertexWords) == SHAPE_VERTEX_BUFFER_BYTES
      ensures BufferSize(renderText.Model().vertexWords) == TEXT_VERTEX_BUFFER_BYTES
    {
      renderTriangles := new RenderStep(SHAPE_VERTEX_BUFFER_BYTES, SHAPE_INDEX_BUFFER_BYTES);
      renderText := new RenderStep(TEXT_VERTEX_BUFFER_BYTES, TEXT_INDEX_BUFFER_BYTES);
    }

    /** clear_screen: both batches start over; the buffers keep their
        contents. */
    method ClearScreen(col: Float3)
      requires Valid()
      modifies renderTriangles, renderText
      ensures Valid()
      ensures renderTriangles.Model() == Cleared(old(renderTriangles.Model()))
      ensures renderText.Model() == Cleared(old(renderText.Model()))
    {
      ClearedProperties(renderTriangles.Model());
      ClearedProperties(renderText.Model());
      renderTriangles.nIndices := 0;
      renderTriangles.nVertices := 0;
      renderText.nIndices := 0;
      renderText.nVertices := 0;
    }

    /** draw_quad: query the buffer sizes and check both capacities, upload
        the positions, the colours and the indices, then bump the cursors.
        A failed check or a GL error ends the call with the reason. */
    method DrawQuad(a: Float2, b: Float2, c: Float2, d: Float2, col: Float3) returns (status: Status)
      requires Valid()
      modifies renderTriangles, renderTriangles.vertexBuffer, renderTriangles.indexBuffer
      ensures Valid()
      ensures Step(status, renderTriangles.Model()) == DrawQuadSpec(old(renderTriangles.Model()), a, b, c, d, col)
      ensures renderText.Model() == old(renderText.Model())
    {
      var step := renderTriangles;
      ghost var before := step.Model();
      DrawQuadAppends(before, a, b, c, d, col);
      var vertexBufferBytes := WORD_BYTES * step.vertexBuffer.Length;
      var indexBufferBytes := WORD_BYTES * step.indexBuffer.Length;
      if step.nVertices + 4 > vertexBufferBytes / QUAD_CHECK_VERTEX_BYTES {
        return Aborted(VertexBufferOverflow);
      }
      if step.nIndices + 6 > indexBufferBytes / GLUINT_BYTES {
        return Aborted(IndexBufferOverflow);
      }
      status := step.UploadQuad(a, b, c, d, col);
    }

    /** draw_rect: draw_quad on the rectangle's corners. */
    method DrawRect(topLeft: Float2, size: Float2, col: Float3) returns (status: Status)
      requires Valid()
      modifies renderTriangles, renderTriangles.vertexBuffer, renderTriangles.indexBuffer
      ensures Valid()
      ensures Step(status, renderTriangles.Model()) == DrawRectSpec(old(renderTriangles.Model()), topLeft, size, col)
      ensures renderText.Model() == old(renderText.Model())
    {
      var q := RectCorners(topLeft, size, col);
      status := DrawQuad(q.a, q.b, q.c, q.d, q.col);
    }

    /** One pass of draw_text's loop, at character `i`: a space is skipped,
        any other character has its glyph uploaded. On success the rest of
        the loop is left to do; on failure the call ends here. */
    method DrawCharacter(pos: Float2, size: real, col: Float3, text: seq<CChar>, len: nat, i: nat)
      returns (status: Status)
      requires Valid() && i < len <= |text|
      modifies renderText, renderText.vertexBuffer, renderText.indexBuffer
      ensures Valid()
      ensures status == Ok ==>
        DrawTextFrom(renderText.Model(), pos, size, col, text, len, i + 1)
        == DrawTextFrom(old(renderText.Model()), pos, size, col, text, len, i)
      ensures status != Ok ==>
        Step(status, renderText.Model()) == DrawTextFrom(old(renderText.Model()), pos, size, col, text, len, i)
      ensures renderTriangles.Model() == old(renderTriangles.Model())
    {
      var c := text[i];
      if c == SPACE {
        return Ok;
      }
      var vs := GlyphQuad(pos, size, col, i, c);
      GlyphStepStatus(renderText.Model(), vs);
      status := renderText.UploadGlyph(vs);
    }

    /** draw_text(pos, size, col, text): for each of the strlen(text)
        characters, skip a space, otherwise upload the glyph's four records
        and six indices and bump the cursors. There is no capacity check: a
        GL error from an upload ends the call. */
    method DrawText(pos: Float2, size: real, col: Float3, text: seq<CChar>) returns (status: Status)
      requires Valid() && NUL in text
      modifies renderText, renderText.vertexBuffer, renderText.indexBuffer
      ensures Valid()
      ensures Step(status, renderText.Model()) == DrawTextSpec(old(renderText.Model()), pos, size, col, text)
      ensures renderTriangles.Model() == old(renderTriangles.Model())
    {
      var len := StrLen(text);
      var i := 0;
      while i < len
        invariant i <= len
        invariant Valid()
        invariant DrawTextFrom(renderText.Model(), pos, size, col, text, len, i)
               == DrawTextSpec(old(renderText.Model()), pos, size, col, text)
        invariant renderTriangles.Model() == old(renderTriangles.Model())
      {
        status := DrawCharacter(pos, size, col, text, len, i);
        if status != Ok {
          return;
        }
        i := i + 1;
      }
      status := Ok;
    }
  }
}
