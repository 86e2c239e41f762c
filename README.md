# Batched 2D geometry and GL error drain, in Dafny

This project models the core of a small immediate-mode 2D renderer written
in C on OpenGL. The model covers three parts.

- **Batches.** There are two geometry batches. `g_render_triangles` holds
  flat-coloured quads in a planar vertex buffer: all positions come first,
  then all colours. `g_render_text` holds one textured quad per glyph in an
  interleaved buffer of 28-byte records. Both batches share the six-index
  quad pattern `n, n+1, n+2, n+2, n+3, n`.
- **Drawing calls.** The model has `clear_screen`, `draw_quad` (with its
  two overflow checks), `draw_rect` and `draw_text` (with the glyph atlas
  mapping of a character to a cell of a 16 x 8 grid).
- **GL errors.** The model has the code-to-text table `gl_error_string`,
  the bounded drain `raise_gl_error` and the check that `GL_CALL` makes
  after each GL call.

How the model is built:

- A GPU buffer is a sequence of 4-byte words: a `float` becomes a `real`
  and a `GLuint` becomes a `nat`. `glBufferSubData` (`BufferSubData`,
  `SubData`) overwrites a word range. It reports `GL_INVALID_VALUE` and
  writes nothing when the byte range runs past the end of the buffer.
- With GL error checks on (`NO_GL_ERROR_CHECK` undefined, the build
  modelled here), `GL_CALL` turns any such error into the end of the
  process, as does a failed overflow check. Both are modelled as an
  `Aborted` status that leaves the batch as it is at that point.
- The renderer's globals are the class `Render2D.Renderer`. Its two
  `RenderStep` objects hold the cursors and the buffer arrays. Each method
  is proved equal to a specification function on the batch value
  (`DrawQuadSpec`, `DrawRectSpec`, `DrawTextSpec`). The properties of the
  program's behaviour are proved about those functions.
- `glGetError` is a queue of pending codes. The printed diagnostics are a
  list of `Report` values, and `abort()` is a boolean result.

What the proofs establish:

- Both batches keep the lockstep invariant: four vertices and six indices
  per quad, and every index refers to a vertex already written.
- With the allocated buffers, the index buffer is the binding limit: 170
  quads or glyphs per frame. The vertex check of `draw_quad` never fires.
- `draw_text` has no capacity check (the TODO at render2d.c:489). The
  171st glyph of a frame therefore fails inside GL: its index upload runs
  past the index buffer, `GL_CALL` catches `GL_INVALID_VALUE`, and, with
  GL error checks on, the process ends. By then the records of that glyph
  have already been written past the vertex cursor. `TextBatch.DrawTextStatus` and
  `TextBatch.GlyphStepContents` state this outcome.

## Model

| member | source | states |
|---|---|---|
| GlUtils.GlErrorString | gl_utils.c:7-20 | "No error" exactly for GL_NO_ERROR; "Unknown error" exactly for codes that are neither GL_NO_ERROR nor one of the six named errors |
| GlUtils.GlErrorStringDistinguishes | gl_utils.c:11-17 | the seven known codes get seven different texts |
| GlUtils.GetError | gl_utils.c:38 | glGetError on the queue of pending codes: GL_NO_ERROR on an empty queue, otherwise the oldest code, with the queue that remains behind it |
| GlUtils.Drained | gl_utils.c:24-40 | the codes the loop reports: never more than the budget, never GL_NO_ERROR, and at least one exactly when the incoming code is an error |
| GlUtils.DrainedIsPrefixUpToFirstNoError | gl_utils.c:24-40 | reference description of the drain: the incoming code followed by the queue, cut at the first GL_NO_ERROR or after the budget, whichever comes first |
| GlUtils.ReportsOf | gl_utils.c:29-36 | one diagnostic per reported code, in order, each carrying the code, its text from the table, and the call site (file, line and the GL call, absent for a caught error), which selects the "raised Error" or the "Caught Error" line |
| GlUtils.DrainAdvance | gl_utils.c:27-40 | one turn of the loop (report, glGetError, count) keeps the loop invariant: the reports so far plus the drain still to come equal the whole drain, and the queue has lost one code per report |
| GlUtils.DrainFinished | gl_utils.c:27-47 | when the loop stops, the whole drain has been reported, and something was reported exactly when the incoming code was an error |
| GlUtils.RaiseGlError | gl_utils.c:22-51 | the reports are those of the drain, at most 10; the queue left behind has lost one code per report; the "too many errors" warning is printed exactly when 10 were reported; the process aborts exactly when the incoming code is not GL_NO_ERROR |
| GlUtils.CheckGlCall | gl_utils.h:10-16 | GL_CALL aborts exactly when glGetError returns an error, and then reports that code and the codes queued behind it, consumes one queued code per further report, and prints the "Stopped after" warning exactly when it made 10 reports; otherwise it reports nothing, warns of nothing and consumes one code |
| GlBuffer.Overwrite | render2d.c:447 | the upload leaves the buffer length unchanged |
| GlBuffer.OverwriteReads | render2d.c:447 | after an upload, the words in the uploaded range are the data and every other word is as before |
| GlBuffer.BufferSubData | render2d.c:447-468 | the upload succeeds exactly when the byte range ends within the buffer's size; when it does not, GL_INVALID_VALUE and no change; when it does, the range is overwritten |
| GlBuffer.SubData | render2d.c:447-468 | the in-place upload on the buffer array yields the error and contents that BufferSubData describes |
| GlBuffer.BufferSize | render2d.c:416-425 | the GL_BUFFER_SIZE query: the buffer's size in bytes, a whole number of 4-byte words, one per element |
| Batches.QuadIndices | render2d.c:460-464 | six indices, all within the quad's four vertices, with the two triangles sharing the diagonal (entries 2 and 3 agree, entries 5 and 0 agree) |
| Batches.QuadIndicesCover | render2d.c:460-464 | every one of the quad's four vertices is used, and the triangles are (n, n+1, n+2) and (n+2, n+3, n) |
| Batches.Cleared | render2d.c:384-389 | clear_screen on one batch: both cursors zero, both buffers as they were |
| Batches.ClearedProperties | render2d.c:384-389 | clear_screen sets both cursors of a batch to zero, keeps the buffers, restores the lockstep invariant with no indices, and clearing twice is the same as clearing once |
| Batches.QuadIndexRun | render2d.c:460-471 | g quads give 6g indices |
| Batches.QuadIndexRunBounds | render2d.c:460-471 | the indices of g quads from vertex n all lie between n and n+4g, that is, they refer to those quads' vertices |
| Batches.AppendQuadIndices | render2d.c:460-471 | writing a quad's indices at the index cursor and moving the cursors by 4 and 6 keeps the lockstep invariant and appends exactly that quad's indices |
| GlyphAtlas.ToCChar | render2d.c:504 | conversion to a signed 8-bit char agrees with the value modulo 256 and is the identity within the char range |
| GlyphAtlas.CDivRem | render2d.c:505 | C's truncating / and % satisfy d*q + r = a, \|r\| < d, the signs of C, and agree with Euclidean division on non-negative operands |
| GlyphAtlas.GlyphIndex | render2d.c:504 | `c -= TOP_LEFT` on a char: code - 32, wrapped by 256 back into the char range when it falls below -128 |
| GlyphAtlas.GlyphCell | render2d.c:505 | the cell (idx % 16, idx / 16) with C's truncating operators: 16*row + col is the index; for a non-negative index the cell lies in the 16 x 8 grid, for a negative one both coordinates are at most zero |
| GlyphAtlas.GlyphOrigin | render2d.c:505-506 | the texture origin is the cell divided by (16, 8), and lies in [0, 1) x [0, 1) for a non-negative index |
| GlyphAtlas.CellCharOfGlyphCell | render2d.c:504-505 | the cell (idx % 16, idx / 16) recovers the index as 16*row + col, and the cell gives back the character |
| GlyphAtlas.GlyphCellInjective | render2d.c:504-505 | different characters get different atlas cells |
| GlyphAtlas.GlyphUVs | render2d.c:504-513 | the glyph's texture quad starts at cell / (16, 8), is 1/32 wide and 1/8 high, with corners top left, top right, bottom right, bottom left |
| GlyphAtlas.GlyphInAtlas | render2d.c:504-513 | the glyph's texture quad lies inside the unit square exactly when its atlas index is not negative |
| GlyphAtlas.PrintableGlyph | render2d.c:481-513 | for '!'..'~' the index is code - 32, the cell is its Euclidean quotient and remainder by 16, the row is at most 5, and the quad lies inside the atlas |
| GlyphAtlas.GlyphPositions | render2d.c:497-502 | the glyph at text position i is a square of side size whose bottom-left corner is pos moved i*size to the right |
| GlyphAtlas.StrLen | render2d.c:487 | strlen is the position of the first NUL |
| ShapeBatch.PositionWord | render2d.c:447 | vertex n's position is uploaded at byte offset 8n |
| ShapeBatch.ShapeVertexLayout | render2d.c:230-254 | `ShapeVertexAt` reads vertex m as the shape shader reads it: the position at byte offset 0 + 8m (stride sizeof(float2)), the colour at byte offset 8*1024 + 12m (stride sizeof(float3)) |
| ShapeBatch.QuadPositionWords | render2d.c:444-447 | the `vertices[4]` array is 32 bytes |
| ShapeBatch.QuadColorWords | render2d.c:449-451 | the `colors[4]` array is 48 bytes |
| ShapeBatch.QuadArraysLayout | render2d.c:444-451 | in the `vertices[4]` array corner k lies at words 2k and 2k+1, in the order a, b, c, d; in the `colors[4]` array col lies at words 3k..3k+2 for each of the four corners |
| ShapeBatch.ColorWord | render2d.c:456 | vertex n's colour is uploaded at byte offset 8*1024 + 12n |
| ShapeBatch.QuadCheck | render2d.c:414-429 | the two checks of draw_quad: pass exactly when 4 more vertices fit in bytes/20 and 6 more indices in bytes/4; the vertex overflow is reported first, the index overflow only when the vertices fit |
| ShapeBatch.QuadUploadRanges | render2d.c:444-458 | for an accepted quad the 32 position bytes lie in [0, 8192) and the 48 colour bytes in [8192, 20480), so the regions never overlap and both fit in the buffer |
| ShapeBatch.QuadCheckAllocated | render2d.c:414-429 | with the allocated sizes the checks pass exactly when 4 more vertices and 6 more indices fit in 1024 each, and the vertex check is the one that fires when vertices overflow |
| ShapeBatch.DrawQuadAccepted | render2d.c:403-472 | on a valid batch whose checks pass, all three uploads succeed and draw_quad ends with the corners and colours written at the vertex cursor, the indices at the index cursor, and the cursors moved by 4 and 6 |
| ShapeBatch.DrawQuadRejected | render2d.c:414-429 | a call the checks refuse reports the failing check and changes nothing |
| ShapeBatch.DrawQuadAppends | render2d.c:403-472 | draw_quad on a valid shape batch keeps it valid; its status is the checks' verdict; a rejected call changes nothing; an accepted one moves the cursors by 4 and 6 and appends the four corners, each with the quad's colour, and the indices n..n+3 in the quad pattern |
| ShapeBatch.QuadVertexWrite | render2d.c:444-458 | the two vertex uploads keep the buffer's allocated size |
| ShapeBatch.QuadAppended | render2d.c:444-471 | the state after an accepted quad is valid and reads back as the old vertices and indices followed by the quad's |
| ShapeBatch.DrawQuadSpec | render2d.c:403-472 | draw_quad: a failed check returns its verdict with the batch untouched; success moves the cursors by 4 and 6; any failure leaves the cursors and the index buffer as they were |
| ShapeBatch.QuadUploads | render2d.c:444-471 | the three uploads of draw_quad succeed exactly when the position, colour and index ranges end within their buffers; a failure is GL_INVALID_VALUE with the cursors and index buffer untouched; success moves the cursors by 4 and 6 |
| ShapeBatch.QuadVerticesReadBack | render2d.c:444-458 | after the planar uploads, the vertices below the cursor read back unchanged and the next four read back as the corners, each with the quad's colour |
| ShapeBatch.RectCorners | render2d.c:394-401 | draw_rect's corners: the first is top_left; the rectangle is size.x wide and extends size.y downwards; corners are listed clockwise from top left |
| ShapeBatch.DrawRectSpec | render2d.c:394-401 | draw_rect is draw_quad on (tl), (tl.x+size.x, tl.y), (tl.x+size.x, tl.y-size.y), (tl.x, tl.y-size.y) with the same colour |
| ShapeBatch.ShapeCapacity | render2d.c:414-429 | on a valid batch the checks pass exactly when fewer than 170 quads have been drawn, and the vertex check never fails |
| ShapeBatch.QuadAfterFullFrame | render2d.c:418-429 | after 170 quads (1020 indices) the vertex check would pass, the index check fails (1020 + 6 > 1024), and draw_quad aborts with an index overflow |
| ShapeBatch.DrawQuadsStatus | render2d.c:403-472 | a run of draw_quad calls succeeds exactly when the frame has room for all of them; otherwise it stops with an index overflow and the frame full; the batch stays valid |
| ShapeBatch.DrawQuadsAppend | render2d.c:403-472 | a successful run appends each quad's four vertices and its index group, in order, and moves the cursors by 4 and 6 per quad |
| ShapeBatch.FirstQuadOfFrame | render2d.c:384-472 | the first quad after clear_screen occupies vertices 0..3 with indices 0, 1, 2, 2, 3, 0 |
| ShapeBatch.ClearThenTwoRects | main.c:8-10 | after clear_screen and two draw_rect calls the cursors are 8 and 12, the indices are 0,1,2,2,3,0,4,5,6,6,7,4, and the vertices are the two rectangles' corners |
| TextBatch.TextVertexWords | render2d.c:23-27 | a text_vertex is seven floats |
| TextBatch.GlyphWords | render2d.c:515-520 | a glyph's four records are 28 words (112 bytes) |
| TextBatch.RecordWord | render2d.c:522 | record m is uploaded at byte offset 28m |
| TextBatch.TextVertexLayout | render2d.c:314-327 | `TextVertexAt` reads record m as the text shader reads it: stride sizeof(text_vertex) = 28, the position at byte offset 0, the texture coordinate at 2*sizeof(float) and the colour at 4*sizeof(float) |
| TextBatch.GlyphQuad | render2d.c:497-520 | corner k of the glyph carries screen corner k, texture corner k and the text colour |
| TextBatch.GlyphVertexWrite | render2d.c:522-523 | the record upload keeps the buffer's allocated size |
| TextBatch.GlyphRecordsReadBack | render2d.c:522-523 | after a glyph's upload, the records below the cursor read back unchanged and the next four read back as the glyph's corners |
| TextBatch.GlyphStep | render2d.c:522-533 | one glyph's uploads succeed exactly when its 112 record bytes at 28n and its 24 index bytes fit their buffers; a failure is GL_INVALID_VALUE with the cursors and index buffer untouched; success moves the cursors by 4 and 6 |
| TextBatch.GlyphUploadsFit | render2d.c:522-530 | on a valid glyph batch the record upload always fits, and the index upload fits exactly when fewer than 170 glyphs have been drawn |
| TextBatch.GlyphStepStatus | render2d.c:522-533 | one glyph keeps the batch valid; it is accepted exactly when fewer than 170 glyphs have been drawn; otherwise GL_INVALID_VALUE with the cursors and indices unchanged; accepted, the cursors move by 4 and 6 |
| TextBatch.GlyphStepContents | render2d.c:522-533 | an accepted glyph appends its four records and its six indices; a refused one has still written its records just past the vertex cursor |
| TextBatch.GlyphList | render2d.c:491-520 | one glyph per non-space character of the text, in order |
| TextBatch.DrawTextFromGlyphs | render2d.c:491-496 | the loop that skips spaces as it goes does the same as uploading the list of non-space glyphs |
| TextBatch.DrawTextFrom | render2d.c:491-534 | the loop from character i: any failure is GL_INVALID_VALUE; success moves the cursors by 4 and 6 per non-space character still to come |
| TextBatch.DrawTextSpec | render2d.c:479-535 | draw_text over the strlen(text) characters: any failure is GL_INVALID_VALUE; success moves the cursors by 4 and 6 per non-space character |
| TextBatch.DrawGlyphsStatus | render2d.c:522-533 | uploading glyphs succeeds exactly when the frame has room for all of them; otherwise GL_INVALID_VALUE with the frame full; the batch stays valid |
| TextBatch.DrawGlyphsAppends | render2d.c:522-533 | successful glyph uploads append the glyphs' records in order and one six-index group per glyph referring to that glyph's records, and move the cursors by 4 and 6 per glyph |
| TextBatch.DrawTextStatus | render2d.c:479-535 | draw_text on a valid batch succeeds exactly when the frame has room for all non-space characters; otherwise it ends with GL_INVALID_VALUE with the frame full; the batch stays valid |
| TextBatch.DrawTextAppends | render2d.c:479-535 | a successful draw_text adds 4 vertices and 6 indices per non-space character, appends the glyphs' records in text order, and appends the quad index pattern once per non-space character |
| TextBatch.GlyphListPlacement | render2d.c:491-502 | the glyph of the character at position j follows the glyphs of the non-space characters before it, and is placed by j itself, so a space emits nothing but still advances the x position |
| TextBatch.GlyphPlacement | render2d.c:491-520 | the records of the character at position j are records 4c..4c+3 of those draw_text appends, where c counts the non-space characters before j |
| Render2D.RenderStep.constructor | render2d.c:29-47 | a batch starts with both cursors at zero and freshly allocated buffers of the requested sizes |
| Render2D.RenderStep.UploadQuad | render2d.c:444-471 | the position, colour and index uploads of draw_quad, done in place, do what QuadUploads describes |
| Render2D.RenderStep.UploadGlyph | render2d.c:522-533 | one glyph's record and index uploads, done in place, do what GlyphStep describes |
| Render2D.Renderer.constructor | render2d.c:162-277 | make_window allocates 20*1024 and 28*1024 vertex bytes and 1024-entry index buffers, with separate storage for the two batches, both empty and valid |
| Render2D.Renderer.ClearScreen | render2d.c:384-392 | both batches' cursors go to zero, the buffers stay as they are, and the renderer stays valid |
| Render2D.Renderer.DrawQuad | render2d.c:403-472 | the in-place draw_quad ends in the status and shape batch that DrawQuadSpec describes, leaves the glyph batch unchanged, and keeps the renderer valid |
| Render2D.Renderer.DrawRect | render2d.c:394-401 | draw_rect is draw_quad on RectCorners, with the same guarantees |
| Render2D.Renderer.DrawCharacter | render2d.c:491-534 | one pass of draw_text's loop: on success the rest of the loop is left to do, on failure the call ends with the loop's outcome |
| Render2D.Renderer.DrawText | render2d.c:479-535 | the in-place draw_text loop ends in the status and glyph batch that DrawTextSpec describes, leaves the shape batch unchanged, and keeps the renderer valid |

## Left out

- Window, context, shader, vertex-array and texture setup (`make_window` beyond its buffer sizes, `load_font`, `teardown_window`) is out: it is SDL, GLEW and SDL_image calls.
- `main_loop` is out: it is event polling, timing and frame pacing.
- `do_render` is out: it binds and issues the draw calls, drawing `n_indices` indices of each batch. No state of the model changes there.
- `gl_compile_shader` is out: it is a foreign shader compile and link pipeline.
- `draw_textf_i` is out: it formats text with `vsnprintf` before calling `draw_text`.
- Floating point: coordinates, texture coordinates and colours are exact reals. Rounding of `float` arithmetic is not modelled.
- GL calls other than the buffer uploads are assumed to succeed. These are the bind calls, the `GL_BUFFER_SIZE` queries (which return the allocated size) and `glClearColor`/`glClear` in `clear_screen`. Object handles are not modelled.
- Render2D.Renderer.DrawQuad, Render2D.Renderer.DrawText: when an upload fails they report `Aborted(GlError(code))`. They do not thread the diagnostics that `raise_gl_error` prints; `GlUtils.CheckGlCall` models those on their own.
- `u32` cursors are unbounded naturals. Wrap-around cannot occur, because the lockstep invariant bounds both cursors by 1024.
- `draw_triangle` is declared in render2d.h:17 but never defined, so it has no model.
- `draw_text` follows the parameter order of its definition, `(pos, size, col, text)`. The header declares `(pos, size, text, col)`.
- `draw_text` makes no capacity check (the TODO at render2d.c:489). The model adds none: an overlong text ends with the GL_INVALID_VALUE of the 171st glyph's index upload.
- `draw_quad`'s index check binds first (170 quads); on a valid batch its vertex check never fires.
- The model is of the build with GL error checks on (`NO_GL_ERROR_CHECK` undefined, gl_utils.h:9-16). With it defined, `GL_CALL` is the bare call (gl_utils.h:17-18): a failed `glBufferSubData` writes nothing and nothing aborts, so an overlong `draw_text` runs on with its cursors past the buffers.
- GlyphAtlas.ToCChar: assumes a target whose `char` is signed, 8-bit and two's complement, and whose narrowing conversion wraps modulo 256, as on x86. Both are implementation-defined in C. Where `char` is unsigned (ARM Linux), `c -= TOP_LEFT` gives other cells for codes below 32 and for bytes 0xA0–0xFF ('\n' gives index 234, not -22), so `GlyphIndex`, `GlyphCell` and `GlyphInAtlas` describe the signed case only.
