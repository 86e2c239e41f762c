/** Sub-range uploads into a pre-allocated GL buffer object
    (glBufferSubData and glNamedBufferSubData).

    A buffer is modelled as a sequence of 4-byte words: every element the
    renderer stores is a 4-byte float or a 4-byte GLuint. Offsets and sizes
    are in bytes, as the GL calls take them; an upload is addressed by the
    word index of its byte offset, every offset the renderer uses being a
    multiple of 4. */
module GlBuffer {
  import opened GlUtils

  /** Size in bytes of every stored element (float and GLuint). */
  const WORD_BYTES: nat := 4

  /** GL_BUFFER_SIZE: the allocated size of the buffer in bytes. */
  function BufferSize<T>(buf: seq<T>): (bytes: nat)
    ensures bytes % WORD_BYTES == 0 && bytes / WORD_BYTES == |buf|
  {
    WORD_BYTES * |buf|
  }

  /** `buf` with the words from `at` on replaced by `data`. */
  function Overwrite<T>(buf: seq<T>, at: nat, data: seq<T>): (r: seq<T>)
    requires at + |data| <= |buf|
    ensures |r| == |buf|
  {
    buf[..at] + data + buf[at + |data|..]
  }

  /** Reading the result of Overwrite: the words from `at` on are those of
      `data`, all others those of `buf`. */
  lemma OverwriteReads<T>(buf: seq<T>, at: nat, data: seq<T>)
    requires at + |data| <= |buf|
    ensures forall k :: 0 <= k < |buf| ==>
      Overwrite(buf, at, data)[k] == if at <= k < at + |data| then data[k - at] else buf[k]
  {
  }

  /** The upload of `data` at byte offset `WORD_BYTES * at`: GL_INVALID_VALUE
      and no change when the byte range runs past the end of the buffer,
      otherwise the words from `at` on are replaced by `data` and the others
      kept. */
  function BufferSubData<T>(buf: seq<T>, at: nat, data: seq<T>): (r: (GLenum, seq<T>))
    ensures |r.1| == |buf|
    ensures r.0 == GL_NO_ERROR <==> WORD_BYTES * at + WORD_BYTES * |data| <= BufferSize(buf)
    ensures r.0 != GL_NO_ERROR ==> r.0 == GL_INVALID_VALUE && r.1 == buf
    ensures r.0 == GL_NO_ERROR ==> r.1 == Overwrite(buf, at, data)
  {
    if WORD_BYTES * at + WORD_BYTES * |data| > BufferSize(buf) then (GL_INVALID_VALUE, buf)
    else (GL_NO_ERROR, Overwrite(buf, at, data))
  }

  /** The upload done in place on the buffer object's storage. */
  method SubData<T>(buf: array<T>, at: nat, data: seq<T>) returns (err: GLenum)
    modifies buf
    ensures (err, buf[..]) == BufferSubData(old(buf[..]), at, data)
  {
    if WORD_BYTES * at + WORD_BYTES * |data| > WORD_BYTES * buf.Length {
      err := GL_INVALID_VALUE;
    } else {
      forall k | at <= k < at + |data| {
        buf[k] := data[k - at];
      }
      err := GL_NO_ERROR;
      OverwriteReads(old(buf[..]), at, data);
      assert buf[..] == Overwrite(old(buf[..]), at, data);
    }
  }
}
