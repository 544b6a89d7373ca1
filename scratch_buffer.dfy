/**
  The shared scratch buffer of src/utils.hpp: a static byte array of
  `SCRATCH_BUFFER_SIZE` bytes, viewed whole as bytes (`bufferU8`) or as a typed
  span starting at a byte offset (`bufferSpan<T>(offset)`). A span is modelled by
  the byte range it covers; the bytes themselves are not modelled.
*/
module ScratchBuffer {

  /** `SCRATCH_BUFFER_SIZE`: 4 MiB. */
  const ScratchBufferSize: nat := 4 * 1024 * 1024

  /** A view of `count` elements of `elemSize` bytes each, starting at byte `start`. */
  datatype Span = Span(start: nat, count: nat, elemSize: nat)

  /** The first byte after the span. */
  function SpanEnd(sp: Span): nat
  {
    sp.start + sp.count * sp.elemSize
  }

  /** A view that lies within the buffer. */
  predicate InBuffer(sp: Span)
  {
    SpanEnd(sp) <= ScratchBufferSize
  }

  /**
    `bufferSpan<T>(offset)` for an element type of `elemSize` bytes: as many whole
    elements as fit between `offset` and the end of the buffer.
  */
  function BufferSpan(offset: nat, elemSize: nat): (sp: Span)
    requires 0 < elemSize && offset <= ScratchBufferSize
    ensures sp.start == offset && sp.elemSize == elemSize
    ensures InBuffer(sp)
    ensures ScratchBufferSize - SpanEnd(sp) < elemSize
  {
    Span(offset, (ScratchBufferSize - offset) / elemSize, elemSize)
  }

  /** `bufferU8`: the whole buffer as bytes. */
  const BufferU8: Span := Span(0, ScratchBufferSize, 1)

  /** No larger span of the same element type starting at `offset` would fit. */
  lemma BufferSpanIsMaximal(offset: nat, elemSize: nat, count: nat)
    requires 0 < elemSize && offset <= ScratchBufferSize
    requires InBuffer(Span(offset, count, elemSize))
    ensures count <= BufferSpan(offset, elemSize).count
  {
    var q := (ScratchBufferSize - offset) / elemSize;
    assert q * elemSize + (ScratchBufferSize - offset) % elemSize == ScratchBufferSize - offset;
    assert (count - q - 1) * elemSize == count * elemSize - q * elemSize - elemSize;
    NegativeFactor(count - q - 1, elemSize);
  }

  lemma NegativeFactor(a: int, b: int)
    requires 0 < b && a * b < 0
    ensures a < 0
  {
  }

  /** With the default offset, the byte span is `bufferU8`: the whole 4194304-byte buffer. */
  lemma DefaultByteSpan()
    ensures BufferSpan(0, 1) == BufferU8
    ensures BufferU8.count == 4194304
  {
  }

  /** Bytes never leave a tail: a byte span always ends exactly at the end of the buffer. */
  lemma ByteSpanReachesEnd(offset: nat)
    requires offset <= ScratchBufferSize
    ensures SpanEnd(BufferSpan(offset, 1)) == ScratchBufferSize
  {
  }
}
