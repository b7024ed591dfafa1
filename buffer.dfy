/**
 * lib/common/src/Buffer.cc: the backend-independent part of a GPU buffer, its type and
 * size and the checks made before the backend writes. The backend calls `_InitWithSize`
 * and `_WriteToBuffer` are parameters holding their results; `venom_assert` conditions
 * are preconditions.
 */
module Buffers {
  import opened VenomError

  datatype BufferType = NoType | Read | WriteRead

  const Uint32Limit := 0x1_0000_0000

  type uint32 = x: int | 0 <= x < Uint32Limit

  /** The write check as written: `offset + size` is computed in `uint32_t` and can wrap. */
  predicate WriteFitsAsWritten(offset: uint32, size: uint32, bufferSize: uint32) {
    (offset + size) % Uint32Limit <= bufferSize
  }

  /**
   * Writing one byte at offset `UINT32_MAX` into an empty buffer passes the check as
   * written, although it lies past the end.
   */
  lemma WrappedWritePassesAsWritten()
    ensures WriteFitsAsWritten(Uint32Limit - 1, 1, 0)
    ensures !WriteFits(Uint32Limit - 1, 1, 0)
  {
  }

  /** The intended check, without wrap-around. */
  predicate WriteFits(offset: uint32, size: uint32, bufferSize: uint32) {
    offset + size <= bufferSize
  }

  /**
   * The two checks agree exactly when the sum does not wrap or the wrapped sum exceeds the
   * buffer: the corrected check refuses every write the wrap let through.
   */
  lemma ChecksAgreeWithoutWrap(offset: uint32, size: uint32, bufferSize: uint32)
    ensures offset + size < Uint32Limit ==> WriteFitsAsWritten(offset, size, bufferSize) == WriteFits(offset, size, bufferSize)
    ensures offset + size >= Uint32Limit ==> !WriteFits(offset, size, bufferSize)
    ensures WriteFits(offset, size, bufferSize) ==> WriteFitsAsWritten(offset, size, bufferSize)
  {
  }

  class BufferImpl {
    var bufferType: BufferType
    var size: uint32

    constructor ()
      ensures bufferType == NoType && size == 0
    {
      bufferType := NoType;
      size := 0;
    }

    /** `SetBufferType`: a type can be set only once. */
    method SetBufferType(t: BufferType)
      requires bufferType == NoType
      modifies this`bufferType
      ensures bufferType == t
    {
      bufferType := t;
    }

    /** `InitWithSize`: the size is recorded even when the backend fails. */
    method InitWithSize(newSize: uint32, backend: Error) returns (err: Error)
      modifies this`size
      ensures size == newSize && err == backend
    {
      err := backend;
      size := newSize;
    }

    /**
     * `WriteToBuffer` with the corrected range check: the type must be set and the range
     * must lie inside the buffer; the backend's answer is returned.
     */
    method WriteToBuffer(writeSize: uint32, offset: uint32, backend: Error) returns (err: Error)
      requires bufferType != NoType
      requires WriteFits(offset, writeSize, size)
      ensures err == backend
    {
      err := backend;
    }
  }

  /** `ReadBuffer`'s constructor: a new backend buffer fixed to `Read`. */
  method NewReadBuffer() returns (b: BufferImpl)
    ensures fresh(b) && b.bufferType == Read && b.size == 0
  {
    b := new BufferImpl();
    b.SetBufferType(Read);
  }

  /** `WriteReadBuffer`'s constructor: a new backend buffer fixed to `WriteRead`. */
  method NewWriteReadBuffer() returns (b: BufferImpl)
    ensures fresh(b) && b.bufferType == WriteRead && b.size == 0
  {
    b := new BufferImpl();
    b.SetBufferType(WriteRead);
  }
}
