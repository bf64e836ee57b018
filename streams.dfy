/**
 The byte sinks the two WAV writers write into: a stream (System.IO.FileStream opened with
 FileMode.Create, or System.IO.MemoryStream) whose contents grow by appending, and the
 System.IO.BinaryWriter that WavUtility wraps around such a stream.
 */
module Streams {
  import opened Bytes

  /** A stream positioned at its end: every write appends. */
  class ByteStream {
    var contents: seq<byte>

    /** A new, empty stream (a MemoryStream, or a file truncated by FileMode.Create). */
    constructor ()
      ensures contents == []
    {
      contents := [];
    }

    /** Stream.Write(buffer, offset, count): appends buffer[offset .. offset + count]. */
    method Write(buffer: seq<byte>, offset: nat, count: nat)
      requires offset + count <= |buffer|
      modifies this
      ensures contents == old(contents) + buffer[offset..offset + count]
      ensures offset == 0 && count == |buffer| ==> contents == old(contents) + buffer
    {
      contents := contents + buffer[offset..offset + count];
    }
  }

  /** A BinaryWriter: writes values little-endian to its output stream. */
  class BinaryWriter {
    const output: ByteStream

    constructor (stream: ByteStream)
      ensures output == stream
    {
      output := stream;
    }

    /** BinaryWriter.Write(byte[]) */
    method WriteBytes(b: seq<byte>)
      modifies output
      ensures output.contents == old(output.contents) + b
    {
      output.Write(b, 0, |b|);
    }

    /** BinaryWriter.Write(int) */
    method WriteInt32(v: Int32)
      modifies output
      ensures output.contents == old(output.contents) + Int32Bytes(v)
    {
      WriteBytes(Int32Bytes(v));
    }

    /** BinaryWriter.Write(ushort) */
    method WriteUInt16(v: UInt16)
      modifies output
      ensures output.contents == old(output.contents) + UInt16Bytes(v)
    {
      WriteBytes(UInt16Bytes(v));
    }

    /** BinaryWriter.Write(short) */
    method WriteInt16(v: Int16)
      modifies output
      ensures output.contents == old(output.contents) + Int16Bytes(v)
    {
      WriteBytes(Int16Bytes(v));
    }
  }
}
