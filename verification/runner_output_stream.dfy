/**
  The per-thread output multiplexer that replaces System.out while the parallel suite runs:
  a map from a writer to a growable byte buffer. The writing thread is an explicit key, and
  `General` is the distinguished bucket for output that belongs to no lane.
*/
module OutputStream {
  import opened Common

  /** Whose buffer a write lands in. */
  datatype Key = Thread(id: nat) | General

  type Buffers = map<Key, seq<byte>>

  /** The bytes buffered for `k`; a key that was never written has none. */
  function Contents(m: Buffers, k: Key): seq<byte> {
    if k in m then m[k] else []
  }

  /** The buffers after `bytes` are appended to `k`'s buffer, which is created first when absent
      (the `computeIfAbsent` of every write overload). */
  function Appended(m: Buffers, k: Key, bytes: seq<byte>): (r: Buffers)
    ensures r.Keys == m.Keys + {k}
    ensures r[k] == Contents(m, k) + bytes
    ensures forall j :: j in m && j != k ==> r[j] == m[j]
  {
    m[k := Contents(m, k) + bytes]
  }

  /** What getAndReset returns, and the buffers it leaves behind. */
  datatype Taken = Taken(output: Option<seq<byte>>, rest: Buffers)

  /** getAndReset: `null` for a key that never wrote; otherwise everything buffered, and the buffer
      stays present but empty. */
  function Take(m: Buffers, k: Key): (t: Taken)
    ensures t.output.None? <==> k !in m
    ensures t.output.GetOr([]) == Contents(m, k)
    ensures t.rest.Keys == m.Keys
    ensures Contents(t.rest, k) == []
    ensures forall j :: j in m && j != k ==> t.rest[j] == m[j]
  {
    if k in m then Taken(Some(m[k]), m[k := []]) else Taken(None, m)
  }

  /** Java's `(byte) b` keeps the low eight bits; as an unsigned value that is `b` modulo 256. */
  function LowByte(b: int): (r: byte)
    ensures (r as int - b) % 256 == 0
  {
    (b % 256) as byte
  }

  /** A write by one writer never changes what another writer has buffered. */
  lemma WriteIsolation(m: Buffers, k: Key, bytes: seq<byte>, j: Key)
    requires j != k
    ensures Contents(Appended(m, k, bytes), j) == Contents(m, j)
    ensures (j in Appended(m, k, bytes)) == (j in m)
  {
  }

  /** getAndReset returns exactly what was appended since the previous getAndReset. */
  lemma TakeReturnsWritesSinceReset(m: Buffers, k: Key, bytes: seq<byte>)
    ensures Take(Appended(Take(m, k).rest, k, bytes), k).output == Some(bytes)
  {
    assert [] + bytes == bytes;
  }

  /** An immediate second getAndReset returns the empty string for a key that had written, and null for one that had not. */
  lemma TakeTwice(m: Buffers, k: Key)
    ensures Take(Take(m, k).rest, k).output == if k in m then Some([]) else None
    ensures Take(Take(m, k).rest, k).rest == Take(m, k).rest
  {
  }

  class RunnerOutputStream {
    /** The `streams` map: one buffer per writer that has written at least once. */
    var streams: Buffers

    constructor ()
      ensures streams == map[]
    {
      streams := map[];
    }

    /** write(byte[] b): append all of `b` to the writer's buffer. */
    method Write(writer: Key, b: seq<byte>)
      modifies this
      ensures streams == Appended(old(streams), writer, b)
    {
      streams := Appended(streams, writer, b);
    }

    /** write(b, off, len): append `b[off..off+len]`. The buffer is created before the range is
        checked, so a bad range still leaves an (unchanged or new, empty) buffer behind. */
    method WriteRange(writer: Key, b: seq<byte>, off: int, len: int) returns (thrown: Option<Throwable>)
      modifies this
      ensures thrown == if 0 <= off && 0 <= len && off + len <= |b| then None else Some(IndexOutOfBounds)
      ensures streams == Appended(old(streams), writer, if thrown.None? then b[off..off + len] else [])
    {
      assert Contents(streams, writer) + [] == Contents(streams, writer);
      streams := Appended(streams, writer, []);
      if 0 <= off && 0 <= len && off + len <= |b| {
        streams := Appended(streams, writer, b[off..off + len]);
        thrown := None;
      } else {
        thrown := Some(IndexOutOfBounds);
      }
    }

    /** write(int b): append the one byte `(byte) b`. */
    method WriteByte(writer: Key, b: int)
      modifies this
      ensures streams == Appended(old(streams), writer, [LowByte(b)])
    {
      streams := Appended(streams, writer, [LowByte(b)]);
    }

    /** getAndReset(thread): take and clear one writer's buffer. */
    method GetAndReset(thread: Key) returns (output: Option<seq<byte>>)
      modifies this
      ensures Taken(output, streams) == Take(old(streams), thread)
    {
      var t := Take(streams, thread);
      output, streams := t.output, t.rest;
    }

    /** getAndResetGeneral(): the same take-and-clear on the general bucket. */
    method GetAndResetGeneral() returns (output: Option<seq<byte>>)
      modifies this
      ensures Taken(output, streams) == Take(old(streams), General)
    {
      output := GetAndReset(General);
    }
  }
}
