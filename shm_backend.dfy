/** The raw shared-memory backend: a fixed-capacity byte region holding an
    8-byte header (payload length, version) followed by the payload.

    The pure functions on seq<byte> (RegionHeader, ReadRegion,
    WriteHeaderRegion, WriteRegion) say what each step does to the region's
    bytes; the class SharedMemoryBackend performs the same steps in place on
    an array and is proved against them. The model is sequential: nothing here
    speaks about a reader running while a write is in flight. */
module SharedMemory {
  import opened Outcomes
  import opened Header
  import Backends

  /** The outcome of one operation together with the region's bytes after it. */
  datatype Step = Step(outcome: Result<()>, region: seq<byte>)

  function Zeroes(n: nat): (r: seq<byte>)
    ensures |r| == n && forall k :: 0 <= k < n ==> r[k] == 0
  {
    seq(n, _ => 0)
  }

  /** Python's buf[lo:hi]: both bounds are clipped to the buffer's length. */
  function Slice(buf: seq<byte>, lo: nat, hi: nat): (r: seq<byte>)
    requires lo <= hi
    ensures |r| <= hi - lo
    ensures hi <= |buf| ==> r == buf[lo..hi]
  {
    var h := if hi <= |buf| then hi else |buf|;
    var l := if lo <= h then lo else h;
    buf[l..h]
  }

  /** _read_header: unpack the first 8 bytes of the region. */
  function RegionHeader(buf: seq<byte>): (r: Result<(nat, nat)>)
    ensures r.Ok? <==> |buf| >= HeaderSize
  {
    UnpackHeader(Slice(buf, 0, HeaderSize))
  }

  /** read, before deserialisation: nothing when the header's length is 0,
      otherwise the bytes buf[8:8+length]. */
  function ReadRegion(buf: seq<byte>): (r: Result<Option<seq<byte>>>)
    ensures r.Err? <==> |buf| < HeaderSize
    ensures r.Ok? ==> (r.value.None? <==> RegionHeader(buf).value.0 == 0)
    ensures r.Ok? && r.value.Some? && HeaderSize + RegionHeader(buf).value.0 <= |buf| ==>
      r.value.value == buf[HeaderSize..HeaderSize + RegionHeader(buf).value.0]
  {
    match RegionHeader(buf)
    case Err(e) => Err(e)
    case Ok((n, _)) => if n == 0 then Ok(None) else Ok(Some(Slice(buf, HeaderSize, HeaderSize + n)))
  }

  /** _write_header: pack the two fields, then overwrite buf[:8]. */
  function WriteHeaderRegion(buf: seq<byte>, dataSize: nat, version: nat): (s: Step)
    ensures |s.region| == |buf|
    ensures s.outcome.Ok? <==> dataSize < U32Limit && version < U32Limit && |buf| >= HeaderSize
    ensures s.outcome.Err? ==> s.region == buf
    ensures s.outcome.Ok? ==> s.region[HeaderSize..] == buf[HeaderSize..]
    ensures s.outcome.Ok? ==> RegionHeader(s.region) == Ok((dataSize, version))
  {
    match PackHeader(dataSize, version)
    case Err(e) => Step(Err(e), buf)
    case Ok(h) =>
      if |buf| < HeaderSize then Step(Err(SegmentTooSmall), buf)
      else
        HeaderRoundTrip(dataSize, version);
        var region := h + buf[HeaderSize..];
        assert region[..HeaderSize] == h;
        Step(Ok(()), region)
  }

  /** write, after serialisation: check capacity, read the current version v,
      copy the payload to buf[8:8+n], and write the header (n, v+1) last. */
  function WriteRegion(buf: seq<byte>, size: int, payload: seq<byte>): (s: Step)
    ensures |s.region| == |buf|
    ensures s.outcome == Err(CapacityExceeded) <==> |payload| + HeaderSize > size
    // Every failure but the header overflow leaves the region as it was.
    ensures s.outcome.Err? && s.outcome.error != FieldOverflow ==> s.region == buf
    // Bytes past the new payload keep whatever an earlier, longer write left there.
    ensures forall k :: HeaderSize + |payload| <= k < |buf| ==> s.region[k] == buf[k]
  {
    if |payload| + HeaderSize > size then Step(Err(CapacityExceeded), buf)
    else
      match RegionHeader(buf)
      case Err(e) => Step(Err(e), buf)
      case Ok((_, v)) =>
        if HeaderSize + |payload| > |buf| then Step(Err(SegmentTooSmall), buf)
        else WriteHeaderRegion(buf[..HeaderSize] + payload + buf[HeaderSize + |payload|..], |payload|, v + 1)
  }

  /** A sequence of writes, stopping at the first one that fails. */
  function WriteAll(buf: seq<byte>, size: int, payloads: seq<seq<byte>>): (s: Step)
    ensures |s.region| == |buf|
    decreases |payloads|
  {
    if payloads == [] then Step(Ok(()), buf)
    else
      var first := WriteRegion(buf, size, payloads[0]);
      if first.outcome.Err? then first else WriteAll(first.region, size, payloads[1..])
  }

  lemma {:induction false} DecodeLEZeroes(s: seq<byte>)
    requires forall k :: 0 <= k < |s| ==> s[k] == 0
    ensures DecodeLE(s) == 0
  {
    if s != [] {
      DecodeLEZeroes(s[1..]);
    }
  }

  /** A freshly created segment (zero-filled, header written as (0, 0))
      reads back as "nothing published", with version 0. */
  lemma FreshRegionIsEmpty(size: nat)
    requires size >= HeaderSize
    ensures WriteHeaderRegion(Zeroes(size), 0, 0) == Step(Ok(()), Zeroes(size))
    ensures RegionHeader(Zeroes(size)) == Ok((0, 0))
    ensures ReadRegion(Zeroes(size)) == Ok(None)
  {
    var z := Zeroes(size);
    DecodeLEZeroes(z[..4]);
    DecodeLEZeroes(z[4..HeaderSize]);
    assert Slice(z, 0, HeaderSize)[..4] == z[..4];
    assert Slice(z, 0, HeaderSize)[4..] == z[4..HeaderSize];
    HeaderBytesRoundTrip(z[..HeaderSize]);
    assert z[..HeaderSize] + z[HeaderSize..] == z;
  }

  /** A payload that exactly fills the data area is accepted, provided the
      version can still be incremented. */
  lemma WriteAtExactCapacity(buf: seq<byte>, payload: seq<byte>)
    requires |buf| >= HeaderSize && |payload| == |buf| - HeaderSize && |payload| < U32Limit
    requires RegionHeader(buf).value.1 + 1 < U32Limit
    ensures WriteRegion(buf, |buf|, payload).outcome.Ok?
    ensures WriteRegion(buf, |buf|, payload + [0]).outcome == Err(CapacityExceeded)
  {
  }

  /** A successful write publishes the header (n, v+1), where v is the version before. */
  lemma WriteBumpsVersion(buf: seq<byte>, size: int, payload: seq<byte>)
    requires WriteRegion(buf, size, payload).outcome.Ok?
    ensures RegionHeader(buf).Ok?
    ensures RegionHeader(WriteRegion(buf, size, payload).region)
         == Ok((|payload|, RegionHeader(buf).value.1 + 1))
  {
  }

  /** A read after a successful write returns exactly the written payload
      (nothing, when the payload is empty). */
  lemma ReadAfterWrite(buf: seq<byte>, size: int, payload: seq<byte>)
    requires WriteRegion(buf, size, payload).outcome.Ok?
    ensures ReadRegion(WriteRegion(buf, size, payload).region)
         == if payload == [] then Ok(None) else Ok(Some(payload))
  {
    var v := RegionHeader(buf).value.1;
    var data := buf[..HeaderSize] + payload + buf[HeaderSize + |payload|..];
    var after := WriteRegion(buf, size, payload).region;
    assert after == WriteHeaderRegion(data, |payload|, v + 1).region;
    assert after[HeaderSize..] == data[HeaderSize..];
    assert after[HeaderSize..HeaderSize + |payload|] == data[HeaderSize..HeaderSize + |payload|] == payload;
  }

  /** The one failure that is not atomic: when the version is already the
      largest u32, the payload bytes are overwritten and the header is not. */
  lemma VersionOverflowIsNotAtomic(buf: seq<byte>, size: int, payload: seq<byte>)
    requires |payload| + HeaderSize <= size && HeaderSize + |payload| <= |buf|
    requires RegionHeader(buf).value.1 == U32Limit - 1
    ensures WriteRegion(buf, size, payload).outcome == Err(FieldOverflow)
    ensures WriteRegion(buf, size, payload).region[..HeaderSize] == buf[..HeaderSize]
    ensures WriteRegion(buf, size, payload).region[HeaderSize..HeaderSize + |payload|] == payload
  {
  }

  /** After k successful writes the version has risen by exactly k, and the
      header's length is that of the last payload. */
  lemma {:induction false} VersionCountsWrites(buf: seq<byte>, size: int, payloads: seq<seq<byte>>)
    requires RegionHeader(buf).Ok?
    requires WriteAll(buf, size, payloads).outcome.Ok?
    ensures RegionHeader(WriteAll(buf, size, payloads).region)
         == Ok((if payloads == [] then RegionHeader(buf).value.0 else |payloads[|payloads| - 1]|,
                RegionHeader(buf).value.1 + |payloads|))
    decreases |payloads|
  {
    if payloads != [] {
      var first := WriteRegion(buf, size, payloads[0]);
      WriteBumpsVersion(buf, size, payloads[0]);
      VersionCountsWrites(first.region, size, payloads[1..]);
      if |payloads| > 1 {
        assert payloads[1..][|payloads[1..]| - 1] == payloads[|payloads| - 1];
      }
    }
  }

  /** The operating system's table of named segments. */
  class Namespace {
    var segments: map<string, array<byte>>

    constructor ()
      ensures segments == map[]
    {
      segments := map[];
    }
  }

  /** One process's handle on a shared-memory segment. */
  class SharedMemoryBackend {
    const size: int                // the capacity asked for at construction (_size)
    var shm: array?<byte>          // the attached segment's buffer; null when not attached
    var segmentName: string        // the name the attached segment was opened under
    var name: string
    var isWriter: bool

    constructor (size: int)
      ensures this.size == size && shm == null && name == "" && !isWriter
    {
      this.size := size;
      shm := null;
      segmentName := "";
      name := "";
      isWriter := false;
    }

    /** The writer creates and zeroes the segment, or attaches to one that
        already exists (keeping its header); a reader only attaches. */
    method Initialize(ns: Namespace, name: string, isWriter: bool) returns (r: Result<()>)
      modifies this, ns
      ensures this.name == name && this.isWriter == isWriter
      ensures isWriter && size <= 0 ==>
        r == Err(InvalidSize) && shm == old(shm) && ns.segments == old(ns.segments)
      ensures isWriter && size > 0 && name !in old(ns.segments) ==>
        shm != null && fresh(shm) && shm.Length == size && shm[..] == Zeroes(size) &&
        ns.segments == old(ns.segments)[name := shm] &&
        r == (if size >= HeaderSize then Ok(()) else Err(SegmentTooSmall))
      ensures (isWriter ==> size > 0) && name in old(ns.segments) ==>
        shm == old(ns.segments[name]) && shm[..] == old(ns.segments[name][..]) &&
        ns.segments == old(ns.segments) && r == Ok(())
      ensures !isWriter && name !in old(ns.segments) ==>
        r == Err(NotFound) && shm == old(shm) && ns.segments == old(ns.segments)
      ensures shm != old(shm) ==> segmentName == name
      ensures segmentName == old(segmentName) || (shm != null && segmentName == name)
    {
      this.name := name;
      this.isWriter := isWriter;
      if isWriter {
        if size <= 0 {
          return Err(InvalidSize);
        }
        if name !in ns.segments {
          var segment := new byte[size](_ => 0);
          assert segment[..] == Zeroes(size);
          ns.segments := ns.segments[name := segment];
          shm, segmentName := segment, name;
          r := WriteHeader(0, 0);
          if size >= HeaderSize {
            FreshRegionIsEmpty(size);
          }
          return;
        }
      } else if name !in ns.segments {
        return Err(NotFound);
      }
      shm, segmentName := ns.segments[name], name;
      r := Ok(());
    }

    /** _read_header. */
    method ReadHeader() returns (r: Result<(nat, nat)>)
      ensures shm == null ==> r == Err(NotInitialized)
      ensures shm != null ==> r == RegionHeader(shm[..])
    {
      if shm == null {
        return Err(NotInitialized);
      }
      var hi := if shm.Length < HeaderSize then shm.Length else HeaderSize;
      r := UnpackHeader(shm[..hi]);
    }

    /** _write_header. */
    method WriteHeader(dataSize: nat, version: nat) returns (r: Result<()>)
      modifies shm
      ensures shm == null ==> r == Err(NotInitialized)
      ensures shm != null ==>
        r == WriteHeaderRegion(old(shm[..]), dataSize, version).outcome &&
        shm[..] == WriteHeaderRegion(old(shm[..]), dataSize, version).region
    {
      if shm == null {
        return Err(NotInitialized);
      }
      var packed := PackHeader(dataSize, version);
      if packed.Err? {
        return Err(packed.error);
      }
      if shm.Length < HeaderSize {
        return Err(SegmentTooSmall);
      }
      var h := packed.value;
      forall k | 0 <= k < HeaderSize {
        shm[k] := h[k];
      }
      assert shm[..] == h + old(shm[..])[HeaderSize..];
      r := Ok(());
    }

    /** write, given the already-serialised payload. */
    method Write(payload: seq<byte>) returns (r: Result<()>)
      modifies shm
      ensures shm == null ==> r == Err(NotInitialized)
      ensures shm != null ==>
        r == WriteRegion(old(shm[..]), size, payload).outcome &&
        shm[..] == WriteRegion(old(shm[..]), size, payload).region
    {
      if shm == null {
        return Err(NotInitialized);
      }
      var n := |payload|;
      if n + HeaderSize > size {
        return Err(CapacityExceeded);
      }
      var header := ReadHeader();
      if header.Err? {
        return Err(header.error);
      }
      var version := header.value.1;
      if HeaderSize + n > shm.Length {
        return Err(SegmentTooSmall);
      }
      ghost var before := shm[..];
      forall k | 0 <= k < n {
        shm[HeaderSize + k] := payload[k];
      }
      assert shm[..] == before[..HeaderSize] + payload + before[HeaderSize + n..];
      r := WriteHeader(n, version + 1);
    }

    /** read, before deserialisation; the region is left as it is. */
    method Read() returns (r: Result<Option<seq<byte>>>)
      ensures shm == null ==> r == Err(NotInitialized)
      ensures shm != null ==> r == ReadRegion(shm[..])
    {
      if shm == null {
        return Err(NotInitialized);
      }
      var header := ReadHeader();
      if header.Err? {
        return Err(header.error);
      }
      var n := header.value.0;
      if n == 0 {
        return Ok(None);
      }
      var hi := if HeaderSize + n <= shm.Length then HeaderSize + n else shm.Length;
      r := Ok(Some(shm[HeaderSize..hi]));
    }

    /** Detach; the writer also unlinks the segment's name (a name already
        gone is ignored). Detached handles are left alone. */
    method Cleanup(ns: Namespace)
      modifies this, ns
      ensures shm == null
      ensures old(shm) != null && old(isWriter) ==> ns.segments == old(ns.segments) - {old(segmentName)}
      ensures old(shm) == null || !old(isWriter) ==> ns.segments == old(ns.segments)
      ensures name == old(name) && isWriter == old(isWriter) && segmentName == old(segmentName)
    {
      if shm != null {
        if isWriter {
          if segmentName in ns.segments {
            ns.segments := ns.segments - {segmentName};
          }
        }
        shm := null;
      }
    }

    /** prepare_stream is not overridden: the base class's hook changes nothing. */
    method PrepareStream(numMessages: int)
      ensures unchanged(this) && (shm != null ==> unchanged(shm))
    {
    }

    function GetName(): (r: string)
      ensures r == Backends.Name(Backends.SharedMemory)
    {
      "SharedMemory"
    }

    function SupportsStreaming(): (r: bool)
      ensures r == Backends.SupportsStreaming(Backends.SharedMemory)
    {
      false
    }
  }

  /** A writer and a reader of one segment, as the benchmark uses them: the
      writer creates the segment, the reader attaches to it by name, and what
      the writer writes is what the reader reads (an empty payload reads as
      no data). */
  method WriterToReader(ns: Namespace, writer: SharedMemoryBackend, reader: SharedMemoryBackend,
                        name: string, payload: seq<byte>)
    returns (written: Result<()>, got: Result<Option<seq<byte>>>)
    requires writer != reader
    requires name !in ns.segments
    requires HeaderSize + |payload| <= writer.size && |payload| < U32Limit
    modifies ns, writer, reader
    ensures written == Ok(())
    ensures got == Ok(if |payload| == 0 then None else Some(payload))
    ensures writer.shm == reader.shm != null && name in ns.segments && ns.segments[name] == writer.shm
  {
    var created := writer.Initialize(ns, name, true);
    var attached := reader.Initialize(ns, name, false);
    FreshRegionIsEmpty(writer.size);
    written := writer.Write(payload);
    ReadAfterWrite(Zeroes(writer.size), writer.size, payload);
    got := reader.Read();
  }
}
