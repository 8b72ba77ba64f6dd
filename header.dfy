/** The 8-byte header at the start of a shared-memory region: two unsigned
    32-bit integers (payload length, version), packed with struct format "II".
    Native byte order is taken to be little-endian (the usual x86/ARM host). */
module Header {
  import opened Outcomes

  newtype byte = b: int | 0 <= b < 256

  /** A serialised message or a payload, as the backends pass it around. */
  type Bytes = seq<byte>

  const HeaderSize: nat := 8
  const U32Limit: nat := 0x1_0000_0000

  function Pow256(k: nat): (r: nat)
    ensures r > 0
  {
    if k == 0 then 1 else 256 * Pow256(k - 1)
  }

  lemma Pow256Four()
    ensures Pow256(4) == U32Limit
  {
  }

  /** x written in k bytes, lowest byte first. */
  function EncodeLE(x: nat, k: nat): (r: seq<byte>)
    ensures |r| == k
  {
    if k == 0 then [] else [(x % 256) as byte] + EncodeLE(x / 256, k - 1)
  }

  /** The number whose little-endian bytes are s. */
  function DecodeLE(s: seq<byte>): (r: nat)
    ensures r < Pow256(|s|)
  {
    if s == [] then 0 else s[0] as nat + 256 * DecodeLE(s[1..])
  }

  lemma {:induction false} DecodeEncodeLE(x: nat, k: nat)
    requires x < Pow256(k)
    ensures DecodeLE(EncodeLE(x, k)) == x
  {
    if k > 0 {
      var e := EncodeLE(x, k);
      assert e[1..] == EncodeLE(x / 256, k - 1);
      DecodeEncodeLE(x / 256, k - 1);
    }
  }

  lemma {:induction false} EncodeDecodeLE(s: seq<byte>)
    ensures EncodeLE(DecodeLE(s), |s|) == s
  {
    if s != [] {
      var d := DecodeLE(s[1..]);
      var x := s[0] as nat + 256 * d;
      assert x % 256 == s[0] as nat && x / 256 == d;
      EncodeDecodeLE(s[1..]);
    }
  }

  /** struct.pack("II", dataSize, version); struct.error when a field is out of range. */
  function PackHeader(dataSize: nat, version: nat): (r: Result<seq<byte>>)
    ensures r.Ok? <==> dataSize < U32Limit && version < U32Limit
    ensures r.Ok? ==> |r.value| == HeaderSize
    ensures r.Err? ==> r.error == FieldOverflow
  {
    if dataSize < U32Limit && version < U32Limit
    then Ok(EncodeLE(dataSize, 4) + EncodeLE(version, 4))
    else Err(FieldOverflow)
  }

  /** struct.unpack("II", h); struct.error unless h holds exactly 8 bytes. */
  function UnpackHeader(h: seq<byte>): (r: Result<(nat, nat)>)
    ensures r.Ok? <==> |h| == HeaderSize
    ensures r.Ok? ==> r.value.0 < U32Limit && r.value.1 < U32Limit
    ensures r.Err? ==> r.error == ShortHeader
  {
    Pow256Four();
    if |h| == HeaderSize then Ok((DecodeLE(h[..4]), DecodeLE(h[4..]))) else Err(ShortHeader)
  }

  /** Unpacking a packed header gives back both fields. */
  lemma HeaderRoundTrip(dataSize: nat, version: nat)
    requires dataSize < U32Limit && version < U32Limit
    ensures PackHeader(dataSize, version).Ok?
    ensures UnpackHeader(PackHeader(dataSize, version).value) == Ok((dataSize, version))
  {
    Pow256Four();
    var h := PackHeader(dataSize, version).value;
    assert h[..4] == EncodeLE(dataSize, 4);
    assert h[4..] == EncodeLE(version, 4);
    DecodeEncodeLE(dataSize, 4);
    DecodeEncodeLE(version, 4);
  }

  /** Every 8-byte header is the packing of what it unpacks to. */
  lemma HeaderBytesRoundTrip(h: seq<byte>)
    requires |h| == HeaderSize
    ensures UnpackHeader(h).Ok?
    ensures PackHeader(UnpackHeader(h).value.0, UnpackHeader(h).value.1) == Ok(h)
  {
    EncodeDecodeLE(h[..4]);
    EncodeDecodeLE(h[4..]);
    assert h == h[..4] + h[4..];
  }
}
