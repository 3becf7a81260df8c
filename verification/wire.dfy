/** The tunnel's wire format: fixed three-byte control frames and a four-byte handshake, both big-endian.
    Server and client carry identical copies of the frame code. */
module Wire {

  type u8 = x: int | 0 <= x < 0x100
  type u16 = x: int | 0 <= x < 0x1_0000

  const TAG_PING: u8 := 0x01
  const TAG_PONG: u8 := 0x02
  const TAG_OPEN: u8 := 0x03
  const TAG_CLOSE: u8 := 0x04

  const FRAME_LEN := 3
  const HANDSHAKE_LEN := 4

  datatype Frame = Frame(tag: u8, streamId: u16)

  function ToBytes(x: u16): seq<u8> {
    [x / 0x100, x % 0x100]
  }

  function FromBytes(hi: u8, lo: u8): u16 {
    hi * 0x100 + lo
  }

  function Encode(f: Frame): (buf: seq<u8>)
    ensures |buf| == FRAME_LEN && buf[0] == f.tag && buf[1] as int * 0x100 + buf[2] == f.streamId
  {
    [f.tag] + ToBytes(f.streamId)
  }

  function Decode(buf: seq<u8>): Frame
    requires |buf| == FRAME_LEN
  {
    Frame(buf[0], FromBytes(buf[1], buf[2]))
  }

  function Handshake(publicPort: u16, dataPort: u16): (buf: seq<u8>)
    ensures |buf| == HANDSHAKE_LEN
    ensures buf[0] as int * 0x100 + buf[1] == publicPort && buf[2] as int * 0x100 + buf[3] == dataPort
  {
    ToBytes(publicPort) + ToBytes(dataPort)
  }

  function EncodeAll(frames: seq<Frame>): (bytes: seq<u8>)
    ensures |bytes| == FRAME_LEN * |frames|
  {
    if frames == [] then [] else Encode(frames[0]) + EncodeAll(frames[1..])
  }

  /** The complete frames at the front of a byte stream. */
  function DecodeAll(bytes: seq<u8>): seq<Frame> {
    if |bytes| < FRAME_LEN then [] else [Decode(bytes[..FRAME_LEN])] + DecodeAll(bytes[FRAME_LEN..])
  }

  lemma BytesRoundTrip(x: u16, hi: u8, lo: u8)
    ensures FromBytes(ToBytes(x)[0], ToBytes(x)[1]) == x
    ensures ToBytes(FromBytes(hi, lo)) == [hi, lo]
  {
    assert FromBytes(hi, lo) / 0x100 == hi && FromBytes(hi, lo) % 0x100 == lo;
  }

  /** Frames and three-byte buffers are in bijection. */
  lemma FrameRoundTrip(f: Frame, buf: seq<u8>)
    requires |buf| == FRAME_LEN
    ensures Decode(Encode(f)) == f
    ensures Encode(Decode(buf)) == buf
  {
    BytesRoundTrip(f.streamId, buf[1], buf[2]);
  }

  /** The bytes on the wire: the tag, then the id with its high byte first. */
  lemma FrameBytes(id: u16)
    ensures Encode(Frame(TAG_PING, 0)) == [0x01, 0x00, 0x00] && Encode(Frame(TAG_PONG, 0)) == [0x02, 0x00, 0x00]
    ensures Encode(Frame(TAG_OPEN, id)) == [0x03, id / 0x100, id % 0x100]
    ensures Encode(Frame(TAG_CLOSE, id)) == [0x04, id / 0x100, id % 0x100]
  {
  }

  lemma HandshakeRoundTrip(publicPort: u16, dataPort: u16)
    ensures var buf := Handshake(publicPort, dataPort);
            FromBytes(buf[0], buf[1]) == publicPort && FromBytes(buf[2], buf[3]) == dataPort
  {
    BytesRoundTrip(publicPort, 0, 0);
    BytesRoundTrip(dataPort, 0, 0);
  }

  /** A stream of frames that is cut anywhere yields exactly the frames that are complete. */
  lemma {:induction false} CutStream(frames: seq<Frame>, k: nat)
    requires k <= FRAME_LEN * |frames|
    ensures DecodeAll(EncodeAll(frames)[..k]) == frames[..k / FRAME_LEN]
  {
    var bytes := EncodeAll(frames);
    if k < FRAME_LEN {
      assert frames[..0] == [];
    } else {
      var first, rest := Encode(frames[0]), EncodeAll(frames[1..]);
      assert bytes == first + rest;
      assert bytes[..k][..FRAME_LEN] == first && bytes[..k][FRAME_LEN..] == rest[..k - FRAME_LEN];
      FrameRoundTrip(frames[0], first);
      CutStream(frames[1..], k - FRAME_LEN);
      assert k / FRAME_LEN == (k - FRAME_LEN) / FRAME_LEN + 1;
      assert frames[..k / FRAME_LEN] == [frames[0]] + frames[1..][..(k - FRAME_LEN) / FRAME_LEN];
    }
  }

  /** Everything the server writes on the control connection. */
  function ServerStream(publicPort: u16, dataPort: u16, frames: seq<Frame>): seq<u8> {
    Handshake(publicPort, dataPort) + EncodeAll(frames)
  }

  /** What the client makes of a server stream cut after `k` bytes: with the handshake complete, both
      ports and all complete frames. */
  lemma ClientReads(publicPort: u16, dataPort: u16, frames: seq<Frame>, k: nat)
    requires HANDSHAKE_LEN <= k <= |ServerStream(publicPort, dataPort, frames)|
    ensures var seen := ServerStream(publicPort, dataPort, frames)[..k];
            && FromBytes(seen[0], seen[1]) == publicPort && FromBytes(seen[2], seen[3]) == dataPort
            && DecodeAll(seen[HANDSHAKE_LEN..]) == frames[..(k - HANDSHAKE_LEN) / FRAME_LEN]
  {
    var shake, bytes := Handshake(publicPort, dataPort), EncodeAll(frames);
    var seen := (shake + bytes)[..k];
    HandshakeRoundTrip(publicPort, dataPort);
    assert seen[..HANDSHAKE_LEN] == shake;
    assert seen[HANDSHAKE_LEN..] == bytes[..k - HANDSHAKE_LEN];
    CutStream(frames, k - HANDSHAKE_LEN);
  }
}
