/** Byte streams with arbitrary chunking, and the loops that run over them: the client's control
    session and the copying half of a splice. */
module Streams {
  import opened Wire

  const BUFFER_LEN := 8192

  /** The reading side of a connection: the bytes still to come before it ends, by close or by error. */
  class Source {
    var incoming: seq<u8>

    constructor (bytes: seq<u8>)
      ensures incoming == bytes
    {
      incoming := bytes;
    }

    /** One read delivers any non-empty part of what is left; nothing means the end. */
    method Read(max: nat) returns (got: seq<u8>)
      modifies this
      ensures got + incoming == old(incoming) && |got| <= max
      ensures max > 0 && old(incoming) != [] ==> got != []
    {
      var n: nat := 0;
      if max > 0 && incoming != [] {
        n :| 1 <= n <= max && n <= |incoming|;
      }
      got, incoming := incoming[..n], incoming[n..];
    }

    /** Reads until the buffer is full; fails at the end of the stream. */
    method ReadExact(len: nat) returns (ok: bool, buf: seq<u8>)
      modifies this
      ensures ok == (len <= |old(incoming)|)
      ensures ok ==> |buf| == len && buf + incoming == old(incoming)
      ensures !ok ==> incoming == []
    {
      buf := [];
      while |buf| < len
        invariant |buf| <= len
        invariant buf + incoming == old(incoming)
        decreases len - |buf|
      {
        var got := Read(len - |buf|);
        if got == [] {
          return false, buf;
        }
        buf := buf + got;
      }
      ok := true;
    }
  }

  /** The writing side of a connection. A failed write may have sent part of its bytes; `broken` says
      whether some write has failed. */
  class Sink {
    var written: seq<u8>
    var closed: bool
    var broken: bool

    constructor ()
      ensures written == [] && !closed && !broken
    {
      written, closed, broken := [], false, false;
    }

    method WriteAll(bytes: seq<u8>) returns (ok: bool)
      modifies this
      ensures closed == old(closed) && broken == (old(broken) || !ok)
      ensures ok ==> written == old(written) + bytes
      ensures !ok ==> |old(written)| <= |written| && written <= old(written) + bytes
    {
      ok := *;
      var sent: nat := |bytes|;
      if !ok {
        sent :| 0 <= sent <= |bytes|;
        broken := true;
      }
      written := written + bytes[..sent];
      assert bytes[..|bytes|] == bytes;
    }

    method Shutdown()
      modifies this
      ensures closed && written == old(written) && broken == old(broken)
    {
      closed := true;
    }
  }

  // ---- the client's control session ----

  function Opens(frames: seq<Frame>): seq<u16> {
    if frames == [] then []
    else
      var n := |frames| - 1;
      Opens(frames[..n]) + if frames[n].tag == TAG_OPEN then [frames[n].streamId] else []
  }

  function Pings(frames: seq<Frame>): nat {
    if frames == [] then 0
    else
      var n := |frames| - 1;
      Pings(frames[..n]) + if frames[n].tag == TAG_PING then 1 else 0
  }

  function Pongs(count: nat): seq<u8> {
    if count == 0 then [] else Pongs(count - 1) + Encode(Frame(TAG_PONG, 0))
  }

  method ReadHandshake(ctrl: Source) returns (ok: bool, publicPort: u16, dataPort: u16)
    modifies ctrl
    ensures ok == (HANDSHAKE_LEN <= |old(ctrl.incoming)|)
    ensures ok ==>
      var b := old(ctrl.incoming);
      publicPort == FromBytes(b[0], b[1]) && dataPort == FromBytes(b[2], b[3]) && ctrl.incoming == b[HANDSHAKE_LEN..]
  {
    var buf;
    ok, buf := ctrl.ReadExact(HANDSHAKE_LEN);
    publicPort, dataPort := 0, 0;
    if ok {
      ghost var b := old(ctrl.incoming);
      assert buf == b[..HANDSHAKE_LEN] && ctrl.incoming == b[HANDSHAKE_LEN..];
      publicPort := FromBytes(buf[0], buf[1]);
      dataPort := FromBytes(buf[2], buf[3]);
    }
  }

  /** The frame loop: one PONG for each PING, one handler for each OPEN, in the order of the stream;
      other frames are ignored. It ends with the stream, or with a PONG that cannot be written. Without
      a second handle on the connection to write to it does not begin. */
  method RunSession(ctrl: Source, back: Sink, cloned: bool) returns (dialed: seq<u16>, handled: nat, streamEnded: bool)
    modifies ctrl, back
    ensures !cloned ==> dialed == [] && handled == 0 && !streamEnded && ctrl.incoming == old(ctrl.incoming)
                        && back.written == old(back.written) && back.broken == old(back.broken)
    ensures cloned && !old(back.broken) ==> (streamEnded <==> !back.broken)
    ensures cloned ==>
            var frames := DecodeAll(old(ctrl.incoming));
            && handled <= |frames| && dialed == Opens(frames[..handled])
            && (streamEnded ==> handled == |frames| && back.written == old(back.written) + Pongs(Pings(frames)))
            && (!streamEnded ==> handled > 0 && frames[handled - 1].tag == TAG_PING
                                 && old(back.written) + Pongs(Pings(frames[..handled - 1])) <= back.written
                                 && back.written <= old(back.written) + Pongs(Pings(frames[..handled])))
  {
    if !cloned {
      return [], 0, false;
    }
    ghost var frames := DecodeAll(ctrl.incoming);
    dialed, handled := [], 0;
    assert frames[..0] == [] && frames[0..] == frames;
    assert back.written + [] == back.written;
    assert Opens([]) == [] && Pongs(Pings([])) == [];
    hide DecodeAll, Decode, Encode, Opens, Pings, Pongs;
    while true
      invariant handled <= |frames| && DecodeAll(ctrl.incoming) == frames[handled..]
      invariant dialed == Opens(frames[..handled])
      invariant back.written == old(back.written) + Pongs(Pings(frames[..handled]))
      invariant back.broken == old(back.broken)
      decreases |ctrl.incoming|
    {
      ghost var before, sent := ctrl.incoming, back.written;
      var ok, buf := ctrl.ReadExact(FRAME_LEN);
      if !ok {
        NoFrame(before);
        assert frames[..handled] == frames;
        return dialed, handled, true;
      }
      NextFrame(before, buf, ctrl.incoming, frames, handled);
      NextOpens(frames, handled);
      NextPongs(frames, handled);
      var frame := Decode(buf);
      handled := handled + 1;
      if frame.tag == TAG_PING {
        var pong := Encode(Frame(TAG_PONG, 0));
        var wrote := back.WriteAll(pong);
        assert sent + pong == old(back.written) + Pongs(Pings(frames[..handled]));
        if !wrote {
          return dialed, handled, false;
        }
      } else if frame.tag == TAG_OPEN {
        dialed := dialed + [frame.streamId];
      }
    }
  }

  /** The answer to pings: PONG frames with a zero id, three bytes each. */
  lemma {:induction false} PongBytes(count: nat)
    ensures |Pongs(count)| == 3 * count
    ensures forall i :: 0 <= i < 3 * count ==> Pongs(count)[i] == if i % 3 == 0 then 0x02 else 0x00
  {
    if count > 0 {
      PongBytes(count - 1);
      assert Encode(Frame(TAG_PONG, 0)) == [0x02, 0x00, 0x00];
      assert Pongs(count) == Pongs(count - 1) + [0x02, 0x00, 0x00];
    }
  }

  /** One connection of the client to the server, cut after `k` bytes of what the server wrote: with a
      whole handshake the client learns both ports, and exactly when no PONG fails it handles all the
      frames that arrived whole. When the port file cannot be written, or the connection not be cloned,
      it handles none. */
  method Attend(ctrl: Source, back: Sink, saved: bool, cloned: bool,
                ghost publicPort: u16, ghost dataPort: u16, ghost frames: seq<Frame>, ghost k: nat)
    returns (ok: bool, public: u16, data: u16, dialed: seq<u16>, handled: nat, streamEnded: bool)
    requires k <= |ServerStream(publicPort, dataPort, frames)|
    requires ctrl.incoming == ServerStream(publicPort, dataPort, frames)[..k]
    modifies ctrl, back
    ensures ok == (HANDSHAKE_LEN <= k)
    ensures !ok || !saved || !cloned ==> dialed == [] && !streamEnded && back.written == old(back.written)
    ensures ok ==> public == publicPort && data == dataPort
    ensures ok ==> handled <= (k - HANDSHAKE_LEN) / FRAME_LEN <= |frames| && dialed == Opens(frames[..handled])
    ensures ok && saved && cloned && !old(back.broken) ==> (streamEnded <==> !back.broken)
    ensures ok && streamEnded ==> handled == (k - HANDSHAKE_LEN) / FRAME_LEN
                                  && back.written == old(back.written) + Pongs(Pings(frames[..handled]))
  {
    dialed, handled, streamEnded := [], 0, false;
    ok, public, data := ReadHandshake(ctrl);
    if ok && saved {
      ClientReads(publicPort, dataPort, frames, k);
      ghost var arrived := DecodeAll(ctrl.incoming);
      dialed, handled, streamEnded := RunSession(ctrl, back, cloned);
      assert arrived[..handled] == frames[..handled];
      assert arrived[..|arrived|] == arrived;
    }
  }

  lemma NoFrame(bytes: seq<u8>)
    requires |bytes| < FRAME_LEN
    ensures DecodeAll(bytes) == []
  {
  }

  /** Three more bytes are one more frame. */
  lemma NextFrame(bytes: seq<u8>, buf: seq<u8>, rest: seq<u8>, frames: seq<Frame>, n: nat)
    requires bytes == buf + rest && |buf| == FRAME_LEN && n <= |frames| && DecodeAll(bytes) == frames[n..]
    ensures n < |frames| && frames[n] == Decode(buf) && DecodeAll(rest) == frames[n + 1..]
  {
    assert bytes[..FRAME_LEN] == buf && bytes[FRAME_LEN..] == rest;
    assert frames[n..][1..] == frames[n + 1..];
  }

  lemma NextOpens(frames: seq<Frame>, n: nat)
    requires n < |frames|
    ensures Opens(frames[..n + 1]) == Opens(frames[..n]) + if frames[n].tag == TAG_OPEN then [frames[n].streamId] else []
  {
    assert frames[..n + 1][..n] == frames[..n];
  }

  lemma NextPongs(frames: seq<Frame>, n: nat)
    requires n < |frames|
    ensures Pongs(Pings(frames[..n + 1]))
         == Pongs(Pings(frames[..n])) + if frames[n].tag == TAG_PING then Encode(Frame(TAG_PONG, 0)) else []
  {
    assert frames[..n + 1][..n] == frames[..n];
  }

  // ---- one direction of a splice ----

  /** Copies until the source ends or the destination fails, then closes the destination. What was
      written is a prefix of the source, and all of it unless the destination failed. */
  method CopyHalf(src: Source, dst: Sink) returns (failed: bool)
    requires !dst.closed
    modifies src, dst
    ensures dst.closed
    ensures !old(dst.broken) ==> (failed <==> dst.broken)
    ensures |old(dst.written)| <= |dst.written| && dst.written <= old(dst.written) + old(src.incoming)
    ensures !failed ==> dst.written == old(dst.written) + old(src.incoming)
  {
    failed := false;
    while true
      invariant !failed && dst.written + src.incoming == old(dst.written) + old(src.incoming)
      invariant |old(dst.written)| <= |dst.written| && dst.broken == old(dst.broken)
      decreases |src.incoming|
    {
      ghost var was := dst.written;
      var got := src.Read(BUFFER_LEN);
      if got == [] {
        break;
      }
      var ok := dst.WriteAll(got);
      if !ok {
        failed := true;
        assert was + got <= old(dst.written) + old(src.incoming);
        break;
      }
    }
    dst.Shutdown();
  }
}
