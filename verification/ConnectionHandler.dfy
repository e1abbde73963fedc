/** The client's end of a connection: the loops that write a frame and read one, byte by byte. */
module ConnectionHandler {
  import opened Codec

  /** `incoming` is what will still arrive before the connection ends, `outgoing` what has been written. */
  class ConnectionHandler {
    var incoming: seq<Byte>
    var outgoing: seq<Byte>

    constructor (incoming: seq<Byte>)
      ensures this.incoming == incoming && outgoing == []
    {
      this.incoming := incoming;
      outgoing := [];
    }

    method GetByte() returns (ok: bool, ch: Byte)
      modifies this`incoming
      ensures ok <==> old(incoming) != []
      ensures if ok then old(incoming) == [ch] + incoming else incoming == old(incoming)
    {
      if incoming == [] {
        return false, 0;
      }
      ok, ch := true, incoming[0];
      incoming := incoming[1..];
    }

    /** The socket takes some bytes at each turn. */
    method SendBytes(bytes: seq<Byte>)
      modifies this`outgoing
      ensures outgoing == old(outgoing) + bytes
    {
      var tmp := 0;
      while tmp < |bytes|
        invariant tmp <= |bytes| && outgoing == old(outgoing) + bytes[..tmp]
      {
        var taken: nat :| 1 <= taken <= |bytes| - tmp;
        outgoing := outgoing + bytes[tmp..tmp + taken];
        tmp := tmp + taken;
      }
    }

    /** The bytes up to the delimiter, which is taken off; false if the connection ends before it. */
    method GetFrameAscii(delimiter: Byte) returns (ok: bool, frame: seq<Byte>)
      modifies this`incoming
      ensures ok <==> delimiter in old(incoming)
      ensures delimiter !in frame
      ensures old(incoming) == if ok then frame + [delimiter] + incoming else frame
      ensures !ok ==> incoming == []
    {
      frame := [];
      var ch;
      ok, ch := GetByte();
      while ok && ch != delimiter
        invariant delimiter !in frame
        invariant old(incoming) == if ok then frame + [ch] + incoming else frame
        invariant !ok ==> incoming == []
        decreases if ok then |incoming| + 1 else 0
      {
        frame := frame + [ch];
        ok, ch := GetByte();
      }
    }

    /** A frame read is the next frame a decoder of the same bytes releases. */
    method GetFrame(ghost past: seq<string>) returns (ok: bool, frame: seq<Byte>)
      modifies this`incoming
      ensures ok <==> |FeedAll(Decoded([], past), old(incoming)).frames| > |past|
      ensures ok ==> FeedAll(Decoded([], past), old(incoming))
                     == FeedAll(Decoded([], past + [DecodeText(frame)]), incoming)
      ensures if ok then |incoming| < |old(incoming)|
              else incoming == [] && FeedAll(Decoded([], past), old(incoming)).frames == past
    {
      ok, frame := GetFrameAscii(0);
      if ok {
        FrameOff(past, frame, incoming);
        FramesGrow(Decoded([], past + [DecodeText(frame)]), incoming);
      } else {
        FeedText(Decoded([], past), frame);
      }
    }

    method SendFrameAscii(frame: seq<Byte>, delimiter: Byte)
      modifies this`outgoing
      ensures outgoing == old(outgoing) + frame + [delimiter]
      ensures forall text :: frame == EncodeText(text) && delimiter == 0 ==> outgoing == old(outgoing) + Encode(text)
    {
      SendBytes(frame);
      SendBytes([delimiter]);
      forall text {
        EncodeIs(text);
      }
      assert outgoing == old(outgoing) + (frame + [delimiter]);
    }
  }

  lemma FrameOff(past: seq<string>, frame: seq<Byte>, more: seq<Byte>)
    requires 0 !in frame
    ensures FeedAll(Decoded([], past), frame + [0] + more) == FeedAll(Decoded([], past + [DecodeText(frame)]), more)
  {
    FeedAppend(Decoded([], past), frame + [0], more);
    FeedText(Decoded([], past), frame);
    assert [] + frame == frame;
    FeedOneMore(Decoded([], past), frame, 0);
  }

  /** Reading frame after frame until the connection ends gives the frames a decoder releases. */
  method ReadFrames(ch: ConnectionHandler) returns (frames: seq<string>)
    modifies ch`incoming
    ensures frames == FeedAll(Fresh, old(ch.incoming)).frames && ch.incoming == []
  {
    frames := [];
    var more := true;
    while more
      invariant FeedAll(Fresh, old(ch.incoming)).frames == FeedAll(Decoded([], frames), ch.incoming).frames
      invariant !more ==> ch.incoming == []
      decreases if more then |ch.incoming| + 1 else 0
    {
      ghost var before := ch.incoming;
      var frame;
      more, frame := ch.GetFrame(frames);
      if more {
        frames := frames + [DecodeText(frame)];
      }
    }
  }
}
