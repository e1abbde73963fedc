/** The loops of the two connection handlers, over the decoder object. */
module Handlers {
  import opened Codec
  import R = Reactor
  import W = ReactorWrite

  /** What a handler has seen: the bytes its decoder holds back and the frames it gave to process. */
  class FrameReader {
    const encdec: StompMessageEncoderDecoder
    var processed: seq<string>

    ghost predicate Valid()
      reads this, encdec
    {
      encdec.Valid()
    }

    ghost function Seen(): Decoded
      requires Valid()
      reads this, encdec, encdec.bytes
    {
      Decoded(encdec.Pending(), processed)
    }

    constructor ()
      ensures Valid() && Seen() == Fresh
      ensures fresh(encdec) && fresh(encdec.bytes)
    {
      encdec := new StompMessageEncoderDecoder();
      processed := [];
    }

    /** One byte: process is handed the frame that it completes, if any. */
    method ReadByte(b: Byte, throws: set<nat>) returns (threw: bool)
      requires Valid()
      modifies this, encdec, encdec.bytes
      ensures Valid() && (encdec.bytes == old(encdec.bytes) || fresh(encdec.bytes))
      ensures Seen() == Feed(old(Seen()), b)
      ensures threw <==> b == 0 && |old(processed)| in throws
    {
      ghost var before := processed;
      var nextMessage := encdec.DecodeNextByte(b);
      assert Feed(Decoded(old(encdec.Pending()), before), b)
          == Decoded(encdec.Pending(), if nextMessage.Some? then before + [nextMessage.value] else before);
      if nextMessage.Some? {
        processed := processed + [nextMessage.value];
        threw := |processed| - 1 in throws;
      } else {
        threw := false;
      }
    }

    /**
     The loop of the blocking handler over its input, and of a reactor task over its buffer. process
     throws on the frames in `throws`, counted from the connection's first, and so ends the loop.
     */
    method ReadAll(input: seq<Byte>, throws: set<nat>) returns (threw: bool)
      requires Valid()
      modifies this, encdec, encdec.bytes
      ensures Valid() && (encdec.bytes == old(encdec.bytes) || fresh(encdec.bytes))
      ensures Seen() == FeedUntil(old(Seen()), input, throws)
      ensures threw <==> exists k :: k in throws && |old(processed)| <= k < |processed|
    {
      hide Feed;
      hide FeedUntil;
      assert input[0..] == input;
      for i := 0 to |input|
        invariant Valid() && (encdec.bytes == old(encdec.bytes) || fresh(encdec.bytes))
        invariant FeedUntil(Seen(), input[i..], throws) == FeedUntil(old(Seen()), input, throws)
        invariant old(processed) <= processed
        invariant forall k :: k in throws ==> k < |old(processed)| || k >= |processed|
      {
        FeedGrows(Seen(), input[i]);
        UntilOne(Seen(), input, i, throws);
        threw := ReadByte(input[i], throws);
        if threw {
          return;
        }
      }
      UntilNone(Seen(), input[|input|..], throws);
      return false;
    }
  }

  lemma FeedGrows(d: Decoded, b: Byte)
    ensures d.frames <= Feed(d, b).frames
  {
  }

  lemma UntilOne(d: Decoded, input: seq<Byte>, i: nat, throws: set<nat>)
    requires i < |input|
    ensures var d' := Feed(d, input[i]);
            && |d'.frames| == |d.frames| + (if input[i] == 0 then 1 else 0)
            && FeedUntil(d, input[i..], throws)
               == if input[i] == 0 && |d.frames| in throws then d' else FeedUntil(d', input[i + 1..], throws)
  {
    assert input[i..][0] == input[i] && input[i..][1..] == input[i + 1..];
  }

  lemma UntilNone(d: Decoded, none: seq<Byte>, throws: set<nat>)
    requires |none| == 0
    ensures FeedUntil(d, none, throws) == d
  {
  }

  /**
   Reading in chunks, as reactor tasks do, hands over at least what one pass of the blocking loop does,
   and exactly that if process throws on none of the frames.
   */
  method ReadInChunks(chunks: seq<seq<Byte>>, throws: set<nat>) returns (processed: seq<string>)
    ensures processed == FeedTasks(Fresh, chunks, throws).frames
    ensures FeedUntil(Fresh, Concat(chunks), throws).frames <= processed
    ensures (forall k :: k in throws ==> k >= |processed|) ==> processed == FeedAll(Fresh, Concat(chunks)).frames
  {
    var reader := new FrameReader();
    assert chunks[0..] == chunks;
    for i := 0 to |chunks|
      invariant reader.Valid() && fresh(reader) && fresh(reader.encdec) && fresh(reader.encdec.bytes)
      invariant FeedTasks(reader.Seen(), chunks[i..], throws) == FeedTasks(Fresh, chunks, throws)
    {
      assert chunks[i..][0] == chunks[i] && chunks[i..][1..] == chunks[i + 1..];
      var threw := reader.ReadAll(chunks[i], throws);
    }
    processed := reader.processed;
    TasksGoOn(Fresh, chunks, throws);
    if forall k :: k in throws ==> k >= |processed| {
      TasksQuiet(Fresh, chunks, throws);
    }
  }

  /** The writing half of the non-blocking handler; its channel takes what `takes` says, call by call. */
  class NonBlockingConnectionHandler {
    const chan: R.Channel
    const reactor: R.Reactor
    var response: string
    var writeQueue: seq<seq<Byte>>
    var accepted: seq<Byte>

    constructor (chan: R.Channel, reactor: R.Reactor)
      ensures writeQueue == [] && accepted == [] && this.chan == chan && this.reactor == reactor
    {
      this.chan, this.reactor := chan, reactor;
      response, writeQueue, accepted := "", [], [];
    }

    /** send leaves its argument in a field; the thread it starts is the next method. */
    method Send(msg: string)
      modifies this`response
      ensures response == msg
    {
      response := msg;
    }

    /** The body of that thread: whatever the field holds by then is queued, and write interest asked for. */
    method Respond()
      requires reactor.Valid()
      modifies this`writeQueue, reactor
      ensures reactor.Valid() && Concat(writeQueue) == old(Concat(writeQueue)) + Encode(response)
      ensures reactor.wakeup && reactor.interest == old(reactor.interest)
      ensures R.RunAll(reactor.interest, reactor.selectorTasks)
              == R.Then(R.RunAll(old(reactor.interest), old(reactor.selectorTasks)), R.InterestTask(chan, R.ReadWrite))
    {
      ConcatAppend(writeQueue, Encode(response));
      writeQueue := writeQueue + [Encode(response)];
      var threw := reactor.UpdateInterestedOps(chan, R.ReadWrite, false);
    }

    /**
     The loop of continueWrite, called for a valid key; a channel that takes nothing more is one whose
     script has run out.
     */
    method ContinueWrite(takes: seq<nat>)
      requires reactor.Valid() && chan in reactor.interest
      modifies this`writeQueue, this`accepted, reactor
      ensures reactor.Valid() && accepted + Concat(writeQueue) == old(accepted + Concat(writeQueue))
      ensures old(accepted) <= accepted && reactor.selectorTasks == old(reactor.selectorTasks)
      ensures reactor.interest == if writeQueue == []
              then old(reactor.interest)[chan := R.ReadOnly] else old(reactor.interest)
      ensures W.Wrote(old(writeQueue), takes, accepted[|old(accepted)|..], writeQueue)
      ensures (forall i: nat :: i < |old(writeQueue)| ==> |old(writeQueue)[i]| <= W.Offer(takes, i)) ==>
                writeQueue == [] && accepted == old(accepted) + old(Concat(writeQueue))
    {
      var calls := 0;
      ghost var q := writeQueue;
      assert q[..0] == [];
      while writeQueue != []
        invariant calls <= |q| && writeQueue == q[calls..]
        invariant forall i: nat :: i < calls ==> |q[i]| <= W.Offer(takes, i)
        invariant accepted == old(accepted) + Concat(q[..calls])
        invariant accepted + Concat(writeQueue) == old(accepted) + Concat(q)
        invariant reactor.Valid() && unchanged(reactor)
        decreases |writeQueue|
      {
        var top := writeQueue[0];
        var offer := W.Offer(takes, calls);
        var n := if offer < |top| then offer else |top|;
        PartialWrite(accepted, top, n, Concat(writeQueue[1..]));
        assert q[..calls + 1] == q[..calls] + [top];
        ConcatAppend(q[..calls], top);
        accepted := accepted + top[..n];
        writeQueue := [top[n..]] + writeQueue[1..];
        if writeQueue[0] != [] {
          assert accepted[|old(accepted)|..] == Concat(q[..calls]) + top[..n];
          assert W.WroteFirst(q, takes, calls, accepted[|old(accepted)|..], writeQueue);
          return;
        }
        assert top[..n] == top && [] + Concat(writeQueue[1..]) == Concat(writeQueue[1..]);
        assert Concat(q[..calls]) + top == Concat(q[..calls + 1]);
        writeQueue := writeQueue[1..];
        calls := calls + 1;
      }
      assert q[..calls] == q;
      assert accepted[|old(accepted)|..] == Concat(q);
      assert W.WroteFirst(q, takes, calls, accepted[|old(accepted)|..], writeQueue);
      var threw := reactor.UpdateInterestedOps(chan, R.ReadOnly, true);
    }
  }

  lemma {:induction false} ConcatAppend(q: seq<seq<Byte>>, x: seq<Byte>)
    ensures Concat(q + [x]) == Concat(q) + x
  {
    if q == [] {
      assert Concat([x]) == x + Concat([x][1..]);
    } else {
      assert (q + [x])[1..] == q[1..] + [x];
      ConcatAppend(q[1..], x);
      assert q[0] + (Concat(q[1..]) + x) == q[0] + Concat(q[1..]) + x;
    }
  }
}
