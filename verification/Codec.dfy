/**
 The frame codec: UTF-8 text ended by a zero byte, decoded one byte at a time into a buffer that
 doubles when it is full.
 */
module Codec {
  import opened Wrappers

  type Byte = b: int | 0 <= b < 256

  /** Section 3 of RFC 3629: the bytes of one Unicode scalar value. */
  function EncodeChar(c: char): (r: seq<Byte>)
    ensures 1 <= |r| <= 4
    ensures 0 in r ==> c == '\0'
  {
    var n := c as int;
    if n < 0x80 then [n]
    else if n < 0x800 then [0xC0 + n / 64, 0x80 + n % 64]
    else if n < 0x1_0000 then [0xE0 + n / 64 / 64, 0x80 + n / 64 % 64, 0x80 + n % 64]
    else [0xF0 + n / 64 / 64 / 64, 0x80 + n / 64 / 64 % 64, 0x80 + n / 64 % 64, 0x80 + n % 64]
  }

  /** Section 3 of RFC 3629: which lengths occur for which values, and which bytes at which places. */
  lemma EncodeShape(c: char)
    ensures var n, r := c as int, EncodeChar(c);
            && |r| == (if n < 0x80 then 1 else if n < 0x800 then 2 else if n < 0x1_0000 then 3 else 4)
            && (|r| == 1 ==> r[0] == n) && (|r| == 2 ==> 0xC2 <= r[0] < 0xE0)
            && (|r| == 3 ==> 0xE0 <= r[0] < 0xF0) && (|r| == 4 ==> 0xF0 <= r[0] < 0xF5)
            && forall i :: 1 <= i < |r| ==> IsTail(r[i])
  {
  }

  /** The order of bytes read as unsigned numbers, first byte first. */
  predicate BytesBefore(a: seq<Byte>, b: seq<Byte>)
    decreases a
  {
    b != [] && (a == [] || a[0] < b[0] || (a[0] == b[0] && BytesBefore(a[1..], b[1..])))
  }

  /** The first place at which the two differ is i, and a has the lesser byte there. */
  predicate LessAt(a: seq<Byte>, b: seq<Byte>, i: nat) {
    i < |a| && i < |b| && a[..i] == b[..i] && a[i] < b[i]
  }

  lemma LessFurther(a: seq<Byte>, b: seq<Byte>, i: nat)
    requires a != [] && b != [] && a[0] == b[0]
    ensures LessAt(a, b, i + 1) <==> LessAt(a[1..], b[1..], i)
  {
    if i < |a[1..]| && i < |b[1..]| {
      assert a[..i + 1] == [a[0]] + a[1..][..i] && b[..i + 1] == [b[0]] + b[1..][..i];
      assert a[1..][..i] == a[..i + 1][1..] && b[1..][..i] == b[..i + 1][1..];
    }
  }

  /** It is decided at the first place where two sequences differ, or by the length of the shorter one. */
  lemma {:induction false} BytesBeforeExactly(a: seq<Byte>, b: seq<Byte>)
    ensures BytesBefore(a, b) <==> (a <= b && a != b) || exists i: nat :: LessAt(a, b, i)
    decreases a
  {
    if a == [] || b == [] {
    } else if a[0] == b[0] {
      assert a == [a[0]] + a[1..] && b == [b[0]] + b[1..];
      BytesBeforeExactly(a[1..], b[1..]);
      hide BytesBefore;
      assert BytesBefore(a, b) <==> BytesBefore(a[1..], b[1..]) by {
        BeforeMore(a, b);
      }
      forall i: nat ensures LessAt(a, b, i + 1) <==> LessAt(a[1..], b[1..], i) {
        LessFurther(a, b, i);
      }
      assert !LessAt(a, b, 0);
      if i: nat :| LessAt(a, b, i) {
        assert LessAt(a[1..], b[1..], i - 1);
      }
    } else {
      assert LessAt(a, b, 0) <==> a[0] < b[0];
    }
  }

  lemma BeforeMore(a: seq<Byte>, b: seq<Byte>)
    requires a != [] && b != [] && a[0] == b[0]
    ensures BytesBefore(a, b) <==> BytesBefore(a[1..], b[1..])
  {
  }

  function EncodeText(s: string): seq<Byte> {
    if s == "" then [] else EncodeChar(s[0]) + EncodeText(s[1..])
  }

  predicate IsTail(b: Byte) { 0x80 <= b < 0xC0 }

  /** A value extended by the six payload bits of a tail byte. */
  function Join(high: int, b: Byte): int {
    high * 64 + (b as int - 0x80)
  }

  /** The number the first character of s stands for and its length; None if s starts no character. */
  function Scalar(s: seq<Byte>): Option<(int, nat)>
    requires s != []
  {
    if s[0] < 0x80 then Some((s[0], 1))
    else if 0xC0 <= s[0] < 0xE0 && |s| >= 2 && IsTail(s[1])
    then Some((Join(s[0] as int - 0xC0, s[1]), 2))
    else if 0xE0 <= s[0] < 0xF0 && |s| >= 3 && IsTail(s[1]) && IsTail(s[2])
    then Some((Join(Join(s[0] as int - 0xE0, s[1]), s[2]), 3))
    else if 0xF0 <= s[0] < 0xF8 && |s| >= 4 && IsTail(s[1]) && IsTail(s[2]) && IsTail(s[3])
    then Some((Join(Join(Join(s[0] as int - 0xF0, s[1]), s[2]), s[3]), 4))
    else None
  }

  /** The shortest form is the only legal one, and surrogates are not characters. */
  predicate IsLegal(n: int, length: nat) {
    && (0 <= n < 0xD800 || 0xE000 <= n < 0x11_0000)
    && length == (if n < 0x80 then 1 else if n < 0x800 then 2 else if n < 0x1_0000 then 3 else 4)
  }

  /** A byte that starts no legal character stands for U+FFFD. */
  function DecodeText(s: seq<Byte>): string
    decreases |s|
  {
    if s == [] then "" else
    match Scalar(s)
    case Some((n, length)) =>
      if IsLegal(n, length) then [n as char] + DecodeText(s[length..])
      else ['\U{FFFD}'] + DecodeText(s[1..])
    case None => ['\U{FFFD}'] + DecodeText(s[1..])
  }

  lemma ScalarOfChar(c: char, rest: seq<Byte>)
    ensures Scalar(EncodeChar(c) + rest) == Some((c as int, |EncodeChar(c)|))
    ensures IsLegal(c as int, |EncodeChar(c)|)
  {
  }

  lemma {:induction false} TextRoundTrip(s: string)
    ensures DecodeText(EncodeText(s)) == s
  {
    if s == "" {
    } else {
      var rest := EncodeText(s[1..]);
      ScalarOfChar(s[0], rest);
      assert (EncodeChar(s[0]) + rest)[|EncodeChar(s[0])|..] == rest;
      TextRoundTrip(s[1..]);
    }
  }

  /** Only U+0000 produces a zero byte. */
  lemma {:induction false} ZeroOnlyForNul(s: string)
    ensures 0 in EncodeText(s) <==> '\0' in s
  {
    if s == "" {
    } else {
      ZeroOnlyForNul(s[1..]);
      assert s == [s[0]] + s[1..];
    }
  }

  lemma {:induction false} TextAppend(s: string, t: string)
    ensures EncodeText(s + t) == EncodeText(s) + EncodeText(t)
  {
    if s == "" {
      assert s + t == t;
    } else {
      assert (s + t)[1..] == s[1..] + t;
      TextAppend(s[1..], t);
    }
  }

  /** A frame on the wire. */
  function Encode(message: string): seq<Byte> {
    EncodeText(message + "\0")
  }

  lemma EncodeIs(message: string)
    ensures Encode(message) == EncodeText(message) + [0]
  {
    TextAppend(message, "\0");
    assert "\0"[1..] == "";
    assert EncodeText("\0") == [0];
  }

  function EncodeAll(messages: seq<string>): seq<Byte> {
    if messages == [] then [] else Encode(messages[0]) + EncodeAll(messages[1..])
  }

  /** What a decoder holds back and the frames it has released. */
  datatype Decoded = Decoded(pending: seq<Byte>, frames: seq<string>)

  const Fresh := Decoded([], [])

  function Feed(d: Decoded, b: Byte): Decoded {
    if b == 0 then Decoded([], d.frames + [DecodeText(d.pending)]) else Decoded(d.pending + [b], d.frames)
  }

  function FeedAll(d: Decoded, bs: seq<Byte>): Decoded
    decreases bs
  {
    if bs == [] then d else FeedAll(Feed(d, bs[0]), bs[1..])
  }

  /** Chunk boundaries are invisible. */
  lemma {:induction false} FeedAppend(d: Decoded, x: seq<Byte>, y: seq<Byte>)
    ensures FeedAll(d, x + y) == FeedAll(FeedAll(d, x), y)
    decreases x
  {
    if x == [] {
      assert x + y == y;
    } else {
      assert (x + y)[0] == x[0] && (x + y)[1..] == x[1..] + y;
      FeedAppend(Feed(d, x[0]), x[1..], y);
    }
  }

  lemma FeedOneMore(d: Decoded, x: seq<Byte>, b: Byte)
    ensures FeedAll(d, x + [b]) == Feed(FeedAll(d, x), b)
  {
    FeedAppend(d, x, [b]);
    assert FeedAll(FeedAll(d, x), [b]) == FeedAll(Feed(FeedAll(d, x), b), []);
  }

  /** Released frames are never taken back. */
  lemma {:induction false} FramesGrow(d: Decoded, x: seq<Byte>)
    ensures d.frames <= FeedAll(d, x).frames
    decreases x
  {
    if x == [] {
    } else {
      FramesGrow(Feed(d, x[0]), x[1..]);
    }
  }

  lemma {:induction false} FeedText(d: Decoded, x: seq<Byte>)
    requires 0 !in x
    ensures FeedAll(d, x) == Decoded(d.pending + x, d.frames)
    decreases x
  {
    if x == [] {
      assert d.pending + x == d.pending;
    } else {
      FeedText(Feed(d, x[0]), x[1..]);
      assert d.pending + [x[0]] + x[1..] == d.pending + x;
    }
  }

  lemma FeedFrame(d: Decoded, message: string)
    requires '\0' !in message && d.pending == []
    ensures FeedAll(d, Encode(message)) == Decoded([], d.frames + [message])
  {
    var text := EncodeText(message);
    EncodeIs(message);
    ZeroOnlyForNul(message);
    FeedText(d, text);
    assert d.pending + text == text;
    FeedOneMore(d, text, 0);
    TextRoundTrip(message);
  }

  /** Any list of NUL-free strings survives encoding, transmission and decoding. */
  lemma {:induction false} FramesRoundTrip(d: Decoded, messages: seq<string>)
    requires d.pending == [] && forall i :: 0 <= i < |messages| ==> '\0' !in messages[i]
    ensures FeedAll(d, EncodeAll(messages)) == Decoded([], d.frames + messages)
    decreases messages
  {
    if messages == [] {
      assert d.frames + messages == d.frames;
    } else {
      FeedFrame(d, messages[0]);
      var d' := FeedAll(d, Encode(messages[0]));
      FeedAppend(d, Encode(messages[0]), EncodeAll(messages[1..]));
      FramesRoundTrip(d', messages[1..]);
      assert d.frames + [messages[0]] + messages[1..] == d.frames + messages;
    }
  }

  predicate NulFree(messages: seq<string>) {
    forall m :: m in messages ==> '\0' !in m
  }

  /** Every zero byte releases a frame. */
  lemma {:induction false} ZeroReleases(d: Decoded, x: seq<Byte>)
    ensures |FeedAll(d, x).frames| >= |d.frames| + (if 0 in x then 1 else 0)
    decreases x
  {
    if x == [] {
    } else {
      assert x == [x[0]] + x[1..];
      ZeroReleases(Feed(d, x[0]), x[1..]);
    }
  }

  /** A message is one frame more, and a message with U+0000 inside at least two. */
  lemma EncodeReleases(d: Decoded, message: string)
    ensures |FeedAll(d, Encode(message)).frames| >= |d.frames| + 1 + (if '\0' in message then 1 else 0)
  {
    var text := EncodeText(message);
    EncodeIs(message);
    ZeroOnlyForNul(message);
    ZeroReleases(d, text);
    FeedOneMore(d, text, 0);
  }

  lemma {:induction false} EncodeAllReleases(d: Decoded, messages: seq<string>)
    ensures |FeedAll(d, EncodeAll(messages)).frames| >= |d.frames| + |messages| + (if NulFree(messages) then 0 else 1)
    decreases messages
  {
    if messages == [] {
    } else {
      var first, more := Encode(messages[0]), EncodeAll(messages[1..]);
      FeedAppend(d, first, more);
      EncodeReleases(d, messages[0]);
      EncodeAllReleases(FeedAll(d, first), messages[1..]);
      assert messages == [messages[0]] + messages[1..];
    }
  }

  /**
   What arrives: messages sent one after another, whatever the chunks in which their bytes come, leave a
   decoder between two frames as exactly these messages if and only if none of them contains U+0000.
   */
  lemma ArriveExactly(past: seq<string>, messages: seq<string>, chunks: seq<seq<Byte>>)
    requires Concat(chunks) == EncodeAll(messages)
    ensures FeedChunks(Decoded([], past), chunks) == Decoded([], past + messages) <==> NulFree(messages)
    ensures FeedChunks(Decoded([], past), chunks).frames == past + messages <==> NulFree(messages)
  {
    ChunkingIsInvisible(Decoded([], past), chunks);
    EncodeAllReleases(Decoded([], past), messages);
    if NulFree(messages) {
      FramesRoundTrip(Decoded([], past), messages);
    }
  }

  lemma EncodeOne(message: string)
    ensures EncodeAll([message]) == Encode(message) && (NulFree([message]) <==> '\0' !in message)
  {
    assert EncodeAll([message][1..]) == [];
    assert Encode(message) + [] == Encode(message);
    assert message in [message];
  }

  /** U+0000 inside a text looks like the end of one message and the start of another. */
  lemma EncodeTwo(first: string, second: string)
    ensures Encode(first + "\0" + second) == EncodeAll([first, second])
  {
    EncodeOne(second);
    TextAppend(first + "\0", second + "\0");
    assert [first, second][1..] == [second];
    assert (first + "\0" + second) + "\0" == (first + "\0") + (second + "\0");
  }

  /** The same for one message. */
  lemma ArrivesExactly(past: seq<string>, message: string, chunks: seq<seq<Byte>>)
    requires Concat(chunks) == Encode(message)
    ensures FeedChunks(Decoded([], past), chunks) == Decoded([], past + [message]) <==> '\0' !in message
    ensures FeedChunks(Decoded([], past), chunks).frames == past + [message] <==> '\0' !in message
  {
    EncodeOne(message);
    ArriveExactly(past, [message], chunks);
  }

  /** A text decoded from bytes without a zero byte has no U+0000. */
  lemma {:induction false} NoZeroNoNul(s: seq<Byte>)
    requires 0 !in s
    ensures '\0' !in DecodeText(s)
    decreases |s|
  {
    if s == [] {
    } else {
      assert s[0] in s;
      var one := Scalar(s);
      if one.Some? && IsLegal(one.value.0, one.value.1) {
        NoZeroNoNul(s[one.value.1..]);
      } else {
        NoZeroNoNul(s[1..]);
      }
    }
  }

  /** So no frame that a decoder releases contains U+0000. */
  lemma {:induction false} FramesAreNulFree(d: Decoded, x: seq<Byte>)
    requires NulFree(d.frames) && 0 !in d.pending
    ensures NulFree(FeedAll(d, x).frames) && 0 !in FeedAll(d, x).pending
    decreases x
  {
    if x == [] {
    } else {
      NoZeroNoNul(d.pending);
      FramesAreNulFree(Feed(d, x[0]), x[1..]);
    }
  }

  /** A loop that ends with the first frame, counted from none, on which process throws. */
  function FeedUntil(d: Decoded, bs: seq<Byte>, throws: set<nat>): Decoded
    decreases bs
  {
    if bs == [] then d
    else if bs[0] == 0 && |d.frames| in throws then Feed(d, bs[0])
    else FeedUntil(Feed(d, bs[0]), bs[1..], throws)
  }

  /** Without a throw among the frames to come the loop sees them all. */
  lemma {:induction false} NothingThrown(d: Decoded, bs: seq<Byte>, throws: set<nat>)
    requires forall k :: k in throws ==> k < |d.frames| || k >= |FeedAll(d, bs).frames|
    ensures FeedUntil(d, bs, throws) == FeedAll(d, bs)
    decreases bs
  {
    if bs == [] {
    } else {
      FramesGrow(Feed(d, bs[0]), bs[1..]);
      NothingThrown(Feed(d, bs[0]), bs[1..], throws);
    }
  }

  /** With one the loop sees everything up to the end of that frame, and nothing after it. */
  lemma {:induction false} ThrownAt(d: Decoded, x: seq<Byte>, more: seq<Byte>, throws: set<nat>)
    requires |FeedAll(d, x).frames| in throws
    requires forall k :: k in throws ==> k < |d.frames| || k >= |FeedAll(d, x).frames|
    ensures FeedUntil(d, x + [0] + more, throws) == FeedAll(d, x + [0])
    decreases x
  {
    if x == [] {
      assert x + [0] + more == [0] + more && x + [0] == [0];
      assert FeedAll(d, [0]) == FeedAll(Feed(d, 0), []);
    } else {
      FramesGrow(Feed(d, x[0]), x[1..]);
      assert (x + [0] + more)[0] == x[0] && (x + [0] + more)[1..] == x[1..] + [0] + more;
      assert (x + [0])[0] == x[0] && (x + [0])[1..] == x[1..] + [0];
      ThrownAt(Feed(d, x[0]), x[1..], more, throws);
    }
  }

  function FeedChunks(d: Decoded, chunks: seq<seq<Byte>>): Decoded
    decreases chunks
  {
    if chunks == [] then d else FeedChunks(FeedAll(d, chunks[0]), chunks[1..])
  }

  function Concat(chunks: seq<seq<Byte>>): seq<Byte> {
    if chunks == [] then [] else chunks[0] + Concat(chunks[1..])
  }

  lemma {:induction false} ChunkingIsInvisible(d: Decoded, chunks: seq<seq<Byte>>)
    ensures FeedChunks(d, chunks) == FeedAll(d, Concat(chunks))
    decreases chunks
  {
    if chunks == [] {
    } else {
      FeedAppend(d, chunks[0], Concat(chunks[1..]));
      ChunkingIsInvisible(FeedAll(d, chunks[0]), chunks[1..]);
    }
  }

  /** Tasks that each end with the first frame on which process throws; the next task starts all the same. */
  function FeedTasks(d: Decoded, chunks: seq<seq<Byte>>, throws: set<nat>): Decoded
    decreases chunks
  {
    if chunks == [] then d else FeedTasks(FeedUntil(d, chunks[0], throws), chunks[1..], throws)
  }

  lemma {:induction false} UntilGrows(d: Decoded, bs: seq<Byte>, throws: set<nat>)
    ensures d.frames <= FeedUntil(d, bs, throws).frames
    decreases bs
  {
    if bs == [] || (bs[0] == 0 && |d.frames| in throws) {
    } else {
      UntilGrows(Feed(d, bs[0]), bs[1..], throws);
    }
  }

  lemma {:induction false} TasksGrow(d: Decoded, chunks: seq<seq<Byte>>, throws: set<nat>)
    ensures d.frames <= FeedTasks(d, chunks, throws).frames
    decreases chunks
  {
    if chunks == [] {
    } else {
      UntilGrows(d, chunks[0], throws);
      TasksGrow(FeedUntil(d, chunks[0], throws), chunks[1..], throws);
    }
  }

  /** One loop over two inputs ends in the first, or goes on into the second. */
  lemma {:induction false} UntilAppend(d: Decoded, x: seq<Byte>, y: seq<Byte>, throws: set<nat>)
    ensures FeedUntil(d, x + y, throws) == FeedUntil(d, x, throws)
            || FeedUntil(d, x + y, throws) == FeedUntil(FeedUntil(d, x, throws), y, throws)
    decreases x
  {
    if x == [] {
      assert x + y == y;
    } else {
      assert (x + y)[0] == x[0] && (x + y)[1..] == x[1..] + y;
      UntilAppend(Feed(d, x[0]), x[1..], y, throws);
    }
  }

  /** The tasks hand over at least what one loop over everything does. */
  lemma {:induction false} TasksGoOn(d: Decoded, chunks: seq<seq<Byte>>, throws: set<nat>)
    ensures FeedUntil(d, Concat(chunks), throws).frames <= FeedTasks(d, chunks, throws).frames
    decreases chunks
  {
    if chunks == [] {
    } else {
      var d' := FeedUntil(d, chunks[0], throws);
      UntilAppend(d, chunks[0], Concat(chunks[1..]), throws);
      TasksGoOn(d', chunks[1..], throws);
      TasksGrow(d', chunks[1..], throws);
    }
  }

  /** A loop that has handed over no frame to throw on has seen all its input. */
  lemma {:induction false} UntilQuiet(d: Decoded, bs: seq<Byte>, throws: set<nat>)
    requires forall k :: k in throws ==> k < |d.frames| || k >= |FeedUntil(d, bs, throws).frames|
    ensures FeedUntil(d, bs, throws) == FeedAll(d, bs)
    decreases bs
  {
    if bs == [] {
    } else if bs[0] == 0 && |d.frames| in throws {
      assert false;
    } else {
      UntilGrows(Feed(d, bs[0]), bs[1..], throws);
      UntilQuiet(Feed(d, bs[0]), bs[1..], throws);
    }
  }

  /** Tasks that have handed over no frame to throw on have seen all the chunks. */
  lemma {:induction false} TasksQuiet(d: Decoded, chunks: seq<seq<Byte>>, throws: set<nat>)
    requires forall k :: k in throws ==> k < |d.frames| || k >= |FeedTasks(d, chunks, throws).frames|
    ensures FeedTasks(d, chunks, throws) == FeedAll(d, Concat(chunks))
    decreases chunks
  {
    if chunks == [] {
    } else {
      var d' := FeedUntil(d, chunks[0], throws);
      TasksGrow(d', chunks[1..], throws);
      UntilQuiet(d, chunks[0], throws);
      UntilGrows(d, chunks[0], throws);
      TasksQuiet(d', chunks[1..], throws);
      FeedAppend(d, chunks[0], Concat(chunks[1..]));
    }
  }

  /** A partial write moves bytes across, and loses none. */
  lemma PartialWrite(accepted: seq<Byte>, x: seq<Byte>, n: nat, more: seq<Byte>)
    requires n <= |x|
    ensures accepted + x[..n] + (x[n..] + more) == accepted + (x + more)
  {
    assert x == x[..n] + x[n..];
  }

  function Pow2(k: nat): nat {
    if k == 0 then 1 else 2 * Pow2(k - 1)
  }

  /** The decoder object: a growing byte array and the number of bytes in use. */
  class StompMessageEncoderDecoder {
    var bytes: array<Byte>
    var len: nat
    /** How often the array has doubled, the bytes copied by doing so, and the longest frame so far. */
    ghost var doublings: nat
    ghost var copied: nat
    ghost var longest: nat

    ghost predicate Valid()
      reads this
    {
      && len <= bytes.Length && len <= longest
      && bytes.Length == 1024 * Pow2(doublings)
      && copied == bytes.Length - 1024
      && (bytes.Length == 1024 || bytes.Length < 2 * longest)
    }

    ghost function Pending(): seq<Byte>
      requires len <= bytes.Length
      reads this, bytes
    {
      bytes[..len]
    }

    constructor ()
      ensures Valid() && fresh(bytes) && Pending() == [] && bytes.Length == 1024 && longest == 0
    {
      bytes := new Byte[1024](_ => 0);
      len := 0;
      doublings, copied, longest := 0, 0, 0;
    }

    /** A longer copy of an array, filled up with zeros. */
    static method CopyOf(original: array<Byte>, newLength: nat) returns (copy: array<Byte>)
      requires original.Length <= newLength
      ensures fresh(copy) && copy.Length == newLength && copy[..original.Length] == original[..]
    {
      copy := new Byte[newLength](_ => 0);
      for i := 0 to original.Length
        modifies copy
        invariant copy[..i] == original[..i]
      {
        copy[i] := original[i];
      }
      assert original[..original.Length] == original[..];
    }

    method PushByte(nextByte: Byte)
      requires Valid()
      modifies this, bytes
      ensures Valid() && Pending() == old(Pending()) + [nextByte]
      ensures bytes == old(bytes) || fresh(bytes)
      ensures longest == if old(len) < old(longest) then old(longest) else old(len) + 1
    {
      if len >= bytes.Length {
        copied := copied + len;
        doublings := doublings + 1;
        bytes := CopyOf(bytes, len * 2);
      }
      bytes[len] := nextByte;
      len := len + 1;
      longest := if longest < len then len else longest;
    }

    method PopString() returns (result: string)
      requires Valid()
      modifies this`len
      ensures Valid() && Pending() == [] && result == DecodeText(old(Pending()))
    {
      ghost var text := Pending();
      var taken := bytes[..len];
      result := DecodeText(taken);
      len := 0;
    }

    /** One byte in; a frame out when the byte is zero. */
    method DecodeNextByte(nextByte: Byte) returns (frame: Option<string>)
      requires Valid()
      modifies this, bytes
      ensures Valid() && (bytes == old(bytes) || fresh(bytes))
      ensures forall frames :: Feed(Decoded(old(Pending()), frames), nextByte)
                               == Decoded(Pending(), if frame.Some? then frames + [frame.value] else frames)
      ensures longest == if nextByte == 0 || old(len) < old(longest) then old(longest) else old(len) + 1
    {
      if nextByte == 0 {
        var s := PopString();
        return Some(s);
      }
      PushByte(nextByte);
      return None;
    }
  }
}
