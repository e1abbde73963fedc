/**
 The read side of the reactor with the broker behind it: every frame a task completes is handed to
 process, and process throws where the broker does.
 */
module ReactorBroker {
  import opened Wrappers
  import opened Codec
  import R = ReactorRead
  import B = Broker
  import I = BrokerInvariant
  import D = BrokerDelivery

  /** A frame handed to process: the tables it met, its text, and whether process threw. */
  datatype Handed = Handed(before: B.State, text: string, threw: bool)

  /** `handed` only records, connection by connection, what process was handed. */
  datatype State = State(input: R.State, broker: B.State, handed: map<R.Conn, seq<Handed>>)

  const Start := State(R.Start, B.Start, map[])

  datatype Event =
    | Accept(conn: R.Conn)
    | Move(event: R.Event)
    | Decode(worker: nat, conn: R.Conn, pick: string)

  predicate Can(y: State, e: Event) {
    match e
    case Accept(_) => true
    case Move(event) => !event.Get? && !event.Throw? && R.Can(y.input, event)
    case Decode(w, c, _) => R.Can(y.input, R.Get(w, c))
  }

  function NextByte(y: State, c: R.Conn): Byte
    requires At(y.input.content, R.BufferOf(y.input, c)) != []
  {
    At(y.input.content, R.BufferOf(y.input, c))[0]
  }

  /** The frame that a zero byte would complete. */
  function NextText(y: State, c: R.Conn): string {
    DecodeText(R.Decoder(y.input, c).pending)
  }

  /** The event of the read side, which is a throw where process throws. */
  function Seen(y: State, e: Event): Option<R.Event>
    requires Can(y, e)
  {
    match e
    case Accept(_) => None
    case Move(event) => Some(event)
    case Decode(w, c, pick) =>
      if NextByte(y, c) == 0 && B.Process(y.broker, c, NextText(y, c), pick).threw
      then Some(R.Throw(w, c)) else Some(R.Get(w, c))
  }

  /** What the broker is told. */
  function Heard(y: State, e: Event): Option<I.Event>
    requires Can(y, e)
  {
    match e
    case Accept(c) => Some(I.Accepted(c))
    case Move(_) => None
    case Decode(_, c, pick) => if NextByte(y, c) == 0 then Some(I.Received(c, NextText(y, c), pick)) else None
  }

  function Do(y: State, e: Event): State {
    if !Can(y, e) then y else
    var heard := Heard(y, e);
    y.(input := if Seen(y, e) == None then y.input else R.Do(y.input, Seen(y, e).value),
       broker := if heard == None then y.broker else I.Step(y.broker, heard.value).state,
       handed := if heard == None || heard.value.Accepted? then y.handed
                 else Push(y.handed, e.conn,
                           Handed(y.broker, NextText(y, e.conn), I.Step(y.broker, heard.value).threw)))
  }

  /** The frames handed over on c are those its decoder has released, and process threw where the record says. */
  ghost predicate RecordOk(y: State, c: R.Conn) {
    var h, frames := At(y.handed, c), R.Decoder(y.input, c).frames;
    && |h| == |frames|
    && (forall k :: 0 <= k < |h| ==> h[k].text == frames[k] && (h[k].threw <==> D.Throws(h[k].before, c, h[k].text)))
    && (forall k: nat :: k in At(y.input.throws, c) <==> k < |h| && h[k].threw)
  }

  ghost predicate Ok(y: State) {
    R.Inv(y.input) && I.Inv(y.broker) && forall c :: RecordOk(y, c)
  }

  predicate Bad(y: State, e: Event) {
    Can(y, e) && Heard(y, e).Some? && I.Bad(y.broker, Heard(y, e).value)
  }

  lemma SeenIsPossible(y: State, e: Event)
    requires Can(y, e) && Seen(y, e).Some?
    ensures R.Can(y.input, Seen(y, e).value)
  {
  }

  /** A byte or another event that hands nothing over on c. */
  lemma NothingHanded(y: State, e: Event, c: R.Conn)
    requires Can(y, e) && RecordOk(y, c) && !(e.Decode? && e.conn == c && NextByte(y, c) == 0)
    ensures RecordOk(Do(y, e), c)
  {
    hide R.Do;
    hide R.Can;
    hide B.Process;
    hide D.Throws;
    if Seen(y, e).Some? {
      SeenIsPossible(y, e);
      R.DecodedThen(y.input, Seen(y, e).value, c);
      R.ThrowsElsewhere(y.input, Seen(y, e).value, c);
    }
    assert At(Do(y, e).handed, c) == At(y.handed, c);
  }

  /** What the read side makes of the zero byte that completes a frame. */
  lemma FrameReleased(y: State, e: Event)
    requires Can(y, e) && e.Decode? && NextByte(y, e.conn) == 0
    ensures var c, frames := e.conn, R.Decoder(y.input, e.conn).frames;
            && R.Decoder(Do(y, e).input, c).frames == frames + [NextText(y, c)]
            && At(Do(y, e).input.throws, c)
               == At(y.input.throws, c)
                  + (if B.Process(y.broker, c, NextText(y, c), e.pick).threw then [|frames|] else [])
  {
    hide R.Do;
    hide R.Can;
    hide B.Process;
    var c := e.conn;
    SeenIsPossible(y, e);
    var event := Seen(y, e).value;
    R.DecodedThen(y.input, event, c);
    if event.Throw? {
      R.ThrowsHere(y.input, event, c);
    } else {
      R.ThrowsElsewhere(y.input, event, c);
    }
  }

  lemma FrameRecorded(y: State, e: Event)
    requires Can(y, e) && e.Decode? && NextByte(y, e.conn) == 0
    ensures var c := e.conn;
            At(Do(y, e).handed, c)
            == At(y.handed, c)
               + [Handed(y.broker, NextText(y, c), B.Process(y.broker, c, NextText(y, c), e.pick).threw)]
  {
    hide R.Do;
    hide R.Can;
    hide B.Process;
  }

  /** A frame handed over. */
  lemma OneHanded(y: State, e: Event)
    requires Can(y, e) && e.Decode? && NextByte(y, e.conn) == 0 && RecordOk(y, e.conn) && I.Inv(y.broker)
    ensures RecordOk(Do(y, e), e.conn)
  {
    hide Do;
    hide Can;
    hide R.Can;
    hide R.Decoder;
    hide NextText;
    hide B.Process;
    hide D.Throws;
    hide I.Inv;
    var c := e.conn;
    FrameReleased(y, e);
    FrameRecorded(y, e);
    D.ThrowsExactly(y.broker, c, NextText(y, c), e.pick);
  }

  lemma OkKept(y: State, e: Event)
    requires Ok(y) && Can(y, e) && !Bad(y, e)
    ensures Ok(Do(y, e))
  {
    hide R.Inv;
    hide I.Inv;
    hide R.Do;
    hide R.Can;
    hide I.Step;
    hide I.Bad;
    hide RecordOk;
    var y' := Do(y, e);
    if Seen(y, e).Some? {
      SeenIsPossible(y, e);
      R.InvKept(y.input, Seen(y, e).value);
    }
    if Heard(y, e).Some? {
      I.StepKeeps(y.broker, Heard(y, e).value);
    }
    forall c ensures RecordOk(y', c) {
      assert RecordOk(y, c);
      if e.Decode? && e.conn == c && NextByte(y, c) == 0 {
        OneHanded(y, e);
      } else {
        NothingHanded(y, e, c);
      }
    }
  }

  function Perform(y: State, run: seq<Event>): State
    decreases run
  {
    if run == [] then y else Perform(Do(y, run[0]), run[1..])
  }

  /** A run without the two kinds of frame that break the broker's indexes. */
  predicate Clean(y: State, run: seq<Event>)
    decreases run
  {
    run == [] || (!Bad(y, run[0]) && Clean(Do(y, run[0]), run[1..]))
  }

  lemma {:induction false} OkAlways(y: State, run: seq<Event>)
    requires Ok(y) && Clean(y, run)
    ensures Ok(Perform(y, run))
    decreases run
  {
    hide Ok;
    hide Bad;
    hide Do;
    if run == [] {
    } else {
      if Can(y, run[0]) {
        OkKept(y, run[0]);
      } else {
        assert Do(y, run[0]) == y by {
          StuckStays(y, run[0]);
        }
      }
      OkAlways(Do(y, run[0]), run[1..]);
    }
  }

  lemma StuckStays(y: State, e: Event)
    requires !Can(y, e)
    ensures Do(y, e) == y
  {
  }

  lemma StartIsOk()
    ensures Ok(Start)
  {
    I.StartAgrees();
  }

  /**
   The modes agree on a connection exactly if each of its frames that was followed by another was readable,
   came while its connection was there, and was no DISCONNECT before login.
   */
  lemma ModesAgreeOnFrames(run: seq<Event>, c: R.Conn)
    requires Clean(Start, run)
    ensures var y := Perform(Start, run);
            var h, frames := At(y.handed, c), R.Decoder(y.input, c).frames;
            && |h| == |frames| && (forall k :: 0 <= k < |h| ==> h[k].text == frames[k])
            && (frames <= R.Blocking(y.input, c).frames
                <==> forall k :: 0 <= k < |h| - 1 ==> !D.Throws(h[k].before, c, h[k].text))
  {
    hide R.Inv;
    hide I.Inv;
    hide D.Throws;
    hide Clean;
    hide Perform;
    StartIsOk();
    OkAlways(Start, run);
    var y := Perform(Start, run);
    R.AgreeExactly(y.input, c);
    assert RecordOk(y, c);
  }
}
