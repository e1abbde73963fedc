/**
 The write side of the reactor: sender threads queue encoded messages and ask the selector thread
 for write interest through a task queue and a wake-up; the selector thread drains the queues
 with partial writes and drops write interest when it finds a queue empty.
 */
module ReactorWrite {
  import opened Wrappers
  import opened Codec

  type Conn = nat

  /**
   The output of one connection. Buffer n holds the n-th message queued; `queue` lists the live
   buffers and `rest` what is left of each. `accepted`, `emitted` and `sent` only record the bytes
   the channel has taken, the messages queued, and the arguments of the calls of send.
   */
  datatype Out = Out(
    response: string,
    queue: seq<nat>,
    rest: map<nat, seq<Byte>>,
    writing: bool,
    accepted: seq<Byte>,
    emitted: seq<string>,
    sent: seq<string>)

  const Unused := Out("", [], map[], false, [], [], [])

  /** The thread that one call of send starts; `own` records the argument of that call. */
  datatype Sender = Started(conn: Conn, own: string) | Posting(conn: Conn) | Waking | Done

  /** The next action of continueWrite. */
  datatype Point = Drain | Write(buf: nat) | Check(buf: nat) | Recheck | DropInterest

  /**
   The selector thread; `keys` are the writable keys it has still to serve in this round. A task whose
   channel has been closed finds no key it could use and throws, which ends the thread.
   */
  datatype Selector =
    | Selecting
    | RunningTasks(keys: seq<Conn>)
    | TaskInHand(conn: Conn, keys: seq<Conn>)
    | Serving(keys: seq<Conn>)
    | Writing(conn: Conn, keys: seq<Conn>, at: Point)
    | Dead

  datatype State = State(
    outs: map<Conn, Out>,
    senders: seq<Sender>,
    tasks: seq<Conn>,
    wakeup: bool,
    selector: Selector,
    closed: set<Conn>)

  const Start := State(map[], [], [], false, Selecting, {})

  function Of(s: State, c: Conn): Out {
    if c in s.outs then s.outs[c] else Unused
  }

  datatype Event =
    | Send(conn: Conn, message: string)
    | Enqueue(i: nat)
    | Post(i: nat)
    | Wake(i: nat)
    | Select(ready: seq<Conn>)
    | Advance(n: nat)
    | Close(conn: Conn)

  predicate CanWrite(o: Out, at: Point, n: nat) {
    match at
    case Write(b) => n <= |At(o.rest, b)|
    case Check(b) => At(o.rest, b) == [] ==> o.queue != []
    case _ => true
  }

  predicate CanAdvance(s: State, n: nat) {
    && s.selector != Selecting && s.selector != Dead
    && (s.selector.Writing? ==> CanWrite(Of(s, s.selector.conn), s.selector.at, n))
  }

  predicate Can(s: State, e: Event) {
    match e
    case Send(_, _) => true
    case Enqueue(i) => i < |s.senders| && s.senders[i].Started?
    case Post(i) => i < |s.senders| && s.senders[i].Posting?
    case Wake(i) => i < |s.senders| && s.senders[i].Waking?
    case Select(ready) => s.selector == Selecting && forall c :: c in ready ==> Of(s, c).writing && c !in s.closed
    case Advance(n) => CanAdvance(s, n)
    case Close(c) => s.selector.Serving? && c !in s.closed
  }

  /** One action of continueWrite; n is what the channel takes of a write. */
  function WriteStep(o: Out, at: Point, n: nat): Out {
    if !CanWrite(o, at, n) then o else
    match at
    case Write(b) =>
      o.(accepted := o.accepted + At(o.rest, b)[..n], rest := o.rest[b := At(o.rest, b)[n..]])
    case Check(b) => if At(o.rest, b) != [] then o else o.(queue := o.queue[1..])
    case DropInterest => o.(writing := false)
    case _ => o
  }

  /** Where continueWrite goes next; None when it returns. */
  function NextPoint(o: Out, at: Point): Option<Point> {
    match at
    case Drain => Some(if o.queue == [] then Recheck else Write(o.queue[0]))
    case Write(b) => Some(Check(b))
    case Check(b) => if At(o.rest, b) != [] then None else Some(Drain)
    case Recheck => if o.queue == [] then Some(DropInterest) else None
    case DropInterest => None
  }

  /** The next action of the selector thread. */
  function DoAdvance(s: State, n: nat): State {
    if !CanAdvance(s, n) then s else
    match s.selector
    case Selecting => s
    case Dead => s
    case RunningTasks(ks) =>
      if s.tasks == [] then s.(selector := Serving(ks))
      else s.(tasks := s.tasks[1..], selector := TaskInHand(s.tasks[0], ks))
    case TaskInHand(c, ks) =>
      if c in s.closed then s.(selector := Dead) else
      s.(outs := s.outs[c := Of(s, c).(writing := true)], selector := RunningTasks(ks))
    case Serving(ks) =>
      s.(selector := if ks == [] then Selecting
                     else if ks[0] in s.closed then Serving(ks[1..])
                     else Writing(ks[0], ks[1..], Drain))
    case Writing(c, ks, at) =>
      var next := NextPoint(Of(s, c), at);
      s.(outs := s.outs[c := WriteStep(Of(s, c), at, n)],
         selector := if next == None then Serving(ks) else Writing(c, ks, next.value))
  }

  function Store(o: Out, m: string): Out {
    o.(response := m, sent := o.sent + [m])
  }

  /** The started thread encodes whatever the response field holds now. */
  function Queue(o: Out): Out {
    o.(queue := o.queue + [|o.emitted|], rest := o.rest[|o.emitted| := Encode(o.response)],
       emitted := o.emitted + [o.response])
  }

  function Do(s: State, e: Event): State {
    if !Can(s, e) then s else
    match e
    case Send(c, m) => s.(outs := s.outs[c := Store(Of(s, c), m)], senders := s.senders + [Started(c, m)])
    case Enqueue(i) =>
      var c := s.senders[i].conn;
      s.(outs := s.outs[c := Queue(Of(s, c))], senders := s.senders[i := Posting(c)])
    case Post(i) => s.(tasks := s.tasks + [s.senders[i].conn], senders := s.senders[i := Waking])
    case Wake(i) => s.(wakeup := true, senders := s.senders[i := Done])
    case Select(ready) => s.(wakeup := false, selector := RunningTasks(ready))
    case Advance(n) => DoAdvance(s, n)
    case Close(c) => s.(closed := s.closed + {c})
  }

  /** A request for write interest on c is under way. */
  ghost predicate Requested(s: State, c: Conn) {
    || c in s.tasks
    || (s.selector.TaskInHand? && s.selector.conn == c)
    || Posting(c) in s.senders
  }

  predicate AtPoint(s: State, c: Conn) {
    s.selector.Writing? && s.selector.conn == c
  }

  /**
   A non-empty queue of an open channel has write interest or a request for it, even while interest is being
   dropped.
   */
  ghost predicate InterestOk(s: State, c: Conn) {
    Of(s, c).queue != [] && c !in s.closed ==>
      && (Of(s, c).writing || Requested(s, c))
      && (AtPoint(s, c) && s.selector.at.DropInterest? ==> Requested(s, c))
  }

  /** Queued tasks are about to be run, or the wake-up is set or about to be. */
  ghost predicate WakeOk(s: State) {
    s.tasks != [] && !s.selector.RunningTasks? && !s.selector.TaskInHand? && !s.selector.Dead? ==>
      s.wakeup || Waking in s.senders
  }

  function Remaining(rest: map<nat, seq<Byte>>, q: seq<nat>): seq<Byte> {
    if q == [] then [] else At(rest, q[0]) + Remaining(rest, q[1..])
  }

  /** The live buffers are those of the last messages queued, in order, and no byte is missing. */
  ghost predicate BytesOk(o: Out) {
    && |o.queue| <= |o.emitted|
    && (forall i :: 0 <= i < |o.queue| ==> o.queue[i] == |o.emitted| - |o.queue| + i)
    && o.accepted + Remaining(o.rest, o.queue) == EncodeAll(o.emitted)
  }

  /** The buffer being written is the head of its queue. */
  ghost predicate PointOk(o: Out, at: Point) {
    at.Write? || at.Check? ==> o.queue != [] && o.queue[0] == at.buf
  }

  ghost predicate OutOk(s: State, c: Conn) {
    BytesOk(Of(s, c)) && (AtPoint(s, c) ==> PointOk(Of(s, c), s.selector.at))
  }

  ghost predicate Inv(s: State) {
    WakeOk(s) && forall c :: InterestOk(s, c) && OutOk(s, c)
  }

  lemma {:induction false} RemainingFrame(rest: map<nat, seq<Byte>>, q: seq<nat>, b: nat, x: seq<Byte>)
    requires b !in q
    ensures Remaining(rest[b := x], q) == Remaining(rest, q)
  {
    if q == [] {
    } else {
      RemainingFrame(rest, q[1..], b, x);
    }
  }

  lemma {:induction false} RemainingAppend(rest: map<nat, seq<Byte>>, q: seq<nat>, b: nat)
    ensures Remaining(rest, q + [b]) == Remaining(rest, q) + At(rest, b)
  {
    if q == [] {
      assert Remaining(rest, [b]) == At(rest, b) + Remaining(rest, [b][1..]);
    } else {
      assert (q + [b])[1..] == q[1..] + [b];
      RemainingAppend(rest, q[1..], b);
      assert At(rest, q[0]) + (Remaining(rest, q[1..]) + At(rest, b))
          == At(rest, q[0]) + Remaining(rest, q[1..]) + At(rest, b);
    }
  }

  lemma {:induction false} EncodeAllAppend(messages: seq<string>, m: string)
    ensures EncodeAll(messages + [m]) == EncodeAll(messages) + Encode(m)
  {
    if messages == [] {
      assert EncodeAll([m]) == Encode(m) + EncodeAll([m][1..]);
    } else {
      assert (messages + [m])[1..] == messages[1..] + [m];
      EncodeAllAppend(messages[1..], m);
      assert Encode(messages[0]) + (EncodeAll(messages[1..]) + Encode(m))
          == Encode(messages[0]) + EncodeAll(messages[1..]) + Encode(m);
    }
  }

  lemma QueueKeepsBytes(o: Out)
    requires BytesOk(o)
    ensures BytesOk(Queue(o))
  {
    var b, x := |o.emitted|, Encode(o.response);
    RemainingFrame(o.rest, o.queue, b, x);
    RemainingAppend(o.rest[b := x], o.queue, b);
    EncodeAllAppend(o.emitted, o.response);
    assert o.accepted + (Remaining(o.rest, o.queue) + x) == o.accepted + Remaining(o.rest, o.queue) + x;
  }

  /** Every action of continueWrite conserves the bytes and keeps to the head of the queue. */
  lemma WriteKeepsBytes(o: Out, at: Point, n: nat)
    requires BytesOk(o) && PointOk(o, at) && CanWrite(o, at, n)
    ensures BytesOk(WriteStep(o, at, n))
    ensures NextPoint(o, at).Some? ==> PointOk(WriteStep(o, at, n), NextPoint(o, at).value)
  {
    match at
    case Write(b) =>
      var x := At(o.rest, b);
      RemainingFrame(o.rest, o.queue[1..], b, x[n..]);
      PartialWrite(o.accepted, x, n, Remaining(o.rest, o.queue[1..]));
    case Check(b) =>
      if At(o.rest, b) == [] {
        assert [] + Remaining(o.rest, o.queue[1..]) == Remaining(o.rest, o.queue[1..]);
      }
    case _ =>
  }

  /** What a channel would take of the i-th write of a round. */
  function Offer(takes: seq<nat>, i: nat): nat {
    if i < |takes| then takes[i] else 0
  }

  /**
   What a round of writing makes of a queue: the buffers the channel takes whole are gone, and of the first
   one it does not take whole it has what it offered to take. `gone` are the bytes it took in all.
   */
  ghost predicate Wrote(q: seq<seq<Byte>>, takes: seq<nat>, gone: seq<Byte>, left: seq<seq<Byte>>) {
    exists k: nat :: k <= |q| && WroteFirst(q, takes, k, gone, left)
  }

  ghost predicate WroteFirst(q: seq<seq<Byte>>, takes: seq<nat>, k: nat, gone: seq<Byte>, left: seq<seq<Byte>>)
    requires k <= |q|
  {
    && (forall i: nat :: i < k ==> |q[i]| <= Offer(takes, i))
    && if k == |q| then gone == Concat(q) && left == []
       else
         var n := Offer(takes, k);
         n < |q[k]| && gone == Concat(q[..k]) + q[k][..n] && left == [q[k][n..]] + q[k + 1..]
  }

  /** A round in which the channel takes every buffer whole empties the queue. */
  lemma AllWritten(q: seq<seq<Byte>>, takes: seq<nat>, gone: seq<Byte>, left: seq<seq<Byte>>)
    requires Wrote(q, takes, gone, left)
    ensures left == [] <==> forall i: nat :: i < |q| ==> |q[i]| <= Offer(takes, i)
    ensures left == [] ==> gone == Concat(q)
  {
    var k: nat :| k <= |q| && WroteFirst(q, takes, k, gone, left);
  }

  /** One buffer taken whole, and a round over the rest. */
  lemma OneWrittenFirst(q: seq<seq<Byte>>, takes: seq<nat>, gone: seq<Byte>, left: seq<seq<Byte>>)
    requires q != [] && |q[0]| <= Offer(takes, 0)
    requires Wrote(q[1..], if takes == [] then [] else takes[1..], gone, left)
    ensures Wrote(q, takes, q[0] + gone, left)
  {
    var more := if takes == [] then [] else takes[1..];
    var k: nat :| k <= |q[1..]| && WroteFirst(q[1..], more, k, gone, left);
    forall i: nat | i < k + 1 ensures |q[i]| <= Offer(takes, i) {
      if i > 0 {
        assert q[i] == q[1..][i - 1] && Offer(takes, i) == Offer(more, i - 1);
      }
    }
    if k + 1 < |q| {
      assert q[k + 1] == q[1..][k] && Offer(takes, k + 1) == Offer(more, k);
      assert q[..k + 1] == [q[0]] + q[1..][..k];
      assert Concat(q[..k + 1]) == q[0] + Concat(q[1..][..k]);
      assert q[1..][k + 1..] == q[k + 2..];
    }
    assert WroteFirst(q, takes, k + 1, q[0] + gone, left);
  }

  /** What an event does to the output of c. */
  function OutAfter(s: State, e: Event, c: Conn): Out
    requires Can(s, e)
  {
    var o := Of(s, c);
    match e
    case Send(x, m) => if x == c then Store(o, m) else o
    case Enqueue(i) => if s.senders[i].conn == c then Queue(o) else o
    case Advance(n) =>
      if AtPoint(s, c) then WriteStep(o, s.selector.at, n)
      else if s.selector.TaskInHand? && s.selector.conn == c && c !in s.closed then o.(writing := true)
      else o
    case _ => o
  }

  lemma OutIs(s: State, e: Event, c: Conn)
    requires Can(s, e)
    ensures Of(Do(s, e), c) == OutAfter(s, e, c)
    ensures AtPoint(Do(s, e), c) && AtPoint(s, c) && e.Advance? ==>
            NextPoint(Of(s, c), s.selector.at) == Some(Do(s, e).selector.at)
    ensures AtPoint(Do(s, e), c) && !AtPoint(s, c) ==> Do(s, e).selector.at == Drain
    ensures AtPoint(Do(s, e), c) && !e.Advance? ==> Do(s, e).selector == s.selector
  {
  }

  lemma SameBytes(o: Out, o': Out)
    requires BytesOk(o) && o' == o.(response := o'.response, writing := o'.writing, sent := o'.sent)
    ensures BytesOk(o')
  {
  }

  lemma OutKept(s: State, e: Event, c: Conn)
    requires Can(s, e) && OutOk(s, c)
    ensures OutOk(Do(s, e), c)
  {
    OutIs(s, e, c);
    if e.Enqueue? && s.senders[e.i].conn == c {
      QueueKeepsBytes(Of(s, c));
    } else if e.Advance? && AtPoint(s, c) {
      WriteKeepsBytes(Of(s, c), s.selector.at, e.n);
    } else {
      SameBytes(Of(s, c), OutAfter(s, e, c));
    }
  }

  lemma SenderMoves(q: seq<Sender>, i: nat, x: Sender, y: Sender)
    requires i < |q| && y in q && y != q[i]
    ensures y in q[i := x]
  {
    var j :| 0 <= j < |q| && q[j] == y;
    assert q[i := x][j] == y;
  }

  /** A request survives until the task that carries it has been run. */
  lemma RequestKept(s: State, e: Event, c: Conn)
    requires Can(s, e) && Requested(s, c) && c !in s.closed
    ensures Requested(Do(s, e), c) || (Of(Do(s, e), c).writing && !AtPoint(Do(s, e), c))
  {
    match e
    case Enqueue(i) => if Posting(c) in s.senders { SenderMoves(s.senders, i, Posting(s.senders[i].conn), Posting(c)); }
    case Post(i) =>
      if Posting(c) in s.senders && s.senders[i] != Posting(c) { SenderMoves(s.senders, i, Waking, Posting(c)); }
    case Wake(i) => if Posting(c) in s.senders { SenderMoves(s.senders, i, Done, Posting(c)); }
    case Advance(_) =>
      if s.selector.RunningTasks? && s.tasks != [] {
        assert s.tasks == [s.tasks[0]] + s.tasks[1..];
      }
    case _ =>
  }

  lemma InterestKept(s: State, e: Event, c: Conn)
    requires Can(s, e) && InterestOk(s, c)
    ensures InterestOk(Do(s, e), c)
  {
    if Requested(s, c) && c !in s.closed {
      RequestKept(s, e, c);
    }
    if e.Enqueue? && s.senders[e.i].conn == c {
      assert Do(s, e).senders[e.i] == Posting(c);
    }
  }

  lemma WakeKept(s: State, e: Event)
    requires Can(s, e) && WakeOk(s)
    ensures WakeOk(Do(s, e))
  {
    match e
    case Enqueue(i) => if Waking in s.senders { SenderMoves(s.senders, i, Posting(s.senders[i].conn), Waking); }
    case Post(i) => assert Do(s, e).senders[i] == Waking;
    case _ =>
  }

  lemma InvKept(s: State, e: Event)
    requires Inv(s) && Can(s, e)
    ensures Inv(Do(s, e))
  {
    WakeKept(s, e);
    forall c ensures InterestOk(Do(s, e), c) && OutOk(Do(s, e), c) {
      assert InterestOk(s, c) && OutOk(s, c);
      InterestKept(s, e, c);
      OutKept(s, e, c);
    }
  }

  function Perform(s: State, run: seq<Event>): State
    decreases run
  {
    if run == [] then s else Perform(Do(s, run[0]), run[1..])
  }

  lemma {:induction false} InvAlways(s: State, run: seq<Event>)
    requires Inv(s)
    ensures Inv(Perform(s, run))
    decreases run
  {
    if run == [] {
    } else {
      if Can(s, run[0]) {
        InvKept(s, run[0]);
      }
      InvAlways(Do(s, run[0]), run[1..]);
    }
  }

  /** The selector is blocked in select and no sender is between its enqueue and its wake-up. */
  predicate Asleep(s: State) {
    && s.selector == Selecting && !s.wakeup
    && forall x :: x in s.senders ==> x.Started? || x.Done?
  }

  /** No lost wake-up: a selector asleep has run every task and watches every open connection with output. */
  lemma NoLostWakeup(run: seq<Event>, c: Conn)
    ensures var s := Perform(Start, run);
            Asleep(s) ==> s.tasks == [] && (Of(s, c).queue != [] && c !in s.closed ==> Of(s, c).writing)
  {
    assert Inv(Start);
    InvAlways(Start, run);
    assert InterestOk(Perform(Start, run), c);
  }

  /** Outside select a living selector thread can always take its next action. */
  lemma SelectorNeverSticks(run: seq<Event>)
    ensures var s := Perform(Start, run); s.selector != Selecting && s.selector != Dead ==> Can(s, Advance(0))
  {
    assert Inv(Start);
    InvAlways(Start, run);
    var s := Perform(Start, run);
    if s.selector != Selecting && s.selector != Dead {
      CanGoOn(s);
    }
  }

  lemma CanGoOn(s: State)
    requires Inv(s) && s.selector != Selecting && s.selector != Dead
    ensures Can(s, Advance(0))
  {
    if s.selector.Writing? {
      assert OutOk(s, s.selector.conn);
    }
  }

  /** A task for c is under way, or a thread that will leave one. */
  ghost predicate Coming(s: State, c: Conn) {
    Requested(s, c) || exists own :: Started(c, own) in s.senders
  }

  /** The selector thread lives, and no task for a closed channel is coming. */
  ghost predicate Safe(s: State) {
    s.selector != Dead && forall c :: c in s.closed ==> !Coming(s, c)
  }

  /** A message on a closed channel, or the closing of a channel with a task coming. */
  ghost predicate Fatal(s: State, e: Event) {
    match e
    case Send(c, _) => c in s.closed
    case Close(c) => Coming(s, c)
    case _ => false
  }

  lemma NotFromNowhere(q: seq<Sender>, i: nat, x: Sender, y: Sender)
    requires i < |q| && y in q[i := x] && y != x
    ensures y in q
  {
  }

  /** Nothing but such an event can bring a task for a closed channel about. */
  lemma ComingKept(s: State, e: Event, c: Conn)
    requires Can(s, e) && !Coming(s, c) && !(e.Send? && e.conn == c)
    ensures !Coming(Do(s, e), c)
  {
    var s' := Do(s, e);
    match e
    case Send(x, m) =>
    case Enqueue(i) =>
      assert s.senders[i] in s.senders;
      forall y | y in s'.senders && y != Posting(s.senders[i].conn) ensures y in s.senders {
        NotFromNowhere(s.senders, i, Posting(s.senders[i].conn), y);
      }
    case Post(i) =>
      assert s.senders[i] in s.senders;
      forall y | y in s'.senders && y != Waking ensures y in s.senders {
        NotFromNowhere(s.senders, i, Waking, y);
      }
    case Wake(i) =>
      forall y | y in s'.senders && y != Done ensures y in s.senders {
        NotFromNowhere(s.senders, i, Done, y);
      }
    case _ =>
  }

  /** Safety is lost in one step exactly by a fatal event. */
  lemma SafeKeptExactly(s: State, e: Event)
    requires Safe(s) && Can(s, e)
    ensures Safe(Do(s, e)) <==> !Fatal(s, e)
  {
    var s' := Do(s, e);
    if Fatal(s, e) {
      if e.Send? {
        assert s'.senders[|s.senders|] == Started(e.conn, e.message);
      } else {
        assert Coming(s', e.conn);
      }
    } else {
      forall c | c in s'.closed ensures !Coming(s', c) {
        ComingKept(s, e, c);
      }
      if s.selector.TaskInHand? {
        assert Requested(s, s.selector.conn);
      }
    }
  }

  /** A run without sends and without closings. */
  predicate Calm(run: seq<Event>) {
    forall e :: e in run ==> !e.Send? && !e.Close?
  }

  /** No event of the run is fatal, except one that cannot happen when its turn comes. */
  ghost predicate NoneFatal(s: State, run: seq<Event>)
    decreases run
  {
    run == [] || ((Can(s, run[0]) ==> !Fatal(s, run[0])) && NoneFatal(Do(s, run[0]), run[1..]))
  }

  /** The selector thread outlives every run without a fatal event. */
  lemma {:induction false} SafeThroughout(s: State, run: seq<Event>)
    requires Safe(s) && NoneFatal(s, run)
    ensures Safe(Perform(s, run))
    decreases run
  {
    if run == [] {
    } else {
      if Can(s, run[0]) {
        SafeKeptExactly(s, run[0]);
      }
      SafeThroughout(Do(s, run[0]), run[1..]);
    }
  }

  lemma {:induction false} CalmIsHarmless(s: State, run: seq<Event>)
    requires Calm(run)
    ensures NoneFatal(s, run)
    decreases run
  {
    if run == [] {
    } else {
      assert run[0] in run && forall e :: e in run[1..] ==> e in run;
      CalmIsHarmless(Do(s, run[0]), run[1..]);
    }
  }

  /** What the selector thread does next when nothing is ready and the channels take nothing. */
  function NextOf(s: State): Event {
    if s.selector == Selecting then Select([]) else Advance(0)
  }

  // How far the selector thread is from the end of its task queue.

  function Rank(x: Selector): nat {
    match x
    case Selecting => 2
    case RunningTasks(_) => 1
    case TaskInHand(_, _) => 1
    case _ => 3
  }

  function KeysLeft(x: Selector): nat {
    match x
    case Serving(ks) => 2 * |ks|
    case Writing(_, ks, _) => 2 * |ks| + 1
    case _ => 0
  }

  function QueueLeft(s: State): nat {
    if s.selector.Writing? then |Of(s, s.selector.conn).queue| else 0
  }

  function PointsLeft(x: Selector): nat {
    if !x.Writing? then 0 else
    match x.at
    case Drain => 4
    case Write(_) => 3
    case Check(_) => 2
    case Recheck => 1
    case DropInterest => 0
  }

  function TasksLeft(s: State): nat {
    2 * |s.tasks| + if s.selector.TaskInHand? then 1 else 0
  }

  /** A task for c is in the queue or in hand. */
  predicate Queued(s: State, c: Conn) {
    c in s.tasks || (s.selector.TaskInHand? && s.selector.conn == c)
  }

  lemma NextStep(s: State, c: Conn)
    requires Inv(s) && s.selector != Dead && c in s.closed && Queued(s, c)
    ensures var s' := Do(s, NextOf(s));
            && Can(s, NextOf(s)) && s'.closed == s.closed && (s'.selector != Dead ==> Queued(s', c))
  {
    if s.selector != Selecting {
      CanGoOn(s);
    }
    if s.selector.RunningTasks? {
      assert s.tasks == [s.tasks[0]] + s.tasks[1..];
    }
  }

  /** Every step brings the thread nearer to the end of its tasks. */
  lemma StepNearer(s: State, c: Conn)
    requires Inv(s) && s.selector != Dead && c in s.closed && Queued(s, c)
    ensures var s' := Do(s, NextOf(s));
            s'.selector == Dead
            || Rank(s'.selector) < Rank(s.selector)
            || (Rank(s'.selector) == Rank(s.selector)
                && (KeysLeft(s'.selector) < KeysLeft(s.selector)
                    || (KeysLeft(s'.selector) == KeysLeft(s.selector)
                        && (QueueLeft(s') < QueueLeft(s)
                            || (QueueLeft(s') == QueueLeft(s)
                                && (PointsLeft(s'.selector) < PointsLeft(s.selector)
                                    || (PointsLeft(s'.selector) == PointsLeft(s.selector)
                                        && TasksLeft(s') < TasksLeft(s))))))))
  {
    if s.selector != Selecting {
      CanGoOn(s);
    }
  }

  /** A task for a closed channel ends the thread. */
  lemma {:induction false} TaskKills(s: State, c: Conn) returns (run: seq<Event>)
    requires Inv(s) && s.selector != Dead && c in s.closed && Queued(s, c)
    ensures Calm(run) && Perform(s, run).selector == Dead
    decreases Rank(s.selector), KeysLeft(s.selector), QueueLeft(s), PointsLeft(s.selector), TasksLeft(s)
  {
    var e := NextOf(s);
    var s' := Do(s, e);
    NextStep(s, c);
    StepNearer(s, c);
    InvKept(s, e);
    if s'.selector == Dead {
      run := [e];
      assert Perform(s, run) == Perform(s', run[1..]);
    } else {
      var more := TaskKills(s', c);
      run := [e] + more;
      assert run[1..] == more;
    }
  }

  lemma PrependEvent(s: State, e: Event, more: seq<Event>)
    requires Calm(more) && !e.Send? && !e.Close?
    ensures Calm([e] + more) && Perform(s, [e] + more) == Perform(Do(s, e), more)
  {
    assert ([e] + more)[1..] == more;
  }

  /** So does a thread that will leave one. */
  lemma ComingKills(s: State, c: Conn) returns (run: seq<Event>)
    requires Inv(s) && s.selector != Dead && c in s.closed && Coming(s, c)
    ensures Calm(run) && Perform(s, run).selector == Dead
  {
    hide Inv;
    if Queued(s, c) {
      run := TaskKills(s, c);
    } else if Posting(c) in s.senders {
      var i: nat :| i < |s.senders| && s.senders[i] == Posting(c);
      InvKept(s, Post(i));
      var more := TaskKills(Do(s, Post(i)), c);
      PrependEvent(s, Post(i), more);
      run := [Post(i)] + more;
    } else {
      var own :| Started(c, own) in s.senders;
      var i: nat :| i < |s.senders| && s.senders[i] == Started(c, own);
      var s1 := Do(s, Enqueue(i));
      InvKept(s, Enqueue(i));
      InvKept(s1, Post(i));
      var more := TaskKills(Do(s1, Post(i)), c);
      PrependEvent(s1, Post(i), more);
      PrependEvent(s, Enqueue(i), [Post(i)] + more);
      run := [Enqueue(i)] + ([Post(i)] + more);
    }
  }

  /**
   Exactly when the selector thread survives: without further sends and closings it does, whatever happens,
   if and only if no task for a closed channel is under way. SafeKeptExactly says which events bring one about.
   */
  lemma SelectorSurvivesExactly(s: State)
    requires Inv(s) && s.selector != Dead
    ensures (forall run :: Calm(run) ==> Perform(s, run).selector != Dead) <==> Safe(s)
  {
    if Safe(s) {
      forall run | Calm(run) ensures Perform(s, run).selector != Dead {
        CalmIsHarmless(s, run);
        SafeThroughout(s, run);
      }
    } else {
      var c :| c in s.closed && Coming(s, c);
      var run := ComingKills(s, c);
    }
  }

  lemma {:induction false} PerformMore(s: State, run: seq<Event>, more: seq<Event>)
    ensures Perform(s, run + more) == Perform(Perform(s, run), more)
    decreases run
  {
    hide Do;
    if run == [] {
      assert run + more == more;
    } else {
      assert (run + more)[0] == run[0] && (run + more)[1..] == run[1..] + more;
      PerformMore(Do(s, run[0]), run[1..], more);
    }
  }

  lemma StepFirst(s: State, e: Event, more: seq<Event>)
    ensures Perform(s, [e] + more) == Perform(Do(s, e), more)
  {
    assert ([e] + more)[1..] == more;
  }

  /** A round of the selector in which the channel of c is closed, and then a message sent on it. */
  function CloseThenSend(c: Conn, m: string): seq<Event> {
    [Select([])] + ([Advance(0)] + ([Close(c)] + ([Send(c, m)] + [])))
  }

  lemma SentAfterClose(c: Conn, m: string)
    ensures var s := Perform(Start, CloseThenSend(c, m));
            s.selector != Dead && c in s.closed && Started(c, m) in s.senders
  {
    var s1 := Do(Start, Select([]));
    var s2 := Do(s1, Advance(0));
    var s3 := Do(s2, Close(c));
    var s4 := Do(s3, Send(c, m));
    assert s4.senders == [Started(c, m)];
    assert s4.senders[0] in s4.senders;
    hide Do;
    StepFirst(Start, Select([]), [Advance(0)] + ([Close(c)] + ([Send(c, m)] + [])));
    StepFirst(s1, Advance(0), [Close(c)] + ([Send(c, m)] + []));
    StepFirst(s2, Close(c), [Send(c, m)] + []);
    StepFirst(s3, Send(c, m), []);
  }

  /** A channel is closed, a message is sent on it, and the selector thread ends. */
  lemma LateSendKills(c: Conn, m: string) returns (run: seq<Event>)
    ensures Calm(run) && Perform(Start, CloseThenSend(c, m) + run).selector == Dead
  {
    assert Inv(Start);
    hide Inv;
    hide Perform;
    InvAlways(Start, CloseThenSend(c, m));
    SentAfterClose(c, m);
    run := ComingKills(Perform(Start, CloseThenSend(c, m)), c);
    PerformMore(Start, CloseThenSend(c, m), run);
  }

  /**
   Bytes are conserved under partial writes and concurrent enqueues: what the channel has taken,
   followed by what is left in the queue, is the encoding of the messages in queue order. A client
   that decodes what it gets sees a prefix of those messages, and all of them once the queue is empty.
   */
  lemma BytesConserved(run: seq<Event>, c: Conn)
    ensures var o := Of(Perform(Start, run), c);
            && o.accepted + Remaining(o.rest, o.queue) == EncodeAll(o.emitted)
            && ((forall m :: m in o.emitted ==> '\0' !in m) ==>
                && FeedAll(Fresh, o.accepted).frames <= o.emitted
                && (o.queue == [] ==> FeedAll(Fresh, o.accepted).frames == o.emitted))
  {
    assert Inv(Start);
    InvAlways(Start, run);
    assert OutOk(Perform(Start, run), c);
    var o := Of(Perform(Start, run), c);
    var left := Remaining(o.rest, o.queue);
    if forall m :: m in o.emitted ==> '\0' !in m {
      FramesRoundTrip(Fresh, o.emitted);
      FeedAppend(Fresh, o.accepted, left);
      FramesGrow(FeedAll(Fresh, o.accepted), left);
      assert [] + o.emitted == o.emitted;
      if o.queue == [] {
        assert o.accepted + [] == o.accepted;
      }
    }
  }

  /** What is left of the live buffers. */
  function Buffers(o: Out): seq<seq<Byte>> {
    seq(|o.queue|, i requires 0 <= i < |o.queue| => At(o.rest, o.queue[i]))
  }

  lemma {:induction false} BuffersRemain(rest: map<nat, seq<Byte>>, q: seq<nat>)
    ensures Concat(seq(|q|, i requires 0 <= i < |q| => At(rest, q[i]))) == Remaining(rest, q)
  {
    var bs := seq(|q|, i requires 0 <= i < |q| => At(rest, q[i]));
    if q == [] {
    } else {
      BuffersRemain(rest, q[1..]);
      assert bs[1..] == seq(|q[1..]|, i requires 0 <= i < |q[1..]| => At(rest, q[1..][i]));
    }
  }

  /** The output of c after n bytes of its first buffer have been written. */
  function WrittenHead(o: Out, n: nat): Out
    requires o.queue != [] && n <= |At(o.rest, o.queue[0])|
  {
    var x := At(o.rest, o.queue[0]);
    o.(accepted := o.accepted + x[..n], rest := o.rest[o.queue[0] := x[n..]],
       queue := if n == |x| then o.queue[1..] else o.queue)
  }

  /** The three actions for the first buffer: peek, write, and look at what remains. */
  lemma HeadWritten(s: State, n: nat)
    requires s.selector.Writing? && s.selector.at == Drain && Of(s, s.selector.conn).queue != []
    requires n <= |At(Of(s, s.selector.conn).rest, Of(s, s.selector.conn).queue[0])|
    ensures var Writing(c, ks, _) := s.selector;
            var o := Of(s, c);
            Do(Do(Do(s, Advance(0)), Advance(n)), Advance(0))
            == s.(outs := s.outs[c := WrittenHead(o, n)],
                  selector := if n == |At(o.rest, o.queue[0])| then Writing(c, ks, Drain) else Serving(ks))
  {
    var Writing(c, ks, _) := s.selector;
    var o := Of(s, c);
    var b := o.queue[0];
    var x := At(o.rest, b);
    var s1, s2 := Do(s, Advance(0)), Do(Do(s, Advance(0)), Advance(n));
    assert s1 == s.(outs := s.outs[c := o], selector := Writing(c, ks, Write(b)));
    var o2 := o.(accepted := o.accepted + x[..n], rest := o.rest[b := x[n..]]);
    assert s2 == s.(outs := s.outs[c := o2], selector := Writing(c, ks, Check(b)));
  }

  /** With an empty queue: look once more, and drop write interest. */
  lemma InterestDropped(s: State)
    requires s.selector.Writing? && s.selector.at == Drain && Of(s, s.selector.conn).queue == []
    ensures var Writing(c, ks, _) := s.selector;
            Do(Do(Do(s, Advance(0)), Advance(0)), Advance(0))
            == s.(outs := s.outs[c := Of(s, c).(writing := false)], selector := Serving(ks))
  {
    var Writing(c, ks, _) := s.selector;
    var o := Of(s, c);
    var s1, s2 := Do(s, Advance(0)), Do(Do(s, Advance(0)), Advance(0));
    assert s1 == s.(outs := s.outs[c := o], selector := Writing(c, ks, Recheck));
    assert s2 == s.(outs := s.outs[c := o], selector := Writing(c, ks, DropInterest));
  }

  /** The three actions of one turn of the loop, and then more. */
  function Turn(n: nat, more: seq<Event>): seq<Event> {
    [Advance(0)] + ([Advance(n)] + ([Advance(0)] + more))
  }

  lemma TurnPerformed(s: State, n: nat, more: seq<Event>)
    requires Calm(more)
    ensures Calm(Turn(n, more))
    ensures Perform(s, Turn(n, more)) == Perform(Do(Do(Do(s, Advance(0)), Advance(n)), Advance(0)), more)
  {
    hide Do;
    PrependEvent(Do(Do(s, Advance(0)), Advance(n)), Advance(0), more);
    PrependEvent(Do(s, Advance(0)), Advance(n), [Advance(0)] + more);
    PrependEvent(s, Advance(0), [Advance(n)] + ([Advance(0)] + more));
  }

  /** All that a round of writing on c leaves alone. */
  ghost predicate OnlyWrote(s: State, s': State, c: Conn) {
    && s' == s.(outs := s'.outs, selector := s'.selector)
    && (forall x :: x != c ==> Of(s', x) == Of(s, x))
    && Of(s', c).emitted == Of(s, c).emitted && Of(s', c).sent == Of(s, c).sent
    && Of(s', c).response == Of(s, c).response
  }

  lemma HeadIsBuffer(o: Out, n: nat)
    requires BytesOk(o) && o.queue != [] && n <= |At(o.rest, o.queue[0])|
    ensures Buffers(o)[0] == At(o.rest, o.queue[0])
    ensures Buffers(WrittenHead(o, n))
            == if n == |Buffers(o)[0]| then Buffers(o)[1..] else [Buffers(o)[0][n..]] + Buffers(o)[1..]
  {
  }

  /** What a round on the channel of s makes of s: s' is the state after it. */
  ghost predicate Round(s: State, takes: seq<nat>, gone: seq<Byte>, s': State)
    requires s.selector.Writing?
  {
    var c := s.selector.conn;
    && OnlyWrote(s, s', c) && s'.selector == Serving(s.selector.keys)
    && Of(s', c).accepted == Of(s, c).accepted + gone
    && Wrote(Buffers(Of(s, c)), takes, gone, Buffers(Of(s', c)))
    && Of(s', c).writing == (Of(s, c).writing && Of(s', c).queue != [])
  }

  lemma EmptyRound(s: State, takes: seq<nat>)
    requires s.selector.Writing? && s.selector.at == Drain && Of(s, s.selector.conn).queue == []
    ensures Round(s, takes, [], Do(Do(Do(s, Advance(0)), Advance(0)), Advance(0)))
  {
    hide Do;
    InterestDropped(s);
    var o := Of(s, s.selector.conn);
    assert o.accepted + [] == o.accepted;
    assert WroteFirst(Buffers(o), takes, 0, [], []);
  }

  lemma PartialRound(s: State, takes: seq<nat>)
    requires Inv(s) && s.selector.Writing? && s.selector.at == Drain && Of(s, s.selector.conn).queue != []
    requires Offer(takes, 0) < |At(Of(s, s.selector.conn).rest, Of(s, s.selector.conn).queue[0])|
    ensures var n, o := Offer(takes, 0), Of(s, s.selector.conn);
            Round(s, takes, At(o.rest, o.queue[0])[..n], Do(Do(Do(s, Advance(0)), Advance(n)), Advance(0)))
  {
    hide Do;
    var n, c, o := Offer(takes, 0), s.selector.conn, Of(s, s.selector.conn);
    assert OutOk(s, c) && InterestOk(s, c);
    hide Inv;
    HeadWritten(s, n);
    HeadIsBuffer(o, n);
    var x := At(o.rest, o.queue[0]);
    assert Concat(Buffers(o)[..0]) + x[..n] == x[..n];
    assert WroteFirst(Buffers(o), takes, 0, x[..n], Buffers(WrittenHead(o, n)));
  }

  /** One turn and a round after it make a round. */
  lemma TurnThenRound(s: State, takes: seq<nat>, gone: seq<Byte>, s': State)
    requires Inv(s) && s.selector.Writing? && s.selector.at == Drain && Of(s, s.selector.conn).queue != []
    requires var o := Of(s, s.selector.conn);
             var x := At(o.rest, o.queue[0]);
             var s1 := Do(Do(Do(s, Advance(0)), Advance(|x|)), Advance(0));
             && |x| <= Offer(takes, 0) && s1.selector.Writing?
             && Round(s1, if takes == [] then [] else takes[1..], gone, s')
    ensures var o := Of(s, s.selector.conn); Round(s, takes, At(o.rest, o.queue[0]) + gone, s')
  {
    hide Do;
    hide Wrote;
    var c, o := s.selector.conn, Of(s, s.selector.conn);
    assert OutOk(s, c);
    hide Inv;
    var x := At(o.rest, o.queue[0]);
    HeadWritten(s, |x|);
    HeadIsBuffer(o, |x|);
    OneWrittenFirst(Buffers(o), takes, gone, Buffers(Of(s', c)));
    assert o.accepted + x + gone == o.accepted + (x + gone) && x[..|x|] == x;
  }

  /**
   A round of continueWrite, for whatever the channel takes: it writes exactly what the channel takes up to
   the first buffer not taken whole, and drops write interest exactly if that empties the queue.
   */
  lemma {:induction false} RoundWrites(s: State, takes: seq<nat>) returns (run: seq<Event>, gone: seq<Byte>)
    requires Inv(s) && s.selector.Writing? && s.selector.at == Drain
    ensures Calm(run) && Round(s, takes, gone, Perform(s, run))
    decreases |Of(s, s.selector.conn).queue|
  {
    hide Do;
    hide Inv;
    hide Round;
    var o := Of(s, s.selector.conn);
    if o.queue == [] {
      run, gone := Turn(0, []), [];
      TurnPerformed(s, 0, []);
      EmptyRound(s, takes);
    } else {
      var x := At(o.rest, o.queue[0]);
      if Offer(takes, 0) < |x| {
        run, gone := Turn(Offer(takes, 0), []), x[..Offer(takes, 0)];
        TurnPerformed(s, Offer(takes, 0), []);
        PartialRound(s, takes);
      } else {
        var s' := Do(Do(Do(s, Advance(0)), Advance(|x|)), Advance(0));
        InvAfterThree(s, |x|);
        HeadWritten(s, |x|);
        var more, rest := RoundWrites(s', if takes == [] then [] else takes[1..]);
        run, gone := Turn(|x|, more), x + rest;
        TurnPerformed(s, |x|, more);
        TurnThenRound(s, takes, rest, Perform(s', more));
      }
    }
  }

  lemma InvAfterThree(s: State, n: nat)
    requires Inv(s)
    ensures Inv(Do(Do(Do(s, Advance(0)), Advance(n)), Advance(0)))
  {
    hide Inv;
    hide Do;
    InvStays(s, Advance(0));
    InvStays(Do(s, Advance(0)), Advance(n));
    InvStays(Do(Do(s, Advance(0)), Advance(n)), Advance(0));
  }

  lemma InvStays(s: State, e: Event)
    requires Inv(s)
    ensures Inv(Do(s, e))
  {
    hide Inv;
    if Can(s, e) {
      InvKept(s, e);
    }
  }

  /** Every thread started for c and not yet encoding will encode the argument it was started for. */
  ghost predicate OwnArguments(s: State, c: Conn) {
    forall own :: Started(c, own) in s.senders ==> own == Of(s, c).response
  }

  /** The guard under which a call of send is safe: no other message waits to be encoded on c. */
  ghost predicate NoOtherWaiting(s: State, c: Conn, m: string) {
    forall own :: Started(c, own) in s.senders ==> own == m
  }

  /** Storing the argument in a field breaks earlier calls exactly when the guard fails. */
  lemma SendSafeIffGuard(s: State, c: Conn, m: string)
    ensures OwnArguments(Do(s, Send(c, m)), c) <==> NoOtherWaiting(s, c, m)
  {
    assert Do(s, Send(c, m)).senders == s.senders + [Started(c, m)];
  }

  /** The message, if any, that a thread has still to encode on c. */
  function Waits(x: Sender, c: Conn): multiset<string> {
    if x.Started? && x.conn == c then multiset{x.own} else multiset{}
  }

  function WaitingOn(senders: seq<Sender>, c: Conn): multiset<string> {
    if senders == [] then multiset{} else Waits(senders[0], c) + WaitingOn(senders[1..], c)
  }

  lemma {:induction false} WaitingUpdate(q: seq<Sender>, i: nat, x: Sender, c: Conn)
    requires i < |q| && !x.Started?
    ensures WaitingOn(q, c) == WaitingOn(q[i := x], c) + Waits(q[i], c)
  {
    assert Waits(x, c) == multiset{};
    hide Waits;
    if i == 0 {
      assert q[i := x][1..] == q[1..];
    } else {
      assert q[i := x][0] == q[0] && q[i := x][1..] == q[1..][i - 1 := x];
      WaitingUpdate(q[1..], i - 1, x, c);
    }
  }

  lemma {:induction false} WaitingAppend(q: seq<Sender>, x: Sender, c: Conn)
    ensures WaitingOn(q + [x], c) == WaitingOn(q, c) + WaitingOn([x], c)
  {
    if q == [] {
      assert q + [x] == [x];
    } else {
      assert (q + [x])[1..] == q[1..] + [x];
      WaitingAppend(q[1..], x, c);
    }
  }

  /** Each message passed to send has been queued once or still waits to be encoded. */
  ghost predicate Ledger(s: State, c: Conn) {
    multiset(Of(s, c).emitted) + WaitingOn(s.senders, c) == multiset(Of(s, c).sent)
  }

  ghost predicate Guarded(s: State, e: Event, c: Conn) {
    e.Send? && e.conn == c ==> NoOtherWaiting(s, c, e.message)
  }

  lemma FewerStarted(q: seq<Sender>, i: nat, x: Sender, c: Conn)
    requires i < |q| && !x.Started?
    ensures forall own :: Started(c, own) in q[i := x] ==> Started(c, own) in q
  {
  }

  lemma OwnArgumentsKept(s: State, e: Event, c: Conn)
    requires Can(s, e) && OwnArguments(s, c) && Guarded(s, e, c)
    ensures OwnArguments(Do(s, e), c)
  {
    OutIs(s, e, c);
    match e
    case Send(x, m) => if x == c { SendSafeIffGuard(s, c, m); }
    case Enqueue(i) => FewerStarted(s.senders, i, Posting(s.senders[i].conn), c);
    case Post(i) => FewerStarted(s.senders, i, Waking, c);
    case Wake(i) => FewerStarted(s.senders, i, Done, c);
    case _ =>
  }

  /** The account of c after a message has been sent, or has moved from waiting to queued. */
  lemma Balance(sent: seq<string>, emitted: seq<string>, waiting: multiset<string>, m: string)
    requires multiset(emitted) + waiting == multiset(sent)
    ensures multiset(emitted) + (waiting + multiset{m}) == multiset(sent + [m])
    ensures m in waiting ==> multiset(emitted + [m]) + (waiting - multiset{m}) == multiset(sent)
  {
  }

  lemma SendLedger(s: State, x: Conn, m: string, c: Conn)
    requires Ledger(s, c)
    ensures Ledger(Do(s, Send(x, m)), c)
  {
    WaitingAppend(s.senders, Started(x, m), c);
    assert WaitingOn([Started(x, m)], c) == (if x == c then multiset{m} else multiset{});
    if x == c {
      Balance(Of(s, c).sent, Of(s, c).emitted, WaitingOn(s.senders, c), m);
    }
  }

  lemma EnqueueLedger(s: State, i: nat, c: Conn)
    requires OwnArguments(s, c) && Ledger(s, c) && Can(s, Enqueue(i))
    ensures Ledger(Do(s, Enqueue(i)), c)
  {
    hide WaitingOn;
    hide Encode;
    var t := s.senders[i];
    assert t in s.senders;
    WaitingUpdate(s.senders, i, Posting(t.conn), c);
    if t.conn == c {
      var w := WaitingOn(s.senders[i := Posting(c)], c);
      assert WaitingOn(s.senders, c) - multiset{t.own} == w;
      Balance(Of(s, c).sent, Of(s, c).emitted, WaitingOn(s.senders, c), t.own);
    }
  }

  lemma HistoryKept(s: State, e: Event, c: Conn)
    requires Can(s, e) && !e.Send? && !e.Enqueue?
    ensures Of(Do(s, e), c).emitted == Of(s, c).emitted && Of(Do(s, e), c).sent == Of(s, c).sent
    ensures e.Select? || e.Advance? ==> Do(s, e).senders == s.senders
  {
    OutIs(s, e, c);
  }

  lemma OtherLedger(s: State, e: Event, c: Conn)
    requires Can(s, e) && Ledger(s, c) && !e.Send? && !e.Enqueue?
    ensures Ledger(Do(s, e), c)
  {
    HistoryKept(s, e, c);
    if e.Post? {
      WaitingUpdate(s.senders, e.i, Waking, c);
    } else if e.Wake? {
      WaitingUpdate(s.senders, e.i, Done, c);
    }
  }

  lemma LedgerKept(s: State, e: Event, c: Conn)
    requires Can(s, e) && OwnArguments(s, c) && Ledger(s, c)
    ensures Ledger(Do(s, e), c)
  {
    match e
    case Send(x, m) => SendLedger(s, x, m, c);
    case Enqueue(i) => EnqueueLedger(s, i, c);
    case _ => OtherLedger(s, e, c);
  }

  ghost predicate AllGuarded(s: State, run: seq<Event>, c: Conn)
    decreases run
  {
    run == [] || (Guarded(s, run[0], c) && AllGuarded(Do(s, run[0]), run[1..], c))
  }

  /** If every call respects the guard, each message sent to c is queued once or still waits. */
  lemma {:induction false} GuardedSendsArrive(s: State, run: seq<Event>, c: Conn)
    requires OwnArguments(s, c) && Ledger(s, c) && AllGuarded(s, run, c)
    ensures Ledger(Perform(s, run), c)
    decreases run
  {
    if run == [] {
    } else {
      if Can(s, run[0]) {
        OwnArgumentsKept(s, run[0], c);
        LedgerKept(s, run[0], c);
      }
      GuardedSendsArrive(Do(s, run[0]), run[1..], c);
    }
  }

  /** A run without a call of send on c. */
  predicate NoSends(run: seq<Event>, c: Conn) {
    forall e :: e in run ==> !(e.Send? && e.conn == c)
  }

  lemma {:induction false} NoSendsGuarded(s: State, run: seq<Event>, c: Conn)
    requires NoSends(run, c)
    ensures AllGuarded(s, run, c)
    decreases run
  {
    if run == [] {
    } else {
      assert run == [run[0]] + run[1..];
      assert run[0] in run;
      NoSendsGuarded(Do(s, run[0]), run[1..], c);
    }
  }

  /** The thread of an earlier send encodes the later message: the account no longer balances. */
  lemma LaterMessageGoesOut(s: State, c: Conn, m: string, i: nat)
    requires OwnArguments(s, c) && Ledger(s, c)
    requires i < |s.senders| && s.senders[i].Started? && s.senders[i].conn == c && s.senders[i].own != m
    ensures var s' := Do(s, Send(c, m)); Can(s', Enqueue(i)) && !Ledger(Do(s', Enqueue(i)), c)
  {
    hide Unused;
    hide WaitingOn;
    var own := s.senders[i].own;
    var s' := Do(s, Send(c, m));
    SendLedger(s, c, m, c);
    assert s'.senders[i] == s.senders[i] && Of(s', c).response == m;
    WaitingUpdate(s'.senders, i, Posting(c), c);
    var s'' := Do(s', Enqueue(i));
    assert Of(s'', c).emitted == Of(s', c).emitted + [m] && Of(s'', c).sent == Of(s', c).sent;
    assert s''.senders == s'.senders[i := Posting(c)];
    UnequalMove(multiset(Of(s', c).emitted), WaitingOn(s''.senders, c), multiset(Of(s', c).sent), m, own);
  }

  lemma UnequalMove(emitted: multiset<string>, waiting: multiset<string>, sent: multiset<string>, m: string,
                    own: string)
    requires emitted + (waiting + multiset{own}) == sent && m != own
    ensures emitted + multiset{m} + waiting != sent
  {
    assert (emitted + multiset{m} + waiting)[own] == emitted[own] + waiting[own];
    assert sent[own] == emitted[own] + waiting[own] + 1;
  }

  /**
   Exactly when send delivers: each message sent on c goes out once or still waits, whatever happens
   after the call, if and only if no other message was waiting to be encoded on c at the call.
   */
  lemma SendDeliversExactly(s: State, c: Conn, m: string)
    requires OwnArguments(s, c) && Ledger(s, c)
    ensures (forall run :: NoSends(run, c) ==> Ledger(Perform(Do(s, Send(c, m)), run), c)) <==> NoOtherWaiting(s, c, m)
  {
    var s' := Do(s, Send(c, m));
    if NoOtherWaiting(s, c, m) {
      SendSafeIffGuard(s, c, m);
      SendLedger(s, c, m, c);
      forall run | NoSends(run, c) ensures Ledger(Perform(s', run), c) {
        NoSendsGuarded(s', run, c);
        GuardedSendsArrive(s', run, c);
      }
    } else {
      var own :| Started(c, own) in s.senders && own != m;
      var i: nat :| i < |s.senders| && s.senders[i] == Started(c, own);
      LaterMessageGoesOut(s, c, m, i);
      var run := [Enqueue(i)];
      assert Perform(s', run) == Perform(Do(s', run[0]), run[1..]) == Do(s', Enqueue(i));
      assert NoSends(run, c) && !Ledger(Perform(s', run), c);
    }
  }

  // That everything gets out: from any state with a living selector and no fatal task under way, some actions
  // of the threads already there write every queue of an open channel.

  /** No message has been sent or queued, and no channel closed. */
  ghost predicate SameMessages(s: State, s': State) {
    && s'.closed == s.closed && |s'.senders| == |s.senders|
    && forall x :: Of(s', x).emitted == Of(s, x).emitted && Of(s', x).sent == Of(s, x).sent
  }

  lemma MessagesStay(s: State, e: Event)
    requires !e.Send? && !e.Enqueue? && !e.Close?
    ensures SameMessages(s, Do(s, e))
  {
    if Can(s, e) {
      forall x ensures Of(Do(s, e), x).emitted == Of(s, x).emitted && Of(Do(s, e), x).sent == Of(s, x).sent {
        HistoryKept(s, e, x);
      }
    }
  }

  /** What holds before and after every calm event. */
  ghost predicate Fine(s: State) {
    Inv(s) && Safe(s)
  }

  lemma FineStays(s: State, e: Event)
    requires Fine(s) && !e.Send? && !e.Close?
    ensures Fine(Do(s, e))
  {
    hide Inv;
    hide Safe;
    if Can(s, e) {
      InvKept(s, e);
      SafeKeptExactly(s, e);
    }
  }

  predicate AtTasks(x: Selector) {
    x.RunningTasks? || x.TaskInHand?
  }

  lemma StepRests(s: State)
    requires Fine(s) && s.selector != Selecting
    ensures var s' := Do(s, Advance(0));
            || s'.selector == Selecting
            || (AtTasks(s.selector) && !AtTasks(s'.selector))
            || (AtTasks(s.selector) && AtTasks(s'.selector) && TasksLeft(s') < TasksLeft(s))
            || (!AtTasks(s.selector) && !AtTasks(s'.selector)
                && (KeysLeft(s'.selector) < KeysLeft(s.selector)
                    || (KeysLeft(s'.selector) == KeysLeft(s.selector)
                        && (QueueLeft(s') < QueueLeft(s)
                            || (QueueLeft(s') == QueueLeft(s) && PointsLeft(s'.selector) < PointsLeft(s.selector))))))
  {
    CanGoOn(s);
    if s.selector.TaskInHand? {
      assert Requested(s, s.selector.conn);
    }
  }

  /** The selector thread finishes its tasks and its round. */
  lemma {:induction false} Rests(s: State) returns (run: seq<Event>)
    requires Fine(s)
    ensures Calm(run)
    ensures var s' := Perform(s, run); Fine(s') && s'.selector == Selecting && SameMessages(s, s')
    decreases if AtTasks(s.selector) then 1 else 0, if AtTasks(s.selector) then TasksLeft(s) else 0,
              KeysLeft(s.selector), QueueLeft(s), PointsLeft(s.selector)
  {
    hide Do;
    hide Fine;
    if s.selector == Selecting {
      run := [];
    } else {
      var s' := Do(s, Advance(0));
      FineStays(s, Advance(0));
      MessagesStay(s, Advance(0));
      if s'.selector == Selecting {
        run := [Advance(0)] + [];
        PrependEvent(s, Advance(0), []);
      } else {
        StepRests(s);
        var more := Rests(s');
        run := [Advance(0)] + more;
        PrependEvent(s, Advance(0), more);
      }
    }
  }

  /** A task in the queue asks for write interest on c, or c has it. */
  predicate Asked(s: State, c: Conn) {
    c in s.tasks || Of(s, c).writing
  }

  lemma OneTaskRun(s: State, c: Conn)
    requires Fine(s) && s.selector == RunningTasks([]) && s.tasks != [] && Asked(s, c)
    ensures var s' := Do(Do(s, Advance(0)), Advance(0));
            s'.selector == RunningTasks([]) && s'.tasks == s.tasks[1..] && Asked(s', c)
  {
    var t := s.tasks[0];
    assert s.tasks == [t] + s.tasks[1..];
    assert t in s.tasks && Requested(s, t);
    hide Inv;
    assert Do(s, Advance(0)) == s.(tasks := s.tasks[1..], selector := TaskInHand(t, []));
  }

  lemma TwoEvents(s: State, e1: Event, e2: Event, more: seq<Event>)
    requires Calm(more) && !e1.Send? && !e1.Close? && !e2.Send? && !e2.Close?
    ensures Calm([e1] + ([e2] + more))
    ensures Perform(s, [e1] + ([e2] + more)) == Perform(Do(Do(s, e1), e2), more)
  {
    hide Do;
    PrependEvent(Do(s, e1), e2, more);
    PrependEvent(s, e1, [e2] + more);
  }

  lemma TwoFine(s: State, e1: Event, e2: Event)
    requires Fine(s) && !e1.Send? && !e1.Close? && !e2.Send? && !e2.Close? && !e1.Enqueue? && !e2.Enqueue?
    ensures Fine(Do(Do(s, e1), e2)) && SameMessages(s, Do(Do(s, e1), e2))
  {
    hide Do;
    hide Fine;
    FineStays(s, e1);
    FineStays(Do(s, e1), e2);
    MessagesStay(s, e1);
    MessagesStay(Do(s, e1), e2);
  }

  lemma NoTaskLeft(s: State)
    requires s.selector == RunningTasks([]) && s.tasks == []
    ensures Do(Do(s, Advance(0)), Advance(0)) == s.(selector := Selecting)
  {
  }

  /** A round without ready keys runs all tasks. */
  lemma {:induction false} TasksRun(s: State, c: Conn) returns (run: seq<Event>)
    requires Fine(s) && s.selector == RunningTasks([]) && Asked(s, c)
    ensures Calm(run)
    ensures var s' := Perform(s, run);
            Fine(s') && s'.selector == Selecting && SameMessages(s, s') && s'.tasks == [] && Of(s', c).writing
    decreases |s.tasks|
  {
    hide Do;
    hide Fine;
    var s' := Do(Do(s, Advance(0)), Advance(0));
    TwoFine(s, Advance(0), Advance(0));
    if s.tasks == [] {
      NoTaskLeft(s);
      TwoEvents(s, Advance(0), Advance(0), []);
      run := [Advance(0)] + ([Advance(0)] + []);
    } else {
      OneTaskRun(s, c);
      var more := TasksRun(s', c);
      TwoEvents(s, Advance(0), Advance(0), more);
      run := [Advance(0)] + ([Advance(0)] + more);
    }
  }

  /** A sender that has queued its message for c leaves its task. */
  lemma AskedSoon(s: State, c: Conn) returns (run: seq<Event>)
    requires Fine(s) && s.selector == Selecting && c !in s.closed && Of(s, c).queue != []
    ensures Calm(run)
    ensures var s' := Perform(s, run); Fine(s') && s'.selector == Selecting && SameMessages(s, s') && Asked(s', c)
  {
    assert InterestOk(s, c);
    if Asked(s, c) {
      run := [];
    } else {
      var i: nat :| i < |s.senders| && s.senders[i] == Posting(c);
      FineStays(s, Post(i));
      MessagesStay(s, Post(i));
      run := [Post(i)] + [];
      PrependEvent(s, Post(i), []);
    }
  }

  /** The selector wakes with c ready and comes to its queue. */
  lemma ComesToQueue(s: State, c: Conn)
    requires s.selector == Selecting && s.tasks == [] && Of(s, c).writing && c !in s.closed
    ensures Do(Do(Do(s, Select([c])), Advance(0)), Advance(0)) == s.(wakeup := false, selector := Writing(c, [], Drain))
  {
    var s1 := Do(s, Select([c]));
    assert s1 == s.(wakeup := false, selector := RunningTasks([c]));
    var s2 := Do(s1, Advance(0));
    assert s2 == s.(wakeup := false, selector := Serving([c]));
    assert [c][1..] == [];
    assert Do(s2, Advance(0)) == s.(wakeup := false, selector := Writing(c, [], Drain));
  }

  /** From there the channel, if it takes every buffer whole, gets all of it. */
  lemma WritesAll(s: State, c: Conn) returns (run: seq<Event>)
    requires Fine(s) && s.selector == Selecting && s.tasks == [] && Of(s, c).writing && c !in s.closed
    ensures Calm(run)
    ensures var s' := Perform(s, run); Inv(s') && SameMessages(s, s') && Of(s', c).queue == []
  {
    hide Do;
    hide Fine;
    var s1 := s.(wakeup := false, selector := Writing(c, [], Drain));
    ComesToQueue(s, c);
    FineStays(s, Select([c]));
    MessagesStay(s, Select([c]));
    TwoFine(Do(s, Select([c])), Advance(0), Advance(0));
    assert Inv(s1) by {
      assert Fine(s1);
      FineIsInv(s1);
    }
    var bs := Buffers(Of(s1, c));
    var takes := seq(|bs|, i requires 0 <= i < |bs| => |bs[i]|);
    var more, gone := RoundWrites(s1, takes);
    RoundOfAll(s1, takes, gone, Perform(s1, more));
    InvAlways(s1, more);
    TwoEvents(Do(s, Select([c])), Advance(0), Advance(0), more);
    PrependEvent(s, Select([c]), [Advance(0)] + ([Advance(0)] + more));
    run := [Select([c])] + ([Advance(0)] + ([Advance(0)] + more));
  }

  lemma FineIsInv(s: State)
    requires Fine(s)
    ensures Inv(s)
  {
  }

  lemma RoundOfAll(s: State, takes: seq<nat>, gone: seq<Byte>, s': State)
    requires s.selector.Writing? && Round(s, takes, gone, s')
    requires var bs := Buffers(Of(s, s.selector.conn));
             |takes| == |bs| && forall i :: 0 <= i < |bs| ==> takes[i] == |bs[i]|
    ensures Of(s', s.selector.conn).queue == [] && SameMessages(s, s')
  {
    var c := s.selector.conn;
    AllWritten(Buffers(Of(s, c)), takes, gone, Buffers(Of(s', c)));
    assert |Buffers(Of(s', c))| == |Of(s', c).queue|;
  }

  /**
   Everything queued gets out: with a living selector and no fatal task under way, an open channel's queue can
   always be written to its end without a further send, and then its bytes are all the messages queued.
   */
  lemma OutputGetsOut(s: State, c: Conn) returns (run: seq<Event>)
    requires Inv(s) && Safe(s) && c !in s.closed
    ensures Calm(run)
    ensures var s' := Perform(s, run);
            && Inv(s') && SameMessages(s, s')
            && Of(s', c).queue == [] && Of(s', c).accepted == EncodeAll(Of(s, c).emitted)
  {
    hide Do;
    var rest := Rests(s);
    run := rest;
    var s1 := Perform(s, rest);
    if Of(s1, c).queue != [] {
      var ask := AskedSoon(s1, c);
      var s2 := Perform(s1, ask);
      var s3 := Do(s2, Select([]));
      FineStays(s2, Select([]));
      MessagesStay(s2, Select([]));
      SelectNone(s2, c);
      var tasks := TasksRun(s3, c);
      var s4 := Perform(s3, tasks);
      var write := WritesAll(s4, c);
      PerformMore(s3, tasks, write);
      CalmTogether(tasks, write);
      PrependEvent(s2, Select([]), tasks + write);
      PerformMore(s1, ask, [Select([])] + (tasks + write));
      CalmTogether(ask, [Select([])] + (tasks + write));
      PerformMore(s, rest, ask + ([Select([])] + (tasks + write)));
      CalmTogether(rest, ask + ([Select([])] + (tasks + write)));
      run := rest + (ask + ([Select([])] + (tasks + write)));
    }
    AllOut(Perform(s, run), c);
  }

  lemma SelectNone(s: State, c: Conn)
    requires s.selector == Selecting && Asked(s, c)
    ensures Do(s, Select([])).selector == RunningTasks([]) && Asked(Do(s, Select([])), c)
  {
  }

  lemma CalmTogether(x: seq<Event>, y: seq<Event>)
    requires Calm(x) && Calm(y)
    ensures Calm(x + y)
  {
  }

  lemma AllOut(s: State, c: Conn)
    requires Inv(s) && Of(s, c).queue == []
    ensures Of(s, c).accepted == EncodeAll(Of(s, c).emitted)
  {
    assert OutOk(s, c);
    assert Of(s, c).accepted + [] == Of(s, c).accepted;
  }

  lemma {:induction false} NobodyWaits(q: seq<Sender>, c: Conn)
    requires forall x :: x in q ==> Waits(x, c) == multiset{}
    ensures WaitingOn(q, c) == multiset{}
  {
    hide Waits;
    if q == [] {
    } else {
      assert q == [q[0]] + q[1..];
      assert q[0] in q;
      NobodyWaits(q[1..], c);
    }
  }

  lemma EnqueueStep(s: State, i: nat, c: Conn)
    requires Fine(s) && OwnArguments(s, c) && Ledger(s, c)
    requires i < |s.senders| && s.senders[i].Started? && s.senders[i].conn == c
    ensures var s' := Do(s, Enqueue(i));
            && Fine(s') && OwnArguments(s', c) && Ledger(s', c) && s'.closed == s.closed
            && Of(s', c).sent == Of(s, c).sent && |WaitingOn(s'.senders, c)| < |WaitingOn(s.senders, c)|
  {
    hide Inv;
    hide Safe;
    FineStays(s, Enqueue(i));
    OwnArgumentsKept(s, Enqueue(i), c);
    LedgerKept(s, Enqueue(i), c);
    WaitingUpdate(s.senders, i, Posting(c), c);
  }

  /** The threads started for c queue their messages. */
  lemma {:induction false} AllQueued(s: State, c: Conn) returns (run: seq<Event>)
    requires Fine(s) && OwnArguments(s, c) && Ledger(s, c)
    ensures Calm(run)
    ensures var s' := Perform(s, run);
            && Fine(s') && s'.closed == s.closed && Of(s', c).sent == Of(s, c).sent
            && multiset(Of(s', c).emitted) == multiset(Of(s, c).sent)
    decreases |WaitingOn(s.senders, c)|
  {
    hide Do;
    hide Fine;
    hide OwnArguments;
    if i: nat :| i < |s.senders| && s.senders[i].Started? && s.senders[i].conn == c {
      EnqueueStep(s, i, c);
      var more := AllQueued(Do(s, Enqueue(i)), c);
      PrependEvent(s, Enqueue(i), more);
      run := [Enqueue(i)] + more;
    } else {
      run := [];
      NobodyWaits(s.senders, c);
    }
  }

  /**
   And everything sent: from any state in which each message of an open channel has been queued or still waits
   with its own argument, some actions of the threads already there bring all of them out, each once.
   */
  lemma EveryMessageGetsOut(s: State, c: Conn) returns (run: seq<Event>, out: seq<string>)
    requires Inv(s) && Safe(s) && c !in s.closed && OwnArguments(s, c) && Ledger(s, c)
    ensures Calm(run) && multiset(out) == multiset(Of(s, c).sent)
    ensures var s' := Perform(s, run); Of(s', c).queue == [] && Of(s', c).accepted == EncodeAll(out)
  {
    hide Do;
    hide Inv;
    hide Safe;
    var queue := AllQueued(s, c);
    var s1 := Perform(s, queue);
    var write := OutputGetsOut(s1, c);
    PerformMore(s, queue, write);
    CalmTogether(queue, write);
    run, out := queue + write, Of(s1, c).emitted;
  }
}
