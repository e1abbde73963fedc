/**
 The read side of the reactor: the selector thread leases buffers, fills them from channels and
 submits tasks; pool workers decode the buffers byte by byte and give them back. The pool is the
 serial pool that module ActorThreadPool refines; a task is named by the buffer it owns.
 A worker's release of its buffer and its return to the pool are one step here: nothing another
 thread can do tells the two apart.
 */
module ReactorRead {
  import opened Wrappers
  import opened Codec
  import S = SerialActors

  type Conn = S.Actor
  type Buf = S.Task

  const BUFFER_ALLOCATION_SIZE: nat := 8192

  datatype Selector = Looping | Reading(conn: Conn, buf: Buf) | Submitting(conn: Conn, buf: Buf)

  datatype Holder = InPool | WithSelector | WithTask(conn: Conn)

  /**
   The last eight fields only record what has happened: the bytes each connection has sent, had
   decoded, and had decoded or dropped; the frames, by number, on which process threw, and the bytes
   decoded up to the first of them; what each read stored, and what its task has decoded of it.
   */
  datatype State = State(
    wire: map<Conn, seq<Byte>>,
    selector: Selector,
    spare: seq<Buf>,
    issued: nat,
    content: map<Buf, seq<Byte>>,
    pool: S.State,
    decoders: map<Conn, Decoded>,
    closed: set<Conn>,
    holder: map<Buf, Holder>,
    sent: map<Conn, seq<Byte>>,
    eaten: map<Conn, seq<Byte>>,
    used: map<Conn, seq<Byte>>,
    throws: map<Conn, seq<nat>>,
    clean: map<Conn, seq<Byte>>,
    stored: map<Buf, seq<Byte>>,
    taken: map<Buf, seq<Byte>>)

  const Start := State(map[], Looping, [], 0, map[], S.Start, map[], {}, map[],
                       map[], map[], map[], map[], map[], map[], map[])

  function Decoder(s: State, c: Conn): Decoded {
    if c in s.decoders then s.decoders[c] else Fresh
  }

  datatype Event =
    | Arrive(bytes: seq<Byte>, conn: Conn)
    | Lease(conn: Conn)
    | Fill(n: nat)
    | Shut
    | Hand
    | Take(worker: nat, conn: Conn)
    | Get(worker: nat, conn: Conn)
    | Throw(worker: nat, conn: Conn)
    | Return(worker: nat, conn: Conn)
    | Follow(worker: nat, conn: Conn)

  predicate Works(s: State, w: nat, c: Conn) {
    S.IsRunning(s.pool, w, c)
  }

  function BufferOf(s: State, c: Conn): Buf {
    if c in s.pool.slot && !s.pool.slot[c].Completing? then s.pool.slot[c].task else 0
  }

  predicate Can(s: State, e: Event) {
    match e
    case Arrive(_, _) => true
    case Lease(c) => s.selector == Looping && c !in s.closed
    case Fill(n) => s.selector.Reading? && n <= BUFFER_ALLOCATION_SIZE && n <= |At(s.wire, s.selector.conn)|
    case Shut => s.selector.Reading?
    case Hand => s.selector.Submitting?
    case Take(_, c) => S.IsQueued(s.pool, c)
    case Get(w, c) => Works(s, w, c) && At(s.content, BufferOf(s, c)) != []
    case Throw(w, c) => Works(s, w, c) && At(s.content, BufferOf(s, c)) != [] && At(s.content, BufferOf(s, c))[0] == 0
    case Return(w, c) => Works(s, w, c) && At(s.content, BufferOf(s, c)) == []
    case Follow(w, c) => S.IsCompleting(s.pool, w, c)
  }

  /** leaseBuffer takes the oldest spare buffer, or allocates one. */
  function DoLease(s: State, c: Conn): State {
    var b := if s.spare == [] then s.issued else s.spare[0];
    s.(selector := Reading(c, b),
       spare := if s.spare == [] then [] else s.spare[1..],
       issued := if s.spare == [] then s.issued + 1 else s.issued,
       content := s.content[b := []], holder := s.holder[b := WithSelector],
       stored := s.stored[b := []], taken := s.taken[b := []])
  }

  function DoFill(s: State, c: Conn, b: Buf, n: nat): State
    requires n <= |At(s.wire, c)|
  {
    s.(selector := Submitting(c, b), content := s.content[b := At(s.wire, c)[..n]],
       stored := s.stored[b := At(s.wire, c)[..n]], taken := s.taken[b := []],
       wire := s.wire[c := At(s.wire, c)[n..]])
  }

  function Release(s: State, b: Buf): State {
    s.(spare := s.spare + [b], holder := s.holder[b := InPool])
  }

  /** One byte from the running task's buffer into its connection's decoder. */
  function Eat(s: State, c: Conn): State
    requires At(s.content, BufferOf(s, c)) != []
  {
    var b, x := BufferOf(s, c), At(s.content, BufferOf(s, c));
    s.(content := s.content[b := x[1..]], decoders := s.decoders[c := Feed(Decoder(s, c), x[0])],
       eaten := Push(s.eaten, c, x[0]), used := Push(s.used, c, x[0]), taken := Push(s.taken, b, x[0]))
  }

  /** process throws on the frame that the byte completes; what the buffer still holds is dropped. */
  function EatAndThrow(s: State, c: Conn): State
    requires At(s.content, BufferOf(s, c)) != []
  {
    var s' := Eat(s, c);
    s'.(used := s.used[c := At(s.used, c) + At(s.content, BufferOf(s, c))],
        throws := Push(s.throws, c, |Decoder(s, c).frames|),
        clean := if c in s.clean then s.clean else s.clean[c := At(s.eaten, c)])
  }

  function Do(s: State, e: Event): State {
    if !Can(s, e) then s else
    match e
    case Arrive(bs, c) =>
      s.(sent := s.sent[c := At(s.sent, c) + bs], wire := s.wire[c := At(s.wire, c) + bs])
    case Lease(c) => DoLease(s, c)
    case Fill(n) => DoFill(s, s.selector.conn, s.selector.buf, n)
    case Shut =>
      Release(s, s.selector.buf).(selector := Looping, closed := s.closed + {s.selector.conn})
    case Hand =>
      var Submitting(c, b) := s.selector;
      s.(selector := Looping, pool := S.Submit(s.pool, c, b), holder := s.holder[b := WithTask(c)])
    case Take(w, c) => s.(pool := S.Take(s.pool, w, c))
    case Get(_, c) => Eat(s, c)
    case Throw(w, c) => Release(EatAndThrow(s, c), BufferOf(s, c)).(pool := S.Finish(s.pool, w, c))
    case Return(w, c) => Release(s, BufferOf(s, c)).(pool := S.Finish(s.pool, w, c))
    case Follow(w, c) => s.(pool := S.Complete(s.pool, w, c))
  }

  ghost predicate NoRepeat(q: seq<Buf>) {
    forall i, j :: 0 <= i < j < |q| ==> q[i] != q[j]
  }

  ghost predicate SelectorHas(s: State, b: Buf) {
    !s.selector.Looping? && s.selector.buf == b
  }

  /** Buffer b is in exactly the place recorded for it. */
  ghost predicate BufferOk(s: State, b: Buf) {
    && (b in s.holder <==> b < s.issued)
    && (b in s.spare <==> b in s.holder && s.holder[b] == InPool)
    && (SelectorHas(s, b) <==> b in s.holder && s.holder[b] == WithSelector)
  }

  ghost predicate TasksOk(s: State, c: Conn) {
    && NoRepeat(S.Owed(s.pool, c))
    && (forall b :: b in S.Owed(s.pool, c) <==> b in s.holder && s.holder[b] == WithTask(c))
  }

  function Contents(content: map<Buf, seq<Byte>>, tasks: seq<Buf>): seq<Byte> {
    if tasks == [] then [] else At(content, tasks[0]) + Contents(content, tasks[1..])
  }

  function Filled(s: State, c: Conn): seq<Byte> {
    if s.selector.Submitting? && s.selector.conn == c then At(s.content, s.selector.buf) else []
  }

  /** Bytes of a connection that are in some buffer. */
  function InBuffers(s: State, c: Conn): seq<Byte> {
    Contents(s.content, S.Owed(s.pool, c)) + Filled(s, c)
  }

  /** Every byte sent is decoded or dropped, in some buffer, or on its way. */
  ghost predicate FlowOk(s: State, c: Conn) {
    At(s.used, c) + (InBuffers(s, c) + At(s.wire, c)) == At(s.sent, c)
  }

  ghost predicate TextOk(s: State, c: Conn) {
    Decoder(s, c) == FeedAll(Fresh, At(s.eaten, c))
  }

  /** Until process throws nothing is dropped; the first frame on which it throws ends with `clean` and a zero byte. */
  ghost predicate ThrowOk(s: State, c: Conn) {
    if c !in s.clean then At(s.throws, c) == [] && At(s.eaten, c) == At(s.used, c)
    else
      && At(s.throws, c) != [] && At(s.throws, c)[0] == |FeedAll(Fresh, s.clean[c]).frames|
      && s.clean[c] + [0] <= At(s.eaten, c) && s.clean[c] + [0] <= At(s.used, c)
      && forall k: nat :: k in At(s.throws, c) ==> At(s.throws, c)[0] <= k < |Decoder(s, c).frames|
  }

  /** Out of the pool, what a buffer's task has decoded and what is left are what its read stored. */
  ghost predicate StoredOk(s: State, b: Buf) {
    b in s.holder && s.holder[b] != InPool ==> At(s.taken, b) + At(s.content, b) == At(s.stored, b)
  }

  ghost predicate Inv(s: State) {
    && S.Serial(s.pool) && NoRepeat(s.spare)
    && (forall b :: BufferOk(s, b) && StoredOk(s, b))
    && (forall c :: TasksOk(s, c) && FlowOk(s, c) && TextOk(s, c) && ThrowOk(s, c))
  }

  predicate BySelector(e: Event) {
    e.Arrive? || e.Lease? || e.Fill? || e.Shut? || e.Hand?
  }

  /** How an event moves one connection's tasks. */
  function OwedThen(s: State, e: Event, c: Conn): seq<Buf> {
    var q := S.Owed(s.pool, c);
    if !Can(s, e) then q
    else if e.Hand? && s.selector.conn == c then q + [s.selector.buf]
    else if (e.Throw? || e.Return?) && e.conn == c && q != [] then q[1..]
    else q
  }

  lemma OwedBySelector(s: State, e: Event, c: Conn)
    requires Can(s, e) && BySelector(e) && S.Balanced(s.pool, c)
    ensures S.Owed(Do(s, e).pool, c) == OwedThen(s, e, c)
  {
    hide S.Owed;
    hide S.Submit;
    hide S.Balanced;
    hide Feed;
    hide Release;
    hide DoFill;
    hide DoLease;
    PoolStays(s, e);
    if e.Hand? {
      S.SubmitOwes(s.pool, s.selector.conn, s.selector.buf, c);
    }
  }

  lemma PoolStays(s: State, e: Event)
    requires Can(s, e) && BySelector(e)
    ensures Do(s, e).pool == if e.Hand? then S.Submit(s.pool, s.selector.conn, s.selector.buf) else s.pool
  {
    hide S.Submit;
  }

  lemma OwedByWorker(s: State, e: Event, c: Conn)
    requires Can(s, e) && (e.Get? || e.Throw? || e.Return?) && S.Balanced(s.pool, c)
    ensures S.Owed(Do(s, e).pool, c) == OwedThen(s, e, c)
  {
    hide S.Balanced;
    hide DoFill;
    hide Feed;
    hide Release;
  }

  lemma OwedByPool(s: State, e: Event, c: Conn)
    requires Can(s, e) && (e.Take? || e.Follow?) && S.Balanced(s.pool, c)
    ensures S.Owed(Do(s, e).pool, c) == OwedThen(s, e, c)
  {
    hide S.Balanced;
    hide S.Owed;
    hide DoFill;
    hide Feed;
    hide Release;
    if e.Take? {
      S.OwedStays(s.pool, S.EvTake(e.worker, e.conn), c);
    } else {
      S.OwedStays(s.pool, S.EvComplete(e.worker, e.conn), c);
    }
  }

  lemma OwedAfter(s: State, e: Event, c: Conn)
    requires Can(s, e) && S.Balanced(s.pool, c)
    ensures S.Owed(Do(s, e).pool, c) == OwedThen(s, e, c)
  {
    if BySelector(e) {
      OwedBySelector(s, e, c);
    } else if e.Take? || e.Follow? {
      OwedByPool(s, e, c);
    } else {
      OwedByWorker(s, e, c);
    }
  }

  lemma HeadOfOwed(s: State, w: nat, c: Conn)
    requires Works(s, w, c)
    ensures S.Owed(s.pool, c) != [] && S.Owed(s.pool, c)[0] == BufferOf(s, c)
    ensures BufferOf(s, c) in S.Owed(s.pool, c)
  {
  }

  lemma BufferKeptBySelector(s: State, e: Event, b: Buf)
    requires Can(s, e) && BySelector(e) && BufferOk(s, b) && NoRepeat(s.spare)
    requires BufferOk(s, s.issued)
    requires s.spare != [] ==> BufferOk(s, s.spare[0])
    requires !s.selector.Looping? ==> BufferOk(s, s.selector.buf)
    ensures BufferOk(Do(s, e), b)
  {
    hide Push;
    hide At;
    hide Decoder;
    hide S.Finish;
    hide S.Complete;
  }

  lemma BufferKeptByTask(s: State, e: Event, b: Buf)
    requires Can(s, e) && !BySelector(e) && BufferOk(s, b)
    requires e.Throw? || e.Return? ==> TasksOk(s, e.conn)
    ensures BufferOk(Do(s, e), b)
  {
    hide Push;
    hide At;
    hide Decoder;
    hide S.Finish;
    hide S.Complete;
  }

  lemma BufferKept(s: State, e: Event, b: Buf)
    requires Can(s, e) && BufferOk(s, b) && NoRepeat(s.spare)
    requires BufferOk(s, s.issued)
    requires s.spare != [] ==> BufferOk(s, s.spare[0])
    requires !s.selector.Looping? ==> BufferOk(s, s.selector.buf)
    requires e.Throw? || e.Return? ==> TasksOk(s, e.conn)
    ensures BufferOk(Do(s, e), b)
  {
    hide Do;
    hide Can;
    hide BufferOk;
    hide TasksOk;
    if BySelector(e) {
      BufferKeptBySelector(s, e, b);
    } else {
      BufferKeptByTask(s, e, b);
    }
  }

  /** What an event decodes on connection c. */
  function Bite(s: State, e: Event, c: Conn): seq<Byte> {
    if Can(s, e) && (e.Get? || e.Throw?) && e.conn == c then [At(s.content, BufferOf(s, c))[0]] else []
  }

  lemma DecodedThen(s: State, e: Event, c: Conn)
    requires Can(s, e)
    ensures var x := Bite(s, e, c);
            && Decoder(Do(s, e), c) == (if x == [] then Decoder(s, c) else Feed(Decoder(s, c), x[0]))
            && At(Do(s, e).eaten, c) == At(s.eaten, c) + x
  {
    hide Feed;
    hide BufferOf;
    hide S.Finish;
    if Bite(s, e, c) == [] {
      assert At(s.eaten, c) + [] == At(s.eaten, c);
    }
  }

  lemma TextKept(s: State, e: Event, c: Conn)
    requires Can(s, e) && TextOk(s, c)
    ensures TextOk(Do(s, e), c)
  {
    hide Do;
    hide FeedAll;
    hide Feed;
    DecodedThen(s, e, c);
    var x := Bite(s, e, c);
    if x == [] {
      assert At(s.eaten, c) + x == At(s.eaten, c);
    } else {
      FeedOneMore(Fresh, At(s.eaten, c), x[0]);
    }
  }

  lemma SpareKept(s: State, e: Event)
    requires Can(s, e) && NoRepeat(s.spare)
    requires !s.selector.Looping? ==> BufferOk(s, s.selector.buf)
    requires e.Throw? || e.Return? ==>
             TasksOk(s, e.conn) && S.Balanced(s.pool, e.conn) && BufferOk(s, BufferOf(s, e.conn))
    ensures NoRepeat(Do(s, e).spare)
  {
    hide Push;
    hide S.Owed;
    hide S.Submit;
    hide Works;
    if e.Throw? || e.Return? {
      HeadOfOwed(s, e.worker, e.conn);
    }
  }

  lemma TasksKeptBySelector(s: State, e: Event, c: Conn)
    requires Can(s, e) && TasksOk(s, c) && S.Balanced(s.pool, c)
    requires BySelector(e)
    requires BufferOk(s, s.issued)
    requires s.spare != [] ==> BufferOk(s, s.spare[0])
    requires !s.selector.Looping? ==> BufferOk(s, s.selector.buf)
    ensures TasksOk(Do(s, e), c)
  {
    hide S.Owed;
    hide S.Submit;
    hide S.Balanced;
    hide S.IsCompleting;
    hide At;
    OwedAfter(s, e, c);
  }

  lemma TailMembers(q: seq<Buf>)
    requires q != [] && NoRepeat(q)
    ensures NoRepeat(q[1..]) && forall b :: b in q[1..] <==> b in q && b != q[0]
  {
    assert q == [q[0]] + q[1..];
  }

  lemma TasksKeptByPool(s: State, e: Event, c: Conn)
    requires Can(s, e) && TasksOk(s, c) && S.Balanced(s.pool, c)
    requires e.Take? || e.Get? || e.Follow?
    ensures TasksOk(Do(s, e), c)
  {
    hide S.Owed;
    hide S.Balanced;
    hide S.Take;
    hide S.Complete;
    hide Feed;
    hide Push;
    OwedAfter(s, e, c);
  }

  lemma TasksKeptByWorker(s: State, e: Event, c: Conn)
    requires Can(s, e) && TasksOk(s, c) && S.Balanced(s.pool, c)
    requires e.Throw? || e.Return?
    requires TasksOk(s, e.conn)
    ensures TasksOk(Do(s, e), c)
  {
    hide S.Owed;
    hide S.Balanced;
    hide S.Take;
    hide DoLease;
    hide Push;
    var b := BufferOf(s, e.conn);
    OwedAfter(s, e, c);
    HeadOfOwed(s, e.worker, e.conn);
    if e.conn == c {
      TailMembers(S.Owed(s.pool, c));
    }
    assert Do(s, e).holder == s.holder[b := InPool];
  }

  lemma {:induction false} ContentsFrame(content: map<Buf, seq<Byte>>, tasks: seq<Buf>, b: Buf, x: seq<Byte>)
    requires b !in tasks
    ensures Contents(content[b := x], tasks) == Contents(content, tasks)
  {
    if tasks == [] {
    } else {
      ContentsFrame(content, tasks[1..], b, x);
    }
  }

  lemma {:induction false} ContentsAppend(content: map<Buf, seq<Byte>>, tasks: seq<Buf>, b: Buf)
    ensures Contents(content, tasks + [b]) == Contents(content, tasks) + At(content, b)
  {
    if tasks == [] {
      assert Contents(content, [b]) == At(content, b) + Contents(content, [b][1..]);
    } else {
      assert (tasks + [b])[1..] == tasks[1..] + [b];
      ContentsAppend(content, tasks[1..], b);
      assert At(content, tasks[0]) + (Contents(content, tasks[1..]) + At(content, b))
          == At(content, tasks[0]) + Contents(content, tasks[1..]) + At(content, b);
    }
  }

  lemma BytesAtEnd(used: seq<Byte>, held: seq<Byte>, wire: seq<Byte>, more: seq<Byte>)
    ensures used + (held + (wire + more)) == used + (held + wire) + more
  {
  }

  lemma ArriveFlow(s: State, e: Event, c: Conn)
    requires Can(s, e) && e.Arrive? && FlowOk(s, c)
    ensures FlowOk(Do(s, e), c)
  {
    hide S.Submit;
    hide Contents;
    hide S.Owed;
    if e.conn == c {
      BytesAtEnd(At(s.used, c), InBuffers(s, c), At(s.wire, c), e.bytes);
    }
  }

  lemma LeaseFlow(s: State, e: Event, c: Conn)
    requires Can(s, e) && e.Lease? && FlowOk(s, c) && TasksOk(s, c)
    requires BufferOk(s, s.issued) && (s.spare != [] ==> BufferOk(s, s.spare[0]))
    ensures FlowOk(Do(s, e), c)
  {
    ContentsFrame(s.content, S.Owed(s.pool, c), Do(s, e).selector.buf, []);
  }

  /** What a read leaves: its bytes are in the selector's buffer, off the wire, and nowhere else. */
  lemma FillThen(s: State, n: nat, c: Conn)
    requires Can(s, Fill(n))
    ensures var s', x, w := Do(s, Fill(n)), s.selector.conn, At(s.wire, s.selector.conn);
            && n <= |w| && s'.pool == s.pool && s'.used == s.used && s'.sent == s.sent
            && s'.content == s.content[s.selector.buf := w[..n]]
            && At(s'.wire, c) == (if x == c then w[n..] else At(s.wire, c))
            && Filled(s', c) == (if x == c then w[..n] else []) && Filled(s, c) == []
  {
  }

  lemma FillFlow(s: State, e: Event, c: Conn)
    requires Can(s, e) && e.Fill? && FlowOk(s, c) && TasksOk(s, c) && BufferOk(s, s.selector.buf)
    ensures FlowOk(Do(s, e), c)
  {
    hide Contents;
    hide Do;
    hide Filled;
    hide S.Owed;
    hide NoRepeat;
    FillThen(s, e.n, c);
    var q, w := S.Owed(s.pool, c), At(s.wire, s.selector.conn);
    ContentsFrame(s.content, q, s.selector.buf, w[..e.n]);
    if s.selector.conn == c {
      FilledBytes(At(s.used, c), Contents(s.content, q), w, e.n);
    }
  }

  lemma FilledBytes(eaten: seq<Byte>, more: seq<Byte>, wire: seq<Byte>, n: nat)
    requires n <= |wire|
    ensures eaten + ((more + wire[..n]) + wire[n..]) == eaten + ((more + []) + wire)
  {
    assert wire == wire[..n] + wire[n..];
  }

  lemma HandFlow(s: State, e: Event, c: Conn)
    requires Can(s, e) && (e.Hand? || e.Shut?) && FlowOk(s, c) && S.Balanced(s.pool, c)
    ensures FlowOk(Do(s, e), c)
  {
    hide S.Owed;
    OwedAfter(s, e, c);
    var q := S.Owed(s.pool, c);
    if e.Hand? && s.selector.conn == c {
      ContentsAppend(s.content, q, s.selector.buf);
      assert Contents(s.content, q + [s.selector.buf]) + [] == Contents(s.content, q + [s.selector.buf]);
    }
  }

  lemma PoolFlow(s: State, e: Event, c: Conn)
    requires Can(s, e) && (e.Take? || e.Follow?) && FlowOk(s, c) && S.Balanced(s.pool, c)
    ensures FlowOk(Do(s, e), c)
  {
    hide Contents;
    OwedAfter(s, e, c);
  }

  lemma OtherEats(s: State, e: Event, c: Conn)
    requires Can(s, e) && (e.Get? || e.Throw? || e.Return?) && e.conn != c && FlowOk(s, c)
    requires TasksOk(s, c) && TasksOk(s, e.conn) && S.Balanced(s.pool, c) && S.Balanced(s.pool, e.conn)
    requires !s.selector.Looping? ==> BufferOk(s, s.selector.buf)
    ensures FlowOk(Do(s, e), c)
  {
    hide Do;
    hide S.Owed;
    hide S.Balanced;
    hide Contents;
    hide NoRepeat;
    var b := BufferOf(s, e.conn);
    OwedAfter(s, e, c);
    HeadOfOwed(s, e.worker, e.conn);
    EatsOnly(s, e, c);
    if !e.Return? {
      ContentsFrame(s.content, S.Owed(s.pool, c), b, At(s.content, b)[1..]);
    }
  }

  /** Of what a connection has in flight, another's task touches nothing but its own buffer. */
  lemma EatsOnly(s: State, e: Event, c: Conn)
    requires Can(s, e) && (e.Get? || e.Throw? || e.Return?) && e.conn != c
    ensures var s', b := Do(s, e), BufferOf(s, e.conn);
            && At(s'.used, c) == At(s.used, c) && s'.sent == s.sent && s'.wire == s.wire && s'.selector == s.selector
            && (e.Return? ==> s'.content == s.content)
            && (!e.Return? ==> At(s.content, b) != [] && s'.content == s.content[b := At(s.content, b)[1..]])
  {
    hide Feed;
    hide S.Finish;
  }

  /** A byte moves from the head buffer of its connection to the decoder; a finished buffer leaves. */
  lemma EatFlow(s: State, e: Event, c: Conn)
    requires Can(s, e) && (e.Get? || e.Throw? || e.Return?) && e.conn == c && FlowOk(s, c)
    requires TasksOk(s, c) && S.Balanced(s.pool, c)
    requires !s.selector.Looping? ==> BufferOk(s, s.selector.buf)
    ensures FlowOk(Do(s, e), c)
  {
    hide S.Owed;
    hide Feed;
    hide S.Finish;
    OwedAfter(s, e, c);
    HeadOfOwed(s, e.worker, c);
    var q, b := S.Owed(s.pool, c), BufferOf(s, c);
    var x, more := At(s.content, b), Contents(s.content, q[1..]);
    if e.Return? {
      assert x + more == more;
    } else {
      ContentsFrame(s.content, q[1..], b, x[1..]);
      EatenBytes(At(s.used, c), x, more, Filled(s, c), At(s.wire, c));
    }
  }

  lemma EatenBytes(used: seq<Byte>, x: seq<Byte>, more: seq<Byte>, filled: seq<Byte>, wire: seq<Byte>)
    requires x != []
    ensures used + [x[0]] + ((x[1..] + more + filled) + wire) == used + ((x + more + filled) + wire)
    ensures used + x + ((more + filled) + wire) == used + ((x + more + filled) + wire)
  {
    assert x == [x[0]] + x[1..];
  }

  lemma FlowKept(s: State, e: Event, c: Conn)
    requires Inv(s) && Can(s, e)
    ensures FlowOk(Do(s, e), c)
  {
    hide At;
    hide BufferOk;
    hide Fresh;
    hide TasksOk;
    assert FlowOk(s, c) && TasksOk(s, c) && S.Balanced(s.pool, c);
    assert BufferOk(s, s.issued) && (s.spare != [] ==> BufferOk(s, s.spare[0]));
    assert !s.selector.Looping? ==> BufferOk(s, s.selector.buf);
    match e
    case Arrive(_, _) => ArriveFlow(s, e, c);
    case Lease(_) => LeaseFlow(s, e, c);
    case Fill(_) => FillFlow(s, e, c);
    case Shut => HandFlow(s, e, c);
    case Hand => HandFlow(s, e, c);
    case Take(_, _) => PoolFlow(s, e, c);
    case Follow(_, _) => PoolFlow(s, e, c);
    case _ =>
      assert TasksOk(s, e.conn) && S.Balanced(s.pool, e.conn);
      if e.conn == c {
        EatFlow(s, e, c);
      } else {
        OtherEats(s, e, c);
      }
  }

  lemma StoredKeptByGet(s: State, e: Event, b: Buf)
    requires Can(s, e) && StoredOk(s, b) && e.Get?
    ensures StoredOk(Do(s, e), b)
  {
    hide Feed;
    hide BufferOf;
    var own := BufferOf(s, e.conn);
    OneByteOver(At(s.taken, own), At(s.content, own));
    assert Do(s, e) == Eat(s, e.conn);
  }

  lemma OneByteOver(taken: seq<Byte>, x: seq<Byte>)
    requires x != []
    ensures (taken + [x[0]]) + x[1..] == taken + x
  {
    assert x == [x[0]] + x[1..];
  }

  lemma StoredKeptByWorker(s: State, e: Event, b: Buf)
    requires Can(s, e) && StoredOk(s, b) && (e.Throw? || e.Return? || e.Take? || e.Follow?)
    ensures StoredOk(Do(s, e), b)
  {
    hide Feed;
    hide BufferOf;
    hide S.Finish;
    hide S.Complete;
    hide S.Take;
    if e.Throw? {
      assert Do(s, e).holder == s.holder[BufferOf(s, e.conn) := InPool];
    }
  }

  lemma StoredKeptBySelector(s: State, e: Event, b: Buf)
    requires Can(s, e) && StoredOk(s, b) && BySelector(e)
    requires s.selector.Submitting? ==> BufferOk(s, s.selector.buf)
    ensures StoredOk(Do(s, e), b)
  {
    hide S.Submit;
  }

  lemma StoredKept(s: State, e: Event, b: Buf)
    requires Can(s, e) && StoredOk(s, b)
    requires !s.selector.Looping? ==> BufferOk(s, s.selector.buf)
    ensures StoredOk(Do(s, e), b)
  {
    hide Do;
    hide Can;
    hide StoredOk;
    hide BufferOk;
    if e.Get? {
      StoredKeptByGet(s, e, b);
    } else if BySelector(e) {
      StoredKeptBySelector(s, e, b);
    } else {
      StoredKeptByWorker(s, e, b);
    }
  }

  /** What process throwing on c leaves in the records of c. */
  lemma ThrowsHere(s: State, e: Event, c: Conn)
    requires Can(s, e) && e.Throw? && e.conn == c
    ensures var s' := Do(s, e);
            && Bite(s, e, c) == [0]
            && At(s'.throws, c) == At(s.throws, c) + [|Decoder(s, c).frames|]
            && s'.clean == (if c in s.clean then s.clean else s.clean[c := At(s.eaten, c)])
            && At(s.used, c) + [0] <= At(s'.used, c)
            && At(s'.used, c) == At(s.used, c) + At(s'.used, c)[|At(s.used, c)|..]
  {
    hide Decoder;
    hide Feed;
    hide BufferOf;
    hide S.Finish;
  }

  /** What a byte read by a task, or a throw on another connection, does to them. */
  lemma ReadsElsewhere(s: State, e: Event, c: Conn)
    requires Can(s, e) && (e.Get? || (e.Throw? && e.conn != c))
    ensures var s' := Do(s, e);
            && At(s'.throws, c) == At(s.throws, c) && (c in s'.clean <==> c in s.clean)
            && (c in s.clean ==> s'.clean[c] == s.clean[c])
            && At(s'.used, c) == At(s.used, c) + Bite(s, e, c)
  {
    hide Decoder;
    hide Feed;
    hide BufferOf;
    hide S.Finish;
  }

  lemma NobodyReads(s: State, e: Event)
    requires Can(s, e) && !e.Get? && !e.Throw?
    ensures Do(s, e).throws == s.throws && Do(s, e).clean == s.clean && Do(s, e).used == s.used
  {
    hide Eat;
    hide At;
    hide BufferOf;
    hide S.Finish;
    hide S.Submit;
    hide S.Take;
    hide S.Complete;
  }

  /** What any other event does to them. */
  lemma ThrowsElsewhere(s: State, e: Event, c: Conn)
    requires Can(s, e) && !(e.Throw? && e.conn == c)
    ensures var s' := Do(s, e);
            && At(s'.throws, c) == At(s.throws, c) && (c in s'.clean <==> c in s.clean)
            && (c in s.clean ==> s'.clean[c] == s.clean[c])
            && At(s'.used, c) == At(s.used, c) + Bite(s, e, c)
  {
    hide Do;
    hide Can;
    if e.Get? || e.Throw? {
      ReadsElsewhere(s, e, c);
    } else {
      NobodyReads(s, e);
      assert At(s.used, c) + [] == At(s.used, c);
    }
  }

  lemma StillPrefix(x: seq<Byte>, y: seq<Byte>, more: seq<Byte>)
    requires x <= y
    ensures x <= y + more
  {
  }

  lemma ThrowKept(s: State, e: Event, c: Conn)
    requires Can(s, e) && ThrowOk(s, c) && TextOk(s, c)
    ensures ThrowOk(Do(s, e), c)
  {
    hide Do;
    hide Can;
    hide FeedAll;
    hide Decoder;
    DecodedThen(s, e, c);
    if e.Throw? && e.conn == c {
      ThrowsHere(s, e, c);
    } else {
      ThrowsElsewhere(s, e, c);
    }
    var x := Bite(s, e, c);
    assert x != [] ==> |Feed(Decoder(s, c), x[0]).frames| == |Decoder(s, c).frames| + (if x[0] == 0 then 1 else 0);
    if c in s.clean {
      StillPrefix(s.clean[c] + [0], At(s.eaten, c), x);
      StillPrefix(s.clean[c] + [0], At(s.used, c), x);
      if e.Throw? && e.conn == c {
        StillPrefix(s.clean[c] + [0], At(s.used, c), At(Do(s, e).used, c)[|At(s.used, c)|..]);
        assert At(s.throws, c)[0] in At(s.throws, c);
      }
    }
  }

  lemma InvKept(s: State, e: Event)
    requires Inv(s) && Can(s, e)
    ensures Inv(Do(s, e))
  {
    hide Do;
    hide At;
    hide FlowOk;
    hide BufferOk;
    hide StoredOk;
    hide TasksOk;
    hide S.Owed;
    hide Feed;
    var s' := Do(s, e);
    assert BufferOk(s, s.issued) && (s.spare != [] ==> BufferOk(s, s.spare[0]));
    assert !s.selector.Looping? ==> BufferOk(s, s.selector.buf);
    PoolKept(s, e);
    forall c ensures TasksOk(s', c) && TextOk(s', c) && FlowOk(s', c) && ThrowOk(s', c) {
      assert TasksOk(s, c) && TextOk(s, c) && ThrowOk(s, c) && S.Balanced(s.pool, c);
      TextKept(s, e, c);
      ThrowKept(s, e, c);
      FlowKept(s, e, c);
      if BySelector(e) {
        TasksKeptBySelector(s, e, c);
      } else if e.Throw? || e.Return? {
        assert TasksOk(s, e.conn);
        TasksKeptByWorker(s, e, c);
      } else {
        TasksKeptByPool(s, e, c);
      }
    }
    if e.Throw? || e.Return? {
      assert TasksOk(s, e.conn) && S.Balanced(s.pool, e.conn) && BufferOk(s, BufferOf(s, e.conn));
    }
    SpareKept(s, e);
    if e.Get? {
      assert TasksOk(s, e.conn);
    }
    forall b ensures BufferOk(s', b) && StoredOk(s', b) {
      assert BufferOk(s, b) && StoredOk(s, b);
      BufferKept(s, e, b);
      StoredKept(s, e, b);
    }
  }

  lemma PoolKept(s: State, e: Event)
    requires S.Serial(s.pool) && Can(s, e)
    ensures S.Serial(Do(s, e).pool)
  {
    match e
    case Hand => S.StepKeepsSerial(s.pool, S.EvSubmit(s.selector.conn, s.selector.buf));
    case Take(w, c) => S.StepKeepsSerial(s.pool, S.EvTake(w, c));
    case Throw(w, c) => S.StepKeepsSerial(s.pool, S.EvFinish(w, c));
    case Return(w, c) => S.StepKeepsSerial(s.pool, S.EvFinish(w, c));
    case Follow(w, c) => S.StepKeepsSerial(s.pool, S.EvComplete(w, c));
    case _ =>
  }

  function Perform(s: State, run: seq<Event>): State
    decreases run
  {
    if run == [] then s else Perform(Do(s, run[0]), run[1..])
  }

  lemma {:induction false} InvAlways(s: State, run: seq<Event>)
    requires Inv(s)
    ensures Inv(Perform(s, run))
    decreases run
  {
    if run == [] {
    } else {
      if Can(s, run[0]) {
        InvKept(s, run[0]);
      }
      InvAlways(Do(s, run[0]), run[1..]);
    }
  }

  /** No task of the connection is pending, queued, running or completing, and no byte is unread. */
  ghost predicate Drained(s: State, c: Conn) {
    c !in s.pool.slot && !(s.selector.Submitting? && s.selector.conn == c) && At(s.wire, c) == []
  }

  /** What the blocking loop makes of the same input when process throws on the same frames. */
  function Blocking(s: State, c: Conn): Decoded {
    FeedUntil(Fresh, At(s.sent, c), set k: nat | k in At(s.throws, c))
  }

  /**
   The reactor against thread-per-client, for every interleaving and chunking. Until process throws on
   a connection, the frames handed to it are a prefix of those of the blocking loop, and all of them
   once the connection has drained. The first frame on which process throws is the last one of the
   blocking loop; up to it both hand over the same frames.
   */
  lemma ModesAgree(run: seq<Event>, c: Conn)
    ensures var s := Perform(Start, run);
            var frames, throws := Decoder(s, c).frames, At(s.throws, c);
            && (throws == [] ==> frames <= Blocking(s, c).frames)
            && (throws == [] && Drained(s, c) ==> Decoder(s, c) == Blocking(s, c))
            && (throws != [] ==> throws[0] < |frames| && Blocking(s, c).frames == frames[..throws[0] + 1])
  {
    assert Inv(Start);
    InvAlways(Start, run);
    BlockingIs(Perform(Start, run), c);
  }

  lemma BlockingIs(s: State, c: Conn)
    requires Inv(s)
    ensures var frames, throws := Decoder(s, c).frames, At(s.throws, c);
            && (throws == [] ==> frames <= Blocking(s, c).frames)
            && (throws == [] && Drained(s, c) ==> Decoder(s, c) == Blocking(s, c))
            && (throws != [] ==> throws[0] < |frames| && Blocking(s, c).frames == frames[..throws[0] + 1])
  {
    assert TextOk(s, c) && FlowOk(s, c) && ThrowOk(s, c) && S.Balanced(s.pool, c);
    var throws := set k: nat | k in At(s.throws, c);
    var sent := At(s.sent, c);
    if c in s.clean {
      var first := s.clean[c] + [0];
      var n := At(s.throws, c)[0];
      assert n in At(s.throws, c);
      forall k: nat | k in throws ensures k >= n {
        assert k in At(s.throws, c);
      }
      assert n in throws;
      StillPrefix(first, At(s.used, c), InBuffers(s, c) + At(s.wire, c));
      FramesGrow(Fresh, s.clean[c]);
      ThrownAt(Fresh, s.clean[c], sent[|first|..], throws);
      assert sent == s.clean[c] + [0] + sent[|first|..];
      FirstThrown(s.clean[c], At(s.eaten, c));
    } else {
      var rest := InBuffers(s, c) + At(s.wire, c);
      FeedAppend(Fresh, At(s.eaten, c), rest);
      FramesGrow(Decoder(s, c), rest);
      NothingThrown(Fresh, sent, throws);
    }
  }

  /** The frames up to the end of a frame are those of any longer input, cut off. */
  lemma FirstThrown(x: seq<Byte>, longer: seq<Byte>)
    requires x + [0] <= longer
    ensures var n := |FeedAll(Fresh, x).frames|;
            && n < |FeedAll(Fresh, longer).frames|
            && FeedAll(Fresh, x + [0]).frames == FeedAll(Fresh, longer).frames[..n + 1]
  {
    FeedOneMore(Fresh, x, 0);
    var more := longer[|x| + 1..];
    assert longer == (x + [0]) + more;
    FeedAppend(Fresh, x + [0], more);
    FramesGrow(FeedAll(Fresh, x + [0]), more);
  }

  /** So the modes agree on a connection exactly if no frame is handed over after one on which process threw. */
  lemma ModesAgreeExactly(run: seq<Event>, c: Conn)
    ensures var s := Perform(Start, run);
            Decoder(s, c).frames <= Blocking(s, c).frames
            <==> forall k: nat :: k in At(s.throws, c) ==> k == |Decoder(s, c).frames| - 1
  {
    assert Inv(Start);
    InvAlways(Start, run);
    AgreeExactly(Perform(Start, run), c);
  }

  lemma AgreeExactly(s: State, c: Conn)
    requires Inv(s)
    ensures Decoder(s, c).frames <= Blocking(s, c).frames
            <==> forall k: nat :: k in At(s.throws, c) ==> k == |Decoder(s, c).frames| - 1
  {
    BlockingIs(s, c);
    assert ThrowOk(s, c);
    if At(s.throws, c) != [] {
      assert At(s.throws, c)[0] in At(s.throws, c);
    }
  }

  lemma {:induction false} PerformMore(s: State, run: seq<Event>, e: Event)
    ensures Perform(s, run + [e]) == Do(Perform(s, run), e)
    decreases run
  {
    hide Do;
    if run == [] {
      assert run + [e] == [e];
      assert Perform(Do(s, e), [e][1..]) == Do(s, e);
    } else {
      assert (run + [e])[0] == run[0] && (run + [e])[1..] == run[1..] + [e];
      PerformMore(Do(s, run[0]), run[1..], e);
    }
  }

  /** An idle connection with a zero byte on its way, whose selector has a spare buffer or can allocate one. */
  predicate OneToRead(s: State, c: Conn) {
    && s.selector == Looping && c !in s.closed && c !in s.pool.slot && At(s.pool.pending, c) == []
    && At(s.wire, c) != [] && At(s.wire, c)[0] == 0
  }

  /** Its byte read into a buffer, handed over and taken by a worker. */
  function ReadOne(s: State, worker: nat, c: Conn): State {
    Do(Do(Do(Do(s, Lease(c)), Fill(1)), Hand), Take(worker, c))
  }

  lemma LeasedAndFilled(s: State, c: Conn)
    requires OneToRead(s, c)
    ensures var s', b := Do(Do(s, Lease(c)), Fill(1)), if s.spare == [] then s.issued else s.spare[0];
            && s'.selector == Submitting(c, b) && At(s'.content, b) == [0] && At(s'.wire, c) == At(s.wire, c)[1..]
            && s'.pool == s.pool && s'.closed == s.closed
            && s'.throws == s.throws && s'.sent == s.sent && s'.decoders == s.decoders
  {
    hide Eat;
    var s1 := Do(s, Lease(c));
    assert s1 == DoLease(s, c) && s1.wire == s.wire;
    assert Do(s1, Fill(1)) == DoFill(s1, c, s1.selector.buf, 1);
  }

  lemma HandedAndTaken(s: State, worker: nat, c: Conn, b: Buf)
    requires s.selector == Submitting(c, b) && c !in s.pool.slot && At(s.pool.pending, c) == []
    ensures var s' := Do(Do(s, Hand), Take(worker, c));
            && s'.selector == Looping && Works(s', worker, c) && BufferOf(s', c) == b && s'.content == s.content
            && At(s'.pool.pending, c) == [] && s'.closed == s.closed && s'.wire == s.wire
            && s'.throws == s.throws && s'.sent == s.sent && s'.decoders == s.decoders
  {
    hide Eat;
    assert S.IsQueued(Do(s, Hand).pool, c) && Do(s, Hand).pool.slot[c].task == b;
  }

  lemma OneRead(s: State, worker: nat, c: Conn)
    requires OneToRead(s, c)
    ensures var s' := ReadOne(s, worker, c);
            && s'.selector == Looping && Works(s', worker, c) && At(s'.content, BufferOf(s', c)) == [0]
            && At(s'.pool.pending, c) == [] && s'.closed == s.closed && At(s'.wire, c) == At(s.wire, c)[1..]
            && s'.throws == s.throws && s'.sent == s.sent && s'.decoders == s.decoders
  {
    hide Do;
    hide Works;
    hide BufferOf;
    LeasedAndFilled(s, c);
    HandedAndTaken(Do(Do(s, Lease(c)), Fill(1)), worker, c, if s.spare == [] then s.issued else s.spare[0]);
  }

  lemma ReadOnePerformed(s: State, run: seq<Event>, worker: nat, c: Conn)
    ensures Perform(s, run + [Lease(c)] + [Fill(1)] + [Hand] + [Take(worker, c)]) == ReadOne(Perform(s, run), worker, c)
  {
    hide Do;
    PerformMore(s, run, Lease(c));
    PerformMore(s, run + [Lease(c)], Fill(1));
    PerformMore(s, run + [Lease(c)] + [Fill(1)], Hand);
    PerformMore(s, run + [Lease(c)] + [Fill(1)] + [Hand], Take(worker, c));
  }

  /** process throws on the byte, and the connection is idle again. */
  lemma ThrownAndIdle(s: State, worker: nat, c: Conn)
    requires s.selector == Looping && Works(s, worker, c) && At(s.content, BufferOf(s, c)) == [0]
    requires At(s.pool.pending, c) == [] && c !in s.closed && At(s.throws, c) == [] && Decoder(s, c) == Fresh
    ensures var s' := Do(Do(s, Throw(worker, c)), Follow(worker, c));
            && s'.selector == Looping && c !in s'.closed && c !in s'.pool.slot && At(s'.pool.pending, c) == []
            && s'.wire == s.wire && s'.sent == s.sent && At(s'.throws, c) == [0] && Decoder(s', c) == Decoded([], [""])
  {
    var s1 := Do(s, Throw(worker, c));
    assert S.IsCompleting(s1.pool, worker, c) && s1.pool.pending == s.pool.pending;
  }

  /**
   The empty frame makes process throw. Of two in two reads the blocking loop hands over the first,
   the reactor both.
   */
  lemma ReactorGoesOn(c: Conn) returns (run: seq<Event>)
    ensures var s := Perform(Start, run);
            At(s.throws, c) == [0] && Decoder(s, c).frames == ["", ""] && Blocking(s, c).frames == [""]
  {
    run := [Arrive([0, 0], c)];
    var s := Do(Start, Arrive([0, 0], c));
    assert Perform(s, run[1..]) == s && Perform(Start, run) == s;
    ReadOnePerformed(Start, run, 0, c);
    OneRead(s, 0, c);
    var s1 := ReadOne(s, 0, c);
    hide ReadOne;
    run := run + [Lease(c)] + [Fill(1)] + [Hand] + [Take(0, c)];
    PerformMore(Start, run, Throw(0, c));
    PerformMore(Start, run + [Throw(0, c)], Follow(0, c));
    ThrownAndIdle(s1, 0, c);
    run := run + [Throw(0, c)] + [Follow(0, c)];
    var s2 := Do(Do(s1, Throw(0, c)), Follow(0, c));
    ReadOnePerformed(Start, run, 0, c);
    OneRead(s2, 0, c);
    var s3 := ReadOne(s2, 0, c);
    run := run + [Lease(c)] + [Fill(1)] + [Hand] + [Take(0, c)];
    PerformMore(Start, run, Get(0, c));
    run := run + [Get(0, c)];
    SecondEmptyFrame(s3, 0, c);
  }

  lemma SecondEmptyFrame(s: State, worker: nat, c: Conn)
    requires Works(s, worker, c) && At(s.content, BufferOf(s, c)) == [0] && Decoder(s, c) == Decoded([], [""])
    requires At(s.throws, c) == [0] && At(s.sent, c) == [0, 0]
    ensures var s' := Do(s, Get(worker, c));
            At(s'.throws, c) == [0] && Decoder(s', c).frames == ["", ""] && Blocking(s', c).frames == [""]
  {
    assert Feed(Fresh, 0) == Decoded([], [""]);
    assert 0 in [0];
  }

  /** A task has decoded exactly the first bytes that its own read stored, whether or not process throws. */
  lemma TaskReadsItsOwn(run: seq<Event>, b: Buf, c: Conn)
    ensures var s := Perform(Start, run);
            && (b in S.Owed(s.pool, c) ==> At(s.taken, b) + At(s.content, b) == At(s.stored, b))
            && At(s.used, c) + (InBuffers(s, c) + At(s.wire, c)) == At(s.sent, c)
  {
    assert Inv(Start);
    InvAlways(Start, run);
    var s := Perform(Start, run);
    assert TasksOk(s, c) && StoredOk(s, b) && FlowOk(s, c);
  }

  /** Spare buffers, the selector's buffer and the buffers of tasks never overlap. */
  lemma BuffersHaveOneOwner(run: seq<Event>, b: Buf, c: Conn, d: Conn)
    ensures var s := Perform(Start, run);
            && NoRepeat(s.spare) && NoRepeat(S.Owed(s.pool, c))
            && (b in S.Owed(s.pool, c) && b in S.Owed(s.pool, d) ==> c == d)
            && !(b in s.spare && b in S.Owed(s.pool, c))
            && (SelectorHas(s, b) ==> b !in s.spare && b !in S.Owed(s.pool, c))
            && (b < s.issued <==> b in s.spare || SelectorHas(s, b) || exists x :: b in S.Owed(s.pool, x))
  {
    assert Inv(Start);
    InvAlways(Start, run);
    var s := Perform(Start, run);
    assert BufferOk(s, b) && TasksOk(s, c) && TasksOk(s, d);
    if b < s.issued && s.holder[b].WithTask? {
      assert TasksOk(s, s.holder[b].conn);
    }
    if x :| b in S.Owed(s.pool, x) {
      assert TasksOk(s, x);
    }
  }

  // That everything is read: from any state some actions of the selector thread and the workers read all that
  // an open connection has sent.

  /** A run in which nothing arrives, process does not throw, and no channel ends. */
  predicate Quiet(run: seq<Event>) {
    forall e :: e in run ==> !e.Arrive? && !e.Throw? && !e.Shut?
  }

  predicate Kept(s: State, s': State) {
    s'.sent == s.sent && s'.throws == s.throws && s'.closed == s.closed
  }

  lemma LeaseKeeps(s: State, c: Conn)
    ensures Kept(s, Do(s, Lease(c)))
  {
    assert Can(s, Lease(c)) ==> Do(s, Lease(c)) == DoLease(s, c);
  }

  lemma FillKeeps(s: State, n: nat)
    ensures Kept(s, Do(s, Fill(n)))
  {
    assert Can(s, Fill(n)) ==> Do(s, Fill(n)) == DoFill(s, s.selector.conn, s.selector.buf, n);
  }

  lemma HandKeeps(s: State)
    ensures Kept(s, Do(s, Hand))
  {
    hide S.Submit;
  }

  lemma SelectorKeeps(s: State, e: Event)
    requires e.Lease? || e.Fill? || e.Hand?
    ensures Kept(s, Do(s, e))
  {
    hide Do;
    hide Kept;
    match e
    case Lease(c) => LeaseKeeps(s, c);
    case Fill(n) => FillKeeps(s, n);
    case Hand => HandKeeps(s);
  }

  lemma TaskKeeps(s: State, e: Event)
    requires e.Get? || e.Return?
    ensures Kept(s, Do(s, e))
  {
    hide Feed;
    hide Decoder;
    hide Push;
    hide BufferOf;
    hide S.Finish;
    if Can(s, e) && e.Get? {
      assert Do(s, e) == Eat(s, e.conn);
    }
  }

  lemma PoolKeeps(s: State, e: Event)
    requires e.Take? || e.Follow?
    ensures Kept(s, Do(s, e))
  {
    hide S.Take;
    hide S.Complete;
  }

  lemma QuietKeeps(s: State, e: Event)
    requires !e.Arrive? && !e.Throw? && !e.Shut?
    ensures Kept(s, Do(s, e))
  {
    hide Do;
    hide Kept;
    if e.Get? || e.Return? {
      TaskKeeps(s, e);
    } else if e.Take? || e.Follow? {
      PoolKeeps(s, e);
    } else {
      SelectorKeeps(s, e);
    }
  }

  lemma InvStays(s: State, e: Event)
    requires Inv(s)
    ensures Inv(Do(s, e))
  {
    hide Inv;
    if Can(s, e) {
      InvKept(s, e);
    }
  }

  lemma OneQuiet(s: State, e: Event, more: seq<Event>)
    requires Quiet(more) && !e.Arrive? && !e.Throw? && !e.Shut?
    ensures Quiet([e] + more) && Perform(s, [e] + more) == Perform(Do(s, e), more)
  {
    hide Do;
    assert ([e] + more)[1..] == more;
  }

  lemma {:induction false} PerformAll(s: State, run: seq<Event>, more: seq<Event>)
    requires Quiet(run) && Quiet(more)
    ensures Quiet(run + more) && Perform(s, run + more) == Perform(Perform(s, run), more)
    decreases run
  {
    hide Do;
    if run == [] {
      assert run + more == more;
    } else {
      assert (run + more)[0] == run[0] && (run + more)[1..] == run[1..] + more;
      assert run[0] in run && forall e :: e in run[1..] ==> e in run;
      PerformAll(Do(s, run[0]), run[1..], more);
    }
  }

  /** The selector thread finishes the read it is at. */
  lemma SelectorFrees(s: State) returns (run: seq<Event>)
    requires Inv(s)
    ensures Quiet(run)
    ensures var s' := Perform(s, run); Inv(s') && Kept(s, s') && s'.selector == Looping
  {
    hide Inv;
    if s.selector == Looping {
      run := [];
    } else if s.selector.Reading? {
      ReadsNothing(s);
      var s1 := Do(s, Fill(0));
      InvStays(s, Fill(0));
      QuietKeeps(s, Fill(0));
      InvStays(s1, Hand);
      QuietKeeps(s1, Hand);
      HandFrees(s1);
      OneQuiet(s1, Hand, []);
      OneQuiet(s, Fill(0), [Hand] + []);
      run := [Fill(0)] + ([Hand] + []);
    } else {
      InvStays(s, Hand);
      QuietKeeps(s, Hand);
      HandFrees(s);
      OneQuiet(s, Hand, []);
      run := [Hand] + [];
    }
  }

  lemma ReadsNothing(s: State)
    requires s.selector.Reading?
    ensures Do(s, Fill(0)).selector.Submitting?
  {
  }

  lemma HandFrees(s: State)
    requires s.selector.Submitting?
    ensures Do(s, Hand).selector == Looping
    ensures forall c :: At(Do(s, Hand).wire, c) == At(s.wire, c)
  {
    hide S.Submit;
  }

  /** What c's worker, or the executor, does next for c. */
  function NextFor(s: State, c: Conn): Event
    requires c in s.pool.slot
  {
    match s.pool.slot[c]
    case Queued(_) => Take(0, c)
    case Running(w, b) => if At(s.content, b) == [] then Return(w, c) else Get(w, c)
    case Completing(w) => Follow(w, c)
  }

  function StageOf(s: State, c: Conn): nat {
    if c !in s.pool.slot then 0 else
    match s.pool.slot[c] case Queued(_) => 3 case Running(_, _) => 2 case Completing(_) => 1
  }

  function BytesLeft(s: State, c: Conn): nat {
    if c in s.pool.slot && s.pool.slot[c].Running? then |At(s.content, s.pool.slot[c].task)| else 0
  }

  /** What is left to do for c before its slot is empty has become less. */
  predicate Nearer(s: State, s': State, c: Conn) {
    && s'.selector == s.selector && At(s'.wire, c) == At(s.wire, c)
    && (|At(s'.pool.pending, c)| < |At(s.pool.pending, c)|
        || (At(s'.pool.pending, c) == At(s.pool.pending, c)
            && (StageOf(s', c) < StageOf(s, c)
                || (StageOf(s', c) == StageOf(s, c) && BytesLeft(s', c) < BytesLeft(s, c)))))
  }

  lemma TakeNearer(s: State, c: Conn)
    requires S.IsQueued(s.pool, c)
    ensures Nearer(s, Do(s, Take(0, c)), c)
  {
    assert Do(s, Take(0, c)) == s.(pool := S.Take(s.pool, 0, c));
  }

  lemma GetNearer(s: State, w: nat, c: Conn)
    requires Works(s, w, c) && At(s.content, BufferOf(s, c)) != []
    ensures Nearer(s, Do(s, Get(w, c)), c)
  {
    hide Feed;
    hide Decoder;
    hide Push;
    assert Do(s, Get(w, c)) == Eat(s, c);
  }

  lemma ReturnNearer(s: State, w: nat, c: Conn)
    requires Works(s, w, c) && At(s.content, BufferOf(s, c)) == []
    ensures Nearer(s, Do(s, Return(w, c)), c)
  {
    hide Push;
    assert Do(s, Return(w, c)) == Release(s, BufferOf(s, c)).(pool := S.Finish(s.pool, w, c));
  }

  lemma FollowNearer(s: State, w: nat, c: Conn)
    requires S.IsCompleting(s.pool, w, c)
    ensures Nearer(s, Do(s, Follow(w, c)), c)
  {
    assert Do(s, Follow(w, c)) == s.(pool := S.Complete(s.pool, w, c));
  }

  lemma NextForWorks(s: State, c: Conn)
    requires c in s.pool.slot
    ensures Nearer(s, Do(s, NextFor(s, c)), c)
  {
    hide Do;
    hide Nearer;
    match s.pool.slot[c]
    case Queued(_) => TakeNearer(s, c);
    case Running(w, b) => if At(s.content, b) == [] { ReturnNearer(s, w, c); } else { GetNearer(s, w, c); }
    case Completing(w) => FollowNearer(s, w, c);
  }

  /** The tasks of a connection are read to their ends. */
  lemma {:induction false} TasksDrain(s: State, c: Conn) returns (run: seq<Event>)
    requires Inv(s) && s.selector == Looping
    ensures Quiet(run)
    ensures var s' := Perform(s, run);
            && Inv(s') && Kept(s, s') && s'.selector == Looping && At(s'.wire, c) == At(s.wire, c) && c !in s'.pool.slot
    decreases |At(s.pool.pending, c)|, StageOf(s, c), BytesLeft(s, c)
  {
    hide Inv;
    hide Do;
    if c !in s.pool.slot {
      run := [];
    } else {
      var e := NextFor(s, c);
      NextForWorks(s, c);
      InvStays(s, e);
      QuietKeeps(s, e);
      var more := TasksDrain(Do(s, e), c);
      OneQuiet(s, e, more);
      run := [e] + more;
    }
  }

  lemma LeaseReads(s: State, c: Conn)
    requires s.selector == Looping && c !in s.closed
    ensures var s' := Do(s, Lease(c)); s'.selector.Reading? && s'.selector.conn == c && s'.wire == s.wire
  {
  }

  lemma FillTakes(s: State, n: nat)
    requires s.selector.Reading? && n <= BUFFER_ALLOCATION_SIZE && n <= |At(s.wire, s.selector.conn)|
    ensures var s', c := Do(s, Fill(n)), s.selector.conn;
            s'.selector.Submitting? && At(s'.wire, c) == At(s.wire, c)[n..]
  {
  }

  /** One more read of c, and its bytes handed over. */
  lemma ReadMore(s: State, c: Conn) returns (run: seq<Event>)
    requires Inv(s) && s.selector == Looping && c !in s.closed && At(s.wire, c) != []
    ensures Quiet(run)
    ensures var s' := Perform(s, run);
            Inv(s') && Kept(s, s') && s'.selector == Looping && |At(s'.wire, c)| < |At(s.wire, c)|
  {
    hide Inv;
    hide Do;
    var n := if |At(s.wire, c)| < BUFFER_ALLOCATION_SIZE then |At(s.wire, c)| else BUFFER_ALLOCATION_SIZE;
    var s1 := Do(s, Lease(c));
    LeaseReads(s, c);
    InvStays(s, Lease(c));
    QuietKeeps(s, Lease(c));
    var s2 := Do(s1, Fill(n));
    FillTakes(s1, n);
    InvStays(s1, Fill(n));
    QuietKeeps(s1, Fill(n));
    HandFrees(s2);
    InvStays(s2, Hand);
    QuietKeeps(s2, Hand);
    OneQuiet(s2, Hand, []);
    OneQuiet(s1, Fill(n), [Hand] + []);
    OneQuiet(s, Lease(c), [Fill(n)] + ([Hand] + []));
    run := [Lease(c)] + ([Fill(n)] + ([Hand] + []));
  }

  lemma {:induction false} WireDrains(s: State, c: Conn) returns (run: seq<Event>)
    requires Inv(s) && s.selector == Looping && c !in s.closed
    ensures Quiet(run)
    ensures var s' := Perform(s, run); Inv(s') && Kept(s, s') && Drained(s', c)
    decreases |At(s.wire, c)|
  {
    hide Inv;
    hide Do;
    if At(s.wire, c) == [] {
      run := TasksDrain(s, c);
    } else {
      var read := ReadMore(s, c);
      var more := WireDrains(Perform(s, read), c);
      PerformAll(s, read, more);
      run := read + more;
    }
  }

  /**
   Everything is read: from any state some actions of the selector thread and the workers take in all that an
   open connection has sent, and if process has not thrown on it, hand over all that the blocking loop does.
   */
  lemma EverythingIsRead(s: State, c: Conn) returns (run: seq<Event>)
    requires Inv(s) && c !in s.closed
    ensures Quiet(run)
    ensures var s' := Perform(s, run);
            && Inv(s') && Drained(s', c) && At(s'.sent, c) == At(s.sent, c)
            && (At(s.throws, c) == [] ==> Decoder(s', c) == FeedAll(Fresh, At(s.sent, c)))
  {
    hide Inv;
    hide Do;
    var free := SelectorFrees(s);
    var drain := WireDrains(Perform(s, free), c);
    PerformAll(s, free, drain);
    run := free + drain;
    BlockingIs(Perform(s, run), c);
    if At(s.throws, c) == [] {
      NothingThrown(Fresh, At(s.sent, c), {});
      assert (set k: nat | k in At(s.throws, c)) == {};
    }
  }
}
