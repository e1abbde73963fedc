/**
 The read side of the reactor over the pool with its locks: the selector thread is one of the threads
 that call submit, and a worker decodes its buffer between taking a task and completing it. Whatever
 the threads do, the read side only ever sees what the serial pool allows.
 */
module ReactorPool {
  import opened Wrappers
  import S = SerialActors
  import P = ActorThreadPool
  import R = ReactorRead

  /** `selector` is the number of the selector thread. */
  datatype State = State(locks: P.State, input: R.State, selector: nat)

  datatype Step =
    | Reading(event: R.Event)
    | Submit
    | Move(thread: nat, threw: bool)

  /** An event of the read side that leaves the pool alone. */
  predicate OffPool(e: R.Event) {
    e.Arrive? || e.Lease? || e.Fill? || e.Shut? || e.Get?
  }

  predicate SelectorIdle(y: State) {
    y.selector < |y.locks.threads| && y.locks.threads[y.selector] == P.Idle
  }

  function Ended(t: nat, a: P.Actor, threw: bool): R.Event {
    if threw then R.Throw(t, a) else R.Return(t, a)
  }

  predicate Can(y: State, step: Step) {
    match step
    case Reading(e) => R.Can(y.input, e) && OffPool(e) && (e.Arrive? || e.Get? || SelectorIdle(y))
    case Submit => y.input.selector.Submitting? && P.CanBegin(y.locks, y.selector)
    case Move(t, threw) =>
      && P.Enabled(y.locks, t)
      && (y.locks.threads[t].AtRun? ==> R.Can(y.input, Ended(t, y.locks.threads[t].act, threw)))
  }

  /** What the read side sees of a thread's action. */
  function Seen(y: State, t: nat, threw: bool): Option<R.Event> {
    match P.Event(y.locks, t)
    case None => None
    case Some(EvSubmit(_, _)) => Some(R.Hand)
    case Some(EvTake(w, a)) => Some(R.Take(w, a))
    case Some(EvFinish(w, a)) => Some(Ended(w, a, threw))
    case Some(EvComplete(w, a)) => Some(R.Follow(w, a))
  }

  function Do(y: State, step: Step): State {
    if !Can(y, step) then y
    else
      match step
      case Reading(e) => y.(input := R.Do(y.input, e))
      case Submit => y.(locks := P.Begin(y.locks, y.selector, y.input.selector.conn, y.input.selector.buf))
      case Move(t, threw) =>
        var e := Seen(y, t, threw);
        y.(locks := P.Do(y.locks, t), input := if e == None then y.input else R.Do(y.input, e.value))
  }

  predicate Begins(y: State) {
    P.Init(y.locks) && y.input == R.Start && y.locks.workers <= y.selector < |y.locks.threads|
  }

  /** The task and actor of a call of submit whose task is not yet in the pool. */
  function Call(p: P.Phase): Option<(P.Actor, P.Task)> {
    match p
    case AtMonitor(ForSubmit(r), a) => Some((a, r))
    case Inside(ForSubmit(r), a, at) => if at.Execute? || at.Exit? then None else Some((a, r))
    case _ => None
  }

  /** Only the selector thread calls submit, with the buffer it has just filled. */
  ghost predicate CallsOk(y: State) {
    forall t: nat :: t < |y.locks.threads| && Call(y.locks.threads[t]).Some? ==>
      t == y.selector && y.input.selector == R.Submitting(Call(y.locks.threads[t]).value.0,
          Call(y.locks.threads[t]).value.1)
  }

  ghost predicate Linked(y: State) {
    P.Refines(y.locks, y.input.pool) && R.Inv(y.input) && CallsOk(y)
  }

  /** The event of an action is about the call, or the task, of its own thread. */
  lemma CallOfEvent(f: P.State, t: nat)
    requires P.Enabled(f, t)
    ensures match P.Event(f, t)
            case Some(EvSubmit(a, r)) => Call(f.threads[t]) == Some((a, r))
            case Some(EvFinish(w, a)) => w == t && f.threads[t].AtRun? && f.threads[t].act == a
            case _ => true
  {
    hide P.CanPass;
  }

  lemma PhaseThen(f: P.State, t: nat)
    requires P.Enabled(f, t)
    ensures |P.Do(f, t).threads| == |f.threads|
    ensures forall u: nat :: u < |f.threads| && u != t ==> P.Do(f, t).threads[u] == f.threads[u]
  {
    hide P.Pass;
    hide P.CanPass;
    if f.threads[t].Inside? {
      P.OthersStay(f, t);
    }
  }

  lemma CallAtLock(f: P.State, t: nat)
    requires P.Enabled(f, t) && P.Locking(f, t)
    ensures t < |P.Do(f, t).threads| && P.Event(f, t) == None
    ensures Call(P.Do(f, t).threads[t]) == Call(f.threads[t])
  {
    hide P.Do;
    hide P.CanPass;
    P.LockPoint(f, t);
  }

  lemma CallOffLock(f: P.State, t: nat)
    requires P.Enabled(f, t) && f.threads[t].Inside? && !P.Locking(f, t) && t < |P.Do(f, t).threads|
    ensures Call(P.Do(f, t).threads[t]).Some? ==>
              Call(P.Do(f, t).threads[t]) == Call(f.threads[t]) && P.Event(f, t) == None
  {
    hide P.CanPass;
    hide P.Do;
    P.OthersStay(f, t);
    if f.threads[t].at.Put? {
      P.PutIs(f, t);
    } else if f.threads[t].who.ForSubmit? {
      P.OffPoint(f, t);
    }
  }

  /** What an action does to the pending call of its thread. */
  lemma CallThen(f: P.State, t: nat)
    requires P.Enabled(f, t)
    ensures |P.Do(f, t).threads| == |f.threads|
    ensures forall u: nat :: u < |f.threads| && u != t ==> P.Do(f, t).threads[u] == f.threads[u]
    ensures Call(P.Do(f, t).threads[t]).Some? ==>
              Call(P.Do(f, t).threads[t]) == Call(f.threads[t]) && P.Event(f, t) == None
    ensures match P.Event(f, t)
            case Some(EvSubmit(a, r)) => Call(f.threads[t]) == Some((a, r))
            case Some(EvFinish(w, a)) => w == t && f.threads[t].AtRun? && f.threads[t].act == a
            case _ => true
  {
    hide P.Pass;
    hide P.CanPass;
    PhaseThen(f, t);
    CallOfEvent(f, t);
    if f.threads[t].Inside? {
      if P.Locking(f, t) {
        CallAtLock(f, t);
      } else {
        CallOffLock(f, t);
      }
    }
  }

  lemma SerialOf(s: R.State)
    requires R.Inv(s)
    ensures S.Serial(s.pool)
  {
  }

  lemma MoveKeeps(y: State, t: nat, threw: bool)
    requires Linked(y) && Can(y, Move(t, threw))
    ensures Linked(Do(y, Move(t, threw)))
    ensures Seen(y, t, threw).Some? ==> R.Can(y.input, Seen(y, t, threw).value)
  {
    hide R.Inv;
    hide P.Refines;
    hide P.Do;
    hide P.Event;
    hide Call;
    hide S.Serial;
    SerialOf(y.input);
    P.StepSimulates(y.locks, y.input.pool, t);
    CallThen(y.locks, t);
    var e := Seen(y, t, threw);
    if e.Some? {
      R.InvKept(y.input, e.value);
    }
  }

  lemma ReadingKeeps(y: State, e: R.Event)
    requires Linked(y) && Can(y, Reading(e))
    ensures Linked(Do(y, Reading(e)))
  {
    R.InvKept(y.input, e);
    hide R.Inv;
    hide P.Refines;
    assert R.Do(y.input, e).pool == y.input.pool;
  }

  lemma SubmitKeeps(y: State)
    requires Linked(y) && Can(y, Submit)
    ensures Linked(Do(y, Submit))
  {
    hide R.Inv;
    hide P.Refines;
    P.BeginSimulates(y.locks, y.input.pool, y.selector, y.input.selector.conn, y.input.selector.buf);
  }

  function Run(y: State, steps: seq<Step>): State
    decreases steps
  {
    if steps == [] then y else Run(Do(y, steps[0]), steps[1..])
  }

  lemma BeginsLinked(y: State)
    requires Begins(y)
    ensures Linked(y)
  {
    hide Push;
  }

  /** The read side of every run of the whole is a run of the read side over the serial pool. */
  lemma {:induction false} RunsAreReads(y: State, steps: seq<Step>) returns (events: seq<R.Event>)
    requires Linked(y)
    ensures Linked(Run(y, steps)) && Run(y, steps).input == R.Perform(y.input, events)
    decreases steps
  {
    hide Linked;
    hide R.Do;
    if steps == [] {
      events := [];
    } else {
      var y' := Do(y, steps[0]);
      var first := StepIsReads(y, steps[0]);
      var rest := RunsAreReads(y', steps[1..]);
      events := first + rest;
      PerformBoth(y.input, first, rest);
    }
  }

  lemma StepIsReads(y: State, step: Step) returns (events: seq<R.Event>)
    requires Linked(y)
    ensures Linked(Do(y, step)) && Do(y, step).input == R.Perform(y.input, events)
  {
    hide Linked;
    hide R.Do;
    hide R.Can;
    hide P.Do;
    events := [];
    if Can(y, step) {
      match step
      case Reading(e) =>
        ReadingKeeps(y, e);
        events := [e];
      case Submit => SubmitKeeps(y);
      case Move(t, threw) =>
        MoveKeeps(y, t, threw);
        if Seen(y, t, threw).Some? {
          events := [Seen(y, t, threw).value];
        }
    }
    if events != [] {
      assert events[1..] == [];
    }
  }

  lemma {:induction false} PerformBoth(s: R.State, first: seq<R.Event>, rest: seq<R.Event>)
    ensures R.Perform(s, first + rest) == R.Perform(R.Perform(s, first), rest)
    decreases first
  {
    hide R.Do;
    if first == [] {
      assert first + rest == rest;
    } else {
      assert (first + rest)[0] == first[0] && (first + rest)[1..] == first[1..] + rest;
      PerformBoth(R.Do(s, first[0]), first[1..], rest);
    }
  }

  /**
   The modes agree at the granularity of the pool's locks: the first frame on which process throws is
   the last one of the blocking loop, and up to it, or altogether once drained, both hand over the same.
   */
  lemma LockedModesAgree(y: State, steps: seq<Step>, c: R.Conn)
    requires Begins(y)
    ensures var s := Run(y, steps).input;
            var frames, throws := R.Decoder(s, c).frames, At(s.throws, c);
            && (throws == [] ==> frames <= R.Blocking(s, c).frames)
            && (throws == [] && R.Drained(s, c) ==> R.Decoder(s, c) == R.Blocking(s, c))
            && (throws != [] ==> throws[0] < |frames| && R.Blocking(s, c).frames == frames[..throws[0] + 1])
  {
    BeginsLinked(y);
    var events := RunsAreReads(y, steps);
    R.ModesAgree(events, c);
  }
}
