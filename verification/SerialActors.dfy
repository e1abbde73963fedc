/**
 The promise of the actor pool, without locks or threads: every actor owns at most one slot, and
 a slot is either handed to the executor, running on a worker, or being completed by that worker.
 The lock-level protocol in module ActorThreadPool is proved to refine this machine.
 */
module SerialActors {
  import opened Wrappers

  type Actor = nat
  type Task = nat

  datatype Slot =
    | Queued(task: Task)
    | Running(worker: nat, task: Task)
    | Completing(worker: nat)

  datatype State = State(
    slot: map<Actor, Slot>,
    pending: map<Actor, seq<Task>>,
    submitted: map<Actor, seq<Task>>,
    finished: map<Actor, seq<Task>>)

  const Start := State(map[], map[], map[], map[])

  function Submit(s: State, a: Actor, r: Task): State {
    var s' := s.(submitted := Push(s.submitted, a, r));
    if a in s.slot
    then s'.(pending := Push(s.pending, a, r))
    else s'.(slot := s.slot[a := Queued(r)])
  }

  predicate IsQueued(s: State, a: Actor) { a in s.slot && s.slot[a].Queued? }

  predicate IsRunning(s: State, w: nat, a: Actor) {
    a in s.slot && s.slot[a].Running? && s.slot[a].worker == w
  }

  predicate IsCompleting(s: State, w: nat, a: Actor) {
    a in s.slot && s.slot[a] == Completing(w)
  }

  function Take(s: State, w: nat, a: Actor): State
    requires IsQueued(s, a)
  {
    s.(slot := s.slot[a := Running(w, s.slot[a].task)])
  }

  function Finish(s: State, w: nat, a: Actor): State
    requires IsRunning(s, w, a)
  {
    s.(slot := s.slot[a := Completing(w)], finished := Push(s.finished, a, s.slot[a].task))
  }

  function Complete(s: State, w: nat, a: Actor): State
    requires IsCompleting(s, w, a)
  {
    var q := At(s.pending, a);
    if q == []
    then s.(slot := s.slot - {a})
    else s.(slot := s.slot[a := Queued(q[0])], pending := s.pending[a := q[1..]])
  }

  datatype Event =
    | EvSubmit(act: Actor, task: Task)
    | EvTake(worker: nat, act: Actor)
    | EvFinish(worker: nat, act: Actor)
    | EvComplete(worker: nat, act: Actor)

  predicate Can(s: State, e: Event) {
    match e
    case EvSubmit(_, _) => true
    case EvTake(_, a) => IsQueued(s, a)
    case EvFinish(w, a) => IsRunning(s, w, a)
    case EvComplete(w, a) => IsCompleting(s, w, a)
  }

  function Do(s: State, e: Event): State
    requires Can(s, e)
  {
    match e
    case EvSubmit(a, r) => Submit(s, a, r)
    case EvTake(w, a) => Take(s, w, a)
    case EvFinish(w, a) => Finish(s, w, a)
    case EvComplete(w, a) => Complete(s, w, a)
  }

  /** The task an actor's slot still owes, if any. */
  function InFlight(s: State, a: Actor): seq<Task> {
    if a in s.slot && !s.slot[a].Completing? then [s.slot[a].task] else []
  }

  /** Every task accepted for an actor and not yet finished, in the order it will run. */
  function Owed(s: State, a: Actor): seq<Task> {
    InFlight(s, a) + At(s.pending, a)
  }

  /** The account of one actor: what it was promised, what it has had, and what it is owed. */
  ghost predicate Balanced(s: State, a: Actor) {
    && (a !in s.slot ==> At(s.pending, a) == [])
    && At(s.finished, a) + Owed(s, a) == At(s.submitted, a)
  }

  lemma PushAt(m: map<Actor, seq<Task>>, x: Actor, r: Task, a: Actor)
    ensures At(Push(m, x, r), a) == At(m, a) + (if a == x then [r] else [])
  {
  }

  lemma LastOf(x: seq<Task>, y: seq<Task>, z: seq<Task>, r: Task)
    ensures x + (y + (z + [r])) == x + (y + z) + [r]
  {
  }

  lemma SubmitKeepsBalance(s: State, x: Actor, r: Task, a: Actor)
    requires Balanced(s, a)
    ensures Balanced(Submit(s, x, r), a)
  {
    hide Push;
    hide At;
    PushAt(s.submitted, x, r, a);
    PushAt(s.pending, x, r, a);
    var done := At(s.finished, a);
    if a == x && a in s.slot {
      LastOf(done, InFlight(s, a), At(s.pending, a), r);
    } else if a == x {
      assert [] + At(s.pending, a) == [] && [r] + At(s.pending, a) == [r];
      assert done + [] == done;
    }
  }

  /** A task submitted is owed last of all. */
  lemma SubmitOwes(s: State, x: Actor, r: Task, a: Actor)
    requires Balanced(s, a)
    ensures Owed(Submit(s, x, r), a) == Owed(s, a) + (if a == x then [r] else [])
  {
    hide Push;
    hide At;
    PushAt(s.pending, x, r, a);
    if a == x && a in s.slot {
      assert InFlight(s, a) + (At(s.pending, a) + [r]) == InFlight(s, a) + At(s.pending, a) + [r];
    } else if a == x {
      assert [] + At(s.pending, a) == [] && [r] + At(s.pending, a) == [r];
    } else {
      assert Owed(s, a) + [] == Owed(s, a);
    }
  }

  /** Taking a task or going on to the next one leaves what an actor is owed as it is. */
  lemma OwedStays(s: State, e: Event, a: Actor)
    requires Balanced(s, a) && Can(s, e) && (e.EvTake? || e.EvComplete?)
    ensures Owed(Do(s, e), a) == Owed(s, a)
  {
  }

  lemma TakeKeepsBalance(s: State, w: nat, x: Actor, a: Actor)
    requires Balanced(s, a) && IsQueued(s, x)
    ensures Balanced(Take(s, w, x), a)
  {
    assert Owed(Take(s, w, x), a) == Owed(s, a);
  }

  lemma FinishKeepsBalance(s: State, w: nat, x: Actor, a: Actor)
    requires Balanced(s, a) && IsRunning(s, w, x)
    ensures Balanced(Finish(s, w, x), a)
  {
    var s' := Finish(s, w, x);
    assert Owed(s, a) == (if a == x then [s.slot[x].task] else []) + Owed(s', a);
    assert At(s'.finished, a) == At(s.finished, a) + (if a == x then [s.slot[x].task] else []);
  }

  lemma CompleteKeepsBalance(s: State, w: nat, x: Actor, a: Actor)
    requires Balanced(s, a) && IsCompleting(s, w, x)
    ensures Balanced(Complete(s, w, x), a)
  {
    assert Owed(Complete(s, w, x), a) == Owed(s, a);
  }

  ghost predicate Serial(s: State) {
    forall a :: Balanced(s, a)
  }

  /** Nothing is lost, duplicated or reordered by any step of the pool. */
  lemma StepKeepsSerial(s: State, e: Event)
    requires Serial(s) && Can(s, e)
    ensures Serial(Do(s, e))
  {
    forall a ensures Balanced(Do(s, e), a) {
      assert Balanced(s, a);
      match e
      case EvSubmit(x, r) => SubmitKeepsBalance(s, x, r, a);
      case EvTake(w, x) => TakeKeepsBalance(s, w, x, a);
      case EvFinish(w, x) => FinishKeepsBalance(s, w, x, a);
      case EvComplete(w, x) => CompleteKeepsBalance(s, w, x, a);
    }
  }
}
