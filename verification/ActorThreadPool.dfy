/**
 The actor pool at the granularity of its lock operations. Each thread carries the point of
 submit, complete, pendingRunnablesOf or execute it has reached; one step runs one atomic action
 of that thread. Threads below `workers` belong to the executor, the others call submit.
 */
module ActorThreadPool {
  import opened Wrappers
  import S = SerialActors

  type Actor = S.Actor
  type Task = S.Task

  /** Which of submit and complete is inside an actor's monitor, or waits for it. */
  datatype Caller = ForSubmit(task: Task) | ForComplete

  /** The next action of a thread that holds an actor's monitor. */
  datatype Point =
    | Contains
    | Add
    | ReadLock
    | Get
    | ReadUnlock(found: Option<nat>)
    | WriteLock
    | Put
    | WriteUnlock(created: nat)
    | Use(queue: nat)
    | Remove
    | Poll(queue: nat)
    | Execute(job: Task)
    | Exit

  datatype Phase =
    | Idle
    | AtMonitor(who: Caller, act: Actor)
    | Inside(who: Caller, act: Actor, at: Point)
    | AtRun(act: Actor, task: Task)

  /** `acts` maps an actor to the index in `queues` of the list object it was given. */
  datatype State = State(
    workers: nat,
    threads: seq<Phase>,
    monitor: map<Actor, nat>,
    readers: set<nat>,
    writer: Option<nat>,
    acts: map<Actor, nat>,
    queues: seq<seq<Task>>,
    playingNow: set<Actor>,
    ready: seq<(Actor, Task)>,
    submitted: map<Actor, seq<Task>>,
    finished: map<Actor, seq<Task>>)

  predicate Init(f: State) {
    && 0 < f.workers <= |f.threads|
    && (forall t :: 0 <= t < |f.threads| ==> f.threads[t] == Idle)
    && f.monitor == map[] && f.readers == {} && f.writer == None
    && f.acts == map[] && f.queues == [] && f.playingNow == {} && f.ready == []
    && f.submitted == map[] && f.finished == map[]
  }

  /** A thread outside the executor may call submit(a, r). */
  predicate CanBegin(f: State, t: nat) {
    f.workers <= t < |f.threads| && f.threads[t] == Idle
  }

  function Begin(f: State, t: nat, a: Actor, r: Task): State
    requires CanBegin(f, t)
  {
    f.(threads := f.threads[t := AtMonitor(ForSubmit(r), a)])
  }

  predicate CanPass(f: State, p: Point) {
    match p
    case ReadLock => f.writer == None
    case WriteLock => f.writer == None && f.readers == {}
    case Use(q) => q < |f.queues|
    case Poll(q) => q < |f.queues| && f.queues[q] != []
    case _ => true
  }

  predicate Enabled(f: State, t: nat) {
    t < |f.threads| &&
    match f.threads[t]
    case Idle => t < f.workers && f.ready != []
    case AtMonitor(_, a) => a !in f.monitor
    case Inside(_, _, p) => CanPass(f, p)
    case AtRun(_, _) => true
  }

  function To(f: State, t: nat, p: Point): State
    requires t < |f.threads| && f.threads[t].Inside?
  {
    f.(threads := f.threads[t := f.threads[t].(at := p)])
  }

  /** One atomic action of a thread inside a monitor. */
  function Pass(f: State, t: nat): State
    requires t < |f.threads| && f.threads[t].Inside? && CanPass(f, f.threads[t].at)
  {
    var Inside(who, a, p) := f.threads[t];
    match p
    case Contains => To(f, t, if a in f.playingNow then ReadLock else Add)
    case Add => To(f.(playingNow := f.playingNow + {a}), t, if who.ForSubmit? then Execute(who.task) else Exit)
    case ReadLock => To(f.(readers := f.readers + {t}), t, Get)
    case Get => To(f, t, ReadUnlock(if a in f.acts then Some(f.acts[a]) else None))
    case ReadUnlock(found) =>
      To(f.(readers := f.readers - {t}), t, if found == None then WriteLock else Use(found.value))
    case WriteLock => To(f.(writer := Some(t)), t, Put)
    case Put => To(f.(acts := f.acts[a := |f.queues|], queues := f.queues + [[]]), t, WriteUnlock(|f.queues|))
    case WriteUnlock(q) => To(f.(writer := None), t, Use(q))
    case Use(q) =>
      if who.ForSubmit? then To(f.(queues := f.queues[q := f.queues[q] + [who.task]]), t, Exit)
      else To(f, t, if f.queues[q] == [] then Remove else Poll(q))
    case Remove => To(f.(playingNow := f.playingNow - {a}), t, Exit)
    case Poll(q) => To(f.(queues := f.queues[q := f.queues[q][1..]]), t, Execute(f.queues[q][0]))
    case Execute(r) => To(f.(ready := f.ready + [(a, r)]), t, Exit)
    case Exit => f.(monitor := f.monitor - {a}, threads := f.threads[t := Idle])
  }

  /** Entering the monitor; a submit is recorded in the order in which it gets the monitor. */
  function Enter(f: State, t: nat): State
    requires t < |f.threads| && f.threads[t].AtMonitor?
  {
    var AtMonitor(who, a) := f.threads[t];
    f.(monitor := f.monitor[a := t],
       submitted := if who.ForSubmit? then Push(f.submitted, a, who.task) else f.submitted,
       threads := f.threads[t := Inside(who, a, if who.ForSubmit? then Contains else ReadLock)])
  }

  /** One atomic action of thread t; a thread that cannot move stays where it is. */
  function Do(f: State, t: nat): State {
    if !Enabled(f, t) then f else
    match f.threads[t]
    case Idle => f.(ready := f.ready[1..], threads := f.threads[t := AtRun(f.ready[0].0, f.ready[0].1)])
    case AtMonitor(_, _) => Enter(f, t)
    case Inside(_, _, _) => Pass(f, t)
    case AtRun(a, r) => f.(finished := Push(f.finished, a, r), threads := f.threads[t := AtMonitor(ForComplete, a)])
  }

  ghost predicate Next(f: State, f': State) {
    || (exists t: nat :: Enabled(f, t) && f' == Do(f, t))
    || (exists t: nat, a: Actor, r: Task :: CanBegin(f, t) && f' == Begin(f, t, a, r))
  }

  ghost predicate IsRun(run: seq<State>) {
    && run != [] && Init(run[0])
    && forall i :: 0 <= i < |run| - 1 ==> Next(run[i], run[i + 1])
  }

  predicate InMonitor(p: Phase, a: Actor) {
    p.Inside? && p.act == a
  }

  /** The worker has run its task and has not yet decided the actor's next one. */
  predicate InCompletion(p: Phase, a: Actor) {
    && (p.AtMonitor? || (p.Inside? && !p.at.Execute? && !p.at.Exit?))
    && p.act == a && p.who == ForComplete
  }

  /** The task of a submit that holds the monitor and has not yet handed the task over. */
  function EnteringOf(p: Phase): seq<Task> {
    if p.Inside? && !p.at.Execute? && !p.at.Exit? && p.who.ForSubmit? then [p.who.task] else []
  }

  function Entering(f: State, a: Actor): seq<Task> {
    if a in f.monitor && f.monitor[a] < |f.threads| then EnteringOf(f.threads[f.monitor[a]]) else []
  }

  function Pending(f: State, a: Actor): seq<Task> {
    if a in f.acts && f.acts[a] < |f.queues| then f.queues[f.acts[a]] else []
  }

  predicate InRead(p: Phase) { p.Inside? && (p.at.Get? || p.at.ReadUnlock?) }

  predicate InWrite(p: Phase) { p.Inside? && (p.at.Put? || p.at.WriteUnlock?) }

  ghost predicate MonitorOk(f: State, a: Actor) {
    a in f.monitor ==> f.monitor[a] < |f.threads| && InMonitor(f.threads[f.monitor[a]], a)
  }

  ghost predicate ReaderOk(f: State, u: nat) {
    u in f.readers ==> u < |f.threads| && InRead(f.threads[u])
  }

  ghost predicate WriterOk(f: State) {
    f.writer.Some? ==> f.readers == {} && f.writer.value < |f.threads| && InWrite(f.threads[f.writer.value])
  }

  ghost predicate Locks(f: State) {
    && (forall a :: MonitorOk(f, a))
    && (forall u :: ReaderOk(f, u))
    && WriterOk(f)
  }

  ghost predicate SlotOk(f: State, c: S.State, a: Actor)
    requires a in c.slot
  {
    match c.slot[a]
    case Queued(r) =>
      (a, r) in f.ready
      || (a in f.monitor && f.monitor[a] < |f.threads|
          && InMonitor(f.threads[f.monitor[a]], a) && f.threads[f.monitor[a]].at == Execute(r))
    case Running(w, r) => w < |f.threads| && f.threads[w] == AtRun(a, r)
    case Completing(w) => w < |f.threads| && InCompletion(f.threads[w], a)
  }

  /** The tables agree with the serial pool on one actor. */
  ghost predicate ActorOk(f: State, c: S.State, a: Actor) {
    && (a in f.playingNow <==> a in c.slot)
    && Pending(f, a) == At(c.pending, a)
    && At(c.finished, a) == At(f.finished, a)
    && At(c.submitted, a) + Entering(f, a) == At(f.submitted, a)
    && (a in c.slot ==> SlotOk(f, c, a))
    && (forall r :: (a, r) in f.ready ==> a in c.slot && c.slot[a] == S.Queued(r))
  }

  /** No two actors share a list object, and no actor waits twice in the executor. */
  ghost predicate OwnLists(f: State) {
    && (forall a :: a in f.acts ==> f.acts[a] < |f.queues|)
    && (forall a, b :: a in f.acts && b in f.acts && f.acts[a] == f.acts[b] ==> a == b)
  }

  ghost predicate OneJobEach(f: State) {
    forall i, j :: 0 <= i < j < |f.ready| ==> f.ready[i].0 != f.ready[j].0
  }

  ghost predicate Distinct(f: State) {
    OwnLists(f) && OneJobEach(f)
  }

  /** What the tables look like to a thread at point p of actor a's monitor. */
  ghost predicate PointOk(f: State, c: S.State, who: Caller, a: Actor, p: Point) {
    match p
    case Contains => who.ForSubmit?
    case Add => who.ForSubmit? && a !in f.playingNow
    case ReadUnlock(found) => found == (if a in f.acts then Some(f.acts[a]) else None)
    case WriteLock => a !in f.acts
    case Put => a !in f.acts
    case WriteUnlock(q) => a in f.acts && f.acts[a] == q
    case Use(q) => a in f.acts && f.acts[a] == q
    case Poll(q) => who.ForComplete? && a in f.acts && f.acts[a] == q && Pending(f, a) != []
    case Remove => who.ForComplete? && Pending(f, a) == []
    case Execute(r) =>
      a in c.slot && c.slot[a] == S.Queued(r) && forall q :: (a, q) !in f.ready
    case _ => true
  }

  ghost predicate ThreadOk(f: State, c: S.State, t: nat)
    requires t < |f.threads|
  {
    var p := f.threads[t];
    && (p.Inside? ==> p.act in f.monitor && f.monitor[p.act] == t && PointOk(f, c, p.who, p.act, p.at))
    && (p.Inside? && p.who.ForSubmit? && !p.at.Contains? && !p.at.Add? && !p.at.Exit? ==> p.act in f.playingNow)
    && (InRead(p) ==> t in f.readers)
    && (InWrite(p) ==> f.writer == Some(t))
    && (!p.Idle? && InCompletion(p, p.act) ==> p.act in c.slot && c.slot[p.act] == S.Completing(t))
    && (p.AtRun? ==> p.act in c.slot && c.slot[p.act] == S.Running(t, p.task))
  }

  /** The lock-level state f stands for the serial pool state c. */
  ghost predicate Refines(f: State, c: S.State) {
    && Locks(f) && Distinct(f)
    && (forall a :: ActorOk(f, c, a))
    && (forall t: nat :: t < |f.threads| ==> ThreadOk(f, c, t))
  }

  /** The serial event, if any, that a step of thread t performs. */
  function Event(f: State, t: nat): Option<S.Event> {
    if !Enabled(f, t) then None else
    match f.threads[t]
    case Idle => Some(S.EvTake(t, f.ready[0].0))
    case AtRun(a, _) => Some(S.EvFinish(t, a))
    case Inside(ForSubmit(r), a, Add) => Some(S.EvSubmit(a, r))
    case Inside(ForSubmit(r), a, Use(_)) => Some(S.EvSubmit(a, r))
    case Inside(_, a, Remove) => Some(S.EvComplete(t, a))
    case Inside(_, a, Poll(_)) => Some(S.EvComplete(t, a))
    case _ => None
  }

  function After(c: S.State, e: Option<S.Event>): S.State {
    if e.Some? && S.Can(c, e.value) then S.Do(c, e.value) else c
  }

  ghost predicate Stepping(f: State, c: S.State, t: nat) {
    && Enabled(f, t) && ThreadOk(f, c, t)
    && (Event(f, t).Some? ==> S.Can(c, Event(f, t).value))
  }

  /** The actor a step is about. */
  function Subject(f: State, t: nat): Actor {
    if !Enabled(f, t) then 0 else if f.threads[t].Idle? then f.ready[0].0 else f.threads[t].act
  }

  lemma StepEvent(f: State, c: S.State, t: nat)
    requires Refines(f, c) && Enabled(f, t)
    ensures Stepping(f, c, t)
  {
    assert ThreadOk(f, c, t);
    if f.threads[t].Idle? {
      assert (f.ready[0].0, f.ready[0].1) in f.ready;
      assert ActorOk(f, c, f.ready[0].0);
    }
  }

  /** Steps on the read/write lock alone, and the test of playingNow. */
  predicate OnLock(p: Point) {
    p.Contains? || p.ReadLock? || p.Get? || p.ReadUnlock? || p.WriteLock? || p.WriteUnlock?
  }

  /** f' differs from f only in the lock and in the point thread t has reached. */
  ghost predicate LockStep(f: State, f': State, t: nat) {
    && t < |f.threads| == |f'.threads| && f.threads[t].Inside? && f'.threads[t].Inside?
    && OnLock(f.threads[t].at)
    && f'.threads == f.threads[t := f.threads[t].(at := f'.threads[t].at)]
    && !f'.threads[t].at.Execute? && !f'.threads[t].at.Exit?
    && f' == f.(threads := f'.threads, readers := f'.readers, writer := f'.writer)
    && (forall u :: u != t ==> (u in f.readers <==> u in f'.readers))
    && (forall u :: u != t && f.writer == Some(u) ==> f'.writer == Some(u))
  }

  lemma LockStepOk(f: State, c: S.State, f': State, t: nat)
    requires Refines(f, c) && LockStep(f, f', t)
    ensures forall b :: ActorOk(f', c, b)
    ensures forall u: nat :: u < |f.threads| && u != t ==> ThreadOk(f', c, u)
    ensures Distinct(f')
  {
    forall b ensures ActorOk(f', c, b) {
      assert ActorOk(f, c, b);
    }
    forall u: nat | u < |f.threads| && u != t ensures ThreadOk(f', c, u) {
      assert ThreadOk(f, c, u);
    }
  }

  lemma OnLockThread(f: State, c: S.State, t: nat)
    requires Refines(f, c) && Stepping(f, c, t) && f.threads[t].Inside? && OnLock(f.threads[t].at)
    ensures LockStep(f, Do(f, t), t)
    ensures ThreadOk(Do(f, t), c, t) && Event(f, t) == None
  {
    hide Refines;
  }

  predicate Locking(f: State, t: nat) {
    t < |f.threads| && f.threads[t].Inside? && OnLock(f.threads[t].at)
  }

  lemma MonitorKept(f: State, c: S.State, t: nat, a: Actor)
    requires Stepping(f, c, t) && MonitorOk(f, a) && !Locking(f, t) && f.threads[t].Inside?
    ensures MonitorOk(Do(f, t), a)
  {
    hide S.IsQueued;
  }

  lemma MonitorKeptOutside(f: State, c: S.State, t: nat, a: Actor)
    requires Stepping(f, c, t) && MonitorOk(f, a) && !f.threads[t].Inside?
    ensures MonitorOk(Do(f, t), a)
  {
  }

  lemma ReaderKept(f: State, c: S.State, t: nat, u: nat)
    requires Stepping(f, c, t) && ReaderOk(f, u) && Locking(f, t)
    ensures ReaderOk(Do(f, t), u)
  {
    hide S.IsCompleting;
  }

  lemma WriterKept(f: State, c: S.State, t: nat)
    requires Stepping(f, c, t) && WriterOk(f) && Locking(f, t)
    ensures WriterOk(Do(f, t))
  {
  }

  lemma OffLock(f: State, t: nat)
    requires Enabled(f, t) && !Locking(f, t) && f.threads[t].Inside?
    ensures Do(f, t).readers == f.readers && Do(f, t).writer == f.writer
    ensures |Do(f, t).threads| == |f.threads|
    ensures forall u :: 0 <= u < |f.threads| && u != t ==> Do(f, t).threads[u] == f.threads[u]
  {
    OthersStay(f, t);
  }

  /** A step changes the phase of its own thread only. */
  lemma OthersStay(f: State, t: nat)
    requires Enabled(f, t) && f.threads[t].Inside?
    ensures |Do(f, t).threads| == |f.threads| && Do(f, t).threads == f.threads[t := Do(f, t).threads[t]]
    ensures Do(f, t).threads[t] == if f.threads[t].at.Exit? then Idle else f.threads[t].(at := Do(f, t).threads[t].at)
  {
    hide CanPass;
    var p := f.threads[t].at;
    if p.Exit? {
      assert Do(f, t).threads == f.threads[t := Idle];
    } else {
      assert Do(f, t).threads == f.threads[t := f.threads[t].(at := Do(f, t).threads[t].at)];
    }
  }

  lemma SizeStays(f: State, t: nat)
    requires Enabled(f, t)
    ensures Do(f, t).workers == f.workers && |Do(f, t).threads| == |f.threads|
  {
    hide Push;
    hide CanPass;
    hide Pass;
    if f.threads[t].Inside? {
      PassKeepsSize(f, t);
    }
  }

  lemma PassKeepsSize(f: State, t: nat)
    requires t < |f.threads| && f.threads[t].Inside? && CanPass(f, f.threads[t].at)
    ensures Pass(f, t).workers == f.workers && |Pass(f, t).threads| == |f.threads|
  {
    hide To;
    forall g: State, p | t < |g.threads| && g.threads[t].Inside?
      ensures To(g, t, p).workers == g.workers && |To(g, t, p).threads| == |g.threads|
    {
      ToKeepsSize(g, t, p);
    }
  }

  lemma ToKeepsSize(f: State, t: nat, p: Point)
    requires t < |f.threads| && f.threads[t].Inside?
    ensures To(f, t, p).workers == f.workers && |To(f, t, p).threads| == |f.threads|
  {
  }

  lemma AddPoint(f: State, t: nat)
    requires Enabled(f, t) && f.threads[t].Inside? && f.threads[t].who.ForSubmit? && t < |Do(f, t).threads|
    requires f.threads[t].at.Add?
    ensures Do(f, t).threads[t].Inside? && Do(f, t).threads[t].at.Execute?
  {
    hide Push;
  }

  lemma UsePoint(f: State, t: nat)
    requires Enabled(f, t) && f.threads[t].Inside? && f.threads[t].who.ForSubmit? && t < |Do(f, t).threads|
    requires f.threads[t].at.Use?
    ensures Do(f, t).threads[t].Inside? && Do(f, t).threads[t].at.Exit?
  {
    hide Push;
  }

  lemma TakePoint(f: State, t: nat)
    requires Enabled(f, t) && f.threads[t].Inside? && t < |Do(f, t).threads|
    requires f.threads[t].at.Remove? || f.threads[t].at.Poll?
    ensures Do(f, t).threads[t].Inside? && (Do(f, t).threads[t].at.Execute? || Do(f, t).threads[t].at.Exit?)
  {
    hide Push;
  }

  /** Where a submit goes from the points at which its task is on its way or handed over. */
  lemma OffPoint(f: State, t: nat)
    requires Enabled(f, t) && f.threads[t].Inside? && f.threads[t].who.ForSubmit? && t < |Do(f, t).threads|
    requires !Locking(f, t) && !f.threads[t].at.Put?
    ensures Do(f, t).threads[t] == Idle || (Do(f, t).threads[t].Inside?
            && (Do(f, t).threads[t].at.Execute? || Do(f, t).threads[t].at.Exit?))
  {
    hide Do;
    hide CanPass;
    match f.threads[t].at
    case Add => AddPoint(f, t);
    case Use(_) => UsePoint(f, t);
    case Execute(_) => ExecuteIs(f, t);
    case Exit => ExitIs(f, t);
    case _ => TakePoint(f, t);
  }

  /** Only the put adds a list, and nothing takes one away. */
  lemma OwnListsKept(f: State, c: S.State, t: nat)
    requires Stepping(f, c, t) && OwnLists(f) && !Locking(f, t)
    ensures OwnLists(Do(f, t))
  {
    hide CanPass;
    hide ThreadOk;
    if f.threads[t].Inside? && f.threads[t].at.Put? {
      PutIs(f, t);
    } else {
      ListsStay(f, t);
    }
  }

  lemma ListsStay(f: State, t: nat)
    requires Enabled(f, t) && !Locking(f, t) && !(f.threads[t].Inside? && f.threads[t].at.Put?)
    ensures Do(f, t).acts == f.acts && |Do(f, t).queues| == |f.queues|
  {
    hide Push;
    hide Pass;
    hide CanPass;
    if f.threads[t].Inside? {
      PassKeepsLists(f, t);
    }
  }

  lemma PassKeepsLists(f: State, t: nat)
    requires t < |f.threads| && f.threads[t].Inside? && CanPass(f, f.threads[t].at)
    requires !OnLock(f.threads[t].at) && !f.threads[t].at.Put?
    ensures Pass(f, t).acts == f.acts && |Pass(f, t).queues| == |f.queues|
  {
    hide To;
    forall g: State, p | t < |g.threads| && g.threads[t].Inside?
      ensures To(g, t, p).acts == g.acts && To(g, t, p).queues == g.queues
    {
      ToKeepsLists(g, t, p);
    }
  }

  lemma ToKeepsLists(f: State, t: nat, p: Point)
    requires t < |f.threads| && f.threads[t].Inside?
    ensures To(f, t, p).acts == f.acts && To(f, t, p).queues == f.queues
  {
  }

  lemma OneJobEachKept(f: State, c: S.State, t: nat)
    requires Stepping(f, c, t) && OneJobEach(f) && !Locking(f, t)
    ensures OneJobEach(Do(f, t))
  {
    hide InWrite;
    hide CanPass;
    hide InRead;
    if f.threads[t].Inside? && f.threads[t].at.Execute? {
      forall i | 0 <= i < |f.ready| ensures f.ready[i].0 != f.threads[t].act {
        assert (f.ready[i].0, f.ready[i].1) in f.ready;
      }
    }
  }

  /** Nothing recorded about actor b differs between the two states. */
  ghost predicate Leaves(f: State, c: S.State, f': State, c': S.State, b: Actor) {
    && (b in f.playingNow <==> b in f'.playingNow)
    && Pending(f, b) == Pending(f', b) && At(c.pending, b) == At(c'.pending, b)
    && (b in c.slot <==> b in c'.slot) && (b in c.slot ==> c.slot[b] == c'.slot[b])
    && (b in f.monitor <==> b in f'.monitor) && (b in f.monitor ==> f.monitor[b] == f'.monitor[b])
    && At(f.finished, b) == At(f'.finished, b) && At(c.finished, b) == At(c'.finished, b)
    && At(f.submitted, b) == At(f'.submitted, b) && At(c.submitted, b) == At(c'.submitted, b)
    && (forall r :: (b, r) in f'.ready <==> (b, r) in f.ready)
  }

  lemma LeavesOk(f: State, c: S.State, f': State, c': S.State, t: nat, b: Actor)
    requires t < |f.threads| == |f'.threads| && f'.threads == f.threads[t := f'.threads[t]]
    requires ActorOk(f, c, b) && Leaves(f, c, f', c', b)
    requires MonitorOk(f, b) && !InMonitor(f.threads[t], b)
    requires b in c.slot && !c.slot[b].Queued? ==> c.slot[b].worker != t
    ensures ActorOk(f', c', b)
  {
  }

  lemma AddThreads(f: State, c: S.State, t: nat, u: nat)
    requires Stepping(f, c, t) && f.threads[t].Inside? && f.threads[t].at.Add? && u < |f.threads|
    requires ThreadOk(f, c, u) && Distinct(f) && ActorOk(f, c, Subject(f, t)) && S.Balanced(c, Subject(f, t))
    ensures ThreadOk(Do(f, t), After(c, Event(f, t)), u)
  {
  }

  lemma AddActors(f: State, c: S.State, t: nat, b: Actor)
    requires Stepping(f, c, t) && f.threads[t].Inside? && f.threads[t].at.Add?
    requires ActorOk(f, c, b) && MonitorOk(f, b) && Distinct(f)
    ensures ActorOk(Do(f, t), After(c, Event(f, t)), b)
  {
    if b != Subject(f, t) {
      LeavesOk(f, c, Do(f, t), After(c, Event(f, t)), t, b);
    }
  }

  lemma PutThreads(f: State, c: S.State, t: nat, u: nat)
    requires Stepping(f, c, t) && f.threads[t].Inside? && f.threads[t].at.Put? && u < |f.threads|
    requires ThreadOk(f, c, u) && Distinct(f) && ActorOk(f, c, Subject(f, t)) && S.Balanced(c, Subject(f, t))
    ensures ThreadOk(Do(f, t), After(c, Event(f, t)), u)
  {
    hide Do;
    hide Event;
    hide CanPass;
    PutIs(f, t);
  }

  lemma PutIs(f: State, t: nat)
    requires Enabled(f, t) && f.threads[t].Inside? && f.threads[t].at.Put?
    ensures Event(f, t) == None
    ensures Do(f, t) == To(f.(acts := f.acts[f.threads[t].act := |f.queues|], queues := f.queues + [[]]), t,
            WriteUnlock(|f.queues|))
  {
    hide Push;
    hide ThreadOk;
  }

  lemma PutActors(f: State, c: S.State, t: nat, b: Actor)
    requires Stepping(f, c, t) && f.threads[t].Inside? && f.threads[t].at.Put?
    requires ActorOk(f, c, b) && MonitorOk(f, b) && Distinct(f)
    ensures ActorOk(Do(f, t), After(c, Event(f, t)), b)
  {
  }

  lemma UseSubmitThreads(f: State, c: S.State, t: nat, u: nat)
    requires Stepping(f, c, t) && f.threads[t].Inside? && f.threads[t].at.Use? && f.threads[t].who.ForSubmit?
             && u < |f.threads|
    requires ThreadOk(f, c, u) && Distinct(f) && ActorOk(f, c, Subject(f, t)) && S.Balanced(c, Subject(f, t))
    ensures ThreadOk(Do(f, t), After(c, Event(f, t)), u)
  {
  }

  lemma UseSubmitActors(f: State, c: S.State, t: nat, b: Actor)
    requires Stepping(f, c, t) && f.threads[t].Inside? && f.threads[t].at.Use? && f.threads[t].who.ForSubmit?
    requires ActorOk(f, c, b) && MonitorOk(f, b) && Distinct(f)
    ensures ActorOk(Do(f, t), After(c, Event(f, t)), b)
  {
    if b != Subject(f, t) {
      LeavesOk(f, c, Do(f, t), After(c, Event(f, t)), t, b);
    }
  }

  lemma UseCompleteThreads(f: State, c: S.State, t: nat, u: nat)
    requires Stepping(f, c, t) && f.threads[t].Inside? && f.threads[t].at.Use? && f.threads[t].who.ForComplete?
             && u < |f.threads|
    requires ThreadOk(f, c, u) && Distinct(f) && ActorOk(f, c, Subject(f, t)) && S.Balanced(c, Subject(f, t))
    ensures ThreadOk(Do(f, t), After(c, Event(f, t)), u)
  {
    hide Do;
    hide Event;
    hide CanPass;
    UseCompleteIs(f, t);
    if u != t {
      MovesOn(f, c, t, if f.queues[f.threads[t].at.queue] == [] then Remove else Poll(f.threads[t].at.queue), u);
    }
  }

  lemma MovesOn(f: State, c: S.State, t: nat, p: Point, u: nat)
    requires t < |f.threads| && f.threads[t].Inside? && u < |f.threads| && u != t && ThreadOk(f, c, u)
    ensures ThreadOk(To(f, t, p), c, u)
  {
  }

  lemma UseCompleteIs(f: State, t: nat)
    requires Enabled(f, t) && f.threads[t].Inside? && f.threads[t].at.Use? && f.threads[t].who.ForComplete?
    ensures f.threads[t].at.queue < |f.queues| && Event(f, t) == None
    ensures var q := f.threads[t].at.queue; Do(f, t) == To(f, t, if f.queues[q] == [] then Remove else Poll(q))
  {
    hide Push;
    hide ThreadOk;
  }

  lemma UseCompleteActors(f: State, c: S.State, t: nat, b: Actor)
    requires Stepping(f, c, t) && f.threads[t].Inside? && f.threads[t].at.Use? && f.threads[t].who.ForComplete?
    requires ActorOk(f, c, b) && MonitorOk(f, b) && Distinct(f)
    ensures ActorOk(Do(f, t), After(c, Event(f, t)), b)
  {
  }

  lemma RemoveThreads(f: State, c: S.State, t: nat, u: nat)
    requires Stepping(f, c, t) && f.threads[t].Inside? && f.threads[t].at.Remove? && u < |f.threads|
    requires ThreadOk(f, c, u) && Distinct(f) && ActorOk(f, c, Subject(f, t)) && S.Balanced(c, Subject(f, t))
    ensures ThreadOk(Do(f, t), After(c, Event(f, t)), u)
  {
  }

  lemma RemoveActors(f: State, c: S.State, t: nat, b: Actor)
    requires Stepping(f, c, t) && f.threads[t].Inside? && f.threads[t].at.Remove?
    requires ActorOk(f, c, b) && MonitorOk(f, b) && Distinct(f)
    ensures ActorOk(Do(f, t), After(c, Event(f, t)), b)
  {
    hide InWrite;
    if b != Subject(f, t) {
      LeavesOk(f, c, Do(f, t), After(c, Event(f, t)), t, b);
    }
  }

  lemma PollThreads(f: State, c: S.State, t: nat, u: nat)
    requires Stepping(f, c, t) && f.threads[t].Inside? && f.threads[t].at.Poll? && u < |f.threads|
    requires ThreadOk(f, c, u) && Distinct(f) && ActorOk(f, c, Subject(f, t)) && S.Balanced(c, Subject(f, t))
    ensures ThreadOk(Do(f, t), After(c, Event(f, t)), u)
  {
  }

  lemma PollActors(f: State, c: S.State, t: nat, b: Actor)
    requires Stepping(f, c, t) && f.threads[t].Inside? && f.threads[t].at.Poll?
    requires ActorOk(f, c, b) && MonitorOk(f, b) && Distinct(f)
    ensures ActorOk(Do(f, t), After(c, Event(f, t)), b)
  {
    hide Push;
    if b != Subject(f, t) {
      LeavesOk(f, c, Do(f, t), After(c, Event(f, t)), t, b);
    }
  }

  lemma ExecuteThreads(f: State, c: S.State, t: nat, u: nat)
    requires Stepping(f, c, t) && f.threads[t].Inside? && f.threads[t].at.Execute? && u < |f.threads|
    requires ThreadOk(f, c, u) && Distinct(f) && ActorOk(f, c, Subject(f, t)) && S.Balanced(c, Subject(f, t))
    ensures ThreadOk(Do(f, t), After(c, Event(f, t)), u)
  {
    hide Do;
    hide Event;
    hide CanPass;
    ExecuteIs(f, t);
  }

  lemma ExecuteIs(f: State, t: nat)
    requires Enabled(f, t) && f.threads[t].Inside? && f.threads[t].at.Execute?
    ensures Event(f, t) == None
    ensures Do(f, t) == To(f.(ready := f.ready + [(f.threads[t].act, f.threads[t].at.job)]), t, Exit)
  {
    hide Push;
    hide ThreadOk;
  }

  lemma ExecuteActors(f: State, c: S.State, t: nat, b: Actor)
    requires Stepping(f, c, t) && f.threads[t].Inside? && f.threads[t].at.Execute?
    requires ActorOk(f, c, b) && MonitorOk(f, b) && Distinct(f)
    ensures ActorOk(Do(f, t), After(c, Event(f, t)), b)
  {
  }

  lemma ExitThreads(f: State, c: S.State, t: nat, u: nat)
    requires Stepping(f, c, t) && f.threads[t].Inside? && f.threads[t].at.Exit? && u < |f.threads|
    requires ThreadOk(f, c, u) && Distinct(f) && ActorOk(f, c, Subject(f, t)) && S.Balanced(c, Subject(f, t))
    ensures ThreadOk(Do(f, t), After(c, Event(f, t)), u)
  {
    hide Do;
    hide Event;
    hide CanPass;
    ExitIs(f, t);
  }

  lemma ExitIs(f: State, t: nat)
    requires Enabled(f, t) && f.threads[t].Inside? && f.threads[t].at.Exit?
    ensures Event(f, t) == None
    ensures Do(f, t) == f.(monitor := f.monitor - {f.threads[t].act}, threads := f.threads[t := Idle])
  {
    hide Push;
    hide ThreadOk;
  }

  lemma ExitActors(f: State, c: S.State, t: nat, b: Actor)
    requires Stepping(f, c, t) && f.threads[t].Inside? && f.threads[t].at.Exit?
    requires ActorOk(f, c, b) && MonitorOk(f, b) && Distinct(f)
    ensures ActorOk(Do(f, t), After(c, Event(f, t)), b)
  {
  }

  lemma IdleThreads(f: State, c: S.State, t: nat, u: nat)
    requires Stepping(f, c, t) && f.threads[t].Idle? && u < |f.threads|
    requires ThreadOk(f, c, u) && Distinct(f) && ActorOk(f, c, Subject(f, t)) && S.Balanced(c, Subject(f, t))
    ensures ThreadOk(Do(f, t), After(c, Event(f, t)), u)
  {
  }

  lemma IdleActors(f: State, c: S.State, t: nat, b: Actor)
    requires Stepping(f, c, t) && f.threads[t].Idle?
    requires ActorOk(f, c, b) && MonitorOk(f, b) && Distinct(f)
    ensures ActorOk(Do(f, t), After(c, Event(f, t)), b)
  {
  }

  lemma AtMonitorThreads(f: State, c: S.State, t: nat, u: nat)
    requires Stepping(f, c, t) && f.threads[t].AtMonitor? && u < |f.threads|
    requires ThreadOk(f, c, u) && Distinct(f) && ActorOk(f, c, Subject(f, t)) && S.Balanced(c, Subject(f, t))
    ensures ThreadOk(Do(f, t), After(c, Event(f, t)), u)
  {
  }

  lemma AtMonitorActors(f: State, c: S.State, t: nat, b: Actor)
    requires Stepping(f, c, t) && f.threads[t].AtMonitor?
    requires ActorOk(f, c, b) && MonitorOk(f, b) && Distinct(f)
    ensures ActorOk(Do(f, t), After(c, Event(f, t)), b)
  {
    hide S.Do;
    hide PointOk;
    hide S.IsQueued;
    if b != Subject(f, t) {
      LeavesOk(f, c, Do(f, t), After(c, Event(f, t)), t, b);
    }
  }

  lemma AtRunThreads(f: State, c: S.State, t: nat, u: nat)
    requires Stepping(f, c, t) && f.threads[t].AtRun? && u < |f.threads|
    requires ThreadOk(f, c, u) && Distinct(f) && ActorOk(f, c, Subject(f, t)) && S.Balanced(c, Subject(f, t))
    ensures ThreadOk(Do(f, t), After(c, Event(f, t)), u)
  {
  }

  lemma AtRunActors(f: State, c: S.State, t: nat, b: Actor)
    requires Stepping(f, c, t) && f.threads[t].AtRun?
    requires ActorOk(f, c, b) && MonitorOk(f, b) && Distinct(f)
    ensures ActorOk(Do(f, t), After(c, Event(f, t)), b)
  {
  }


  lemma ThreadKept(f: State, c: S.State, t: nat, u: nat)
    requires Stepping(f, c, t) && !Locking(f, t) && u < |f.threads|
    requires ThreadOk(f, c, u) && Distinct(f) && ActorOk(f, c, Subject(f, t)) && S.Balanced(c, Subject(f, t))
    ensures ThreadOk(Do(f, t), After(c, Event(f, t)), u)
  {
    match f.threads[t]
    case Idle => IdleThreads(f, c, t, u);
    case AtMonitor(_, _) => AtMonitorThreads(f, c, t, u);
    case AtRun(_, _) => AtRunThreads(f, c, t, u);
    case Inside(_, _, Add) => AddThreads(f, c, t, u);
    case Inside(_, _, Put) => PutThreads(f, c, t, u);
    case Inside(ForSubmit(_), _, Use(_)) => UseSubmitThreads(f, c, t, u);
    case Inside(ForComplete, _, Use(_)) => UseCompleteThreads(f, c, t, u);
    case Inside(_, _, Remove) => RemoveThreads(f, c, t, u);
    case Inside(_, _, Poll(_)) => PollThreads(f, c, t, u);
    case Inside(_, _, Execute(_)) => ExecuteThreads(f, c, t, u);
    case Inside(_, _, Exit) => ExitThreads(f, c, t, u);
  }

  lemma ActorKept(f: State, c: S.State, t: nat, b: Actor)
    requires Stepping(f, c, t) && !Locking(f, t)
    requires ActorOk(f, c, b) && MonitorOk(f, b) && Distinct(f)
    ensures ActorOk(Do(f, t), After(c, Event(f, t)), b)
  {
    match f.threads[t]
    case Idle => IdleActors(f, c, t, b);
    case AtMonitor(_, _) => AtMonitorActors(f, c, t, b);
    case AtRun(_, _) => AtRunActors(f, c, t, b);
    case Inside(_, _, Add) => AddActors(f, c, t, b);
    case Inside(_, _, Put) => PutActors(f, c, t, b);
    case Inside(ForSubmit(_), _, Use(_)) => UseSubmitActors(f, c, t, b);
    case Inside(ForComplete, _, Use(_)) => UseCompleteActors(f, c, t, b);
    case Inside(_, _, Remove) => RemoveActors(f, c, t, b);
    case Inside(_, _, Poll(_)) => PollActors(f, c, t, b);
    case Inside(_, _, Execute(_)) => ExecuteActors(f, c, t, b);
    case Inside(_, _, Exit) => ExitActors(f, c, t, b);
  }

  lemma MonitorKeptLocking(f: State, c: S.State, t: nat, a: Actor)
    requires Stepping(f, c, t) && MonitorOk(f, a) && Locking(f, t)
    ensures MonitorOk(Do(f, t), a)
  {
    hide CanPass;
    hide ThreadOk;
  }

  lemma OffLockOk(f: State, c: S.State, t: nat)
    requires Stepping(f, c, t) && Locks(f) && !Locking(f, t)
    ensures WriterOk(Do(f, t)) && forall u :: ReaderOk(Do(f, t), u)
  {
    hide CanPass;
    hide ThreadOk;
    hide MonitorOk;
    if f.threads[t].Inside? {
      OffLock(f, t);
    }
    if f.threads[t].Inside? && f.threads[t].at.Put? {
      PutIs(f, t);
    }
    hide Pass;
    forall u ensures ReaderOk(Do(f, t), u) {
      assert ReaderOk(f, u);
    }
  }

  lemma LocksKept(f: State, c: S.State, t: nat)
    requires Stepping(f, c, t) && Locks(f)
    ensures Locks(Do(f, t))
  {
    hide Do;
    hide MonitorOk;
    hide ReaderOk;
    hide WriterOk;
    forall a ensures MonitorOk(Do(f, t), a) {
      assert MonitorOk(f, a);
      if Locking(f, t) {
        MonitorKeptLocking(f, c, t, a);
      } else if f.threads[t].Inside? {
        MonitorKept(f, c, t, a);
      } else {
        MonitorKeptOutside(f, c, t, a);
      }
    }
    if Locking(f, t) {
      forall u ensures ReaderOk(Do(f, t), u) {
        assert ReaderOk(f, u);
        ReaderKept(f, c, t, u);
      }
      WriterKept(f, c, t);
    } else {
      OffLockOk(f, c, t);
    }
  }

  /** Every action of a thread is one serial event or none: the lock protocol refines the serial pool. */
  lemma StepSimulates(f: State, c: S.State, t: nat)
    requires Refines(f, c) && S.Serial(c) && Enabled(f, t)
    ensures Event(f, t).Some? ==> S.Can(c, Event(f, t).value)
    ensures Refines(Do(f, t), After(c, Event(f, t))) && S.Serial(After(c, Event(f, t)))
  {
    hide EnteringOf;
    hide SlotOk;
    StepEvent(f, c, t);
    LocksKept(f, c, t);
    var f', c', x := Do(f, t), After(c, Event(f, t)), Subject(f, t);
    if Locking(f, t) {
      OnLockThread(f, c, t);
      LockStepOk(f, c, f', t);
    } else {
      assert ActorOk(f, c, x) && S.Balanced(c, x);
      OwnListsKept(f, c, t);
      OneJobEachKept(f, c, t);
      forall u: nat | u < |f'.threads| ensures ThreadOk(f', c', u) {
        assert ThreadOk(f, c, u);
        ThreadKept(f, c, t, u);
      }
      forall b ensures ActorOk(f', c', b) {
        assert ActorOk(f, c, b) && MonitorOk(f, b);
        ActorKept(f, c, t, b);
      }
      if Event(f, t).Some? {
        S.StepKeepsSerial(c, Event(f, t).value);
      }
    }
  }

  lemma BeginSimulates(f: State, c: S.State, t: nat, a: Actor, r: Task)
    requires Refines(f, c) && CanBegin(f, t)
    ensures Refines(Begin(f, t, a, r), c)
  {
    var f' := Begin(f, t, a, r);
    forall u: nat | u < |f'.threads| ensures ThreadOk(f', c, u) {
      assert ThreadOk(f, c, u);
    }
    forall b ensures ActorOk(f', c, b) && MonitorOk(f', b) {
      assert ActorOk(f, c, b) && MonitorOk(f, b);
    }
    forall u ensures ReaderOk(f', u) {
      assert ReaderOk(f, u);
    }
  }

  ghost predicate Sound(f: State) {
    0 < f.workers <= |f.threads| && exists c :: Refines(f, c) && S.Serial(c)
  }

  lemma InitIsSound(f: State)
    requires Init(f)
    ensures Sound(f)
  {
    assert Refines(f, S.Start) && S.Serial(S.Start);
  }

  /** What one step or one new call leaves still stands for a state of the serial pool. */
  lemma NextKeepsSound(f: State, f': State)
    requires Sound(f) && Next(f, f')
    ensures Sound(f')
  {
    hide Do, Refines, S.Serial, Enabled;
    var c :| Refines(f, c) && S.Serial(c);
    if t: nat :| Enabled(f, t) && f' == Do(f, t) {
      StepSimulates(f, c, t);
      SizeStays(f, t);
      assert Refines(f', After(c, Event(f, t)));
    } else {
      var t: nat, a, r :| CanBegin(f, t) && f' == Begin(f, t, a, r);
      BeginSimulates(f, c, t, a, r);
    }
  }

  /** Every state of every run stands for a state of the serial pool. */
  lemma {:induction false} RunsAreSound(run: seq<State>)
    requires IsRun(run)
    ensures Sound(run[|run| - 1])
  {
    hide Next, Sound;
    if |run| == 1 {
      InitIsSound(run[0]);
    } else {
      var prior := run[..|run| - 1];
      assert Next(run[|run| - 2], run[|run| - 1]);
      RunsAreSound(prior);
      NextKeepsSound(prior[|prior| - 1], run[|run| - 1]);
    }
  }

  /** Thread p is running a task of actor a, or deciding what follows it. */
  predicate Busy(p: Phase, a: Actor) {
    (p.AtRun? && p.act == a) || (!p.Idle? && InCompletion(p, a))
  }

  /** Task r of actor a is with the executor, about to reach it, or on a worker. */
  ghost predicate Carried(f: State, a: Actor, r: Task) {
    || (a, r) in f.ready
    || exists t: nat :: t < |f.threads| && CarriedBy(f.threads[t], a, r)
  }

  predicate CarriedBy(p: Phase, a: Actor, r: Task) {
    p == AtRun(a, r) || (p.Inside? && p.act == a && p.at == Execute(r))
  }

  /** No two workers are ever on one actor, and an actor being worked on has nothing in the executor. */
  lemma OneTaskPerActor(f: State, a: Actor, t: nat, p: Phase)
    requires Sound(f) && t < |f.threads| && p == f.threads[t] && Busy(p, a)
    ensures a in f.playingNow
    ensures forall u: nat :: u < |f.threads| && Busy(f.threads[u], a) ==> u == t
    ensures forall r: Task :: Carried(f, a, r) ==> p == AtRun(a, r)
  {
    var c :| Refines(f, c) && S.Serial(c);
    assert ActorOk(f, c, a) && ThreadOk(f, c, t);
    forall u: nat | u < |f.threads| && Busy(f.threads[u], a) ensures u == t {
      assert ThreadOk(f, c, u);
    }
    forall r: Task | Carried(f, a, r) ensures p == AtRun(a, r) {
      if (a, r) !in f.ready {
        var u: nat :| u < |f.threads| && CarriedBy(f.threads[u], a, r);
        assert ThreadOk(f, c, u);
      }
    }
  }

  /** playingNow holds exactly the actors with a task in flight or being completed. */
  lemma PlayingExactly(f: State, a: Actor)
    requires Sound(f)
    ensures a in f.playingNow <==>
            (exists r: Task :: Carried(f, a, r)) || (exists t: nat :: t < |f.threads| && Busy(f.threads[t], a))
  {
    var c :| Refines(f, c) && S.Serial(c);
    assert ActorOk(f, c, a);
    if a in f.playingNow {
      match c.slot[a]
      case Queued(r) =>
        assert (a, r) in f.ready || CarriedBy(f.threads[f.monitor[a]], a, r);
        assert Carried(f, a, r);
      case Running(w, r) => assert Busy(f.threads[w], a);
      case Completing(w) => assert Busy(f.threads[w], a);
    }
    if r: Task :| Carried(f, a, r) {
      if (a, r) !in f.ready {
        var u: nat :| u < |f.threads| && CarriedBy(f.threads[u], a, r);
        assert ThreadOk(f, c, u);
      }
    }
    if t: nat :| t < |f.threads| && Busy(f.threads[t], a) {
      assert ThreadOk(f, c, t);
    }
  }

  lemma CarriedIsInFlight(f: State, c: S.State, a: Actor, r: Task)
    requires Refines(f, c)
    ensures Carried(f, a, r) <==> S.InFlight(c, a) == [r]
  {
    assert ActorOk(f, c, a);
    if Carried(f, a, r) && (a, r) !in f.ready {
      var u: nat :| u < |f.threads| && CarriedBy(f.threads[u], a, r);
      assert ThreadOk(f, c, u);
    }
    if S.InFlight(c, a) == [r] && (a, r) !in f.ready {
      var u: nat := if c.slot[a].Running? then c.slot[a].worker else f.monitor[a];
      assert CarriedBy(f.threads[u], a, r);
    }
  }

  lemma Account(f: State, c: S.State, a: Actor)
    requires ActorOk(f, c, a) && S.Balanced(c, a)
    ensures At(f.finished, a) + S.InFlight(c, a) + Pending(f, a) + Entering(f, a) == At(f.submitted, a)
  {
    assert At(f.finished, a) + S.InFlight(c, a) + Pending(f, a)
        == At(f.finished, a) + (S.InFlight(c, a) + Pending(f, a));
  }

  /**
   Tasks of an actor finish in the order in which their submit calls got its monitor: what has
   finished, then the task in flight, then the queue, then a task still being submitted.
   */
  lemma SerialOrder(f: State, a: Actor)
    requires Sound(f)
    ensures exists x: seq<Task> ::
              && |x| <= 1 && (forall r: Task :: Carried(f, a, r) <==> x == [r])
              && At(f.finished, a) + x + Pending(f, a) + Entering(f, a) == At(f.submitted, a)
  {
    var c :| Refines(f, c) && S.Serial(c);
    assert ActorOk(f, c, a) && S.Balanced(c, a);
    var x := S.InFlight(c, a);
    forall r: Task ensures Carried(f, a, r) <==> x == [r] {
      CarriedIsInFlight(f, c, a, r);
    }
    Account(f, c, a);
  }

  /** The put under the write lock never replaces a list another call may be using. */
  lemma PutNeverOverwrites(f: State, t: nat)
    requires Sound(f) && t < |f.threads| && f.threads[t].Inside?
    ensures f.threads[t].at.Put? ==> f.threads[t].act !in f.acts
    ensures f.threads[t].at.Use? ==>
            f.threads[t].act in f.acts && f.acts[f.threads[t].act] == f.threads[t].at.queue
    ensures forall u: nat :: u < |f.threads| && u != t ==> !InMonitor(f.threads[u], f.threads[t].act)
  {
    var c :| Refines(f, c) && S.Serial(c);
    assert ThreadOk(f, c, t);
    forall u: nat | u < |f.threads| && u != t ensures !InMonitor(f.threads[u], f.threads[t].act) {
      assert ThreadOk(f, c, u);
    }
  }

  predicate Quiet(f: State) {
    f.ready == [] && forall t :: 0 <= t < |f.threads| ==> f.threads[t].Idle?
  }

  /** A thread inside a monitor moves, or the holder of the read/write lock does. */
  lemma InsideMoves(f: State, c: S.State, t: nat) returns (u: nat)
    requires Refines(f, c) && t < |f.threads| && f.threads[t].Inside?
    ensures Enabled(f, u)
  {
    u := t;
    assert ThreadOk(f, c, t) && ActorOk(f, c, f.threads[t].act);
    if !Enabled(f, t) {
      if f.writer.Some? {
        u := f.writer.value;
      } else {
        u :| u in f.readers;
        assert ReaderOk(f, u);
      }
    }
  }

  /** The monitor-then-lock order cannot deadlock, for any number of threads and actors. */
  lemma NoDeadlock(f: State) returns (u: nat)
    requires Sound(f) && !Quiet(f)
    ensures Enabled(f, u)
  {
    var c :| Refines(f, c) && S.Serial(c);
    if t: nat :| t < |f.threads| && !f.threads[t].Idle? {
      u := t;
      if f.threads[t].Inside? {
        u := InsideMoves(f, c, t);
      } else if f.threads[t].AtMonitor? && f.threads[t].act in f.monitor {
        assert MonitorOk(f, f.threads[t].act);
        u := InsideMoves(f, c, f.monitor[f.threads[t].act]);
      }
    } else {
      u := 0;
    }
  }

  /** An upper bound on the actions a thread at p still takes before it is idle. */
  function Weight(p: Phase): nat {
    match p
    case Idle => 0
    case AtRun(_, _) => 12
    case AtMonitor(who, _) => if who.ForSubmit? then 24 else 11
    case Inside(who, _, at) =>
      var use := if who.ForSubmit? then 15 else 4;
      match at
      case Contains => 23
      case Add => 16
      case ReadLock => use + 6
      case Get => use + 5
      case ReadUnlock(_) => use + 4
      case WriteLock => use + 3
      case Put => use + 2
      case WriteUnlock(_) => use + 1
      case Use(_) => use
      case Poll(_) => 3
      case Remove => 2
      case Execute(_) => 15
      case Exit => 1
  }

  function Weights(s: seq<Phase>): nat {
    if s == [] then 0 else Weight(s[0]) + Weights(s[1..])
  }

  function Total(qs: seq<seq<Task>>): nat {
    if qs == [] then 0 else |qs[0]| + Total(qs[1..])
  }

  function Measure(f: State): nat {
    Weights(f.threads) + 13 * |f.ready| + 13 * Total(f.queues)
  }

  lemma {:induction false} WeightsUpdate(s: seq<Phase>, i: nat, p: Phase)
    requires i < |s|
    ensures Weights(s[i := p]) + Weight(s[i]) == Weights(s) + Weight(p)
  {
    if i == 0 {
    } else {
      assert s[i := p][1..] == s[1..][i - 1 := p];
      WeightsUpdate(s[1..], i - 1, p);
    }
  }

  lemma {:induction false} TotalUpdate(qs: seq<seq<Task>>, i: nat, q: seq<Task>)
    requires i < |qs|
    ensures Total(qs[i := q]) + |qs[i]| == Total(qs) + |q|
  {
    if i == 0 {
    } else {
      assert qs[i := q][1..] == qs[1..][i - 1 := q];
      TotalUpdate(qs[1..], i - 1, q);
    }
  }

  lemma {:induction false} TotalAppend(qs: seq<seq<Task>>)
    ensures Total(qs + [[]]) == Total(qs)
  {
    if qs == [] {
    } else {
      assert (qs + [[]])[1..] == qs[1..] + [[]];
      TotalAppend(qs[1..]);
    }
  }

  predicate MovesJob(p: Point) {
    p.Put? || p.Use? || p.Poll? || p.Execute?
  }

  lemma PointFrame(f: State, t: nat)
    requires Enabled(f, t) && f.threads[t].Inside? && !MovesJob(f.threads[t].at)
    ensures Do(f, t).ready == f.ready && Do(f, t).queues == f.queues
    ensures |Do(f, t).threads| == |f.threads| && Do(f, t).threads == f.threads[t := Do(f, t).threads[t]]
  {
    OthersStay(f, t);
  }

  /** The point that follows a point at one of the locks, or the question whether the actor plays. */
  function Onward(f: State, a: Actor, p: Point): Point {
    match p
    case Contains => if a in f.playingNow then ReadLock else Add
    case ReadLock => Get
    case Get => ReadUnlock(if a in f.acts then Some(f.acts[a]) else None)
    case ReadUnlock(found) => if found == None then WriteLock else Use(found.value)
    case WriteLock => Put
    case WriteUnlock(q) => Use(q)
    case _ => p
  }

  lemma LockPoint(f: State, t: nat)
    requires Enabled(f, t) && Locking(f, t)
    ensures t < |Do(f, t).threads|
    ensures Do(f, t).threads[t] == f.threads[t].(at := Onward(f, f.threads[t].act, f.threads[t].at))
  {
    hide Push;
    hide CanPass;
  }

  lemma LockWeight(f: State, t: nat)
    requires Enabled(f, t) && Locking(f, t) && |Do(f, t).threads| == |f.threads|
    ensures Weight(Do(f, t).threads[t]) < Weight(f.threads[t])
  {
    hide Do;
    hide Enabled;
    LockPoint(f, t);
  }

  lemma PointWeight(f: State, t: nat)
    requires Enabled(f, t) && f.threads[t].Inside? && |Do(f, t).threads| == |f.threads|
    requires f.threads[t].at.Add? || f.threads[t].at.Remove? || f.threads[t].at.Exit?
    ensures Weight(Do(f, t).threads[t]) < Weight(f.threads[t])
  {
  }

  lemma ListDecreases(f: State, t: nat)
    requires Enabled(f, t) && f.threads[t].Inside? && (f.threads[t].at.Put? || f.threads[t].at.Execute?)
    ensures Measure(Do(f, t)) < Measure(f)
  {
    WeightsUpdate(f.threads, t, Do(f, t).threads[t]);
    TotalAppend(f.queues);
  }

  lemma UseDecreases(f: State, t: nat)
    requires Enabled(f, t) && f.threads[t].Inside? && f.threads[t].at.Use?
    ensures Measure(Do(f, t)) < Measure(f)
  {
    hide Total;
    hide Weights;
    hide At;
    WeightsUpdate(f.threads, t, Do(f, t).threads[t]);
    if f.threads[t].who.ForSubmit? {
      TotalUpdate(f.queues, f.threads[t].at.queue, Do(f, t).queues[f.threads[t].at.queue]);
    }
  }

  lemma PollDecreases(f: State, t: nat)
    requires Enabled(f, t) && f.threads[t].Inside? && f.threads[t].at.Poll?
    ensures Measure(Do(f, t)) < Measure(f)
  {
    WeightsUpdate(f.threads, t, Do(f, t).threads[t]);
    TotalUpdate(f.queues, f.threads[t].at.queue, Do(f, t).queues[f.threads[t].at.queue]);
  }

  /** Every action of the pool, and of submits already under way, uses up the measure. */
  lemma StepDecreases(f: State, t: nat)
    requires Enabled(f, t)
    ensures Measure(Do(f, t)) < Measure(f)
  {
    if !f.threads[t].Inside? {
      WeightsUpdate(f.threads, t, Do(f, t).threads[t]);
    } else if f.threads[t].at.Put? || f.threads[t].at.Execute? {
      ListDecreases(f, t);
    } else if f.threads[t].at.Use? {
      UseDecreases(f, t);
    } else if f.threads[t].at.Poll? {
      PollDecreases(f, t);
    } else {
      PointFrame(f, t);
      if Locking(f, t) {
        LockWeight(f, t);
      } else {
        PointWeight(f, t);
      }
      WeightsUpdate(f.threads, t, Do(f, t).threads[t]);
    }
  }

  /** When nothing is left to do, every submitted task has run exactly once, in order. */
  lemma QuietIsComplete(f: State, a: Actor)
    requires Sound(f) && Quiet(f)
    ensures At(f.finished, a) == At(f.submitted, a) && Pending(f, a) == [] && a !in f.playingNow
  {
    var c :| Refines(f, c) && S.Serial(c);
    assert ActorOk(f, c, a) && S.Balanced(c, a) && MonitorOk(f, a);
  }

  /** A schedule of threads, each able to move when its turn comes. */
  predicate CanFollow(f: State, schedule: seq<nat>)
    decreases |schedule|
  {
    schedule == [] || (Enabled(f, schedule[0]) && CanFollow(Do(f, schedule[0]), schedule[1..]))
  }

  function Follow(f: State, schedule: seq<nat>): State
    decreases |schedule|
  {
    if schedule == [] then f else Follow(Do(f, schedule[0]), schedule[1..])
  }

  /**
   With no further submits every schedule ends within the measure, and one that cannot be
   extended has run every submitted task exactly once and left playingNow empty.
   */
  lemma {:induction false} EveryScheduleDrains(f: State, schedule: seq<nat>)
    requires Sound(f) && CanFollow(f, schedule)
    ensures Sound(Follow(f, schedule)) && |schedule| + Measure(Follow(f, schedule)) <= Measure(f)
    ensures (forall u :: !Enabled(Follow(f, schedule), u)) ==>
            && Quiet(Follow(f, schedule)) && Follow(f, schedule).playingNow == {}
            && (forall a :: At(Follow(f, schedule).finished, a) == At(Follow(f, schedule).submitted, a))
    decreases |schedule|
  {
    hide Measure;
    hide Refines;
    hide S.Do;
    hide ActorOk;
    hide CanPass;
    hide Quiet;
    hide InCompletion;
    hide Push;
    if schedule != [] {
      var c :| Refines(f, c) && S.Serial(c);
      var t := schedule[0];
      StepSimulates(f, c, t);
      StepDecreases(f, t);
      EveryScheduleDrains(Do(f, t), schedule[1..]);
    } else if forall u :: !Enabled(f, u) {
      if !Quiet(f) {
        var u := NoDeadlock(f);
      }
      forall a ensures At(f.finished, a) == At(f.submitted, a) && a !in f.playingNow {
        QuietIsComplete(f, a);
      }
    }
  }

  // The pool as the object it is, each method inside the monitor it takes: what submit and complete do
  // to the tables is what the serial pool does.

  /** A list object: the tables hold references to it. */
  class TaskQueue {
    var tasks: seq<S.Task>

    constructor ()
      ensures tasks == []
    {
      tasks := [];
    }
  }

  class ActorThreadPool {
    var acts: map<S.Actor, TaskQueue>
    var playingNow: set<S.Actor>
    /** The tasks handed to the executor and not yet taken by a worker. */
    var threads: seq<(S.Actor, S.Task)>
    ghost var state: S.State
    ghost var lists: set<TaskQueue>

    ghost predicate QueuesOk()
      reads this, lists
    {
      && (forall a :: a in acts ==> acts[a] in lists && acts[a].tasks == At(state.pending, a))
      && (forall a :: a !in acts ==> At(state.pending, a) == [])
      && (forall a, b :: a in acts && b in acts && acts[a] == acts[b] ==> a == b)
    }

    ghost predicate ThreadsOk()
      reads this
    {
      && playingNow == state.slot.Keys
      && (forall a: S.Actor, r: S.Task :: (a, r) in threads <==> a in state.slot && state.slot[a] == S.Queued(r))
      && (forall i, j :: 0 <= i < j < |threads| ==> threads[i].0 != threads[j].0)
    }

    ghost predicate Valid()
      reads this, lists
    {
      QueuesOk() && ThreadsOk() && S.Serial(state)
    }

    constructor ()
      ensures Valid() && state == S.Start && lists == {}
    {
      acts, playingNow, threads := map[], {}, [];
      state, lists := S.Start, {};
    }

    /** The actor's own list, made at its first use. */
    method PendingRunnablesOf(act: S.Actor) returns (pending: TaskQueue)
      requires QueuesOk()
      modifies this`acts, this`lists
      ensures QueuesOk() && fresh(lists - old(lists))
      ensures act in acts && acts[act] == pending && pending.tasks == At(state.pending, act)
    {
      if act in acts {
        return acts[act];
      }
      pending := new TaskQueue();
      acts := acts[act := pending];
      lists := lists + {pending};
    }

    /** The task of an idle actor goes to the executor at once. */
    method StartOn(act: S.Actor, r: S.Task)
      requires QueuesOk() && ThreadsOk() && act !in playingNow
      modifies this`playingNow, this`threads, this`state
      ensures QueuesOk() && ThreadsOk() && state == S.Submit(old(state), act, r)
    {
      playingNow := playingNow + {act};
      threads := threads + [(act, r)];
      state := S.Submit(state, act, r);
      assert threads[|threads| - 1] == (act, r);
    }

    /** The task of an actor in play joins the actor's list. */
    method Queue(act: S.Actor, r: S.Task, pending: TaskQueue)
      requires QueuesOk() && ThreadsOk() && act in playingNow && act in acts && acts[act] == pending
      modifies this`state, pending
      ensures QueuesOk() && ThreadsOk() && state == S.Submit(old(state), act, r)
    {
      pending.tasks := pending.tasks + [r];
      state := S.Submit(state, act, r);
    }

    method Submit(act: S.Actor, r: S.Task)
      requires Valid()
      modifies this, lists
      ensures Valid() && fresh(lists - old(lists)) && state == S.Submit(old(state), act, r)
    {
      hide S.Balanced;
      S.StepKeepsSerial(state, S.EvSubmit(act, r));
      hide S.Serial;
      if act !in playingNow {
        StartOn(act, r);
      } else {
        var pending := PendingRunnablesOf(act);
        Queue(act, r, pending);
      }
    }

    /** A worker takes the oldest task and runs it. */
    method TakeAndRun(worker: nat) returns (act: S.Actor, r: S.Task)
      requires Valid() && threads != []
      modifies this`threads, this`state
      ensures Valid() && (act, r) == old(threads[0]) && S.IsQueued(old(state), act)
      ensures state == S.Finish(S.Take(old(state), worker, act), worker, act)
      ensures At(state.finished, act) == At(old(state.finished), act) + [r]
    {
      act, r := threads[0].0, threads[0].1;
      assert (act, r) in threads;
      S.StepKeepsSerial(state, S.EvTake(worker, act));
      S.StepKeepsSerial(S.Take(state, worker, act), S.EvFinish(worker, act));
      hide S.Serial;
      threads := threads[1..];
      state := S.Finish(S.Take(state, worker, act), worker, act);
    }

    /** The oldest task of a list goes to the executor. */
    method HandOn(worker: nat, act: S.Actor, pending: TaskQueue)
      requires QueuesOk() && ThreadsOk() && act in acts && acts[act] == pending && pending.tasks != []
      requires S.IsCompleting(state, worker, act)
      modifies this`threads, this`state, pending
      ensures QueuesOk() && ThreadsOk() && state == S.Complete(old(state), worker, act)
    {
      var r := pending.tasks[0];
      pending.tasks := pending.tasks[1..];
      threads := threads + [(act, r)];
      state := S.Complete(state, worker, act);
      assert threads[|threads| - 1] == (act, r);
    }

    method Complete(worker: nat, act: S.Actor)
      requires Valid() && S.IsCompleting(state, worker, act)
      modifies this, lists
      ensures Valid() && fresh(lists - old(lists)) && state == S.Complete(old(state), worker, act)
    {
      S.StepKeepsSerial(state, S.EvComplete(worker, act));
      hide S.Serial;
      var pending := PendingRunnablesOf(act);
      if pending.tasks == [] {
        playingNow := playingNow - {act};
        state := S.Complete(state, worker, act);
      } else {
        HandOn(worker, act, pending);
      }
    }
  }
}
