/** The reactor's own tables: connection ids, interest sets and the tasks other threads leave for its thread. */
module Reactor {
  import opened Wrappers

  type Channel = nat

  datatype Ops = ReadOnly | ReadWrite

  datatype InterestTask = InterestTask(chan: Channel, ops: Ops)

  /** A task on the keys of the open channels; it throws for a channel without one. */
  function RunOne(interest: map<Channel, Ops>, t: InterestTask): Option<map<Channel, Ops>> {
    if t.chan in interest then Some(interest[t.chan := t.ops]) else None
  }

  /** Tasks run in the order in which they were left; None where one throws. */
  function RunAll(interest: map<Channel, Ops>, tasks: seq<InterestTask>): Option<map<Channel, Ops>>
    decreases tasks
  {
    if tasks == [] then Some(interest) else
    match RunOne(interest, tasks[0])
    case None => None
    case Some(interest') => RunAll(interest', tasks[1..])
  }

  function Then(ran: Option<map<Channel, Ops>>, t: InterestTask): Option<map<Channel, Ops>> {
    match ran case None => None case Some(interest) => RunOne(interest, t)
  }

  /** `interest` holds the keys of the open channels. */
  class Reactor {
    var selectorTasks: seq<InterestTask>
    var interest: map<Channel, Ops>
    var wakeup: bool
    var identifier: nat
    var currConnections: map<nat, Channel>

    /** Every id given out is below the counter. */
    predicate Valid()
      reads this
    {
      forall id :: id in currConnections ==> id < identifier
    }

    constructor ()
      ensures Valid() && selectorTasks == [] && interest == map[] && currConnections == map[] && !wakeup
    {
      selectorTasks, interest, wakeup, identifier, currConnections := [], map[], false, 0, map[];
    }

    /** At once on the selector thread, where a missing key throws; else a task and a wake-up. */
    method UpdateInterestedOps(chan: Channel, ops: Ops, onSelectorThread: bool) returns (threw: bool)
      requires Valid()
      modifies this`interest, this`selectorTasks, this`wakeup
      ensures Valid() && (threw <==> onSelectorThread && chan !in old(interest))
      ensures threw ==> interest == old(interest)
      ensures onSelectorThread && !threw ==> interest == old(interest)[chan := ops]
      ensures onSelectorThread ==> selectorTasks == old(selectorTasks) && wakeup == old(wakeup)
      ensures !onSelectorThread ==>
                && wakeup && interest == old(interest)
                && RunAll(interest, selectorTasks)
                   == Then(RunAll(old(interest), old(selectorTasks)), InterestTask(chan, ops))
    {
      if onSelectorThread {
        if chan !in interest {
          return true;
        }
        interest := interest[chan := ops];
      } else {
        RunOneMore(interest, selectorTasks, InterestTask(chan, ops));
        selectorTasks := selectorTasks + [InterestTask(chan, ops)];
        wakeup := true;
      }
      return false;
    }

    /** Runs them all, or up to the first whose channel has been closed: there the selector thread ends. */
    method RunSelectionThreadTasks() returns (threw: bool)
      requires Valid()
      modifies this`interest, this`selectorTasks
      ensures Valid() && interest.Keys == old(interest).Keys
      ensures threw <==> exists t :: t in old(selectorTasks) && t.chan !in old(interest)
      ensures !threw ==> selectorTasks == [] && Some(interest) == RunAll(old(interest), old(selectorTasks))
    {
      RunsExactly(interest, selectorTasks);
      while selectorTasks != []
        invariant RunAll(interest, selectorTasks) == RunAll(old(interest), old(selectorTasks))
        invariant interest.Keys == old(interest).Keys
        decreases |selectorTasks|
      {
        var task := selectorTasks[0];
        selectorTasks := selectorTasks[1..];
        if task.chan !in interest {
          return true;
        }
        interest := interest[task.chan := task.ops];
      }
      return false;
    }

    /** Closing a channel cancels its key. */
    method Cancel(chan: Channel)
      requires Valid()
      modifies this`interest
      ensures Valid() && interest == old(interest) - {chan}
    {
      interest := interest - {chan};
    }

    /** A new connection gets an id no live connection has, and read interest. */
    method HandleAccept(chan: Channel) returns (id: nat)
      requires Valid()
      modifies this`identifier, this`currConnections, this`interest
      ensures Valid() && id == old(identifier) && identifier == id + 1 && id !in old(currConnections)
      ensures currConnections == old(currConnections)[id := chan] && interest == old(interest)[chan := ReadOnly]
    {
      id := identifier;
      currConnections := currConnections[id := chan];
      identifier := identifier + 1;
      interest := interest[chan := ReadOnly];
    }
  }

  lemma {:induction false} RunOneMore(interest: map<Channel, Ops>, tasks: seq<InterestTask>, t: InterestTask)
    ensures RunAll(interest, tasks + [t]) == Then(RunAll(interest, tasks), t)
    decreases tasks
  {
    if tasks == [] {
      assert tasks + [t] == [t];
      assert RunOne(interest, t).Some? ==> RunAll(RunOne(interest, t).value, [t][1..]) == RunOne(interest, t);
    } else {
      assert (tasks + [t])[1..] == tasks[1..] + [t];
      if RunOne(interest, tasks[0]).Some? {
        RunOneMore(RunOne(interest, tasks[0]).value, tasks[1..], t);
      }
    }
  }

  /** The tasks run through if and only if each is about a channel that is still open. */
  lemma {:induction false} RunsExactly(interest: map<Channel, Ops>, tasks: seq<InterestTask>)
    ensures RunAll(interest, tasks) == None <==> exists t :: t in tasks && t.chan !in interest
    decreases tasks
  {
    if tasks == [] {
    } else {
      assert tasks == [tasks[0]] + tasks[1..];
      assert tasks[0] in tasks;
      if tasks[0].chan in interest {
        RunsExactly(interest[tasks[0].chan := tasks[0].ops], tasks[1..]);
      }
    }
  }

  /** Senders only ever ask for both, so after the tasks have run every channel asked for is watched for writing. */
  lemma {:induction false} AskedIsWatched(interest: map<Channel, Ops>, tasks: seq<InterestTask>, chan: Channel)
    requires forall t :: t in tasks ==> t.ops == ReadWrite
    requires (exists t :: t in tasks && t.chan == chan) || (chan in interest && interest[chan] == ReadWrite)
    requires RunAll(interest, tasks).Some?
    ensures var interest' := RunAll(interest, tasks).value; chan in interest' && interest'[chan] == ReadWrite
    decreases tasks
  {
    if tasks == [] {
    } else {
      assert tasks == [tasks[0]] + tasks[1..];
      assert tasks[0] in tasks;
      AskedIsWatched(interest[tasks[0].chan := tasks[0].ops], tasks[1..], chan);
    }
  }
}
