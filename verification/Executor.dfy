/** The simulator's executor: virtual clock, run queue, timers. */
module Executors {
  import opened RaftTypes

  type TaskId = nat

  const MAIN_TASK: TaskId := 0
  const EPOCH_NANOS: nat := 86_400 * 1_000_000_000
  const MAX_POLLS_PER_INSTANT: nat := 100_000

  /** Timers are kept in the order of their deadlines, and of creation among equal deadlines. */
  datatype TimerKey = TimerKey(deadline: nat, seqNo: nat) {
    predicate Before(other: TimerKey) {
      deadline < other.deadline || (deadline == other.deadline && seqNo < other.seqNo)
    }
  }

  /** A task's slot is `false` while the task is out being polled. A timer holds the task it wakes. */
  datatype State = State(
    now: nat,
    current: Option<TaskId>,
    nextTaskId: TaskId,
    nextTimerSeq: nat,
    runQueue: seq<TaskId>,
    tasks: map<TaskId, bool>,
    timers: map<TimerKey, TaskId>,
    pollsAtInstant: nat)

  const NEW_STATE := State(EPOCH_NANOS, None, MAIN_TASK + 1, 0, [], map[], map[], 0)

  function Enqueued(s: State, id: TaskId): State {
    if id in s.runQueue then s else s.(runQueue := s.runQueue + [id])
  }

  function Woken(s: State, id: TaskId): State {
    if id != MAIN_TASK && id !in s.tasks then s else Enqueued(s, id)
  }

  function AllWoken(s: State, ids: seq<TaskId>): State {
    if ids == [] then s else Woken(AllWoken(s, ids[..|ids| - 1]), ids[|ids| - 1])
  }

  predicate IsFirst(k: TimerKey, keys: set<TimerKey>) {
    k in keys && forall j :: j in keys ==> j == k || k.Before(j)
  }

  lemma {:induction false} FirstExists(keys: set<TimerKey>)
    requires keys != {}
    ensures exists k :: IsFirst(k, keys)
    decreases |keys|
  {
    var k :| k in keys;
    if keys == {k} {
      assert IsFirst(k, keys);
    } else {
      assert keys - {k} != {};
      FirstExists(keys - {k});
      var m :| IsFirst(m, keys - {k});
      var first := if k.Before(m) then k else m;
      forall j | j in keys
        ensures j == first || first.Before(j)
      {
        assert j != k ==> j in keys - {k};
      }
      assert IsFirst(first, keys);
    }
  }

  /** The key of the timer that fires next. */
  function FirstKey(keys: set<TimerKey>): (k: TimerKey)
    requires keys != {}
    ensures IsFirst(k, keys)
  {
    FirstExists(keys);
    var k :| k in keys && IsFirst(k, keys);
    k
  }

  /** The timers due at `now`, in firing order. */
  function DueKeys(keys: set<TimerKey>, now: nat): seq<TimerKey>
    decreases |keys|
  {
    if keys == {} then []
    else
      var k := FirstKey(keys);
      if k.deadline > now then [] else [k] + DueKeys(keys - {k}, now)
  }

  lemma {:induction false} DueKeysExact(keys: set<TimerKey>, now: nat)
    ensures forall k :: k in DueKeys(keys, now) <==> k in keys && k.deadline <= now
    ensures forall i, j :: 0 <= i < j < |DueKeys(keys, now)| ==> DueKeys(keys, now)[i].Before(DueKeys(keys, now)[j])
    decreases |keys|
  {
    if keys != {} {
      var k := FirstKey(keys);
      if k.deadline <= now {
        DueKeysExact(keys - {k}, now);
      }
    }
  }

  function WakersOf(timers: map<TimerKey, TaskId>, keys: seq<TimerKey>): (r: seq<TaskId>)
    requires forall k :: k in keys ==> k in timers
    ensures |r| == |keys|
  {
    seq(|keys|, i requires 0 <= i < |keys| => timers[keys[i]])
  }

  function Without(timers: map<TimerKey, TaskId>, keys: seq<TimerKey>): map<TimerKey, TaskId> {
    map k | k in timers && k !in keys :: timers[k]
  }

  /** The state after firing the earliest timers, and the timers fired; `ok` is false when there were none. */
  datatype Firing = Firing(state: State, fired: seq<TimerKey>, ok: bool)

  function Advanced(s: State, deadline: nat): State {
    if deadline > s.now then s.(now := deadline, pollsAtInstant := 0) else s
  }

  function Fired(s: State): Firing {
    if s.timers == map[] then Firing(s.(current := None), [], false)
    else
      var moved := Advanced(s.(current := None), FirstKey(s.timers.Keys).deadline);
      var due := DueKeys(s.timers.Keys, moved.now);
      DueKeysExact(s.timers.Keys, moved.now);
      var left := moved.(timers := Without(s.timers, due));
      Firing(AllWoken(left, WakersOf(s.timers, due)), due, true)
  }

  /** Whether the task at the front of the queue is there to be polled. */
  predicate Pollable(s: State)
    requires s.runQueue != []
  {
    s.runQueue[0] == MAIN_TASK || (s.runQueue[0] in s.tasks && s.tasks[s.runQueue[0]])
  }

  /** The front of the queue is taken and, if it is there, out being polled. */
  function Begun(s: State): State
    requires s.runQueue != []
  {
    var id := s.runQueue[0];
    var popped := s.(runQueue := s.runQueue[1..]);
    if Pollable(s) then
      popped.(current := Some(id), pollsAtInstant := s.pollsAtInstant + 1,
              tasks := if id == MAIN_TASK then s.tasks else s.tasks[id := false])
    else popped
  }

  /** A poll of `id` is over. */
  function Ended(s: State, id: TaskId, ready: bool): State {
    if id == MAIN_TASK then (if ready then s.(current := None) else s)
    else if ready then s.(current := None, tasks := s.tasks - {id})
    else s.(current := None, tasks := if id in s.tasks then s.tasks[id := true] else s.tasks)
  }

  class Executor {
    var now: nat
    var current: Option<TaskId>
    var nextTaskId: TaskId
    var nextTimerSeq: nat
    var runQueue: seq<TaskId>
    var tasks: map<TaskId, bool>
    var timers: map<TimerKey, TaskId>
    var pollsAtInstant: nat

    ghost function Value(): State
      reads this
    {
      State(now, current, nextTaskId, nextTimerSeq, runQueue, tasks, timers, pollsAtInstant)
    }

    constructor ()
      ensures Value() == NEW_STATE
    {
      now := EPOCH_NANOS;
      current := None;
      nextTaskId := MAIN_TASK + 1;
      nextTimerSeq := 0;
      runQueue := [];
      tasks := map[];
      timers := map[];
      pollsAtInstant := 0;
    }

    method Enqueue(id: TaskId) returns (added: bool)
      modifies this
      ensures Value() == Enqueued(old(Value()), id)
      ensures added <==> id !in old(runQueue)
    {
      if id in runQueue {
        return false;
      }
      runQueue := runQueue + [id];
      added := true;
    }

    method Wake(id: TaskId)
      modifies this
      ensures Value() == Woken(old(Value()), id)
    {
      if id != MAIN_TASK && id !in tasks {
        return;
      }
      var _ := Enqueue(id);
    }

    method PopRunnable() returns (id: Option<TaskId>)
      modifies this
      ensures old(runQueue) == [] ==> id == None && Value() == old(Value())
      ensures old(runQueue) != [] ==>
              id == Some(old(runQueue)[0]) && Value() == old(Value()).(runQueue := old(runQueue)[1..])
    {
      if runQueue == [] {
        return None;
      }
      id := Some(runQueue[0]);
      runQueue := runQueue[1..];
    }

    /** `busy` where the source panics: too many polls without the clock moving. */
    method BeginPoll(id: TaskId) returns (busy: bool)
      modifies this
      ensures Value() == old(Value()).(current := Some(id), pollsAtInstant := old(pollsAtInstant) + 1)
      ensures busy <==> pollsAtInstant > MAX_POLLS_PER_INSTANT
    {
      current := Some(id);
      pollsAtInstant := pollsAtInstant + 1;
      busy := pollsAtInstant > MAX_POLLS_PER_INSTANT;
    }

    /** The task to poll next, if the queue has one and it is there. */
    method StartPoll() returns (polling: Option<TaskId>, busy: bool)
      modifies this
      ensures old(runQueue) == [] ==> polling == None && !busy && Value() == old(Value())
      ensures old(runQueue) != [] ==>
                && Value() == Begun(old(Value()))
                && polling == (if Pollable(old(Value())) then Some(old(runQueue)[0]) else None)
                && (busy <==> polling.Some? && pollsAtInstant > MAX_POLLS_PER_INSTANT)
    {
      busy := false;
      polling := PopRunnable();
      if polling.Some? {
        if polling.value == MAIN_TASK {
          busy := BeginPoll(MAIN_TASK);
        } else if polling.value in tasks && tasks[polling.value] {
          tasks := tasks[polling.value := false];
          busy := BeginPoll(polling.value);
        } else {
          polling := None;
        }
      }
    }

    method EndPoll(id: TaskId, ready: bool)
      modifies this
      ensures Value() == Ended(old(Value()), id, ready)
    {
      if id == MAIN_TASK {
        if ready {
          current := None;
        }
        return;
      }
      current := None;
      if ready {
        tasks := tasks - {id};
      } else if id in tasks {
        tasks := tasks[id := true];
      }
    }

    method NewTimerSeq() returns (seqNo: nat)
      modifies this
      ensures seqNo == old(nextTimerSeq)
      ensures Value() == old(Value()).(nextTimerSeq := seqNo + 1)
    {
      seqNo := nextTimerSeq;
      nextTimerSeq := nextTimerSeq + 1;
    }

    method SetTimer(deadline: nat, seqNo: nat, waker: TaskId)
      modifies this
      ensures Value() == old(Value()).(timers := old(timers)[TimerKey(deadline, seqNo) := waker])
    {
      timers := timers[TimerKey(deadline, seqNo) := waker];
    }

    method CancelTimer(deadline: nat, seqNo: nat)
      modifies this
      ensures Value() == old(Value()).(timers := old(timers) - {TimerKey(deadline, seqNo)})
    {
      timers := timers - {TimerKey(deadline, seqNo)};
    }

    method Spawn() returns (id: TaskId)
      modifies this
      ensures id == old(nextTaskId)
      ensures Value() == Enqueued(old(Value()).(nextTaskId := id + 1, tasks := old(tasks)[id := true]), id)
    {
      id := nextTaskId;
      nextTaskId := nextTaskId + 1;
      tasks := tasks[id := true];
      var _ := Enqueue(id);
    }

    /** Remove the timers due now, first to last, and return whom they wake. */
    method TakeDue() returns (wakers: seq<TaskId>)
      modifies this`timers
      ensures var due := DueKeys(old(timers).Keys, now);
              && (forall k :: k in due ==> k in old(timers))
              && wakers == WakersOf(old(timers), due) && timers == Without(old(timers), due)
    {
      hide DueKeys, WakersOf, Without, IsFirst;
      wakers := [];
      ghost var all := timers;
      ghost var due := DueKeys(all.Keys, now);
      ghost var n: nat := 0;
      TakenNone(all);
      while timers != map[]
        invariant n <= |due| && DueKeys(timers.Keys, now) == due[n..]
        invariant timers == Without(all, due[..n])
        invariant forall k :: k in due[..n] ==> k in all
        invariant wakers == WakersOf(all, due[..n])
        decreases |timers|
      {
        var key := FirstKey(timers.Keys);
        if key.deadline > now {
          break;
        }
        TakeFirst(timers, now);
        TakenOne(all, due, n, key);
        wakers := wakers + [timers[key]];
        timers := timers - {key};
        n := n + 1;
      }
      NoneDue(timers.Keys, now);
      assert due[..n] == due;
    }

    method WakeEach(wakers: seq<TaskId>)
      modifies this
      ensures Value() == AllWoken(old(Value()), wakers)
    {
      for i := 0 to |wakers|
        invariant Value() == AllWoken(old(Value()), wakers[..i])
      {
        Wake(wakers[i]);
        assert wakers[..i + 1][..i] == wakers[..i];
      }
      assert wakers[..|wakers|] == wakers;
    }

    method FireNextTimers() returns (ok: bool)
      modifies this
      ensures Value() == Fired(old(Value())).state && ok == Fired(old(Value())).ok
    {
      hide DueKeys, WakersOf, Without, IsFirst, AllWoken;
      current := None;
      if timers == map[] {
        return false;
      }
      var deadline := FirstKey(timers.Keys).deadline;
      if deadline > now {
        now := deadline;
        pollsAtInstant := 0;
      }
      var wakers := TakeDue();
      WakeEach(wakers);
      ok := true;
    }
  }

  lemma TakeFirst(timers: map<TimerKey, TaskId>, now: nat)
    requires timers != map[] && FirstKey(timers.Keys).deadline <= now
    ensures var k := FirstKey(timers.Keys);
            DueKeys(timers.Keys, now) == [k] + DueKeys((timers - {k}).Keys, now)
  {
    var k := FirstKey(timers.Keys);
    assert (timers - {k}).Keys == timers.Keys - {k};
  }

  lemma TakenNone(all: map<TimerKey, TaskId>)
    ensures Without(all, []) == all && WakersOf(all, []) == []
  {
  }

  lemma TakenOne(all: map<TimerKey, TaskId>, due: seq<TimerKey>, n: nat, key: TimerKey)
    requires n < |due| && due[n..][0] == key
    requires forall k :: k in due[..n] ==> k in all
    requires key in Without(all, due[..n])
    ensures forall k :: k in due[..n + 1] ==> k in all
    ensures WakersOf(all, due[..n + 1]) == WakersOf(all, due[..n]) + [Without(all, due[..n])[key]]
    ensures Without(all, due[..n + 1]) == Without(all, due[..n]) - {key}
    ensures due[n + 1..] == due[n..][1..]
  {
    assert due[..n + 1] == due[..n] + [key];
  }

  lemma NoneDue(keys: set<TimerKey>, now: nat)
    requires keys == {} || FirstKey(keys).deadline > now
    ensures DueKeys(keys, now) == []
  {
  }

  /** A sleep: a timer created with the future, set while it is polled, cancelled when it is dropped. */
  class SimSleep {
    const deadline: nat
    const seqNo: nat
    const runtime: Executor

    constructor Until(deadline: nat, seqNo: nat, runtime: Executor)
      ensures this.deadline == deadline && this.seqNo == seqNo && this.runtime == runtime
    {
      this.deadline := deadline;
      this.seqNo := seqNo;
      this.runtime := runtime;
    }

    static method Create(runtime: Executor, deadline: nat) returns (sleep: SimSleep)
      modifies runtime
      ensures sleep.deadline == deadline && sleep.seqNo == old(runtime.nextTimerSeq) && sleep.runtime == runtime
      ensures runtime.Value() == old(runtime.Value()).(nextTimerSeq := old(runtime.nextTimerSeq) + 1)
    {
      var seqNo := runtime.NewTimerSeq();
      sleep := new SimSleep.Until(deadline, seqNo, runtime);
    }

    method Poll(waker: TaskId) returns (ready: bool)
      modifies runtime
      ensures ready <==> old(runtime.now) >= deadline
      ensures runtime.Value() ==
              if ready then old(runtime.Value())
              else old(runtime.Value()).(timers := old(runtime.timers)[TimerKey(deadline, seqNo) := waker])
    {
      if runtime.now >= deadline {
        return true;
      }
      runtime.SetTimer(deadline, seqNo, waker);
      ready := false;
    }

    method Drop()
      modifies runtime
      ensures runtime.Value() == old(runtime.Value()).(timers := old(runtime.timers) - {TimerKey(deadline, seqNo)})
    {
      runtime.CancelTimer(deadline, seqNo);
    }
  }
}
