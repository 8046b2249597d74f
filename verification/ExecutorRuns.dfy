/** Every run of the simulator: whole-run timer order, exact firing, first-come scheduling. */
module ExecutorRuns {
  import opened RaftTypes
  import opened Executors

  /** A live sleep; `waker` is the task that last polled it before its deadline. */
  datatype Sleep = Sleep(deadline: nat, waker: Option<TaskId>)

  /** A timer that fired at virtual time `at`. */
  datatype Fire = Fire(key: TimerKey, at: nat, waker: TaskId)

  datatype System = System(st: State, sleeps: map<nat, Sleep>, fired: seq<Fire>, polling: Option<TaskId>)

  const FRESH_SYSTEM := System(NEW_STATE, map[], [], None)

  datatype Event =
    | EnterBlockOn
    | PollNext
    | FinishPoll(ready: bool)
    | FireTimers
    | CreateSleep(deadline: nat)
    | PollSleep(seqNo: nat, waker: TaskId)
    | DropSleep(seqNo: nat)
    | SpawnTask
    | WakeTask(id: TaskId)
    | DropTasks

  function Fires(timers: map<TimerKey, TaskId>, due: seq<TimerKey>, at: nat): (r: seq<Fire>)
    requires forall k :: k in due ==> k in timers
    ensures |r| == |due|
  {
    seq(|due|, i requires 0 <= i < |due| => Fire(due[i], at, timers[due[i]]))
  }

  /** Take the first runnable task and start polling it, unless it is gone or polls run away. */
  function Polled(s: System): System
    requires s.st.runQueue != []
  {
    var begun := Begun(s.st);
    if !Pollable(s.st) then s.(st := begun)
    else
      s.(st := begun, polling := if begun.pollsAtInstant > MAX_POLLS_PER_INSTANT then None else Some(s.st.runQueue[0]))
  }

  function Finished(s: System, ready: bool): System
    requires s.polling.Some?
  {
    s.(st := Ended(s.st, s.polling.value, ready), polling := None)
  }

  function FiredAll(s: System): System {
    var r := Fired(s.st);
    if !r.ok then s.(st := r.state)
    else
      DueKeysExact(s.st.timers.Keys, r.state.now);
      FiredAt(s.st);
      s.(st := r.state, fired := s.fired + Fires(s.st.timers, r.fired, r.state.now))
  }

  function SleepPolled(s: System, seqNo: nat, waker: TaskId): System
    requires seqNo in s.sleeps
  {
    var deadline := s.sleeps[seqNo].deadline;
    if s.st.now >= deadline then s
    else
      s.(st := s.st.(timers := s.st.timers[TimerKey(deadline, seqNo) := waker]),
         sleeps := s.sleeps[seqNo := Sleep(deadline, Some(waker))])
  }

  function Step(s: System, e: Event): System {
    match e
    case EnterBlockOn => if s.polling.None? then s.(st := Enqueued(s.st.(current := None), MAIN_TASK)) else s
    case PollNext => if s.polling.None? && s.st.runQueue != [] then Polled(s) else s
    case FinishPoll(ready) => if s.polling.Some? then Finished(s, ready) else s
    case FireTimers => if s.polling.None? && s.st.runQueue == [] then FiredAll(s) else s
    case CreateSleep(deadline) =>
      s.(st := s.st.(nextTimerSeq := s.st.nextTimerSeq + 1),
        sleeps := s.sleeps[s.st.nextTimerSeq := Sleep(deadline, None)])
    case PollSleep(seqNo, waker) => if seqNo in s.sleeps then SleepPolled(s, seqNo, waker) else s
    case DropSleep(seqNo) =>
      if seqNo in s.sleeps
      then s.(st := s.st.(timers := s.st.timers - {TimerKey(s.sleeps[seqNo].deadline, seqNo)}),
        sleeps := s.sleeps - {seqNo})
      else s
    case SpawnTask =>
      var id := s.st.nextTaskId;
      s.(st := Enqueued(s.st.(nextTaskId := id + 1, tasks := s.st.tasks[id := true]), id))
    case WakeTask(id) => s.(st := Woken(s.st, id))
    case DropTasks =>
      if s.polling.None? then s.(st := s.st.(current := None, runQueue := [], tasks := map[])) else s
  }

  function Run(events: seq<Event>): System {
    if events == [] then FRESH_SYSTEM
    else Step(Run(events[..|events| - 1]), events[|events| - 1])
  }

  // Waking touches the run queue only.

  lemma {:induction false} WakingQueues(s: State, ids: seq<TaskId>)
    ensures AllWoken(s, ids) == s.(runQueue := AllWoken(s, ids).runQueue)
  {
    if ids != [] {
      WakingQueues(s, ids[..|ids| - 1]);
    }
  }

  lemma FiredAt(s: State)
    requires s.timers != map[]
    ensures var r := Fired(s);
            var first := FirstKey(s.timers.Keys).deadline;
            && r.ok
            && r.state.now == (if first > s.now then first else s.now)
            && r.fired == DueKeys(s.timers.Keys, r.state.now)
            && r.state.timers == Without(s.timers, r.fired)
            && r.state.nextTimerSeq == s.nextTimerSeq
            && r.state.tasks == s.tasks
  {
    var moved := Advanced(s.(current := None), FirstKey(s.timers.Keys).deadline);
    var due := DueKeys(s.timers.Keys, moved.now);
    DueKeysExact(s.timers.Keys, moved.now);
    WakingQueues(moved.(timers := Without(s.timers, due)), WakersOf(s.timers, due));
  }

  // The invariant.

  /** The pending timers are exactly those of the live, polled sleeps whose deadline has not come. */
  ghost predicate TimersSound(now: nat, nextSeq: nat, timers: map<TimerKey, TaskId>, sleeps: map<nat, Sleep>) {
    && (forall n :: n in sleeps ==> n < nextSeq)
    && (forall k :: k in timers <==> Pending(now, sleeps, k))
    && (forall k :: k in timers ==> Pending(now, sleeps, k) && timers[k] == sleeps[k.seqNo].waker.value)
  }

  predicate Pending(now: nat, sleeps: map<nat, Sleep>, k: TimerKey) {
    && k.seqNo in sleeps && sleeps[k.seqNo].deadline == k.deadline
    && sleeps[k.seqNo].waker.Some? && k.deadline > now
  }

  /** Fires are in key order, each at its deadline. */
  ghost predicate FiredInOrder(fired: seq<Fire>, now: nat) {
    && (forall i, j :: 0 <= i < j < |fired| ==> fired[i].key.Before(fired[j].key))
    && forall i :: 0 <= i < |fired| ==> fired[i].at == fired[i].key.deadline <= now
  }

  /** Every live polled sleep whose deadline has come has fired, and woke the task that polled it last. */
  ghost predicate FiredCovers(now: nat, sleeps: map<nat, Sleep>, fired: seq<Fire>) {
    forall n :: n in sleeps && sleeps[n].waker.Some? && sleeps[n].deadline <= now ==>
      Fire(TimerKey(sleeps[n].deadline, n), sleeps[n].deadline, sleeps[n].waker.value) in fired
  }

  predicate NoRepeats(queue: seq<TaskId>) {
    forall i, j :: 0 <= i < j < |queue| ==> queue[i] != queue[j]
  }

  ghost predicate Sound(s: System) {
    && TimersSound(s.st.now, s.st.nextTimerSeq, s.st.timers, s.sleeps)
    && FiredInOrder(s.fired, s.st.now)
    && FiredCovers(s.st.now, s.sleeps, s.fired)
    && NoRepeats(s.st.runQueue)
    && (s.polling.Some? ==> s.st.pollsAtInstant <= MAX_POLLS_PER_INSTANT)
  }

  /** Firing, seen from the timers: the clock stands at the earliest deadline, and exactly that deadline fires. */
  lemma FiringIsExact(s: System)
    requires TimersSound(s.st.now, s.st.nextTimerSeq, s.st.timers, s.sleeps) && s.st.timers != map[]
    ensures var r := Fired(s.st);
            && r.state.now > s.st.now
            && (forall k :: k in r.fired <==> k in s.st.timers && k.deadline == r.state.now)
            && (forall k :: k in r.state.timers <==> k in s.st.timers && k.deadline > r.state.now)
            && (forall k :: k in r.state.timers ==> r.state.timers[k] == s.st.timers[k])
            && (forall i, j :: 0 <= i < j < |r.fired| ==> r.fired[i].Before(r.fired[j]))
  {
    hide DueKeys, Fired;
    FiredAt(s.st);
    var first := FirstKey(s.st.timers.Keys);
    assert first in s.st.timers && Pending(s.st.now, s.sleeps, first);
    DueKeysExact(s.st.timers.Keys, Fired(s.st).state.now);
  }

  lemma FireKeepsTimers(s: System)
    requires TimersSound(s.st.now, s.st.nextTimerSeq, s.st.timers, s.sleeps) && s.st.timers != map[]
    ensures var t := FiredAll(s); TimersSound(t.st.now, t.st.nextTimerSeq, t.st.timers, t.sleeps)
  {
    FiringIsExact(s);
    FiredAt(s.st);
    hide Fired, DueKeys;
  }

  lemma FireKeepsOrder(s: System)
    requires TimersSound(s.st.now, s.st.nextTimerSeq, s.st.timers, s.sleeps) && s.st.timers != map[]
    requires FiredInOrder(s.fired, s.st.now)
    ensures FiredInOrder(FiredAll(s).fired, FiredAll(s).st.now)
  {
    FiringIsExact(s);
    FiredAt(s.st);
    hide Fired, DueKeys, TimersSound, FiredInOrder;
    var r := Fired(s.st);
    OrderExtends(s.fired, s.st.now, Fires(s.st.timers, r.fired, r.state.now), r.state.now);
  }

  lemma OrderExtends(fired: seq<Fire>, now: nat, added: seq<Fire>, at: nat)
    requires FiredInOrder(fired, now) && now < at
    requires forall i :: 0 <= i < |added| ==> added[i].at == added[i].key.deadline == at
    requires forall i, j :: 0 <= i < j < |added| ==> added[i].key.Before(added[j].key)
    ensures FiredInOrder(fired + added, at)
  {
  }

  lemma FireKeepsCover(s: System)
    requires TimersSound(s.st.now, s.st.nextTimerSeq, s.st.timers, s.sleeps) && s.st.timers != map[]
    requires FiredCovers(s.st.now, s.sleeps, s.fired)
    ensures FiredCovers(FiredAll(s).st.now, FiredAll(s).sleeps, FiredAll(s).fired)
  {
    FiringIsExact(s);
    FiredAt(s.st);
    hide Fired, DueKeys;
    var t := FiredAll(s);
    var due := Fired(s.st).fired;
    var added := Fires(s.st.timers, due, t.st.now);
    forall n | n in t.sleeps && t.sleeps[n].waker.Some? && t.sleeps[n].deadline <= t.st.now
      ensures Fire(TimerKey(t.sleeps[n].deadline, n), t.sleeps[n].deadline, t.sleeps[n].waker.value) in t.fired
    {
      if t.sleeps[n].deadline > s.st.now {
        var k := TimerKey(t.sleeps[n].deadline, n);
        assert Pending(s.st.now, s.sleeps, k);
        assert k in s.st.timers;
        AllDue(s.st, k);
        var i :| 0 <= i < |due| && due[i] == k;
        assert added[i] == Fire(k, t.st.now, s.st.timers[k]);
      }
    }
  }

  lemma AllDue(s: State, k: TimerKey)
    requires k in s.timers && s.timers != map[] && k.deadline <= Fired(s).state.now
    ensures k in Fired(s).fired
  {
    FiredAt(s);
    DueKeysExact(s.timers.Keys, Fired(s).state.now);
  }

  lemma {:induction false} WakingKeepsDistinct(s: State, ids: seq<TaskId>)
    requires NoRepeats(s.runQueue)
    ensures NoRepeats(AllWoken(s, ids).runQueue)
  {
    if ids != [] {
      WakingKeepsDistinct(s, ids[..|ids| - 1]);
    }
  }

  lemma FireKeepsSound(s: System)
    requires Sound(s) && s.polling.None?
    ensures Sound(FiredAll(s))
  {
    hide TimersSound, FiredInOrder, FiredCovers;
    if s.st.timers != map[] {
      FireKeepsTimers(s);
      FireKeepsOrder(s);
      FireKeepsCover(s);
      var moved := Advanced(s.st.(current := None), FirstKey(s.st.timers.Keys).deadline);
      var due := DueKeys(s.st.timers.Keys, moved.now);
      DueKeysExact(s.st.timers.Keys, moved.now);
      WakingKeepsDistinct(moved.(timers := Without(s.st.timers, due)), WakersOf(s.st.timers, due));
    }
  }

  lemma CreateKeepsSound(s: System, deadline: nat)
    requires Sound(s)
    ensures Sound(Step(s, CreateSleep(deadline)))
  {
    hide FiredInOrder, NoRepeats;
    var n := s.st.nextTimerSeq;
    var t := Step(s, CreateSleep(deadline));
    assert n !in s.sleeps;
    forall k
      ensures Pending(t.st.now, t.sleeps, k) == Pending(s.st.now, s.sleeps, k)
    {
    }
  }

  lemma PollSleepKeepsSound(s: System, seqNo: nat, waker: TaskId)
    requires Sound(s) && seqNo in s.sleeps
    ensures Sound(SleepPolled(s, seqNo, waker))
  {
    hide FiredInOrder, NoRepeats;
    var key := TimerKey(s.sleeps[seqNo].deadline, seqNo);
    var t := SleepPolled(s, seqNo, waker);
    if s.st.now < key.deadline {
      forall k
        ensures Pending(t.st.now, t.sleeps, k) <==> k == key || Pending(s.st.now, s.sleeps, k)
      {
      }
    }
  }

  lemma DropSleepKeepsSound(s: System, seqNo: nat)
    requires Sound(s) && seqNo in s.sleeps
    ensures Sound(Step(s, DropSleep(seqNo)))
  {
    hide FiredInOrder, NoRepeats;
    var key := TimerKey(s.sleeps[seqNo].deadline, seqNo);
    var t := Step(s, DropSleep(seqNo));
    forall k
      ensures Pending(t.st.now, t.sleeps, k) <==> k != key && Pending(s.st.now, s.sleeps, k)
    {
    }
  }

  lemma StepKeepsSound(s: System, e: Event)
    requires Sound(s)
    ensures Sound(Step(s, e))
  {
    hide TimersSound, FiredInOrder, FiredCovers, FiredAll, SleepPolled;
    match e {
      case FireTimers =>
        if s.polling.None? {
          FireKeepsSound(s);
        }
      case CreateSleep(deadline) => CreateKeepsSound(s, deadline);
      case PollSleep(seqNo, waker) =>
        if seqNo in s.sleeps {
          PollSleepKeepsSound(s, seqNo, waker);
        }
      case DropSleep(seqNo) =>
        if seqNo in s.sleeps {
          DropSleepKeepsSound(s, seqNo);
        }
      case _ =>
    }
  }

  lemma {:induction false} RunIsSound(events: seq<Event>)
    ensures Sound(Run(events))
  {
    hide Step;
    if events != [] {
      hide Sound;
      RunIsSound(events[..|events| - 1]);
      StepKeepsSound(Run(events[..|events| - 1]), events[|events| - 1]);
    }
  }

  /** Over a whole run, timers fire in strictly increasing (deadline, creation) order, each at its deadline. */
  lemma TimersFireInOrder(events: seq<Event>)
    ensures var fired := Run(events).fired;
            && (forall i, j :: 0 <= i < j < |fired| ==> fired[i].key.Before(fired[j].key))
            && forall i :: 0 <= i < |fired| ==> fired[i].at == fired[i].key.deadline <= Run(events).st.now
  {
    hide Run, TimersSound, FiredCovers;
    RunIsSound(events);
  }

  /**
    * At any time a live sleep that was polled before its deadline has its timer, set to wake the task that
    * polled it last, exactly until the deadline comes; then the timer has fired, at the deadline, for that
    * task. No other timer is pending.
    */
  lemma SleepsFireExactlyWhenDue(events: seq<Event>)
    ensures var s := Run(events);
            && (forall n :: n in s.sleeps && s.sleeps[n].waker.Some? ==>
                  var key := TimerKey(s.sleeps[n].deadline, n);
                  if key.deadline > s.st.now then key in s.st.timers && s.st.timers[key] == s.sleeps[n].waker.value
                  else key !in s.st.timers && Fire(key, key.deadline, s.sleeps[n].waker.value) in s.fired)
            && (forall k :: k in s.st.timers ==>
                  k.deadline > s.st.now && k.seqNo in s.sleeps && s.sleeps[k.seqNo].deadline == k.deadline)
  {
    hide Run, FiredInOrder;
    RunIsSound(events);
    var s := Run(events);
    forall n | n in s.sleeps && s.sleeps[n].waker.Some?
      ensures var key := TimerKey(s.sleeps[n].deadline, n);
              if key.deadline > s.st.now then key in s.st.timers && s.st.timers[key] == s.sleeps[n].waker.value
              else key !in s.st.timers && Fire(key, key.deadline, s.sleeps[n].waker.value) in s.fired
    {
      assert Pending(s.st.now, s.sleeps, TimerKey(s.sleeps[n].deadline, n)) <==> s.sleeps[n].deadline > s.st.now;
    }
  }

  /**
    * The clock moves only when nothing is runnable and no poll is going on; it moves forward, to the
    * earliest pending deadline, and every task whose timer was due there is then runnable.
    */
  lemma ClockMovesOnlyWhenIdle(events: seq<Event>, e: Event)
    ensures var s := Run(events);
            var t := Step(s, e);
            && t.st.now >= s.st.now
            && (t.st.now != s.st.now ==>
                 && s.polling.None? && s.st.runQueue == []
                 && (exists k :: k in s.st.timers && k.deadline == t.st.now)
                 && (forall k :: k in s.st.timers ==> t.st.now <= k.deadline)
                 && (forall k :: k in s.st.timers && k.deadline == t.st.now ==>
                       (s.st.timers[k] == MAIN_TASK || s.st.timers[k] in s.st.tasks) ==>
                         s.st.timers[k] in t.st.runQueue))
  {
    hide Run;
    RunIsSound(events);
    var s := Run(events);
    if e.FireTimers? && s.polling.None? && s.st.runQueue == [] && s.st.timers != map[] {
      FiringIsExact(s);
      FiredAt(s.st);
      FiredTasksRun(s.st);
      var first := FirstKey(s.st.timers.Keys);
      assert Pending(s.st.now, s.sleeps, first);
    }
  }

  lemma {:induction false} WakingWakes(s: State, ids: seq<TaskId>, i: nat)
    requires i < |ids| && (ids[i] == MAIN_TASK || ids[i] in s.tasks)
    ensures ids[i] in AllWoken(s, ids).runQueue
  {
    var n := |ids| - 1;
    WakingQueues(s, ids[..n]);
    if i < n {
      WakingWakes(s, ids[..n], i);
    }
  }

  lemma FiredTasksRun(s: State)
    requires s.timers != map[]
    ensures var r := Fired(s);
            forall k :: k in r.fired && k in s.timers && (s.timers[k] == MAIN_TASK || s.timers[k] in s.tasks) ==>
              s.timers[k] in r.state.runQueue
  {
    var moved := Advanced(s.(current := None), FirstKey(s.timers.Keys).deadline);
    var due := DueKeys(s.timers.Keys, moved.now);
    DueKeysExact(s.timers.Keys, moved.now);
    hide DueKeys;
    var left := moved.(timers := Without(s.timers, due));
    var wakers := WakersOf(s.timers, due);
    forall k | k in due && (s.timers[k] == MAIN_TASK || s.timers[k] in s.tasks)
      ensures s.timers[k] in AllWoken(left, wakers).runQueue
    {
      var i :| 0 <= i < |due| && due[i] == k;
      WakingWakes(left, wakers, i);
    }
  }

  // First come, first polled.

  function RunFrom(s: System, events: seq<Event>): System {
    if events == [] then s
    else Step(RunFrom(s, events[..|events| - 1]), events[|events| - 1])
  }

  /** The executor takes a task off the queue: it is told to, and no poll is going on. */
  predicate Pops(s: System, e: Event) {
    e.PollNext? && s.polling.None? && s.st.runQueue != []
  }

  /** How many tasks were taken off the queue. */
  function PopCount(s: System, events: seq<Event>): nat {
    if events == [] then 0
    else
      var n := |events| - 1;
      PopCount(s, events[..n]) + if Pops(RunFrom(s, events[..n]), events[n]) then 1 else 0
  }

  lemma StepKeepsPlaces(s: System, e: Event)
    requires !e.DropTasks?
    ensures var q, r := s.st.runQueue, Step(s, e).st.runQueue;
            if Pops(s, e) then r == q[1..] else q <= r
  {
    if e.FireTimers? && s.polling.None? && s.st.runQueue == [] {
      assert [] <= Step(s, e).st.runQueue;
    }
  }

  /**
    * A runnable task waits only for those queued before it: whatever else happens, short of dropping all
    * tasks, each task taken off the queue moves it up by one, until it is its turn.
    */
  lemma {:induction false} FirstComeFirstPolled(s: System, more: seq<Event>, p: nat)
    requires p < |s.st.runQueue| && PopCount(s, more) <= p
    requires forall i :: 0 <= i < |more| ==> !more[i].DropTasks?
    ensures var q := p - PopCount(s, more);
            q < |RunFrom(s, more).st.runQueue| && RunFrom(s, more).st.runQueue[q] == s.st.runQueue[p]
  {
    hide Step, Pops;
    if more != [] {
      var n := |more| - 1;
      FirstComeFirstPolled(s, more[..n], p);
      StepKeepsPlaces(RunFrom(s, more[..n]), more[n]);
    }
  }
}
