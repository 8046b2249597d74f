/** Every run of the log store: any order of submits, flush rounds, crashes of both kinds and late callbacks. */
module LogStoreRuns {
  import opened LogDisks
  import opened LogStores
  import opened StorageContract

  /** A flush task: not polled yet, or asleep in a round that covers `round` writes. */
  datatype Task = Starting(epoch: nat) | Sleeping(epoch: nat, round: nat)

  /**
   * A store with its flush tasks, the callback tasks still asleep, and the callers told so far. A caller is named by
   * the number of submissions before its own. `panicked` records a flush round that found the queue short.
   */
  datatype System = System(
    store: Store, tasks: map<nat, Task>, nextTask: nat, submissions: nat, delayed: set<nat>, told: set<nat>,
      panicked: bool)

  const START := System(FRESH_STORE, map[], 0, 0, {}, {}, false)

  datatype Event =
    | Submit(write: LogWrite, delay: nat)
    | StartTask(id: nat)
    | WakeTask(id: nat, delays: seq<nat>)
    | Crash(powerLoss: bool)
    | Deliver(token: nat)
    | SetPaused(paused: bool)

  /** Appends report to a callback and votes to the caller; the other writes need no flush. */
  function WaiterFor(write: LogWrite, token: nat): Waiter {
    match write
    case Append(_) => AppendWaiter(token)
    case SaveVote(_) => VoteWaiter(token)
    case _ => NoWaiter
  }

  function SubmitStep(async: bool, s: System, write: LogWrite, delay: nat): System {
    var r := Submitted(async, s.store, write, WaiterFor(write, s.submissions), delay);
    s.(store := r.store,
       tasks := if r.spawned then s.tasks[s.nextTask := Starting(s.store.epoch)] else s.tasks,
       nextTask := if r.spawned then s.nextTask + 1 else s.nextTask,
       submissions := s.submissions + 1,
       told := s.told + r.notices.told,
       delayed := s.delayed + r.notices.delayed)
  }

  function WakeStep(s: System, id: nat, delays: seq<nat>): System
    requires id in s.tasks && s.tasks[id].Sleeping?
  {
    var epoch := s.tasks[id].epoch;
    match FlushedRound(s.store, epoch, s.tasks[id].round, delays)
    case Stale => s.(tasks := s.tasks - {id})
    case Retry => s.(tasks := s.tasks[id := Sleeping(epoch, |s.store.unflushed|)])
    case QueueShort(store) => s.(store := store, tasks := s.tasks - {id}, panicked := true)
    case Round(store, notices) =>
      s.(store := store,
         tasks := if store.flushing then s.tasks[id := Sleeping(epoch, |store.unflushed|)] else s.tasks - {id},
         told := s.told + notices.told,
         delayed := s.delayed + notices.delayed)
  }

  /** One step; an event that cannot happen now changes nothing. */
  function Step(async: bool, s: System, e: Event): System {
    match e
    case Submit(write, delay) => SubmitStep(async, s, write, delay)
    case StartTask(id) =>
      if id in s.tasks && s.tasks[id].Starting?
      then s.(tasks := s.tasks[id := Sleeping(s.tasks[id].epoch, |s.store.unflushed|)])
      else s
    case WakeTask(id, delays) => if id in s.tasks && s.tasks[id].Sleeping? then WakeStep(s, id, delays) else s
    case Crash(powerLoss) => s.(store := Crashed(s.store, powerLoss))
    case Deliver(token) => if token in s.delayed then s.(delayed := s.delayed - {token}, told := s.told + {token})
      else s
    case SetPaused(paused) => s.(store := s.store.(paused := paused))
  }

  function Run(async: bool, events: seq<Event>): System {
    if events == [] then START
    else Step(async, Run(async, events[..|events| - 1]), events[|events| - 1])
  }

  // Single flusher.

  ghost predicate IsCurrent(s: System, id: nat) {
    id in s.tasks && s.tasks[id].epoch == s.store.epoch
  }

  ghost predicate SingleFlusher(async: bool, s: System) {
    && !s.panicked
    && (!async ==> s.tasks == map[])
    && (s.store.flushing <==> s.store.unflushed != [])
    && (s.store.flushing <==> exists id :: IsCurrent(s, id))
    && (forall i, j :: IsCurrent(s, i) && IsCurrent(s, j) ==> i == j)
    && (forall id :: id in s.tasks ==> id < s.nextTask && s.tasks[id].epoch <= s.store.epoch)
    && (forall id :: IsCurrent(s, id) && s.tasks[id].Sleeping? ==> 0 < s.tasks[id].round <= |s.store.unflushed|)
  }

  lemma SubmitKeepsSingleFlusher(async: bool, s: System, write: LogWrite, delay: nat)
    requires SingleFlusher(async, s)
    ensures SingleFlusher(async, SubmitStep(async, s, write, delay))
  {
    var t := SubmitStep(async, s, write, delay);
    if async {
      if s.store.flushing {
        var id :| IsCurrent(s, id);
        assert IsCurrent(t, id);
      } else {
        assert IsCurrent(t, s.nextTask);
      }
    }
    assert forall id :: IsCurrent(t, id) ==> IsCurrent(s, id) || (async && !s.store.flushing && id == s.nextTask);
  }

  lemma WakeKeepsSingleFlusher(async: bool, s: System, id: nat, delays: seq<nat>)
    requires SingleFlusher(async, s) && id in s.tasks && s.tasks[id].Sleeping?
    ensures SingleFlusher(async, WakeStep(s, id, delays))
  {
    var t := WakeStep(s, id, delays);
    if s.tasks[id].epoch == s.store.epoch {
      assert IsCurrent(s, id);
      assert forall j :: IsCurrent(t, j) && j != id ==> IsCurrent(s, j);
      if t.store.flushing {
        assert IsCurrent(t, id);
      }
    } else {
      assert forall j :: j != id ==> (IsCurrent(t, j) <==> IsCurrent(s, j));
      if j :| IsCurrent(s, j) {
        assert IsCurrent(t, j);
      }
    }
  }

  lemma StepKeepsSingleFlusher(async: bool, s: System, e: Event)
    requires SingleFlusher(async, s)
    ensures SingleFlusher(async, Step(async, s, e))
  {
    var t := Step(async, s, e);
    match e
    case Submit(write, delay) => SubmitKeepsSingleFlusher(async, s, write, delay);
    case WakeTask(id, delays) =>
      if id in s.tasks && s.tasks[id].Sleeping? {
        WakeKeepsSingleFlusher(async, s, id, delays);
      }
    case Crash(_) =>
    case _ =>
      assert forall j :: IsCurrent(t, j) <==> IsCurrent(s, j);
  }

  /**
   * On every run: a flush task of the current epoch exists exactly while the queue is non-empty, there is never a
   * second one, and no round ever finds the queue short.
   */
  lemma {:induction false} SingleFlusherAlways(async: bool, events: seq<Event>)
    ensures SingleFlusher(async, Run(async, events))
  {
    if events != [] {
      SingleFlusherAlways(async, events[..|events| - 1]);
      StepKeepsSingleFlusher(async, Run(async, events[..|events| - 1]), events[|events| - 1]);
    }
  }

  // A task left from before a crash.

  predicate IsStepOf(e: Event, id: nat) {
    match e
    case StartTask(of) => of == id
    case WakeTask(of, _) => of == id
    case _ => false
  }

  /** The events without the steps of task `id`. */
  function WithoutTask(events: seq<Event>, id: nat): seq<Event> {
    if events == [] then []
    else
      var rest := WithoutTask(events[..|events| - 1], id);
      if IsStepOf(events[|events| - 1], id) then rest else rest + [events[|events| - 1]]
  }

  /** Both systems are the same but for task `id`, which is stale if it is still there. */
  ghost predicate SameBut(s: System, t: System, id: nat) {
    && s == t.(tasks := s.tasks)
    && (forall k :: k != id ==> (k in s.tasks <==> k in t.tasks))
    && (forall k :: k != id && k in s.tasks && k in t.tasks ==> s.tasks[k] == t.tasks[k])
    && id < s.nextTask
    && (id in s.tasks ==> s.tasks[id].epoch < s.store.epoch)
    && (id in t.tasks ==> t.tasks[id].epoch < t.store.epoch)
  }

  lemma StaleStep(async: bool, s: System, t: System, id: nat, e: Event)
    requires SameBut(s, t, id) && IsStepOf(e, id)
    ensures SameBut(Step(async, s, e), t, id)
  {
  }

  lemma OtherWakes(s: System, t: System, id: nat, other: nat, delays: seq<nat>)
    requires SameBut(s, t, id) && other != id && other in s.tasks && other in t.tasks && s.tasks[other].Sleeping?
    requires s.tasks[other] == t.tasks[other]
    ensures SameBut(WakeStep(s, other, delays), WakeStep(t, other, delays), id)
  {
    hide NotifyAll, AppliedAll;
  }

  lemma OtherStep(async: bool, s: System, t: System, id: nat, e: Event)
    requires SameBut(s, t, id) && !IsStepOf(e, id)
    ensures SameBut(Step(async, s, e), Step(async, t, e), id)
  {
    hide WakeStep;
    if e.WakeTask? && e.id in s.tasks && s.tasks[e.id].Sleeping? {
      OtherWakes(s, t, id, e.id, e.delays);
    }
  }

  /**
    * A flush task left from before a crash might as well not run: whatever else happens and however often the task
    * wakes, the copies, the queue, the callers told, the callbacks and all other tasks are as they are without it.
    */
  lemma {:induction false} StaleTaskChangesNothing(async: bool, events: seq<Event>, late: seq<Event>, id: nat)
    requires id in Run(async, events).tasks && Run(async, events).tasks[id].epoch != Run(async, events).store.epoch
    ensures SameBut(Run(async, events + late), Run(async, events + WithoutTask(late, id)), id)
  {
    hide Step;
    if late == [] {
      SingleFlusherAlways(async, events);
      assert events + late == events;
    } else {
      var n, e := |late| - 1, late[|late| - 1];
      var before, fewer := events + late[..n], events + WithoutTask(late[..n], id);
      StaleTaskChangesNothing(async, events, late[..n], id);
      assert (events + late)[..|events + late| - 1] == before;
      if IsStepOf(e, id) {
        StaleStep(async, Run(async, before), Run(async, fewer), id, e);
      } else {
        OtherStep(async, Run(async, before), Run(async, fewer), id, e);
        assert events + WithoutTask(late, id) == fewer + [e];
        assert (fewer + [e])[..|fewer|] == fewer;
      }
    }
  }

  /** While writes wait and flushing is not paused, the one live task always moves at least the oldest to disk. */
  lemma FlushMakesProgress(async: bool, events: seq<Event>, id: nat, delays: seq<nat>)
    requires var s := Run(async, events); IsCurrent(s, id) && s.tasks[id].Sleeping? && !s.store.paused
    ensures var s := Run(async, events);
            var t := Step(async, s, WakeTask(id, delays));
            && s.store.unflushed != []
            && exists n :: 0 < n <= |s.store.unflushed| && t.store.unflushed == s.store.unflushed[n..]
  {
    SingleFlusherAlways(async, events);
    var s := Run(async, events);
    var n := s.tasks[id].round;
    assert 0 < n <= |s.store.unflushed|;
    assert Step(async, s, WakeTask(id, delays)).store.unflushed == s.store.unflushed[n..];
  }

  // Refinement of the storage contract.

  /** What one step does to the contract's state. */
  function Track(async: bool, s: System, c: Contract<LogWrite>, e: Event): Contract<LogWrite> {
    var t := Step(async, s, e);
    match e
    case Submit(write, _) =>
      var history := c.history + [Submission(s.submissions, write)];
      Contract(history, if async then c.durable else |history|, t.told)
    case WakeTask(_, _) => Contract(c.history, c.durable + |s.store.unflushed| - |t.store.unflushed|, t.told)
    case Crash(powerLoss) =>
      var kept := if powerLoss && c.durable <= |c.history| then c.durable else |c.history|;
      Contract(c.history[..kept], kept, t.told)
    case _ => c.(told := t.told)
  }

  /** The surviving writes of a run, oldest first, with how many are durable and who was told. */
  function HistoryOf(async: bool, events: seq<Event>): Contract<LogWrite> {
    if events == [] then Untouched()
    else
      var before := events[..|events| - 1];
      Track(async, Run(async, before), HistoryOf(async, before), events[|events| - 1])
  }

  ghost predicate QueueMatches(s: System, c: Contract<LogWrite>) {
    && c.durable + |s.store.unflushed| == |c.history|
    && forall i :: 0 <= i < |s.store.unflushed| ==>
         var h := c.history[c.durable + i]; s.store.unflushed[i] == Pending(h.write, WaiterFor(h.write, h.token))
  }

  ghost predicate Refines(async: bool, s: System, c: Contract<LogWrite>) {
    && QueueMatches(s, c)
    && (!async ==> s.store.unflushed == [])
    && s.store.live == AppliedAll(EMPTY, Writes(c.history))
    && s.store.durable == AppliedAll(EMPTY, Writes(c.history[..c.durable]))
    && s.told == c.told
    && WellFormed(c)
    && forall token :: token in s.delayed ==> IsDurable(c, token)
  }

  lemma WritesConcat(a: seq<Submission<LogWrite>>, b: seq<Submission<LogWrite>>)
    ensures Writes(a + b) == Writes(a) + Writes(b)
  {
  }

  /** Live is durable with the queue applied in order. */
  lemma LiveIsDurablePlusQueue(s: System, c: Contract<LogWrite>)
    requires QueueMatches(s, c)
    ensures AppliedAll(AppliedAll(EMPTY, Writes(c.history[..c.durable])), WritesOf(s.store.unflushed))
            == AppliedAll(EMPTY, Writes(c.history))
  {
    assert c.history == c.history[..c.durable] + c.history[c.durable..];
    WritesConcat(c.history[..c.durable], c.history[c.durable..]);
    assert Writes(c.history[c.durable..]) == WritesOf(s.store.unflushed);
    AppliedAllConcat(EMPTY, Writes(c.history[..c.durable]), Writes(c.history[c.durable..]));
  }

  /** Nobody but a waiter of the flushed writes is notified. */
  lemma {:induction false} NotifiedWereFlushed(flushed: seq<Pending>, delays: seq<nat>, token: nat)
    requires token in NotifyAll(flushed, delays).told + NotifyAll(flushed, delays).delayed
    ensures exists i ::
              0 <= i < |flushed| && (flushed[i].waiter == AppendWaiter(token) || flushed[i].waiter == VoteWaiter(token))
  {
    var n := |flushed| - 1;
    if token in NotifyAll(flushed[..n], delays).told + NotifyAll(flushed[..n], delays).delayed {
      NotifiedWereFlushed(flushed[..n], delays, token);
      var i :| 0 <= i < n && (flushed[..n][i].waiter == AppendWaiter(token)
        || flushed[..n][i].waiter == VoteWaiter(token));
      assert flushed[i] == flushed[..n][i];
    } else {
      assert token in Notify(flushed[n].waiter, DelayAt(delays, n)).told
        + Notify(flushed[n].waiter, DelayAt(delays, n)).delayed;
    }
  }

  lemma KeepsDurableAt(c: Contract<LogWrite>, d: Contract<LogWrite>, token: nat)
    requires c.durable <= |c.history| && c.durable <= d.durable <= |d.history|
    requires d.history[..c.durable] == c.history[..c.durable]
    requires IsDurable(c, token)
    ensures IsDurable(d, token)
  {
    var i :| DurableAt(c, i, token);
    assert d.history[..c.durable][i] == c.history[..c.durable][i];
    assert DurableAt(d, i, token);
  }

  lemma SubmitRefines(async: bool, s: System, c: Contract<LogWrite>, write: LogWrite, delay: nat)
    requires Refines(async, s, c)
    ensures Refines(async, Step(async, s, Submit(write, delay)), Track(async, s, c, Submit(write, delay)))
    ensures Work(c, Track(async, s, c, Submit(write, delay)))
  {
    var e := Submit(write, delay);
    var t, d := Step(async, s, e), Track(async, s, c, e);
    var n := |c.history|;
    WritesConcat(c.history, [Submission(s.submissions, write)]);
    AppliedAllConcat(EMPTY, Writes(c.history), [write]);
    if async {
      assert d.history[..c.durable] == c.history[..c.durable];
    } else {
      assert d.history[..n] == c.history && c.history[..n] == c.history && d.history[..n + 1] == d.history;
      assert DurableAt(d, n, s.submissions);
    }
    forall token | token in t.told || token in t.delayed
      ensures IsDurable(d, token)
    {
      if token in s.told || token in s.delayed {
        KeepsDurableAt(c, d, token);
      }
    }
  }

  /** Whoever a round notifies waited for a write that the round made durable. */
  lemma RoundTellsDurable(s: System, c: Contract<LogWrite>, d: Contract<LogWrite>, n: nat, delays: seq<nat>, token: nat)
    requires QueueMatches(s, c) && n <= |s.store.unflushed|
    requires d.history == c.history && d.durable == c.durable + n
    requires token in NotifyAll(s.store.unflushed[..n], delays).told
             || token in NotifyAll(s.store.unflushed[..n], delays).delayed
    ensures IsDurable(d, token)
  {
    var flushed := s.store.unflushed[..n];
    NotifiedWereFlushed(flushed, delays, token);
    var i :| 0 <= i < n && (flushed[i].waiter == AppendWaiter(token) || flushed[i].waiter == VoteWaiter(token));
    assert flushed[i] == s.store.unflushed[i];
    assert DurableAt(d, c.durable + i, token);
  }

  lemma RoundMovesPrefix(s: System, c: Contract<LogWrite>, n: nat)
    requires QueueMatches(s, c) && n <= |s.store.unflushed|
    ensures AppliedAll(AppliedAll(EMPTY, Writes(c.history[..c.durable])), WritesOf(s.store.unflushed[..n]))
            == AppliedAll(EMPTY, Writes(c.history[..c.durable + n]))
  {
    var m := c.durable + n;
    assert c.history[..m] == c.history[..c.durable] + c.history[c.durable..m];
    WritesConcat(c.history[..c.durable], c.history[c.durable..m]);
    assert Writes(c.history[c.durable..m]) == WritesOf(s.store.unflushed[..n]);
    AppliedAllConcat(EMPTY, Writes(c.history[..c.durable]), WritesOf(s.store.unflushed[..n]));
  }

  lemma RoundRefines(async: bool, s: System, c: Contract<LogWrite>, id: nat, delays: seq<nat>)
    requires Refines(async, s, c) && id in s.tasks && s.tasks[id].Sleeping?
    requires FlushedRound(s.store, s.tasks[id].epoch, s.tasks[id].round, delays).Round?
    ensures Refines(async, Step(async, s, WakeTask(id, delays)), Track(async, s, c, WakeTask(id, delays)))
    ensures Work(c, Track(async, s, c, WakeTask(id, delays)))
  {
    hide AppliedAll, NotifyAll;
    var e := WakeTask(id, delays);
    var t, d := Step(async, s, e), Track(async, s, c, e);
    var n := s.tasks[id].round;
    RoundMovesPrefix(s, c, n);
    forall token | token in t.told || token in t.delayed
      ensures IsDurable(d, token)
    {
      if token in s.told || token in s.delayed {
        KeepsDurableAt(c, d, token);
      } else {
        RoundTellsDurable(s, c, d, n, delays, token);
      }
    }
  }

  lemma CrashRefines(async: bool, s: System, c: Contract<LogWrite>, powerLoss: bool)
    requires Refines(async, s, c)
    ensures Refines(async, Step(async, s, Crash(powerLoss)), Track(async, s, c, Crash(powerLoss)))
    ensures CrashKeeps(c, Track(async, s, c, Crash(powerLoss)), if powerLoss then c.durable else |c.history|)
  {
    var d := Track(async, s, c, Crash(powerLoss));
    LiveIsDurablePlusQueue(s, c);
    assert c.history[..|c.history|] == c.history;
    assert d.history[..d.durable] == d.history;
    forall token | token in s.told || token in s.delayed
      ensures IsDurable(d, token)
    {
      KeepsDurableAt(c, d, token);
    }
  }

  lemma StepRefines(async: bool, s: System, c: Contract<LogWrite>, e: Event)
    requires SingleFlusher(async, s) && Refines(async, s, c)
    ensures Refines(async, Step(async, s, e), Track(async, s, c, e))
    ensures Next(c, Track(async, s, c, e))
  {
    match e
    case Submit(write, delay) =>
      hide Refines, Next, SingleFlusher, SubmitStep;
      SubmitRefines(async, s, c, write, delay);
    case WakeTask(id, delays) => WakeRefines(async, s, c, id, delays);
    case Crash(powerLoss) =>
      hide Refines, Next, SingleFlusher;
      CrashRefines(async, s, c, powerLoss);
    case _ => QuietRefines(async, s, c, e);
  }

  lemma WakeRefines(async: bool, s: System, c: Contract<LogWrite>, id: nat, delays: seq<nat>)
    requires SingleFlusher(async, s) && Refines(async, s, c)
    ensures Refines(async, Step(async, s, WakeTask(id, delays)), Track(async, s, c, WakeTask(id, delays)))
    ensures Next(c, Track(async, s, c, WakeTask(id, delays)))
  {
    if id in s.tasks && s.tasks[id].Sleeping? {
      assert s.tasks[id].epoch == s.store.epoch ==> IsCurrent(s, id);
      if FlushedRound(s.store, s.tasks[id].epoch, s.tasks[id].round, delays).Round? {
        RoundRefines(async, s, c, id, delays);
      }
    }
  }

  /** Events that touch neither the disks nor the queue. */
  lemma QuietRefines(async: bool, s: System, c: Contract<LogWrite>, e: Event)
    requires Refines(async, s, c) && !e.Submit? && !e.WakeTask? && !e.Crash?
    ensures Refines(async, Step(async, s, e), Track(async, s, c, e))
    ensures Next(c, Track(async, s, c, e))
  {
    var d := Track(async, s, c, e);
    forall token | IsDurable(c, token)
      ensures IsDurable(d, token)
    {
      KeepsDurableAt(c, d, token);
    }
  }

  /** Every run of the store is a run of the contract, state by state. */
  lemma {:induction false} StoreRefinesContract(async: bool, events: seq<Event>)
    ensures Refines(async, Run(async, events), HistoryOf(async, events))
    ensures events != [] ==> Next(HistoryOf(async, events[..|events| - 1]), HistoryOf(async, events))
  {
    if events != [] {
      var before := events[..|events| - 1];
      StoreRefinesContract(async, before);
      SingleFlusherAlways(async, before);
      StepRefines(async, Run(async, before), HistoryOf(async, before), events[|events| - 1]);
    }
  }

  // What the contract gives on the disks.

  /**
   * At every moment of every run, a reader sees the surviving writes in order, the durable copy holds a prefix of
   * them, and the live copy is the durable one with the queue applied.
   */
  lemma DisksHoldPrefixes(async: bool, events: seq<Event>)
    ensures var s, c := Run(async, events).store, HistoryOf(async, events);
            && c.durable <= |c.history|
            && s.live == AppliedAll(EMPTY, Writes(c.history))
            && s.durable == AppliedAll(EMPTY, Writes(c.history[..c.durable]))
            && s.live == AppliedAll(s.durable, WritesOf(s.unflushed))
  {
    StoreRefinesContract(async, events);
    LiveIsDurablePlusQueue(Run(async, events), HistoryOf(async, events));
  }

  /**
    * After a crash both copies hold a prefix of the writes: everything if only the process died, the durable ones
    * otherwise.
    */
  lemma CrashKeepsPrefix(async: bool, events: seq<Event>, powerLoss: bool)
    ensures var c := HistoryOf(async, events);
            var after := Step(async, Run(async, events), Crash(powerLoss)).store;
            var kept := if powerLoss then c.durable else |c.history|;
            && kept <= |c.history|
            && after.live == after.durable == AppliedAll(EMPTY, Writes(c.history[..kept]))
            && after.unflushed == []
            && HistoryOf(async, events + [Crash(powerLoss)]).history == c.history[..kept]
  {
    StoreRefinesContract(async, events);
    CrashRefines(async, Run(async, events), HistoryOf(async, events), powerLoss);
    assert (events + [Crash(powerLoss)])[..|events|] == events;
    var d := Track(async, Run(async, events), HistoryOf(async, events), Crash(powerLoss));
    assert d.history[..d.durable] == d.history;
  }

  /** The contract's states along `late`, after `early` has happened. */
  function ContractRun(async: bool, early: seq<Event>, late: seq<Event>): seq<Contract<LogWrite>> {
    seq(|late| + 1, i requires 0 <= i <= |late| => HistoryOf(async, early + late[..i]))
  }

  lemma ContractRunIsRun(async: bool, early: seq<Event>, late: seq<Event>)
    ensures IsRun(ContractRun(async, early, late))
  {
    var run := ContractRun(async, early, late);
    assert early + late[..0] == early;
    StoreRefinesContract(async, early);
    forall i | 0 < i < |run|
      ensures Next(run[i - 1], run[i])
    {
      var upto := early + late[..i];
      assert upto[..|upto| - 1] == early + late[..i - 1];
      StoreRefinesContract(async, upto);
    }
  }

  /**
   * Once a vote was reported saved or an append's callback fired, that write and every write that survived before it
   * stay on disk, in place, whatever happens later.
   */
  lemma AcknowledgedMeansDurableForever(async: bool, early: seq<Event>, late: seq<Event>, token: nat)
    requires token in Run(async, early).told
    ensures var c, d := HistoryOf(async, early), HistoryOf(async, early + late);
            && d.durable <= |d.history|
            && Run(async, early + late).store.durable == AppliedAll(EMPTY, Writes(d.history[..d.durable]))
            && exists i :: DurableAt(c, i, token) && DurableAt(d, i, token) && d.history[..i + 1] == c.history[..i + 1]
  {
    hide Run, HistoryOf;
    StoreRefinesContract(async, early);
    StoreRefinesContract(async, early + late);
    ContractRunIsRun(async, early, late);
    var run := ContractRun(async, early, late);
    assert early + late[..0] == early && early + late[..|late|] == early + late;
    ReportedStaysDurable(run, token);
  }

  // The history is made of the submitted writes themselves.

  function SubmittedWrites(events: seq<Event>): seq<LogWrite> {
    if events == [] then []
    else
      var n := |events| - 1;
      SubmittedWrites(events[..n]) + if events[n].Submit? then [events[n].write] else []
  }

  ghost predicate FromSubmissions(history: seq<Submission<LogWrite>>, writes: seq<LogWrite>) {
    && (forall i :: 0 <= i < |history| ==> history[i].token < |writes| && history[i].write == writes[history[i].token])
    && (forall i, j :: 0 <= i < j < |history| ==> history[i].token < history[j].token)
  }

  /** One step leaves the surviving history alone, appends the submission, or cuts it short. */
  lemma TrackHistory(async: bool, s: System, c: Contract<LogWrite>, e: Event)
    ensures var d := Track(async, s, c, e).history;
            match e
            case Submit(write, _) => d == c.history + [Submission(s.submissions, write)]
            case Crash(powerLoss) => d <= c.history && (!powerLoss ==> d == c.history)
            case _ => d == c.history
    ensures Step(async, s, e).submissions == s.submissions + if e.Submit? then 1 else 0
  {
  }

  lemma HistorySnoc(async: bool, events: seq<Event>, e: Event)
    ensures HistoryOf(async, events + [e]) == Track(async, Run(async, events), HistoryOf(async, events), e)
  {
    assert (events + [e])[..|events|] == events;
  }

  /** Surviving writes are submitted writes, each once and in submission order; tokens are submission numbers. */
  lemma {:induction false} HistoryIsSubmitted(async: bool, events: seq<Event>)
    ensures Run(async, events).submissions == |SubmittedWrites(events)|
    ensures FromSubmissions(HistoryOf(async, events).history, SubmittedWrites(events))
  {
    if events != [] {
      var before := events[..|events| - 1];
      HistoryIsSubmitted(async, before);
      TrackHistory(async, Run(async, before), HistoryOf(async, before), events[|events| - 1]);
    }
  }

  /** Between crashes nothing submitted is skipped: the surviving history only grows, by every submission in order. */
  lemma {:induction false} NothingSkippedBetweenCrashes(async: bool, early: seq<Event>, late: seq<Event>)
    requires forall i :: 0 <= i < |late| ==> !late[i].Crash?
    ensures var c, d := HistoryOf(async, early).history, HistoryOf(async, early + late).history;
            c <= d && Writes(d[|c|..]) == SubmittedWrites(late)
    decreases |late|
  {
    hide HistoryOf, Run, Track, Step;
    if late == [] {
      assert early + late == early;
    } else {
      var n := |late| - 1;
      NothingSkippedBetweenCrashes(async, early, late[..n]);
      assert (early + late)[..|early| + n] == early + late[..n];
      HistorySnoc(async, early + late[..n], late[n]);
      assert early + late[..n] + [late[n]] == early + late;
      var c, b, d := HistoryOf(async, early).history, HistoryOf(async, early + late[..n]).history,
        HistoryOf(async, early + late).history;
      TrackHistory(async, Run(async, early + late[..n]), HistoryOf(async, early + late[..n]), late[n]);
      if late[n].Submit? {
        assert d[|c|..] == b[|c|..] + [d[|b|]];
        WritesConcat(b[|c|..], [d[|b|]]);
      } else {
        assert d == b;
      }
    }
  }

  /** Without a power loss no submitted write is ever missing, however often the process dies. */
  lemma {:induction false} NoPowerLossLosesNothing(async: bool, events: seq<Event>)
    requires forall i :: 0 <= i < |events| ==> events[i] != Crash(true)
    ensures Writes(HistoryOf(async, events).history) == SubmittedWrites(events)
    ensures Run(async, events).store.live == AppliedAll(EMPTY, SubmittedWrites(events))
  {
    StoreRefinesContract(async, events);
    if events != [] {
      var n := |events| - 1;
      NoPowerLossLosesNothing(async, events[..n]);
      var c := HistoryOf(async, events[..n]);
      TrackHistory(async, Run(async, events[..n]), c, events[n]);
      hide AppliedAll;
      if events[n].Submit? {
        WritesConcat(c.history, [Submission(Run(async, events[..n]).submissions, events[n].write)]);
      }
    }
  }
}
