/**
 * Every interleaving of the watch channel: any number of senders, receivers and `changed` futures, one lock section a
 * step. A waker is the task it wakes; a wake marks every future that was last polled with that waker.
 */
module WatchRuns {
  import opened RaftTypes
  import opened WatchChannel

  /** Where a `changed` future is in its poll: between polls, after registering, or about to return. */
  datatype Stage = Idle | Registered(closed: bool) | Leaving(ok: bool)

  /** `woken` is whether the waker of the latest poll was woken since that poll began. */
  datatype Future = Future(waiter: Option<nat>, stage: Stage, waker: nat, woken: bool)

  datatype Receiver = Receiver(seen: nat, future: Option<Future>)

  /**
    * A sender's call in flight: a send past its receiver check, a notifier before and after it took the queue, a
    * subscribe.
    */
  datatype OpStage<T> = Checked(value: T) | Updated | Waking(list: seq<Waiting>) | Subscribing

  /** `handle` is the sender the call borrows; the notifier of a drop borrows none. */
  datatype Op<T> = Op(handle: Option<nat>, stage: OpStage<T>)

  datatype System<T> = System(
    chan: Chan<T>, handles: set<nat>, nextHandle: nat,
    ops: map<nat, Op<T>>, nextOp: nat,
    receivers: map<nat, Receiver>, nextReceiver: nat)

  function Start<T>(init: T): System<T> {
    System(Chan(init, 0, 0, [], 1, 1), {0}, 1, map[], 0, map[0 := Receiver(0, None)], 1)
  }

  datatype Event<T> =
    | CloneSender(handle: nat)
    | DropSender(handle: nat)
    | SendCheck(handle: nat, value: T)
    | SendWrite(op: nat)
    | Modify(handle: nat, value: T, modified: bool)
    | Take(op: nat)
    | Wake(op: nat)
    | SubscribeCount(handle: nat)
    | SubscribeRead(op: nat)
    | CloneReceiver(receiver: nat)
    | DropReceiver(receiver: nat)
    | StartChanged(receiver: nat)
    | PollRegister(receiver: nat, waker: nat)
    | PollRead(receiver: nat)
    | PollLeave(receiver: nat)
    | DropFuture(receiver: nat)
    | BorrowAndUpdate(receiver: nat)

  function Begin<T>(s: System<T>, op: Op<T>): System<T> {
    s.(ops := s.ops[s.nextOp := op], nextOp := s.nextOp + 1)
  }

  function Join<T>(s: System<T>, seen: nat): System<T> {
    s.(receivers := s.receivers[s.nextReceiver := Receiver(seen, None)], nextReceiver := s.nextReceiver + 1)
  }

  function WithFuture<T>(s: System<T>, r: nat, f: Option<Future>): System<T>
    requires r in s.receivers
  {
    s.(receivers := s.receivers[r := s.receivers[r].(future := f)])
  }

  /** A sender handle is borrowed by a call in flight. */
  ghost predicate Borrowed<T>(s: System<T>, handle: nat) {
    exists o :: o in s.ops && s.ops[o].handle == Some(handle)
  }

  ghost predicate HasFuture<T>(s: System<T>, r: nat) {
    r in s.receivers && s.receivers[r].future.Some?
  }

  function Woken(receiver: Receiver, waker: nat): Receiver {
    if receiver.future.Some? && receiver.future.value.waiter.Some? && receiver.future.value.waker == waker
    then receiver.(future := Some(receiver.future.value.(woken := true)))
    else receiver
  }

  function WakeStep<T>(s: System<T>, o: nat): System<T>
    requires o in s.ops && s.ops[o].stage.Waking?
  {
    var list := s.ops[o].stage.list;
    if list == [] then s.(ops := s.ops - {o})
    else
      s.(ops := s.ops[o := s.ops[o].(stage := Waking(list[1..]))],
         receivers := map r | r in s.receivers :: Woken(s.receivers[r], list[0].waker))
  }

  function DropSenderStep<T>(s: System<T>, handle: nat): System<T>
    requires s.chan.senders > 0
  {
    var t := s.(chan := s.chan.(senders := s.chan.senders - 1), handles := s.handles - {handle});
    if t.chan.senders == 0 then Begin(t, Op(None, Updated)) else t
  }

  function RegisterStep<T>(s: System<T>, r: nat, waker: nat): System<T>
    requires r in s.receivers && s.receivers[r].future.Some?
  {
    var f := s.receivers[r].future.value;
    var registered := Future(Some(WaiterId(s.chan, f.waiter)), Registered(s.chan.senders == 0), waker, false);
    WithFuture(s.(chan := RegisteredIn(s.chan, f.waiter, waker)), r, Some(registered))
  }

  function ReadStep<T>(s: System<T>, r: nat): System<T>
    requires r in s.receivers && s.receivers[r].future.Some? && s.receivers[r].future.value.stage.Registered?
  {
    var receiver := s.receivers[r];
    var f := receiver.future.value;
    var next :=
      if s.chan.version != receiver.seen then Receiver(s.chan.version, Some(f.(stage := Leaving(true))))
      else if f.stage.closed then receiver.(future := Some(f.(stage := Leaving(false))))
      else receiver.(future := Some(f.(stage := Idle)));
    s.(receivers := s.receivers[r := next])
  }

  function LeaveStep<T>(s: System<T>, r: nat): System<T>
    requires r in s.receivers && s.receivers[r].future.Some?
  {
    var waiter := s.receivers[r].future.value.waiter;
    var t := if waiter.Some? then s.(chan := s.chan.(queue := Without(s.chan.queue, waiter.value))) else s;
    WithFuture(t, r, None)
  }

  /** Whether an event can happen: handles exist, borrowed ones are not dropped, a borrowed receiver is only polled. */
  ghost predicate Enabled<T(!new)>(s: System<T>, e: Event<T>) {
    match e
    case CloneSender(h) => h in s.handles
    case DropSender(h) => h in s.handles && !Borrowed(s, h) && s.chan.senders > 0
    case SendCheck(h, _) => h in s.handles && s.chan.receivers > 0
    case SendWrite(o) => o in s.ops && s.ops[o].stage.Checked?
    case Modify(h, _, _) => h in s.handles
    case Take(o) => o in s.ops && s.ops[o].stage.Updated?
    case Wake(o) => o in s.ops && s.ops[o].stage.Waking?
    case SubscribeCount(h) => h in s.handles
    case SubscribeRead(o) => o in s.ops && s.ops[o].stage.Subscribing?
    case CloneReceiver(r) => r in s.receivers && !HasFuture(s, r)
    case DropReceiver(r) => r in s.receivers && !HasFuture(s, r) && s.chan.receivers > 0
    case StartChanged(r) => r in s.receivers && !HasFuture(s, r)
    case PollRegister(r, _) => HasFuture(s, r) && s.receivers[r].future.value.stage.Idle?
    case PollRead(r) => HasFuture(s, r) && s.receivers[r].future.value.stage.Registered?
    case PollLeave(r) => HasFuture(s, r) && s.receivers[r].future.value.stage.Leaving?
    case DropFuture(r) => HasFuture(s, r) && s.receivers[r].future.value.stage.Idle?
    case BorrowAndUpdate(r) => r in s.receivers && !HasFuture(s, r)
  }

  function Step<T(!new)>(s: System<T>, e: Event<T>): System<T>
    requires Enabled(s, e)
  {
    match e
    case CloneSender(_) =>
      s.(chan := s.chan.(senders := s.chan.senders + 1), handles := s.handles + {s.nextHandle},
        nextHandle := s.nextHandle + 1)
    case DropSender(h) => DropSenderStep(s, h)
    case SendCheck(h, value) => Begin(s, Op(Some(h), Checked(value)))
    case SendWrite(o) =>
      s.(chan := s.chan.(value := s.ops[o].stage.value, version := s.chan.version + 1),
         ops := s.ops[o := s.ops[o].(stage := Updated)])
    case Modify(h, value, modified) =>
      var t := s.(chan := s.chan.(value := value, version := s.chan.version + if modified then 1 else 0));
      if modified then Begin(t, Op(Some(h), Updated)) else t
    case Take(o) => s.(chan := s.chan.(queue := []), ops := s.ops[o := s.ops[o].(stage := Waking(s.chan.queue))])
    case Wake(o) => WakeStep(s, o)
    case SubscribeCount(h) => Begin(s.(chan := s.chan.(receivers := s.chan.receivers + 1)), Op(Some(h), Subscribing))
    case SubscribeRead(o) => Join(s.(ops := s.ops - {o}), s.chan.version)
    case CloneReceiver(r) => Join(s.(chan := s.chan.(receivers := s.chan.receivers + 1)), s.receivers[r].seen)
    case DropReceiver(r) => s.(chan := s.chan.(receivers := s.chan.receivers - 1), receivers := s.receivers - {r})
    case StartChanged(r) => WithFuture(s, r, Some(Future(None, Idle, 0, false)))
    case PollRegister(r, waker) => RegisterStep(s, r, waker)
    case PollRead(r) => ReadStep(s, r)
    case PollLeave(r) => LeaveStep(s, r)
    case DropFuture(r) => LeaveStep(s, r)
    case BorrowAndUpdate(r) => s.(receivers := s.receivers[r := s.receivers[r].(seen := s.chan.version)])
  }

  /** The state after `events`; an event that cannot happen when its turn comes changes nothing. */
  ghost function Run<T(!new)>(init: T, events: seq<Event<T>>): System<T> {
    if events == [] then Start(init)
    else
      var s := Run(init, events[..|events| - 1]);
      var e := events[|events| - 1];
      if Enabled(s, e) then Step(s, e) else s
  }

  // Invariants.

  ghost predicate Bookkeeping<T>(s: System<T>) {
    && s.chan.senders == |s.handles|
    && (forall h :: h in s.handles ==> h < s.nextHandle)
    && (forall o :: o in s.ops ==> o < s.nextOp)
    && (forall r :: r in s.receivers ==> r < s.nextReceiver)
    && (forall o :: o in s.ops && s.ops[o].handle.Some? ==> s.ops[o].handle.value in s.handles)
    && (forall o :: o in s.ops && (s.ops[o].stage.Checked? || s.ops[o].stage.Subscribing?) ==> s.ops[o].handle.Some?)
  }

  /** Receiver `r` has a future that owns waiter `id`. */
  ghost predicate Owns<T>(s: System<T>, r: nat, id: nat) {
    HasFuture(s, r) && s.receivers[r].future.value.waiter == Some(id)
  }

  ghost predicate Waiters<T>(s: System<T>) {
    && Distinct(s.chan.queue)
    && (forall w :: w in s.chan.queue ==> w.id < s.chan.nextId)
    && (forall r, id: nat :: Owns(s, r, id) ==> id < s.chan.nextId)
    && (forall q, r, id: nat :: Owns(s, q, id) && Owns(s, r, id) ==> q == r)
    && (forall r :: HasFuture(s, r) && !s.receivers[r].future.value.stage.Idle? ==>
         s.receivers[r].future.value.waiter.Some?)
  }

  ghost predicate Seen<T>(s: System<T>) {
    && (forall r :: r in s.receivers ==> s.receivers[r].seen <= s.chan.version)
    && (forall r :: HasFuture(s, r) && s.receivers[r].future.value.stage == Registered(true) ==> s.chan.senders == 0)
    && (forall r :: HasFuture(s, r) && s.receivers[r].future.value.stage == Leaving(false) ==>
          s.chan.senders == 0 && s.receivers[r].seen == s.chan.version)
  }

  ghost predicate WakingIt<T>(s: System<T>, o: nat, w: Waiting) {
    o in s.ops && s.ops[o].stage.Waking? && w in s.ops[o].stage.list
  }

  ghost predicate BeingWoken<T>(s: System<T>, w: Waiting) {
    exists o :: WakingIt(s, o, w)
  }

  ghost predicate IsNotifier<T>(s: System<T>, o: nat) {
    o in s.ops && s.ops[o].stage.Updated?
  }

  /** A notifier has made its change and has not taken the queue yet. */
  ghost predicate NotifyComing<T>(s: System<T>) {
    exists o :: IsNotifier(s, o)
  }

  /** A future that returned Pending, or is past its registration, and so relies on being woken. */
  ghost predicate Relies(receiver: Receiver) {
    && receiver.future.Some?
    && receiver.future.value.waiter.Some?
    && !receiver.future.value.stage.Leaving?
  }

  /** What the future waits for has happened, and its latest look at the channel came before it. */
  ghost predicate Due<T>(s: System<T>, receiver: Receiver)
    requires Relies(receiver)
  {
    match receiver.future.value.stage
    case Idle => s.chan.version != receiver.seen || s.chan.senders == 0
    case Registered(closed) => s.chan.senders == 0 && !closed
  }

  function EntryOf(f: Future): Waiting
    requires f.waiter.Some?
  {
    Waiting(f.waiter.value, f.waker)
  }

  /**
    * The future is woken, is about to be, or stands in the queue; once due, the queue only counts with a notifier
    * coming.
    */
  ghost predicate Safe<T>(s: System<T>, receiver: Receiver)
    requires Relies(receiver)
  {
    var f := receiver.future.value;
    || f.woken
    || BeingWoken(s, EntryOf(f))
    || (EntryOf(f) in s.chan.queue && (Due(s, receiver) ==> NotifyComing(s)))
  }

  ghost predicate AllSafe<T>(s: System<T>) {
    forall r :: r in s.receivers && Relies(s.receivers[r]) ==> Safe(s, s.receivers[r])
  }

  ghost predicate Inv<T>(s: System<T>) {
    Bookkeeping(s) && Waiters(s) && Seen(s) && AllSafe(s)
  }

  /** No event that leaves the queue and the notifiers alone can strand a future. */
  lemma SafeKept<T>(s: System<T>, t: System<T>, receiver: Receiver)
    requires Relies(receiver) && Safe(s, receiver)
    requires t.chan.queue == s.chan.queue
    requires t.chan.version == s.chan.version
    requires t.chan.senders == 0 ==> s.chan.senders == 0
    requires forall o :: o in s.ops && (s.ops[o].stage.Waking? || s.ops[o].stage.Updated?) ==>
             o in t.ops && t.ops[o] == s.ops[o]
    ensures Safe(t, receiver)
  {
    var w := EntryOf(receiver.future.value);
    if o :| WakingIt(s, o, w) {
      assert WakingIt(t, o, w);
    }
    if o :| IsNotifier(s, o) {
      assert IsNotifier(t, o);
    }
  }

  lemma StartIsInv<T>(init: T)
    ensures Inv(Start(init))
  {
  }

  lemma CloneSenderKeeps<T(!new)>(s: System<T>, h: nat)
    requires Inv(s) && Enabled(s, CloneSender(h))
    ensures Inv(Step(s, CloneSender(h)))
  {
    var t := Step(s, CloneSender(h));
    assert s.nextHandle !in s.handles;
    assert s.handles != {};
    forall r | r in t.receivers && Relies(t.receivers[r])
      ensures Safe(t, t.receivers[r])
    {
      SafeKept(s, t, s.receivers[r]);
    }
    assert forall r, id: nat :: Owns(t, r, id) <==> Owns(s, r, id);
  }

  lemma DropSenderKeeps<T(!new)>(s: System<T>, h: nat)
    requires Inv(s) && Enabled(s, DropSender(h))
    ensures Inv(Step(s, DropSender(h)))
  {
    var t := Step(s, DropSender(h));
    forall o | o in t.ops && t.ops[o].handle.Some?
      ensures t.ops[o].handle.value in t.handles
    {
      assert o in s.ops && s.ops[o] == t.ops[o];
      assert s.ops[o].handle.value != h;
    }
    forall r | r in t.receivers && Relies(t.receivers[r])
      ensures Safe(t, t.receivers[r])
    {
      if t.chan.senders == 0 {
        assert IsNotifier(t, s.nextOp);
        var w := EntryOf(s.receivers[r].future.value);
        if o :| WakingIt(s, o, w) {
          assert WakingIt(t, o, w);
        }
      } else {
        SafeKept(s, t, s.receivers[r]);
      }
    }
    assert forall r, id: nat :: Owns(t, r, id) <==> Owns(s, r, id);
  }

  /** A new version always comes with a notifier that has yet to take the queue. */
  lemma BumpKeeps<T>(s: System<T>, t: System<T>, notifier: nat)
    requires Inv(s)
    requires t.chan.queue == s.chan.queue && t.chan.nextId == s.chan.nextId && t.chan.senders == s.chan.senders > 0
    requires t.chan.version == s.chan.version + 1
    requires t.receivers == s.receivers && t.nextReceiver == s.nextReceiver
    requires IsNotifier(t, notifier)
    requires forall o :: o in s.ops && s.ops[o].stage.Waking? ==> o in t.ops && t.ops[o] == s.ops[o]
    ensures Waiters(t) && Seen(t) && AllSafe(t)
  {
    forall r | r in t.receivers && Relies(t.receivers[r])
      ensures Safe(t, t.receivers[r])
    {
      var w := EntryOf(s.receivers[r].future.value);
      if o :| WakingIt(s, o, w) {
        assert WakingIt(t, o, w);
      }
    }
    assert forall r, id: nat :: Owns(t, r, id) <==> Owns(s, r, id);
    assert forall r :: HasFuture(t, r) <==> HasFuture(s, r);
  }

  lemma SendKeeps<T(!new)>(s: System<T>, e: Event<T>)
    requires Inv(s) && Enabled(s, e) && (e.SendWrite? || e.Modify?)
    ensures Inv(Step(s, e))
  {
    var t := Step(s, e);
    if e.SendWrite? {
      assert s.ops[e.op].handle.value in s.handles;
      BumpKeeps(s, t, e.op);
    } else if e.modified {
      BumpKeeps(s, t, s.nextOp);
    } else {
      forall r | r in t.receivers && Relies(t.receivers[r])
        ensures Safe(t, t.receivers[r])
      {
        SafeKept(s, t, s.receivers[r]);
      }
      assert forall r, id: nat :: Owns(t, r, id) <==> Owns(s, r, id);
      assert forall r :: HasFuture(t, r) <==> HasFuture(s, r);
    }
  }

  lemma TakeKeeps<T(!new)>(s: System<T>, o: nat)
    requires Inv(s) && Enabled(s, Take(o))
    ensures Inv(Step(s, Take(o)))
  {
    var t := Step(s, Take(o));
    forall r | r in t.receivers && Relies(t.receivers[r])
      ensures Safe(t, t.receivers[r])
    {
      var w := EntryOf(s.receivers[r].future.value);
      if w in s.chan.queue {
        assert WakingIt(t, o, w);
      }
      if p :| WakingIt(s, p, w) {
        assert WakingIt(t, p, w);
      }
    }
    assert forall r, id: nat :: Owns(t, r, id) <==> Owns(s, r, id);
    assert forall r :: HasFuture(t, r) <==> HasFuture(s, r);
  }

  lemma WakeKeepsSafe<T>(s: System<T>, o: nat, r: nat)
    requires AllSafe(s) && o in s.ops && s.ops[o].stage.Waking? && r in s.receivers && Relies(s.receivers[r])
    ensures Safe(WakeStep(s, o), WakeStep(s, o).receivers[r])
  {
    var t := WakeStep(s, o);
    var f := s.receivers[r].future.value;
    var w := EntryOf(f);
    if p :| IsNotifier(s, p) {
      assert IsNotifier(t, p);
    }
    if p :| WakingIt(s, p, w) {
      if p == o {
        var list := s.ops[o].stage.list;
        if w != list[0] {
          assert w in list[1..];
          assert WakingIt(t, o, w);
        }
      } else {
        assert WakingIt(t, p, w);
      }
    }
  }

  lemma WakeKeepsAllSafe<T(!new)>(s: System<T>, o: nat)
    requires AllSafe(s) && Enabled(s, Wake(o))
    ensures AllSafe(Step(s, Wake(o)))
  {
    var t := Step(s, Wake(o));
    forall r | r in t.receivers && Relies(t.receivers[r])
      ensures Safe(t, t.receivers[r])
    {
      WakeKeepsSafe(s, o, r);
    }
  }

  lemma WakeKeeps<T(!new)>(s: System<T>, o: nat)
    requires Inv(s) && Enabled(s, Wake(o))
    ensures Inv(Step(s, Wake(o)))
  {
    var t := Step(s, Wake(o));
    WakeKeepsAllSafe(s, o);
    hide AllSafe, Safe;
    assert forall r, id: nat :: Owns(t, r, id) <==> Owns(s, r, id);
    assert forall r :: HasFuture(t, r) <==> HasFuture(s, r);
    assert forall r :: HasFuture(t, r) ==> t.receivers[r].future.value.stage == s.receivers[r].future.value.stage;
  }

  /** A call begins that is no notifier. */
  lemma CallKeeps<T(!new)>(s: System<T>, e: Event<T>)
    requires Inv(s) && Enabled(s, e) && (e.SendCheck? || e.SubscribeCount?)
    ensures Inv(Step(s, e))
  {
    var t := Step(s, e);
    forall r | r in t.receivers && Relies(t.receivers[r])
      ensures Safe(t, t.receivers[r])
    {
      SafeKept(s, t, s.receivers[r]);
    }
    assert forall r, id: nat :: Owns(t, r, id) <==> Owns(s, r, id);
    assert forall r :: HasFuture(t, r) <==> HasFuture(s, r);
  }

  /** A receiver without a future joins, leaves, or looks at the value. */
  lemma ReceiverKeeps<T(!new)>(s: System<T>, e: Event<T>)
    requires Inv(s) && Enabled(s, e)
    requires e.SubscribeRead? || e.CloneReceiver? || e.DropReceiver? || e.BorrowAndUpdate?
    ensures Inv(Step(s, e))
  {
    var t := Step(s, e);
    forall r | r in t.receivers && Relies(t.receivers[r])
      ensures Safe(t, t.receivers[r])
    {
      assert r in s.receivers && s.receivers[r] == t.receivers[r];
      SafeKept(s, t, s.receivers[r]);
    }
    forall r | HasFuture(t, r)
      ensures HasFuture(s, r) && s.receivers[r] == t.receivers[r]
    {
    }
    assert forall r, id: nat :: Owns(t, r, id) ==> Owns(s, r, id);
  }

  lemma StartChangedKeeps<T(!new)>(s: System<T>, r: nat)
    requires Inv(s) && Enabled(s, StartChanged(r))
    ensures Inv(Step(s, StartChanged(r)))
  {
    var t := Step(s, StartChanged(r));
    forall q | q in t.receivers && Relies(t.receivers[q])
      ensures Safe(t, t.receivers[q])
    {
      SafeKept(s, t, s.receivers[q]);
    }
    assert forall q, id: nat :: Owns(t, q, id) ==> Owns(s, q, id);
    assert forall q :: HasFuture(t, q) && q != r ==> HasFuture(s, q);
  }

  lemma RegisterKeeps<T(!new)>(s: System<T>, r: nat, waker: nat)
    requires Inv(s) && Enabled(s, PollRegister(r, waker))
    ensures Inv(Step(s, PollRegister(r, waker)))
  {
    var t := Step(s, PollRegister(r, waker));
    var f := s.receivers[r].future.value;
    var id := WaiterId(s.chan, f.waiter);
    RegisterQueue(s, r, waker);
    forall q | q in t.receivers && Relies(t.receivers[q])
      ensures Safe(t, t.receivers[q])
    {
      if q != r {
        var w := EntryOf(s.receivers[q].future.value);
        assert Owns(s, q, w.id) && (f.waiter.Some? ==> Owns(s, r, id));
        assert w.id != id;
        if o :| WakingIt(s, o, w) {
          assert WakingIt(t, o, w);
        }
        if o :| IsNotifier(s, o) {
          assert IsNotifier(t, o);
        }
      }
    }
    assert forall q, i: nat :: Owns(t, q, i) <==> (if q == r then i == id else Owns(s, q, i));
    assert f.waiter.Some? ==> Owns(s, r, id);
    assert forall q :: HasFuture(t, q) <==> HasFuture(s, q);
  }

  lemma RegisterQueue<T>(s: System<T>, r: nat, waker: nat)
    requires Waiters(s) && HasFuture(s, r)
    ensures var f := s.receivers[r].future.value;
            var id, t := WaiterId(s.chan, f.waiter), RegisterStep(s, r, waker);
            && Distinct(t.chan.queue)
            && (forall w :: w in t.chan.queue ==> w.id < t.chan.nextId)
            && Waiting(id, waker) in t.chan.queue
            && forall w: Waiting :: w.id != id ==> (w in t.chan.queue <==> w in s.chan.queue)
  {
    var f := s.receivers[r].future.value;
    var id, t := WaiterId(s.chan, f.waiter), RegisterStep(s, r, waker);
    if f.waiter.Some? {
      EnterMembers(s.chan.queue, id, waker);
      assert Owns(s, r, id);
    } else {
      assert t.chan.queue[|s.chan.queue|] == Waiting(id, waker);
      assert forall i :: 0 <= i < |s.chan.queue| ==> s.chan.queue[i] in s.chan.queue;
    }
  }

  lemma ReadKeeps<T(!new)>(s: System<T>, r: nat)
    requires Inv(s) && Enabled(s, PollRead(r))
    ensures Inv(Step(s, PollRead(r)))
  {
    var t := Step(s, PollRead(r));
    forall q | q in t.receivers && Relies(t.receivers[q])
      ensures Safe(t, t.receivers[q])
    {
      var w := EntryOf(s.receivers[q].future.value);
      if o :| WakingIt(s, o, w) {
        assert WakingIt(t, o, w);
      }
      if o :| IsNotifier(s, o) {
        assert IsNotifier(t, o);
      }
    }
    assert forall q, i: nat :: Owns(t, q, i) <==> Owns(s, q, i);
    assert forall q :: HasFuture(t, q) <==> HasFuture(s, q);
  }

  lemma LeaveKeeps<T(!new)>(s: System<T>, e: Event<T>)
    requires Inv(s) && Enabled(s, e) && (e.PollLeave? || e.DropFuture?)
    ensures Inv(Step(s, e))
  {
    assert Step(s, e) == LeaveStep(s, e.receiver);
    LeaveKeepsWaiters(s, e.receiver);
    LeaveKeepsSafe(s, e.receiver);
    hide Step, Waiters, AllSafe;
  }

  lemma LeaveKeepsWaiters<T>(s: System<T>, r: nat)
    requires Waiters(s) && HasFuture(s, r)
    ensures Waiters(LeaveStep(s, r))
  {
    var t, waiter := LeaveStep(s, r), s.receivers[r].future.value.waiter;
    if waiter.Some? {
      WithoutMembers(s.chan.queue, waiter.value);
      WithoutDistinct(s.chan.queue, waiter.value);
    }
    assert forall q, i: nat :: Owns(t, q, i) <==> Owns(s, q, i) && q != r;
    assert forall q :: HasFuture(t, q) <==> HasFuture(s, q) && q != r;
  }

  lemma LeaveKeepsSafe<T>(s: System<T>, r: nat)
    requires Waiters(s) && AllSafe(s) && HasFuture(s, r)
    ensures AllSafe(LeaveStep(s, r))
  {
    var t, waiter := LeaveStep(s, r), s.receivers[r].future.value.waiter;
    if waiter.Some? {
      WithoutMembers(s.chan.queue, waiter.value);
      assert Owns(s, r, waiter.value);
    }
    forall q | q in t.receivers && Relies(t.receivers[q])
      ensures Safe(t, t.receivers[q])
    {
      var w := EntryOf(s.receivers[q].future.value);
      assert Owns(s, q, w.id);
      if o :| WakingIt(s, o, w) {
        assert WakingIt(t, o, w);
      }
      if o :| IsNotifier(s, o) {
        assert IsNotifier(t, o);
      }
    }
  }

  lemma StepKeepsInv<T(!new)>(s: System<T>, e: Event<T>)
    requires Inv(s) && Enabled(s, e)
    ensures Inv(Step(s, e))
  {
    hide *;
    match e
    case CloneSender(h) => CloneSenderKeeps(s, h);
    case DropSender(h) => DropSenderKeeps(s, h);
    case SendWrite(_) => SendKeeps(s, e);
    case Modify(_, _, _) => SendKeeps(s, e);
    case Take(o) => TakeKeeps(s, o);
    case Wake(o) => WakeKeeps(s, o);
    case PollRegister(r, waker) => RegisterKeeps(s, r, waker);
    case PollRead(r) => ReadKeeps(s, r);
    case PollLeave(_) => LeaveKeeps(s, e);
    case DropFuture(_) => LeaveKeeps(s, e);
    case StartChanged(r) => StartChangedKeeps(s, r);
    case SendCheck(_, _) => CallKeeps(s, e);
    case SubscribeCount(_) => CallKeeps(s, e);
    case _ => ReceiverKeeps(s, e);
  }

  lemma {:induction false} RunIsInv<T(!new)>(init: T, events: seq<Event<T>>)
    ensures Inv(Run(init, events))
  {
    if events == [] {
      StartIsInv(init);
    } else {
      var before := events[..|events| - 1];
      RunIsInv(init, before);
      hide Inv, Step, Enabled;
      if Enabled(Run(init, before), events[|events| - 1]) {
        StepKeepsInv(Run(init, before), events[|events| - 1]);
      }
    }
  }

  // Theorems.

  /** A future whose latest poll returned Pending. */
  ghost predicate Parked<T>(s: System<T>, r: nat) {
    HasFuture(s, r) && s.receivers[r].future.value.stage.Idle? && s.receivers[r].future.value.waiter.Some?
  }

  /**
   * No lost wakeup: on every interleaving, once there is an unseen version or no sender is left, a parked future has
   * been woken, or a notifier holds its waker, or it is queued and a notifier is still between its change and the
   * queue.
   */
  lemma NoLostWakeup<T(!new)>(init: T, events: seq<Event<T>>, r: nat)
    requires var s := Run(init, events);
             Parked(s, r) && (s.chan.version != s.receivers[r].seen || s.chan.senders == 0)
    ensures var s := Run(init, events);
            var f := s.receivers[r].future.value;
            f.woken || BeingWoken(s, EntryOf(f)) || (EntryOf(f) in s.chan.queue && NotifyComing(s))
  {
    RunIsInv(init, events);
    hide Run;
    var s := Run(init, events);
    assert Relies(s.receivers[r]) && Safe(s, s.receivers[r]);
  }

  /** In particular nobody is left asleep once no notifier is in flight. */
  lemma QuietMeansEveryoneWoken<T(!new)>(init: T, events: seq<Event<T>>, r: nat)
    requires var s := Run(init, events);
             && Parked(s, r) && (s.chan.version != s.receivers[r].seen || s.chan.senders == 0)
             && forall o :: o in s.ops ==> !s.ops[o].stage.Updated? && !s.ops[o].stage.Waking?
    ensures Run(init, events).receivers[r].future.value.woken
  {
    NoLostWakeup(init, events, r);
  }

  /** Each success moves the receiver to a version it had not seen, the current one. */
  lemma OkRaisesSeen<T(!new)>(init: T, events: seq<Event<T>>, r: nat)
    requires Enabled(Run(init, events), PollRead(r))
    requires Step(Run(init, events), PollRead(r)).receivers[r].future.value.stage == Leaving(true)
    ensures var s, t := Run(init, events), Step(Run(init, events), PollRead(r));
            s.receivers[r].seen < t.receivers[r].seen == t.chan.version
  {
    RunIsInv(init, events);
  }

  /** Once no sender is left, none comes back and the version is final. */
  lemma ClosedStep<T(!new)>(s: System<T>, e: Event<T>)
    requires Bookkeeping(s) && Enabled(s, e) && s.chan.senders == 0
    ensures Step(s, e).chan.senders == 0 && Step(s, e).chan.version == s.chan.version
  {
    assert s.handles == {};
  }

  lemma {:induction false} ClosedForever<T(!new)>(init: T, early: seq<Event<T>>, late: seq<Event<T>>)
    requires Run(init, early).chan.senders == 0
    ensures Run(init, early + late).chan.senders == 0
    ensures Run(init, early + late).chan.version == Run(init, early).chan.version
    decreases |late|
  {
    hide Run, Step, Enabled, Waiters, Seen, AllSafe;
    if late == [] {
      assert early + late == early;
    } else {
      var n := |late| - 1;
      assert early + late == early + late[..n] + [late[n]];
      RunSnoc(init, early + late[..n], late[n]);
      ClosedForever(init, early, late[..n]);
      RunIsInv(init, early + late[..n]);
      if Enabled(Run(init, early + late[..n]), late[n]) {
        ClosedStep(Run(init, early + late[..n]), late[n]);
      }
    }
  }

  /**
   * Value before close: a `changed` that returns an error has seen the current version, every sender is gone, and no
   * later version will ever exist.
   */
  lemma ErrorMeansEverythingSeen<T(!new)>(init: T, early: seq<Event<T>>, late: seq<Event<T>>, r: nat)
    requires HasFuture(Run(init, early), r) && Run(init, early).receivers[r].future.value.stage == Leaving(false)
    ensures Run(init, early).chan.senders == 0
    ensures Run(init, early).receivers[r].seen == Run(init, early + late).chan.version
  {
    RunIsInv(init, early);
    hide Run;
    ClosedForever(init, early, late);
  }

  /** One step never swaps two waiters that stay queued. */
  lemma StepKeepsOrder<T(!new)>(s: System<T>, e: Event<T>, a: nat, b: nat)
    requires Waiters(s) && Enabled(s, e) && Before(s.chan.queue, a, b)
    requires IsQueued(Step(s, e).chan.queue, a) && IsQueued(Step(s, e).chan.queue, b)
    ensures Before(Step(s, e).chan.queue, a, b)
  {
    var q := s.chan.queue;
    match e
    case PollRegister(r, waker) =>
      var waiter := s.receivers[r].future.value.waiter;
      if waiter.Some? {
        EnterOrder(q, waiter.value, waker, a, b);
      } else {
        BeforeSnoc(q, Waiting(s.chan.nextId, waker), a, b);
      }
      hide Before, IsQueued;
    case PollLeave(r) => LeaveKeepsOrder(s, r, a, b);
    case DropFuture(r) => LeaveKeepsOrder(s, r, a, b);
    case _ =>
  }

  lemma LeaveKeepsOrder<T>(s: System<T>, r: nat, a: nat, b: nat)
    requires HasFuture(s, r) && Before(s.chan.queue, a, b)
    requires IsQueued(LeaveStep(s, r).chan.queue, a) && IsQueued(LeaveStep(s, r).chan.queue, b)
    ensures Before(LeaveStep(s, r).chan.queue, a, b)
  {
    var waiter := s.receivers[r].future.value.waiter;
    if waiter.Some? {
      WithoutOrder(s.chan.queue, waiter.value, a, b);
      WithoutQueued(s.chan.queue, waiter.value, a);
      WithoutQueued(s.chan.queue, waiter.value, b);
    }
    hide Before, IsQueued;
  }

  ghost predicate BothQueued(queue: seq<Waiting>, a: nat, b: nat) {
    IsQueued(queue, a) && IsQueued(queue, b)
  }

  ghost predicate StayQueued<T(!new)>(init: T, early: seq<Event<T>>, late: seq<Event<T>>, a: nat, b: nat) {
    forall i :: 0 <= i <= |late| ==> BothQueued(Run(init, early + late[..i]).chan.queue, a, b)
  }

  lemma RunSnoc<T(!new)>(init: T, events: seq<Event<T>>, e: Event<T>)
    ensures var s := Run(init, events); Run(init, events + [e]) == if Enabled(s, e) then Step(s, e) else s
  {
    assert (events + [e])[..|events|] == events;
  }

  /** FIFO: two waiters keep their order for as long as both stay queued, however often they are polled. */
  lemma {:induction false} WaitersKeepOrder<T(!new)>(init: T, early: seq<Event<T>>, late: seq<Event<T>>, a: nat, b: nat)
    requires Before(Run(init, early).chan.queue, a, b)
    requires StayQueued(init, early, late, a, b)
    ensures Before(Run(init, early + late).chan.queue, a, b)
    decreases |late|
  {
    hide Run, Step, Enabled, Before, IsQueued, Inv;
    if late == [] {
      assert early + late == early;
    } else {
      var n := |late| - 1;
      assert early + late[..n] + [late[n]] == early + late;
      assert late[..|late|] == late;
      RunSnoc(init, early + late[..n], late[n]);
      forall i | 0 <= i <= n
        ensures BothQueued(Run(init, early + late[..n][..i]).chan.queue, a, b)
      {
        assert late[..n][..i] == late[..i];
      }
      WaitersKeepOrder(init, early, late[..n], a, b);
      QueueSteps(init, early + late[..n], late[n], a, b);
    }
  }

  lemma QueueSteps<T(!new)>(init: T, events: seq<Event<T>>, e: Event<T>, a: nat, b: nat)
    requires Before(Run(init, events).chan.queue, a, b)
    requires BothQueued(Run(init, events + [e]).chan.queue, a, b)
    ensures Before(Run(init, events + [e]).chan.queue, a, b)
  {
    RunIsInv(init, events);
    RunSnoc(init, events, e);
    hide Run, Step, Enabled, Before, IsQueued;
    if Enabled(Run(init, events), e) {
      StepKeepsOrder(Run(init, events), e, a, b);
    }
  }

  /** No waiter is ever queued twice. */
  lemma QueueNeverRepeats<T(!new)>(init: T, events: seq<Event<T>>)
    ensures Distinct(Run(init, events).chan.queue)
  {
    RunIsInv(init, events);
    hide Run;
  }

  /** A waiter that is not queued joins behind everyone; one that is queued keeps its place and its id. */
  lemma JoinsLastOrKeepsPlace<T(!new)>(init: T, events: seq<Event<T>>, r: nat, waker: nat, a: nat)
    requires Enabled(Run(init, events), PollRegister(r, waker)) && IsQueued(Run(init, events).chan.queue, a)
    ensures var s, t := Run(init, events), Run(init, events + [PollRegister(r, waker)]);
            var id := WaiterId(s.chan, s.receivers[r].future.value.waiter);
            && (!IsQueued(s.chan.queue, id) ==> Before(t.chan.queue, a, id))
            && (IsQueued(s.chan.queue, id) ==>
                  |t.chan.queue| == |s.chan.queue| && forall i :: 0 <= i < |t.chan.queue| ==>
                    t.chan.queue[i].id == s.chan.queue[i].id)
  {
    RunIsInv(init, events);
    RunSnoc(init, events, PollRegister(r, waker));
    hide Run;
    var s := Run(init, events);
    var q, waiter := s.chan.queue, s.receivers[r].future.value.waiter;
    if waiter.Some? {
      EnterOrder(q, waiter.value, waker, a, waiter.value);
    } else {
      BeforeSnoc(q, Waiting(s.chan.nextId, waker), a, s.chan.nextId);
      forall i | 0 <= i < |q|
        ensures q[i].id != s.chan.nextId
      {
        assert q[i] in q;
      }
    }
  }

  // The order of wakes.

  /** The next step of notifier `o` wakes the waiter. */
  ghost predicate WakesNext<T>(s: System<T>, o: nat, id: nat) {
    o in s.ops && s.ops[o].stage.Waking? && s.ops[o].stage.list != [] && s.ops[o].stage.list[0].id == id
  }

  /** The `k`-th event of the run is the wake of the waiter by notifier `o`. */
  ghost predicate WakesAt<T(!new)>(init: T, events: seq<Event<T>>, k: nat, o: nat, id: nat) {
    k < |events| && events[k] == Wake(o) && WakesNext(Run(init, events[..k]), o, id)
  }

  /** Notifier `o` has woken the first `m` of the waiters it took, in events after `from`, and has the others left. */
  ghost predicate WokenUpto<T(!new)>(init: T, events: seq<Event<T>>, from: nat, o: nat, taken: seq<Waiting>, m: nat) {
    && m <= |taken|
    && (forall i :: 0 <= i < m ==> WokenSince(init, events, from, o, taken[i].id))
    && var s := Run(init, events);
       o < s.nextOp && (o in s.ops ==> s.ops[o].stage == Waking(taken[m..]))
  }

  ghost predicate WokenSince<T(!new)>(init: T, events: seq<Event<T>>, from: nat, o: nat, id: nat) {
    exists k :: from <= k && WakesAt(init, events, k, o, id)
  }

  lemma WokenStays<T(!new)>(init: T, events: seq<Event<T>>, e: Event<T>, from: nat, o: nat, id: nat)
    requires WokenSince(init, events, from, o, id)
    ensures WokenSince(init, events + [e], from, o, id)
  {
    hide Run, WakesNext;
    var k :| from <= k && WakesAt(init, events, k, o, id);
    assert (events + [e])[..k] == events[..k];
    assert WakesAt(init, events + [e], k, o, id);
  }

  /** No event but its own wakes moves a notifier that took the queue; one that is done is gone for good. */
  lemma NotifierMoves<T(!new)>(s: System<T>, e: Event<T>, o: nat)
    requires Enabled(s, e) && o < s.nextOp && (o in s.ops ==> s.ops[o].stage.Waking?)
    ensures var t := Step(s, e);
            && o < t.nextOp
            && (o !in s.ops ==> o !in t.ops)
            && (o in s.ops && e != Wake(o) ==> o in t.ops && t.ops[o] == s.ops[o])
            && (o in s.ops && e == Wake(o) && o in t.ops ==>
                  s.ops[o].stage.list != [] && t.ops[o].stage == Waking(s.ops[o].stage.list[1..]))
  {
  }

  lemma {:induction false} WakesFollowQueue<T(!new)>(init: T, early: seq<Event<T>>, o: nat, late: seq<Event<T>>)
    returns (m: nat)
    requires Enabled(Run(init, early), Take(o))
    ensures WokenUpto(init, early + [Take(o)] + late, |early| + 1, o, Run(init, early).chan.queue, m)
    decreases |late|
  {
    hide Run, Step, Enabled, WakesNext, WokenSince;
    var taken := Run(init, early).chan.queue;
    if late == [] {
      m := 0;
      assert early + [Take(o)] + late == early + [Take(o)];
      TakeGives(init, early, o);
    } else {
      var n := |late| - 1;
      var before, e := early + [Take(o)] + late[..n], late[n];
      assert before + [e] == early + [Take(o)] + late;
      m := WakesFollowQueue(init, early, o, late[..n]);
      RunSnoc(init, before, e);
      forall i | 0 <= i < m
        ensures WokenSince(init, before + [e], |early| + 1, o, taken[i].id)
      {
        WokenStays(init, before, e, |early| + 1, o, taken[i].id);
      }
      var s := Run(init, before);
      if Enabled(s, e) {
        NotifierMoves(s, e, o);
        if o in s.ops && e == Wake(o) && m < |taken| {
          OneWoken(init, before, |early| + 1, o, taken, m);
          m := m + 1;
        }
      }
    }
  }

  lemma TakeGives<T(!new)>(init: T, early: seq<Event<T>>, o: nat)
    requires Enabled(Run(init, early), Take(o))
    ensures WokenUpto(init, early + [Take(o)], |early| + 1, o, Run(init, early).chan.queue, 0)
  {
    RunIsInv(init, early);
    RunSnoc(init, early, Take(o));
    hide Run;
    var taken := Run(init, early).chan.queue;
    assert taken[0..] == taken;
  }

  lemma OneWoken<T(!new)>(init: T, before: seq<Event<T>>, from: nat, o: nat, taken: seq<Waiting>, m: nat)
    requires from <= |before| && m < |taken|
    requires o in Run(init, before).ops && Run(init, before).ops[o].stage == Waking(taken[m..])
    ensures WokenSince(init, before + [Wake(o)], from, o, taken[m].id)
    ensures taken[m..][1..] == taken[m + 1..]
  {
    hide Run;
    var all := before + [Wake(o)];
    assert all[..|before|] == before;
    assert WakesAt(init, all, |before|, o, taken[m].id);
  }

  /** A notifier that is about to wake `b` has woken everyone that stood before `b` in the queue it took. */
  lemma WakesInQueueOrder<T(!new)>(init: T, early: seq<Event<T>>, o: nat, late: seq<Event<T>>, a: nat, b: nat)
    requires Enabled(Run(init, early), Take(o)) && Before(Run(init, early).chan.queue, a, b)
    requires WakesNext(Run(init, early + [Take(o)] + late), o, b)
    ensures WokenSince(init, early + [Take(o)] + late, |early| + 1, o, a)
  {
    var taken := Run(init, early).chan.queue;
    QueueNeverRepeats(init, early);
    hide Run, Enabled, WokenSince;
    var m := WakesFollowQueue(init, early, o, late);
    var i, j :| 0 <= i < j < |taken| && taken[i].id == a && taken[j].id == b;
    assert taken[m..][0] == taken[m];
  }

  /**
   * A notify wakes in registration order: if `b` registered while `a` was queued and both stayed queued until a
   * notifier took the queue, then that notifier wakes `b` only after it woke `a`, on every interleaving.
   */
  lemma FirstRegisteredFirstWoken<T(!new)>(
    init: T, early: seq<Event<T>>, r: nat, waker: nat, mid: seq<Event<T>>, o: nat, late: seq<Event<T>>, a: nat, b: nat)
    requires Enabled(Run(init, early), PollRegister(r, waker))
    requires b == WaiterId(Run(init, early).chan, Run(init, early).receivers[r].future.value.waiter)
    requires IsQueued(Run(init, early).chan.queue, a) && !IsQueued(Run(init, early).chan.queue, b)
    requires StayQueued(init, early + [PollRegister(r, waker)], mid, a, b)
    requires var taking := early + [PollRegister(r, waker)] + mid;
             Enabled(Run(init, taking), Take(o)) && WakesNext(Run(init, taking + [Take(o)] + late), o, b)
    ensures var taking := early + [PollRegister(r, waker)] + mid;
            WokenSince(init, taking + [Take(o)] + late, |taking| + 1, o, a)
  {
    hide Run, Step, Enabled, Before, IsQueued, StayQueued, WokenSince, WakesNext;
    JoinsLastOrKeepsPlace(init, early, r, waker, a);
    WaitersKeepOrder(init, early + [PollRegister(r, waker)], mid, a, b);
    WakesInQueueOrder(init, early + [PollRegister(r, waker)] + mid, o, late, a, b);
  }
}
