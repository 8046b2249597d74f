/**
 * The crash-faulty log store: a live and a durable copy, a queue of unflushed writes and a background flush task.
 * One step is the code between two awaits.
 */
module LogStores {
  import opened LogDisks

  /** Who waits for a write; a token names one caller. */
  datatype Waiter = NoWaiter | AppendWaiter(token: nat) | VoteWaiter(token: nat)

  datatype Pending = Pending(write: LogWrite, waiter: Waiter)

  /** The value of a `LogStore` object. */
  datatype Store = Store(live: Disk, durable: Disk, unflushed: seq<Pending>, epoch: nat, flushing: bool, paused: bool)

  const FRESH_STORE := Store(EMPTY, EMPTY, [], 0, false, false)

  /** The outcome of notifying waiters: those told at once, and those a sleeping callback task will tell. */
  datatype Notices = Notices(told: set<nat>, delayed: set<nat>)

  const NOBODY := Notices({}, {})

  function Merge(a: Notices, b: Notices): Notices {
    Notices(a.told + b.told, a.delayed + b.delayed)
  }

  function Notify(waiter: Waiter, delay: nat): Notices {
    match waiter
    case NoWaiter => NOBODY
    case VoteWaiter(token) => Notices({token}, {})
    case AppendWaiter(token) => if delay == 0 then Notices({token}, {}) else Notices({}, {token})
  }

  /** Delays are drawn at random; a list that ends early stands for zeros. */
  function DelayAt(delays: seq<nat>, i: nat): nat {
    if i < |delays| then delays[i] else 0
  }

  function NotifyAll(flushed: seq<Pending>, delays: seq<nat>): Notices {
    if flushed == [] then NOBODY
    else
      var n := |flushed| - 1;
      Merge(NotifyAll(flushed[..n], delays), Notify(flushed[n].waiter, DelayAt(delays, n)))
  }

  function WritesOf(pending: seq<Pending>): seq<LogWrite> {
    seq(|pending|, i requires 0 <= i < |pending| => pending[i].write)
  }

  datatype SubmitResult = SubmitResult(store: Store, notices: Notices, spawned: bool)

  function Submitted(async: bool, s: Store, write: LogWrite, waiter: Waiter, delay: nat): SubmitResult {
    var live := Applied(s.live, write);
    if !async then
      SubmitResult(s.(live := live, durable := Applied(s.durable, write)), Notify(waiter, delay), false)
    else
      SubmitResult(s.(live := live, unflushed := s.unflushed + [Pending(write, waiter)], flushing := true),
                   NOBODY, !s.flushing)
  }

  function Crashed(s: Store, powerLoss: bool): Store {
    var durable := if powerLoss then s.durable else AppliedAll(s.durable, WritesOf(s.unflushed));
    s.(live := durable, durable := durable, unflushed := [], epoch := s.epoch + 1, flushing := false)
  }

  datatype RoundResult =
    | Stale                                          // a crash came first: the task ends
    | Retry                                          // flushing is paused: the task starts another round
    | QueueShort(store: Store)                       // the pop found nothing: the code would panic
    | Round(store: Store, notices: Notices)          // the round is durable; the task goes on while `flushing`

  function FlushedRound(s: Store, epoch: nat, round: nat, delays: seq<nat>): RoundResult {
    if s.epoch != epoch then Stale
    else if s.paused then Retry
    else if |s.unflushed| < round then
      QueueShort(s.(durable := AppliedAll(s.durable, WritesOf(s.unflushed)), unflushed := []))
    else
      var rest := s.unflushed[round..];
      Round(s.(durable := AppliedAll(s.durable, WritesOf(s.unflushed[..round])),
               unflushed := rest,
               flushing := s.flushing && rest != []),
            NotifyAll(s.unflushed[..round], delays))
  }

  lemma WritesOfSnoc(pending: seq<Pending>, i: nat)
    requires i < |pending|
    ensures WritesOf(pending[..i + 1]) == WritesOf(pending[..i]) + [pending[i].write]
  {
  }

  lemma ApplyNext(disk: Disk, pending: seq<Pending>, i: nat)
    requires i < |pending|
    ensures AppliedAll(disk, WritesOf(pending[..i + 1])) ==
            Applied(AppliedAll(disk, WritesOf(pending[..i])), pending[i].write)
  {
    WritesOfSnoc(pending, i);
    AppliedAllConcat(disk, WritesOf(pending[..i]), [pending[i].write]);
  }

  lemma NotifyNext(pending: seq<Pending>, delays: seq<nat>, i: nat)
    requires i < |pending|
    ensures NotifyAll(pending[..i + 1], delays)
            == Merge(NotifyAll(pending[..i], delays), Notify(pending[i].waiter, DelayAt(delays, i)))
  {
    assert pending[..i + 1][..i] == pending[..i];
  }

  class LogStore {
    const asyncFlush: bool
    var live: LogDisk
    var durable: LogDisk
    var unflushed: seq<Pending>
    var epoch: nat
    var flushing: bool
    var paused: bool

    ghost predicate Valid()
      reads this
    {
      live != durable
    }

    function State(): Store
      reads this, live, durable
    {
      Store(live.Value(), durable.Value(), unflushed, epoch, flushing, paused)
    }

    constructor (asyncFlush: bool)
      ensures Valid() && fresh(live) && fresh(durable)
      ensures this.asyncFlush == asyncFlush && State() == FRESH_STORE
    {
      this.asyncFlush := asyncFlush;
      live := new LogDisk();
      durable := new LogDisk();
      unflushed, epoch, flushing, paused := [], 0, false, false;
    }

    /** The process holding this store crashed. */
    method Crash(powerLoss: bool)
      requires Valid()
      modifies this, live, durable
      ensures Valid() && fresh(live) && durable == old(durable)
      ensures State() == Crashed(old(State()), powerLoss)
    {
      epoch := epoch + 1;
      flushing := false;
      var dropped := unflushed;
      unflushed := [];
      if !powerLoss {
        for i := 0 to |dropped|
          modifies durable
          invariant durable.Value() == AppliedAll(old(durable.Value()), WritesOf(dropped[..i]))
        {
          ApplyNext(old(durable.Value()), dropped, i);
          durable.Apply(dropped[i].write);
        }
        assert dropped[..|dropped|] == dropped;
      }
      live := new LogDisk.CloneOf(durable);
    }

    /** Submit one write; `spawned` says that a flush task for the current epoch was started. */
    method Submit(write: LogWrite, waiter: Waiter, delay: nat) returns (notices: Notices, spawned: bool)
      requires Valid()
      modifies this, live, durable
      ensures Valid() && live == old(live) && durable == old(durable)
      ensures SubmitResult(State(), notices, spawned) == Submitted(asyncFlush, old(State()), write, waiter, delay)
    {
      live.Apply(write);
      if !asyncFlush {
        durable.Apply(write);
        notices, spawned := Notify(waiter, delay), false;
        return;
      }
      unflushed := unflushed + [Pending(write, waiter)];
      notices, spawned := NOBODY, false;
      if !flushing {
        flushing := true;
        spawned := true;
      }
    }

    /** The first half of a flush round: how many writes it covers. */
    method StartRound() returns (round: nat)
      ensures round == |unflushed|
    {
      round := |unflushed|;
    }

    /** The second half, after the flush latency. */
    method FinishRound(epoch: nat, round: nat, delays: seq<nat>) returns (result: RoundResult)
      requires Valid()
      modifies this, durable
      ensures Valid() && live == old(live) && durable == old(durable)
      ensures result == FlushedRound(old(State()), epoch, round, delays)
      ensures match result
              case Round(store, _) => State() == store
              case QueueShort(store) => State() == store
              case _ => State() == old(State())
    {
      if this.epoch != epoch {
        return Stale;
      }
      if paused {
        return Retry;
      }
      var all := unflushed;
      var notices := NOBODY;
      assert all[..0] == [] && all[0..] == all && WritesOf([]) == [] && NotifyAll([], delays) == NOBODY;
      hide AppliedAll, Applied, WritesOf, NotifyAll, Notify, Merge;
      for i := 0 to round
        invariant Valid() && live == old(live) && durable == old(durable)
        invariant i <= |all|
        invariant State() == old(State()).(durable := AppliedAll(old(durable.Value()), WritesOf(all[..i])),
                  unflushed := all[i..])
        invariant notices == NotifyAll(all[..i], delays)
      {
        if unflushed == [] {
          assert all[..i] == all;
          return QueueShort(State());
        }
        var front := unflushed[0];
        ApplyNext(old(durable.Value()), all, i);
        NotifyNext(all, delays, i);
        unflushed := unflushed[1..];
        durable.Apply(front.write);
        notices := Merge(notices, Notify(front.waiter, DelayAt(delays, i)));
      }
      if unflushed == [] {
        flushing := false;
      }
      result := Round(State(), notices);
    }
  }
}
