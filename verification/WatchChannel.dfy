/** The shared part of the deterministic watch channel: one method per lock section. */
module WatchChannel {
  import opened RaftTypes

  /** A queued waiter: its id and the waker of the task that waits. */
  datatype Waiting = Waiting(id: nat, waker: nat)

  /** The value of a `Channel` object. */
  datatype Chan<T> = Chan(value: T, version: nat, nextId: nat, queue: seq<Waiting>, senders: nat, receivers: nat)

  ghost predicate IsQueued(queue: seq<Waiting>, id: nat) {
    exists i :: 0 <= i < |queue| && queue[i].id == id
  }

  ghost predicate Distinct(queue: seq<Waiting>) {
    forall i, j :: 0 <= i < j < |queue| ==> queue[i].id != queue[j].id
  }

  /** Waiter `a` comes before waiter `b`. */
  ghost predicate Before(queue: seq<Waiting>, a: nat, b: nat) {
    exists i, j :: 0 <= i < j < |queue| && queue[i].id == a && queue[j].id == b
  }

  /** The first position of `id`, or the length if it is not queued. */
  function Find(queue: seq<Waiting>, id: nat): (at: nat)
    ensures at <= |queue|
    ensures at < |queue| ==> queue[at].id == id
    ensures forall i :: 0 <= i < at ==> queue[i].id != id
  {
    if queue == [] || queue[0].id == id then 0 else 1 + Find(queue[1..], id)
  }

  /** Enter `id` with this waker: in its place if it is queued, at the end otherwise. */
  function Enter(queue: seq<Waiting>, id: nat, waker: nat): seq<Waiting> {
    var at := Find(queue, id);
    if at < |queue| then queue[at := Waiting(id, waker)] else queue + [Waiting(id, waker)]
  }

  /** Every waiter but `id`. */
  function Without(queue: seq<Waiting>, id: nat): seq<Waiting> {
    if queue == [] then []
    else
      var n := |queue| - 1;
      Without(queue[..n], id) + if queue[n].id == id then [] else [queue[n]]
  }

  function WaiterId<T>(c: Chan<T>, waiter: Option<nat>): nat {
    if waiter.Some? then waiter.value else c.nextId
  }

  /** The first lock section of a poll. */
  function RegisteredIn<T>(c: Chan<T>, waiter: Option<nat>, waker: nat): Chan<T> {
    if waiter.Some?
    then c.(queue := Enter(c.queue, waiter.value, waker))
    else c.(nextId := c.nextId + 1, queue := c.queue + [Waiting(c.nextId, waker)])
  }

  class Channel<T> {
    var value: T
    var version: nat
    var nextId: nat
    var queue: seq<Waiting>
    var senders: nat
    var receivers: nat

    function State(): Chan<T>
      reads this
    {
      Chan(value, version, nextId, queue, senders, receivers)
    }

    constructor (init: T)
      ensures State() == Chan(init, 0, 0, [], 1, 1)
    {
      value, version, nextId, queue, senders, receivers := init, 0, 0, [], 1, 1;
    }

    method CloneSender()
      modifies this
      ensures State() == old(State()).(senders := old(senders) + 1)
    {
      senders := senders + 1;
    }

    method DropSender() returns (closed: bool)
      requires senders > 0
      modifies this
      ensures State() == old(State()).(senders := old(senders) - 1)
      ensures closed <==> senders == 0
    {
      senders := senders - 1;
      closed := senders == 0;
    }

    method AddReceiver()
      modifies this
      ensures State() == old(State()).(receivers := old(receivers) + 1)
    {
      receivers := receivers + 1;
    }

    method DropReceiver()
      requires receivers > 0
      modifies this
      ensures State() == old(State()).(receivers := old(receivers) - 1)
    {
      receivers := receivers - 1;
    }

    method Write(newValue: T)
      modifies this
      ensures State() == old(State()).(value := newValue, version := old(version) + 1)
    {
      value := newValue;
      version := version + 1;
    }

    /** The closure of `send_if_modified` left `newValue` behind and said whether that is a change. */
    method WriteIfModified(newValue: T, modified: bool)
      modifies this
      ensures State() == old(State()).(value := newValue, version := old(version) + if modified then 1 else 0)
    {
      value := newValue;
      if modified {
        version := version + 1;
      }
    }

    /** Take every waiter, oldest first. */
    method TakeQueue() returns (taken: seq<Waiting>)
      modifies this
      ensures taken == old(queue) && State() == old(State()).(queue := [])
    {
      taken := queue;
      queue := [];
    }

    /** Register this poll's waker and read whether every sender is gone. */
    method Register(waiter: Option<nat>, waker: nat) returns (id: nat, closed: bool)
      modifies this
      ensures closed <==> senders == 0
      ensures id == WaiterId(old(State()), waiter)
      ensures State() == RegisteredIn(old(State()), waiter, waker)
    {
      closed := senders == 0;
      var registered := false;
      if waiter.Some? {
        id := waiter.value;
        var i := 0;
        while i < |queue| && queue[i].id != id
          invariant 0 <= i <= |queue|
          invariant forall j :: 0 <= j < i ==> queue[j].id != id
        {
          i := i + 1;
        }
        if i < |queue| {
          if queue[i].waker != waker {
            queue := queue[i := Waiting(id, waker)];
          }
          registered := true;
        }
      }
      if !registered {
        if waiter.None? {
          id := nextId;
          nextId := nextId + 1;
        }
        queue := queue + [Waiting(id, waker)];
      }
    }

    method Deregister(id: nat)
      modifies this
      ensures State() == old(State()).(queue := Without(old(queue), id))
    {
      var kept := [];
      for i := 0 to |queue|
        invariant kept == Without(queue[..i], id)
      {
        assert queue[..i + 1][..i] == queue[..i];
        if queue[i].id != id {
          kept := kept + [queue[i]];
        }
      }
      assert queue[..|queue|] == queue;
      queue := kept;
    }
  }

  // What the queue operations do, said about membership and order.

  lemma {:induction false} WithoutMembers(queue: seq<Waiting>, id: nat)
    ensures forall w :: w in Without(queue, id) <==> w in queue && w.id != id
  {
    if queue != [] {
      var n := |queue| - 1;
      WithoutMembers(queue[..n], id);
      assert queue == queue[..n] + [queue[n]];
    }
  }

  lemma WithoutQueued(queue: seq<Waiting>, id: nat, a: nat)
    ensures IsQueued(Without(queue, id), a) <==> IsQueued(queue, a) && a != id
  {
    WithoutMembers(queue, id);
    var rest := Without(queue, id);
    if i :| 0 <= i < |queue| && queue[i].id == a && a != id {
      assert queue[i] in rest;
    }
    if i :| 0 <= i < |rest| && rest[i].id == a {
      assert rest[i] in queue;
    }
  }

  lemma {:induction false} WithoutOrder(queue: seq<Waiting>, id: nat, a: nat, b: nat)
    ensures Before(Without(queue, id), a, b) <==> Before(queue, a, b) && a != id && b != id
  {
    if queue != [] {
      var n := |queue| - 1;
      WithoutOrder(queue[..n], id, a, b);
      WithoutQueued(queue[..n], id, a);
      BeforeSnoc(queue[..n], queue[n], a, b);
      BeforeSnoc(Without(queue[..n], id), queue[n], a, b);
      assert queue == queue[..n] + [queue[n]];
      assert Without(queue, id) == if queue[n].id == id then Without(queue[..n], id)
        else Without(queue[..n], id) + [queue[n]];
      hide Before, IsQueued, Without;
    }
  }

  lemma BeforeSnoc(queue: seq<Waiting>, w: Waiting, a: nat, b: nat)
    ensures Before(queue + [w], a, b) <==> Before(queue, a, b) || (IsQueued(queue, a) && w.id == b)
  {
    var longer := queue + [w];
    if i, j :| 0 <= i < j < |queue| && queue[i].id == a && queue[j].id == b {
      assert longer[i].id == a && longer[j].id == b;
    }
    if i :| 0 <= i < |queue| && queue[i].id == a && w.id == b {
      assert longer[i].id == a && longer[|queue|].id == b;
    }
  }

  lemma {:induction false} WithoutDistinct(queue: seq<Waiting>, id: nat)
    requires Distinct(queue)
    ensures Distinct(Without(queue, id)) && !IsQueued(Without(queue, id), id)
  {
    WithoutMembers(queue, id);
    if queue != [] {
      var n := |queue| - 1;
      WithoutDistinct(queue[..n], id);
      WithoutMembers(queue[..n], id);
      forall i | 0 <= i < |Without(queue[..n], id)|
        ensures Without(queue[..n], id)[i].id != queue[n].id
      {
        assert Without(queue[..n], id)[i] in queue[..n];
      }
    }
  }

  /** Registering keeps every other entry and leaves exactly one entry for `id`, with the new waker. */
  lemma EnterMembers(queue: seq<Waiting>, id: nat, waker: nat)
    requires Distinct(queue)
    ensures Distinct(Enter(queue, id, waker))
    ensures Waiting(id, waker) in Enter(queue, id, waker)
    ensures forall w: Waiting :: w.id != id ==> (w in Enter(queue, id, waker) <==> w in queue)
    ensures forall w :: w in Enter(queue, id, waker) && w.id == id ==> w.waker == waker
  {
    var at, q := Find(queue, id), Enter(queue, id, waker);
    assert at < |queue| ==> q[at] == Waiting(id, waker);
    assert at == |queue| ==> q[|queue|] == Waiting(id, waker);
    forall w: Waiting | w.id != id
      ensures w in q <==> w in queue
    {
      if i :| 0 <= i < |queue| && queue[i] == w {
        assert q[i] == w;
      }
      if i :| 0 <= i < |q| && q[i] == w {
        assert queue[i] == w;
      }
    }
  }

  /** Polling again keeps a queued waiter's place; a waiter that is not queued goes last. */
  lemma EnterOrder(queue: seq<Waiting>, id: nat, waker: nat, a: nat, b: nat)
    ensures IsQueued(queue, id) ==> (Before(Enter(queue, id, waker), a, b) <==> Before(queue, a, b))
    ensures !IsQueued(queue, id) ==>
              (Before(Enter(queue, id, waker), a, b) <==> Before(queue, a, b) || (IsQueued(queue, a) && b == id))
  {
    var at, q := Find(queue, id), Enter(queue, id, waker);
    if at < |queue| {
      assert IsQueued(queue, id);
      assert forall i :: 0 <= i < |queue| ==> q[i].id == queue[i].id;
    } else {
      BeforeSnoc(queue, Waiting(id, waker), a, b);
    }
  }
}
