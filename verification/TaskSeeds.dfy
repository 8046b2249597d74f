/**
  * Seeds in task-local storage. A task's seed sits in a slot beside its future; polling the future swaps the
  * slot with a cell of the polling thread, runs the task's code against the cell, and swaps back.
  */
module TaskSeeds {
  import opened RaftTypes
  import opened SplitMix

  type Seed = Option<bv64>

  /** A thread's cell, or the slot beside a future. */
  class SeedCell {
    var seed: Seed

    constructor (seed: Seed)
      ensures this.seed == seed
    {
      this.seed := seed;
    }

    /** Entering and leaving a scope. */
    method Swap(slot: SeedCell)
      modifies this, slot
      ensures seed == old(slot.seed) && slot.seed == old(seed)
    {
      seed, slot.seed := slot.seed, seed;
    }

    /** `None` where the source panics: no seed is set here. */
    method TakeAndAdvance() returns (r: Seed)
      modifies this
      ensures r == old(seed)
      ensures seed == if old(seed).Some? then Some(AdvanceSeed(old(seed).value)) else None
    {
      r := seed;
      if seed.Some? {
        seed := Some(AdvanceSeed(seed.value));
      }
    }

    /** The seed of a task spawned here. */
    method SpawnSeed() returns (child: Seed)
      modifies this
      ensures child == if old(seed).Some? then Some(DeriveSpawnSeed(old(seed).value)) else None
      ensures seed == if old(seed).Some? then Some(AdvanceSeed(old(seed).value)) else None
    {
      var taken := TakeAndAdvance();
      child := if taken.Some? then Some(DeriveSpawnSeed(taken.value)) else None;
    }
  }

  // What a seed should be.

  /** Where a scope comes from: a seed given by the caller, or consumption number `index` of another scope. */
  datatype Lineage = Given(seed: bv64) | Spawned(parent: Lineage, index: nat)

  function Advanced(seed: bv64, times: nat): bv64 {
    if times == 0 then seed else AdvanceSeed(Advanced(seed, times - 1))
  }

  function SeedOf(lineage: Lineage): bv64 {
    match lineage
    case Given(seed) => seed
    case Spawned(parent, index) => DeriveSpawnSeed(Advanced(SeedOf(parent), index))
  }

  // Threads polling scopes in any order.

  type ThreadId = nat
  type ScopeId = nat

  /** A scope: its slot, its origin, and how often its seed was consumed. */
  datatype Scope = Scope(slot: Seed, lineage: Lineage, used: nat)

  /** A thread: its cell, and the scopes it is inside of, innermost last. */
  datatype Thread = Thread(cell: Seed, inside: seq<ScopeId>)

  /** A seed taken by a scope, to draw from or to spawn `child` with. */
  datatype Drawn = Drawn(scope: ScopeId, seed: bv64, child: Option<ScopeId>)

  datatype World = World(threads: map<ThreadId, Thread>, scopes: map<ScopeId, Scope>, drawn: seq<Drawn>)

  const FRESH_WORLD := World(map[], map[], [])

  datatype Event =
    | StartThread(thread: ThreadId)
      /** `scope` or `block_on` with a seed given by the caller. */
    | NewScope(scope: ScopeId, seed: bv64)
      /** A poll, a drop, or a further `block_on` begins. */
    | Enter(thread: ThreadId, scope: ScopeId)
    | Leave(thread: ThreadId)
    | Draw(thread: ThreadId)
    | Spawn(thread: ThreadId, child: ScopeId)

  /** No thread is inside the scope: a future is polled by one thread at a time. */
  predicate Idle(w: World, scope: ScopeId) {
    forall t :: t in w.threads ==> scope !in w.threads[t].inside
  }

  predicate InScope(w: World, thread: ThreadId) {
    && thread in w.threads && w.threads[thread].inside != []
    && w.threads[thread].inside[|w.threads[thread].inside| - 1] in w.scopes
  }

  function Current(w: World, thread: ThreadId): ScopeId
    requires thread in w.threads && w.threads[thread].inside != []
  {
    w.threads[thread].inside[|w.threads[thread].inside| - 1]
  }

  function Swapped(w: World, thread: ThreadId, scope: ScopeId, inside: seq<ScopeId>): World
    requires thread in w.threads && scope in w.scopes
  {
    w.(threads := w.threads[thread := Thread(w.scopes[scope].slot, inside)],
       scopes := w.scopes[scope := w.scopes[scope].(slot := w.threads[thread].cell)])
  }

  /** The seed in the thread's cell is used up by the scope it is in. */
  function Consumed(w: World, thread: ThreadId, child: Option<ScopeId>): World
    requires InScope(w, thread) && w.threads[thread].cell.Some?
  {
    var seed := w.threads[thread].cell.value;
    var scope := Current(w, thread);
    World(w.threads[thread := w.threads[thread].(cell := Some(AdvanceSeed(seed)))],
          w.scopes[scope := w.scopes[scope].(used := w.scopes[scope].used + 1)],
          w.drawn + [Drawn(scope, seed, child)])
  }

  function Step(w: World, e: Event): World {
    match e
    case StartThread(t) => if t in w.threads then w else w.(threads := w.threads[t := Thread(None, [])])
    case NewScope(s, seed) => if s in w.scopes then w
      else w.(scopes := w.scopes[s := Scope(Some(seed), Given(seed), 0)])
    case Enter(t, s) =>
      if t in w.threads && s in w.scopes && Idle(w, s) then Swapped(w, t, s, w.threads[t].inside + [s]) else w
    case Leave(t) =>
      if InScope(w, t)
      then Swapped(w, t, Current(w, t), w.threads[t].inside[..|w.threads[t].inside| - 1])
      else w
    case Draw(t) => if InScope(w, t) && w.threads[t].cell.Some? then Consumed(w, t, None) else w
    case Spawn(t, child) =>
      if InScope(w, t) && w.threads[t].cell.Some? && child !in w.scopes then
        var parent := w.scopes[Current(w, t)];
        var next := Consumed(w, t, Some(child));
        next.(scopes := next.scopes[child :=
          Scope(Some(DeriveSpawnSeed(w.threads[t].cell.value)), Spawned(parent.lineage, parent.used), 0)])
      else w
  }

  function Run(events: seq<Event>): World {
    if events == [] then FRESH_WORLD
    else Step(Run(events[..|events| - 1]), events[|events| - 1])
  }

  // The invariant: wherever a scope's seed is at the moment, it is its origin's seed advanced once per use.

  function SeedAt(lineage: Lineage, index: nat): bv64 {
    Advanced(SeedOf(lineage), index)
  }

  function Due(s: Scope): Seed {
    Some(SeedAt(s.lineage, s.used))
  }

  ghost predicate ThreadSound(w: World, t: ThreadId)
    requires t in w.threads
  {
    var inside := w.threads[t].inside;
    && (forall i :: 0 <= i < |inside| ==> inside[i] in w.scopes)
    && (forall i, j :: 0 <= i < j < |inside| ==> inside[i] != inside[j])
    && (if inside == [] then w.threads[t].cell == None
        else
          && w.scopes[inside[0]].slot == None
          && w.threads[t].cell == Due(w.scopes[inside[|inside| - 1]]))
    && (forall i :: 0 < i < |inside| ==> w.scopes[inside[i]].slot == Due(w.scopes[inside[i - 1]]))
  }

  ghost predicate Apart(w: World) {
    forall t, u, s :: t in w.threads && u in w.threads && t != u && s in w.threads[t].inside ==>
      s !in w.threads[u].inside
  }

  ghost predicate IdleSound(w: World) {
    forall s :: s in w.scopes && Idle(w, s) ==> w.scopes[s].slot == Due(w.scopes[s])
  }

  /** How many seeds the scope took. */
  function Count(drawn: seq<Drawn>, s: ScopeId): nat {
    if drawn == [] then 0
    else Count(drawn[..|drawn| - 1], s) + if drawn[|drawn| - 1].scope == s then 1 else 0
  }

  ghost predicate DrawnSound(w: World) {
    && (forall i :: 0 <= i < |w.drawn| ==> w.drawn[i].scope in w.scopes)
    && (forall i :: 0 <= i < |w.drawn| ==>
          w.drawn[i].seed == SeedAt(w.scopes[w.drawn[i].scope].lineage, Count(w.drawn[..i], w.drawn[i].scope)))
    && (forall s :: s in w.scopes ==> w.scopes[s].used == Count(w.drawn, s))
  }

  ghost predicate Sound(w: World) {
    && (forall t :: t in w.threads ==> ThreadSound(w, t))
    && Apart(w)
    && IdleSound(w)
    && DrawnSound(w)
  }

  /** A thread whose record and scopes were not touched stays sound. */
  lemma ThreadFramed(w: World, next: World, t: ThreadId)
    requires t in w.threads && ThreadSound(w, t)
    requires t in next.threads && next.threads[t] == w.threads[t]
    requires forall s :: s in w.threads[t].inside && s in w.scopes ==> s in next.scopes && next.scopes[s] == w.scopes[s]
    ensures ThreadSound(next, t)
  {
    hide SeedAt;
  }

  /** Nothing was drawn, and no scope changed its origin or its count. */
  lemma DrawnFramed(w: World, next: World)
    requires DrawnSound(w) && next.drawn == w.drawn && next.scopes.Keys == w.scopes.Keys
    requires forall s :: s in w.scopes ==>
               next.scopes[s].lineage == w.scopes[s].lineage && next.scopes[s].used == w.scopes[s].used
    ensures DrawnSound(next)
  {
    hide SeedAt, Count;
  }

  lemma EnterThread(w: World, t: ThreadId, s: ScopeId)
    requires t in w.threads && ThreadSound(w, t) && s in w.scopes && s !in w.threads[t].inside
    requires w.scopes[s].slot == Due(w.scopes[s])
    ensures ThreadSound(Swapped(w, t, s, w.threads[t].inside + [s]), t)
  {
    hide SeedAt;
  }

  lemma EnterKeepsSound(w: World, t: ThreadId, s: ScopeId)
    requires Sound(w) && t in w.threads && s in w.scopes && Idle(w, s)
    ensures Sound(Swapped(w, t, s, w.threads[t].inside + [s]))
  {
    hide SeedAt, ThreadSound, DrawnSound;
    var next := Swapped(w, t, s, w.threads[t].inside + [s]);
    DrawnFramed(w, next);
    forall u | u in next.threads
      ensures ThreadSound(next, u)
    {
      if u == t {
        EnterThread(w, t, s);
      } else {
        assert s !in w.threads[u].inside;
        ThreadFramed(w, next, u);
      }
    }
    forall v | v in next.scopes && Idle(next, v)
      ensures next.scopes[v].slot == Due(next.scopes[v])
    {
      assert v !in next.threads[t].inside;
      assert forall u :: u in w.threads && u != t ==> next.threads[u] == w.threads[u];
      assert Idle(w, v);
    }
  }

  lemma LeaveThread(w: World, t: ThreadId)
    requires InScope(w, t) && ThreadSound(w, t)
    ensures ThreadSound(Swapped(w, t, Current(w, t), w.threads[t].inside[..|w.threads[t].inside| - 1]), t)
  {
    hide SeedAt;
  }

  lemma CurrentDue(w: World, t: ThreadId)
    requires InScope(w, t) && ThreadSound(w, t)
    ensures w.threads[t].cell == Due(w.scopes[Current(w, t)])
    ensures Current(w, t) in w.threads[t].inside
    ensures Current(w, t) !in w.threads[t].inside[..|w.threads[t].inside| - 1]
  {
    hide SeedAt;
  }

  /** `next` differs from `w` only in thread `t` and scope `s`. */
  ghost predicate OnlyChanged(w: World, next: World, t: ThreadId, s: ScopeId) {
    && next.threads.Keys == w.threads.Keys && next.scopes.Keys == w.scopes.Keys
    && (forall u :: u in w.threads && u != t ==> next.threads[u] == w.threads[u])
    && (forall v :: v in w.scopes && v != s ==> next.scopes[v] == w.scopes[v])
  }

  lemma OthersSound(w: World, next: World, t: ThreadId, s: ScopeId)
    requires Sound(w) && t in w.threads && s in w.threads[t].inside && OnlyChanged(w, next, t, s)
    requires ThreadSound(next, t)
    ensures forall u :: u in next.threads ==> ThreadSound(next, u)
  {
    hide SeedAt, ThreadSound, IdleSound, DrawnSound;
    forall u | u in next.threads
      ensures ThreadSound(next, u)
    {
      if u != t {
        assert s !in w.threads[u].inside;
        ThreadFramed(w, next, u);
      }
    }
  }

  lemma IdleStaysSound(w: World, next: World, t: ThreadId, s: ScopeId)
    requires IdleSound(w) && t in w.threads && s in w.threads[t].inside && OnlyChanged(w, next, t, s)
    requires forall v :: v in w.threads[t].inside ==> v == s || v in next.threads[t].inside
    requires s in next.scopes && Idle(next, s) ==> next.scopes[s].slot == Due(next.scopes[s])
    ensures IdleSound(next)
  {
    hide SeedAt;
    forall v | v in next.scopes && Idle(next, v)
      ensures next.scopes[v].slot == Due(next.scopes[v])
    {
      if v != s {
        assert v !in next.threads[t].inside;
        assert Idle(w, v);
      }
    }
  }

  lemma LeaveKeepsSound(w: World, t: ThreadId)
    requires Sound(w) && InScope(w, t)
    ensures Sound(Swapped(w, t, Current(w, t), w.threads[t].inside[..|w.threads[t].inside| - 1]))
  {
    hide SeedAt, DrawnSound, ThreadSound, IdleSound;
    var inside := w.threads[t].inside;
    var s := Current(w, t);
    var next := Swapped(w, t, s, inside[..|inside| - 1]);
    CurrentDue(w, t);
    LeaveThread(w, t);
    OthersSound(w, next, t, s);
    IdleStaysSound(w, next, t, s);
    DrawnFramed(w, next);
  }

  lemma ConsumeThread(w: World, t: ThreadId, child: Option<ScopeId>)
    requires InScope(w, t) && ThreadSound(w, t) && w.threads[t].cell.Some?
    ensures ThreadSound(Consumed(w, t, child), t)
  {
    hide AdvanceSeed, SeedOf;
  }

  lemma CountSnoc(drawn: seq<Drawn>, d: Drawn, s: ScopeId)
    ensures Count(drawn + [d], s) == Count(drawn, s) + if d.scope == s then 1 else 0
  {
    assert (drawn + [d])[..|drawn|] == drawn;
  }

  lemma ConsumeDraws(w: World, t: ThreadId, child: Option<ScopeId>)
    requires DrawnSound(w) && InScope(w, t) && w.threads[t].cell == Due(w.scopes[Current(w, t)])
    ensures DrawnSound(Consumed(w, t, child))
  {
    hide AdvanceSeed, SeedAt, Count;
    var next := Consumed(w, t, child);
    var d := next.drawn[|w.drawn|];
    forall s | s in next.scopes
      ensures next.scopes[s].used == Count(next.drawn, s)
    {
      CountSnoc(w.drawn, d, s);
    }
    forall i | 0 <= i < |next.drawn|
      ensures next.drawn[i].seed ==
              SeedAt(next.scopes[next.drawn[i].scope].lineage, Count(next.drawn[..i], next.drawn[i].scope))
    {
      assert next.drawn[..i] == w.drawn[..i];
      if i < |w.drawn| {
        assert next.drawn[i] == w.drawn[i];
      } else {
        assert w.drawn[..i] == w.drawn;
      }
    }
  }

  lemma ConsumeKeepsSound(w: World, t: ThreadId, child: Option<ScopeId>)
    requires Sound(w) && InScope(w, t) && w.threads[t].cell.Some?
    ensures Sound(Consumed(w, t, child))
    ensures w.threads[t].cell == Due(w.scopes[Current(w, t)])
  {
    hide AdvanceSeed, SeedAt, ThreadSound, IdleSound, DrawnSound;
    var s := Current(w, t);
    var next := Consumed(w, t, child);
    CurrentDue(w, t);
    ConsumeDraws(w, t, child);
    ConsumeThread(w, t, child);
    OthersSound(w, next, t, s);
    assert !Idle(next, s) by { assert s in next.threads[t].inside; }
    IdleStaysSound(w, next, t, s);
  }

  lemma {:induction false} UnusedCount(drawn: seq<Drawn>, s: ScopeId)
    requires forall i :: 0 <= i < |drawn| ==> drawn[i].scope != s
    ensures Count(drawn, s) == 0
  {
    if drawn != [] {
      UnusedCount(drawn[..|drawn| - 1], s);
    }
  }

  /** A new idle scope with its due seed. */
  lemma AddKeepsSound(w: World, s: ScopeId, scope: Scope)
    requires Sound(w) && s !in w.scopes && scope.slot == Due(scope) && scope.used == 0
    ensures Sound(w.(scopes := w.scopes[s := scope]))
  {
    hide SeedAt, ThreadSound, Count;
    var next := w.(scopes := w.scopes[s := scope]);
    assert Count(w.drawn, s) == 0 by { UnusedCount(w.drawn, s); }
    hide DrawnSound;
    forall u | u in next.threads
      ensures ThreadSound(next, u)
    {
      ThreadFramed(w, next, u);
    }
    forall v | v in next.scopes && Idle(next, v)
      ensures next.scopes[v].slot == Due(next.scopes[v])
    {
      assert Idle(w, v);
    }
  }

  lemma StepKeepsSound(w: World, e: Event)
    requires Sound(w)
    ensures Sound(Step(w, e))
  {
    hide Sound, AdvanceSeed, DeriveSpawnSeed, Consumed, Swapped, Idle;
    match e {
      case StartThread(t) => StartKeepsSound(w, t);
      case NewScope(s, seed) =>
        if s !in w.scopes {
          AddKeepsSound(w, s, Scope(Some(seed), Given(seed), 0));
        }
      case Enter(t, s) =>
        if t in w.threads && s in w.scopes && Idle(w, s) {
          EnterKeepsSound(w, t, s);
        }
      case Leave(t) =>
        if InScope(w, t) {
          LeaveKeepsSound(w, t);
        }
      case Draw(t) =>
        if InScope(w, t) && w.threads[t].cell.Some? {
          ConsumeKeepsSound(w, t, None);
        }
      case Spawn(t, child) =>
        if InScope(w, t) && w.threads[t].cell.Some? && child !in w.scopes {
          ConsumeKeepsSound(w, t, Some(child));
          SpawnAdds(w, t, child);
        }
    }
  }

  lemma StartKeepsSound(w: World, t: ThreadId)
    requires Sound(w)
    ensures Sound(Step(w, StartThread(t)))
  {
    hide SeedAt, DrawnSound, ThreadSound;
    if t !in w.threads {
      var next := Step(w, StartThread(t));
      assert ThreadSound(next, t) by { EmptyThread(next, t); }
      DrawnFramed(w, next);
      forall u | u in w.threads
        ensures ThreadSound(next, u)
      {
        ThreadFramed(w, next, u);
      }
      forall v | v in next.scopes && Idle(next, v)
        ensures next.scopes[v].slot == Due(next.scopes[v])
      {
        assert forall u :: u in w.threads ==> next.threads[u] == w.threads[u];
        assert Idle(w, v);
      }
    }
  }

  lemma EmptyThread(w: World, t: ThreadId)
    requires t in w.threads && w.threads[t] == Thread(None, [])
    ensures ThreadSound(w, t)
  {
  }

  lemma SpawnAdds(w: World, t: ThreadId, child: ScopeId)
    requires InScope(w, t) && w.threads[t].cell == Due(w.scopes[Current(w, t)]) && child !in w.scopes
    requires Sound(Consumed(w, t, Some(child)))
    ensures Sound(Step(w, Spawn(t, child)))
  {
    hide Sound, AdvanceSeed, DeriveSpawnSeed;
    var parent := w.scopes[Current(w, t)];
    var scope := Scope(Some(DeriveSpawnSeed(w.threads[t].cell.value)), Spawned(parent.lineage, parent.used), 0);
    assert scope.slot == Due(scope);
    AddKeepsSound(Consumed(w, t, Some(child)), child, scope);
  }

  lemma {:induction false} RunIsSound(events: seq<Event>)
    ensures Sound(Run(events))
  {
    hide Step;
    if events != [] {
      var n := |events| - 1;
      hide Sound;
      RunIsSound(events[..n]);
      StepKeepsSound(Run(events[..n]), events[n]);
    }
  }

  /**
    * In every run, over any threads and any interleaving of polls, the n-th seed a scope takes is its origin's
    * seed advanced n times: which seed a task gets does not depend on the schedule.
    */
  lemma SeedsIgnoreTheSchedule(events: seq<Event>, i: nat)
    requires i < |Run(events).drawn|
    ensures var w := Run(events);
            var d := w.drawn[i];
            && d.scope in w.scopes
            && d.seed == Advanced(SeedOf(w.scopes[d.scope].lineage), Count(w.drawn[..i], d.scope))
  {
    hide Run, ThreadSound, Apart, IdleSound;
    RunIsSound(events);
  }

  /**
    * Between polls a thread's cell is empty again, and a scope holds the seed its stream goes on with: a
    * second `block_on` continues where the first stopped.
    */
  lemma SeedsAreRestored(events: seq<Event>)
    ensures var w := Run(events);
            && (forall t :: t in w.threads && w.threads[t].inside == [] ==> w.threads[t].cell == None)
            && forall s :: s in w.scopes && Idle(w, s) ==>
                 w.scopes[s].slot == Some(Advanced(SeedOf(w.scopes[s].lineage), Count(w.drawn, s)))
  {
    hide Run, Apart;
    RunIsSound(events);
  }

  lemma {:induction false} AdvancedCancels(a: bv64, b: bv64, n: nat)
    ensures Advanced(a, n) == Advanced(b, n) <==> a == b
  {
    hide AdvanceSeed;
    if n > 0 {
      AdvancedCancels(a, b, n - 1);
      ForkDiverges(Advanced(a, n - 1), Advanced(b, n - 1));
    }
  }

  /** Tasks at the same place of two spawn trees get the same seed exactly when the trees' roots do. */
  lemma {:induction false} SameSpawnsSameSeeds(a: Lineage, b: Lineage)
    requires Path(a) == Path(b)
    ensures SeedOf(a) == SeedOf(b) <==> SeedOf(RootOf(a)) == SeedOf(RootOf(b))
  {
    hide DeriveSpawnSeed;
    match a {
      case Given(_) =>
      case Spawned(p, n) =>
        var q := b.parent;
        SamePaths(p, q, n, b.index);
        SameSpawnsSameSeeds(p, q);
        AdvancedCancels(SeedOf(p), SeedOf(q), n);
        ForkDiverges(Advanced(SeedOf(p), n), Advanced(SeedOf(q), n));
    }
  }

  /** The consumption numbers along the spawns that led to a scope. */
  function Path(a: Lineage): seq<nat> {
    match a
    case Given(_) => []
    case Spawned(p, n) => Path(p) + [n]
  }

  function RootOf(a: Lineage): Lineage {
    match a
    case Given(_) => a
    case Spawned(p, _) => RootOf(p)
  }

  lemma SamePaths(p: Lineage, q: Lineage, n: nat, m: nat)
    requires Path(p) + [n] == Path(q) + [m]
    ensures Path(p) == Path(q) && n == m
  {
    var all := Path(p) + [n];
    assert all[|all| - 1] == n && (Path(q) + [m])[|all| - 1] == m;
    assert Path(p) == all[..|all| - 1] && Path(q) == (Path(q) + [m])[..|all| - 1];
  }

  // Two runs of the same tasks.

  /** What a scope did with its seeds, in order: drew from one, or spawned a task with it. */
  function Acts(drawn: seq<Drawn>, s: ScopeId): seq<Option<ScopeId>> {
    if drawn == [] then []
    else
      var before, last := Acts(drawn[..|drawn| - 1], s), drawn[|drawn| - 1];
      if last.scope == s then before + [last.child] else before
  }

  /** The seeds a scope took, in order. */
  function SeedsTaken(drawn: seq<Drawn>, s: ScopeId): seq<bv64> {
    if drawn == [] then []
    else
      var before, last := SeedsTaken(drawn[..|drawn| - 1], s), drawn[|drawn| - 1];
      if last.scope == s then before + [last.seed] else before
  }

  /** The scopes made with a seed from the caller, and the seed. */
  function Roots(w: World): map<ScopeId, bv64> {
    map s | s in w.scopes && w.scopes[s].lineage.Given? :: w.scopes[s].lineage.seed
  }

  lemma ActsSnoc(drawn: seq<Drawn>, d: Drawn, s: ScopeId)
    ensures Acts(drawn + [d], s) == Acts(drawn, s) + if d.scope == s then [d.child] else []
  {
    assert (drawn + [d])[..|drawn|] == drawn;
  }

  lemma {:induction false} ActsCounted(drawn: seq<Drawn>, s: ScopeId)
    ensures |Acts(drawn, s)| == |SeedsTaken(drawn, s)| == Count(drawn, s)
  {
    if drawn != [] {
      ActsCounted(drawn[..|drawn| - 1], s);
    }
  }

  ghost predicate IsChild(w: World, parent: ScopeId, i: nat, child: ScopeId) {
    i < |Acts(w.drawn, parent)| && Acts(w.drawn, parent)[i] == Some(child)
  }

  ghost predicate HasParent(w: World, child: ScopeId)
    requires child in w.scopes && w.scopes[child].lineage.Spawned?
  {
    exists p :: p in w.scopes && IsChild(w, p, w.scopes[child].lineage.index, child)
                && w.scopes[p].lineage == w.scopes[child].lineage.parent
  }

  /** The spawns on record are exactly the origins of the scopes that were spawned. */
  ghost predicate Kin(w: World) {
    && (forall c :: c in w.scopes && w.scopes[c].lineage.Spawned? ==> HasParent(w, c))
    && (forall p, i: nat, c :: IsChild(w, p, i, c) ==>
          p in w.scopes && c in w.scopes && w.scopes[c].lineage == Spawned(w.scopes[p].lineage, i))
  }

  ghost predicate KeepsLineages(w: World, next: World) {
    && (forall s :: s in w.scopes ==> s in next.scopes)
    && (forall s :: s in w.scopes && s in next.scopes ==> next.scopes[s].lineage == w.scopes[s].lineage)
  }

  lemma KinStays(w: World, next: World)
    requires Kin(w) && KeepsLineages(w, next) && next.drawn == w.drawn
    requires forall s :: s in next.scopes && s !in w.scopes ==> next.scopes[s].lineage.Given?
    ensures Kin(next)
  {
    hide Acts;
    forall c | c in next.scopes && next.scopes[c].lineage.Spawned?
      ensures HasParent(next, c)
    {
      var p :| p in w.scopes && IsChild(w, p, w.scopes[c].lineage.index, c)
               && w.scopes[p].lineage == w.scopes[c].lineage.parent;
      assert IsChild(next, p, w.scopes[c].lineage.index, c);
    }
    forall p, i: nat, c | IsChild(next, p, i, c)
      ensures p in next.scopes && c in next.scopes && next.scopes[c].lineage == Spawned(next.scopes[p].lineage, i)
    {
      assert IsChild(w, p, i, c);
    }
  }

  /** A seed is taken; if it is to spawn with, the new scope is the only one. */
  lemma KinGrows(w: World, next: World, d: Drawn)
    requires Kin(w) && KeepsLineages(w, next) && next.drawn == w.drawn + [d] && d.scope in w.scopes
    requires forall s :: s in next.scopes && s !in w.scopes ==> d.child == Some(s)
    requires d.child.Some? ==>
               && d.child.value in next.scopes && d.child.value !in w.scopes
               && next.scopes[d.child.value].lineage == Spawned(w.scopes[d.scope].lineage, |Acts(w.drawn, d.scope)|)
    ensures Kin(next)
  {
    hide Acts;
    forall p
      ensures Acts(next.drawn, p) == Acts(w.drawn, p) + if d.scope == p then [d.child] else []
    {
      ActsSnoc(w.drawn, d, p);
    }
    forall c | c in next.scopes && next.scopes[c].lineage.Spawned?
      ensures HasParent(next, c)
    {
      var i := next.scopes[c].lineage.index;
      if c in w.scopes {
        assert HasParent(w, c);
        var p :| p in w.scopes && IsChild(w, p, i, c) && w.scopes[p].lineage == w.scopes[c].lineage.parent;
        assert IsChild(next, p, i, c);
      } else {
        assert IsChild(next, d.scope, i, c);
      }
    }
    forall p, i: nat, c | IsChild(next, p, i, c)
      ensures p in next.scopes && c in next.scopes && next.scopes[c].lineage == Spawned(next.scopes[p].lineage, i)
    {
      if i < |Acts(w.drawn, p)| {
        assert IsChild(w, p, i, c);
      }
    }
  }

  lemma DrawKeepsKin(w: World, t: ThreadId)
    requires Kin(w) && InScope(w, t) && w.threads[t].cell.Some?
    ensures Kin(Consumed(w, t, None))
  {
    hide Kin, AdvanceSeed;
    KinGrows(w, Consumed(w, t, None), Drawn(Current(w, t), w.threads[t].cell.value, None));
  }

  lemma SpawnKeepsKin(w: World, t: ThreadId, child: ScopeId)
    requires Kin(w) && InScope(w, t) && w.threads[t].cell.Some? && child !in w.scopes
    requires w.scopes[Current(w, t)].used == Count(w.drawn, Current(w, t))
    ensures Kin(Step(w, Spawn(t, child)))
  {
    hide Kin, AdvanceSeed, DeriveSpawnSeed, Count;
    ActsCounted(w.drawn, Current(w, t));
    KinGrows(w, Step(w, Spawn(t, child)), Drawn(Current(w, t), w.threads[t].cell.value, Some(child)));
  }

  lemma StepKeepsKin(w: World, e: Event)
    requires Kin(w) && DrawnSound(w)
    ensures Kin(Step(w, e))
  {
    hide Kin, Idle, Consumed;
    match e {
      case Draw(t) =>
        if InScope(w, t) && w.threads[t].cell.Some? {
          DrawKeepsKin(w, t);
        }
      case Spawn(t, child) =>
        if InScope(w, t) && w.threads[t].cell.Some? && child !in w.scopes {
          SpawnKeepsKin(w, t, child);
        }
      case _ => KinStays(w, Step(w, e));
    }
  }

  lemma {:induction false} RunIsKin(events: seq<Event>)
    ensures Kin(Run(events))
  {
    if events != [] {
      hide Step, Kin, ThreadSound, Apart, IdleSound, DrawnSound;
      var n := |events| - 1;
      RunIsKin(events[..n]);
      RunIsSound(events[..n]);
      StepKeepsKin(Run(events[..n]), events[n]);
    }
  }

  /** Scopes come from the same place in both runs. */
  lemma {:induction false} SameOrigin(w: World, v: World, s: ScopeId)
    requires Kin(w) && Kin(v) && Roots(w) == Roots(v) && forall p :: Acts(w.drawn, p) == Acts(v.drawn, p)
    requires s in w.scopes
    ensures s in v.scopes && v.scopes[s].lineage == w.scopes[s].lineage
    decreases w.scopes[s].lineage
  {
    hide Acts;
    match w.scopes[s].lineage {
      case Given(seed) =>
        assert s in Roots(w) && Roots(w)[s] == seed;
        assert s in Roots(v) && Roots(v)[s] == seed;
      case Spawned(parent, i) =>
        assert HasParent(w, s);
        var p :| p in w.scopes && IsChild(w, p, i, s) && w.scopes[p].lineage == parent;
        SameOrigin(w, v, p);
        assert IsChild(v, p, i, s);
    }
  }

  lemma {:induction false} TakenAre(drawn: seq<Drawn>, s: ScopeId, lineage: Lineage, k: nat)
    requires forall i :: 0 <= i < |drawn| && drawn[i].scope == s ==>
             drawn[i].seed == SeedAt(lineage, Count(drawn[..i], s))
    requires k < |SeedsTaken(drawn, s)|
    ensures SeedsTaken(drawn, s)[k] == SeedAt(lineage, k)
  {
    hide SeedAt;
    var n := |drawn| - 1;
    ActsCounted(drawn[..n], s);
    if k < |SeedsTaken(drawn[..n], s)| {
      assert forall i :: 0 <= i < n ==> drawn[..n][..i] == drawn[..i];
      TakenAre(drawn[..n], s, lineage, k);
    }
  }

  /**
    * Tasks that start from the same seeds and each draw and spawn in the same order take the same seeds, in any two
    * runs: on other threads, interleaved in another way, entered and left at other points.
    */
  lemma AnyTwoSchedulesDrawAlike(events: seq<Event>, other: seq<Event>)
    requires Roots(Run(events)) == Roots(Run(other))
    requires forall s :: Acts(Run(events).drawn, s) == Acts(Run(other).drawn, s)
    ensures var w, v := Run(events), Run(other);
            && w.scopes.Keys == v.scopes.Keys
            && forall s :: SeedsTaken(w.drawn, s) == SeedsTaken(v.drawn, s)
  {
    hide Run, Kin, ThreadSound, Apart, IdleSound, SeedAt, Acts, SeedsTaken, Count;
    var w, v := Run(events), Run(other);
    RunIsKin(events);
    RunIsKin(other);
    RunIsSound(events);
    RunIsSound(other);
    forall s
      ensures s in w.scopes <==> s in v.scopes
      ensures s in w.scopes && s in v.scopes ==> w.scopes[s].lineage == v.scopes[s].lineage
    {
      if s in w.scopes {
        SameOrigin(w, v, s);
      } else if s in v.scopes {
        SameOrigin(v, w, s);
      }
    }
    forall s
      ensures SeedsTaken(w.drawn, s) == SeedsTaken(v.drawn, s)
    {
      SameTaken(w, v, s);
    }
  }

  lemma SameTaken(w: World, v: World, s: ScopeId)
    requires DrawnSound(w) && DrawnSound(v) && Acts(w.drawn, s) == Acts(v.drawn, s)
    requires s in w.scopes <==> s in v.scopes
    requires s in w.scopes && s in v.scopes ==> w.scopes[s].lineage == v.scopes[s].lineage
    ensures SeedsTaken(w.drawn, s) == SeedsTaken(v.drawn, s)
  {
    hide SeedAt, Acts, SeedsTaken, Count;
    ActsCounted(w.drawn, s);
    ActsCounted(v.drawn, s);
    if s in w.scopes {
      forall k | 0 <= k < |SeedsTaken(w.drawn, s)|
        ensures SeedsTaken(w.drawn, s)[k] == SeedsTaken(v.drawn, s)[k]
      {
        TakenAre(w.drawn, s, w.scopes[s].lineage, k);
        TakenAre(v.drawn, s, v.scopes[s].lineage, k);
      }
    } else {
      UnusedCount(w.drawn, s);
      UnusedCount(v.drawn, s);
    }
  }
}
