/** The oracle never complains about a run that is consistent with one committed log. */
module OracleSoundness {
  import opened RaftTypes
  import opened ByteStrings
  import opened ClientHistories
  import opened OracleDetection
  import opened OracleDurability

  // The predecessor check, exactly.

  /** A known write to the key sits strictly between the reported predecessor and the ack. */
  ghost predicate Skipped(evidence: set<Evidence>, key: Bytes, low: LogId, high: LogId) {
    exists e :: e in evidence && e.key == key && low.Less(e.logId) && e.logId.Less(high)
  }

  lemma BrokenExactly(known: map<LogId, nat>, logId: LogId, p: LogId)
    ensures IsBroken(logId, Some(p), NewestBelow(known, logId))
            <==> !p.Less(logId) || exists l :: l in known && p.Less(l) && l.Less(logId)
  {
    var newest := NewestBelow(known, logId);
    if l :| l in known && p.Less(l) && l.Less(logId) {
      assert newest.Some? && l.AtMost(newest.value);
    }
    if newest.Some? && p.Less(newest.value) {
      assert newest.value in known;
    }
  }

  /** The writes that the check of an ack's predecessor can see are those known after the ack. */
  lemma AckKnows(h: History, serial: nat, logId: LogId, prev: Option<ValueMeta>)
    requires serial in h.attempts
    ensures var key := h.attempts[serial].key;
            KnownWithPrev(AckPinned(h, serial, logId), key, prev) == Committed(WriteAcked(h, serial, logId, prev), key)
  {
    hide Resolve, Observe, NewestBelow, IsBroken, RaiseFloor, ReportIf;
    var key := h.attempts[serial].key;
    var h1 := AckPinned(h, serial, logId);
    var h2 := if prev.Some? then Observe(h1, key, prev.value) else h1;
    var newest := NewestBelow(Committed(h2, key), logId);
    var broken, v := IsBroken(logId, LogIdOf(prev), newest), BrokenPredecessor(key, logId, LogIdOf(prev), newest);
    ReportMembers(h2, broken, v);
    RaiseFields(ReportIf(h2, broken, v), key, logId);
  }

  /**
   * An ack's predecessor is reported broken exactly when it does not sit below the ack or a write to the key known by
   * then, the ack's own evidence included, sits strictly between the two.
   */
  lemma PredecessorExactlyChecked(events: seq<Event>, serial: nat, logId: LogId, meta: ValueMeta)
    requires serial in Run(events).attempts
    ensures var h, e := Run(events), Ack(serial, logId, Some(meta));
            Of(Step(h, e).violations, Broken) != Of(h.violations, Broken)
            <==> || !meta.logId.Less(logId)
                 || Skipped(ClaimsOf(events + [e]).evidence, h.attempts[serial].key, meta.logId, logId)
  {
    var h, e := Run(events), Ack(serial, logId, Some(meta));
    var key, g, all := h.attempts[serial].key, Step(h, e), events + [e];
    assert Run(all) == g by {
      assert all[..|events|] == events;
    }
    hide Run, ClaimsOf, Of, WriteAcked, AckPinned, KnownWithPrev, NewestBelow, IsBroken, Exact, Skipped;
    AckAdds(h, serial, logId, Some(meta), Broken);
    AckKnows(h, serial, logId, Some(meta));
    BrokenExactly(Committed(g, key), logId, meta.logId);
    RunIsExact(all);
    KnownBetween(g, ClaimsOf(all), key, meta.logId, logId);
  }

  lemma KnownBetween(g: History, c: Claims, key: Bytes, low: LogId, high: LogId)
    requires Exact(g, c)
    ensures (exists l :: l in Committed(g, key) && low.Less(l) && l.Less(high)) <==> Skipped(c.evidence, key, low, high)
  {
    assert CommittedKnown(g.committedByKey, c.evidence);
    hide Exact;
    if l :| l in Committed(g, key) && low.Less(l) && l.Less(high) {
      assert Knows(g.committedByKey, key, l);
      assert Claimed(c.evidence, key, l);
    }
    if e :| e in c.evidence && e.key == key && low.Less(e.logId) && e.logId.Less(high) {
      assert Claimed(c.evidence, key, e.logId);
      assert Knows(g.committedByKey, key, e.logId);
    }
  }

  // The committed log.

  datatype Write = Write(serial: nat, key: Bytes, value: Bytes, logId: LogId)

  /** Log ids increase along the log and every request is in it at most once. */
  ghost predicate IsLog(log: seq<Write>) {
    && (forall i, j :: 0 <= i < j < |log| ==> log[i].logId.Less(log[j].logId))
    && (forall i, j :: 0 <= i < j < |log| ==> log[i].serial != log[j].serial)
  }

  /** What the state machine holds under `key` once the first `n` writes are applied. */
  function StateAt(log: seq<Write>, n: nat, key: Bytes): Option<ValueMeta>
    requires n <= |log|
  {
    if n == 0 then None
    else
      var w := log[n - 1];
      if w.key == key then Some(ValueMeta(w.value, w.serial, w.logId)) else StateAt(log, n - 1, key)
  }

  /** The state at `n` is write `p`, the last one to the key. */
  ghost predicate LastWrite(log: seq<Write>, n: nat, key: Bytes, p: int) {
    && 0 <= p < n <= |log|
    && log[p].key == key
    && forall q :: p < q < n ==> log[q].key != key
  }

  lemma {:induction false} StateIsLastWrite(log: seq<Write>, n: nat, key: Bytes)
    requires n <= |log|
    ensures StateAt(log, n, key).None? ==> forall p :: 0 <= p < n ==> log[p].key != key
    ensures StateAt(log, n, key).Some? ==>
              exists p :: LastWrite(log, n, key, p)
                && StateAt(log, n, key).value == ValueMeta(log[p].value, log[p].serial, log[p].logId)
  {
    if n > 0 {
      StateIsLastWrite(log, n - 1, key);
      if log[n - 1].key == key {
        assert LastWrite(log, n, key, n - 1);
      } else if StateAt(log, n, key).Some? {
        var p :| LastWrite(log, n - 1, key, p)
          && StateAt(log, n, key).value == ValueMeta(log[p].value, log[p].serial, log[p].logId);
        assert LastWrite(log, n, key, p);
      }
    }
  }

  /** The state at `n` covers every write to the key before `n`. */
  lemma StateCovers(log: seq<Write>, n: nat, p: nat)
    requires IsLog(log) && p < n <= |log|
    ensures !IsBelow(LogIdOf(StateAt(log, n, log[p].key)), log[p].logId)
  {
    StateIsLastWrite(log, n, log[p].key);
    var q :| LastWrite(log, n, log[p].key, q)
             && StateAt(log, n, log[p].key).value == ValueMeta(log[q].value, log[q].serial, log[q].logId);
    assert p <= q;
  }

  // Runs that the committed log explains.

  /** Write `w` was recorded before it could reach any node: its serial's latest attempt is this write. */
  predicate Recorded(events: seq<Event>, w: Write) {
    LatestAttempt(events, w.serial) == Some((w.key, w.value))
  }

  ghost predicate IsWrite(log: seq<Write>, p: int, key: Bytes, serial: nat, logId: LogId) {
    0 <= p < |log| && log[p].key == key && log[p].serial == serial && log[p].logId == logId
  }

  /** Every write to any key before `n` was recorded. */
  ghost predicate AllRecorded(log: seq<Write>, n: int, events: seq<Event>) {
    n <= |log| && forall p :: 0 <= p < n ==> Recorded(events, log[p])
  }

  /** Everything acked by `events` lies in the first `n` writes. */
  ghost predicate CoversAcks(log: seq<Write>, n: int, events: seq<Event>) {
    forall j, p :: 0 <= j < |events| && events[j].Ack? && 0 <= p < |log| && log[p].logId == events[j].logId ==> p < n
  }

  ghost predicate CoversReads(n: int, events: seq<Event>, points: seq<nat>)
    requires |points| == |events|
  {
    forall j :: 0 <= j < |events| && events[j].Read? ==> points[j] <= n
  }

  ghost predicate CoversBarrier(log: seq<Write>, n: int, barrier: Option<LogId>) {
    barrier.Some? ==> forall p :: 0 <= p < |log| && log[p].logId.AtMost(barrier.value) ==> p < n
  }

  /** A member's state machine after the first `n` writes. */
  ghost predicate IsStateOf(log: seq<Write>, n: nat, m: Member) {
    && n <= |log|
    && (forall k ::
          (k in m.data <==> StateAt(log, n, k).Some?) && (k in m.data ==> StateAt(log, n, k) == Some(m.data[k])))
  }

  /** A member that has converged: it covers all acks and reads so far. */
  ghost predicate Converged(log: seq<Write>, n: nat, before: seq<Event>, points: seq<nat>, m: Member)
    requires |points| == |before|
  {
    IsStateOf(log, n, m) && AllRecorded(log, n, before) && CoversAcks(log, n, before) && CoversReads(n, before, points)
  }

  ghost predicate AckExplained(log: seq<Write>, before: seq<Event>, p: nat, serial: nat, logId: LogId,
      prev: Option<ValueMeta>) {
    && p < |log| && log[p].serial == serial && log[p].logId == logId
    && AllRecorded(log, p + 1, before)
    && prev == StateAt(log, p, log[p].key)
  }

  /** A read that began after the first `begin` calls and saw the state after `n` writes. */
  ghost predicate ReadExplained(log: seq<Write>, before: seq<Event>, points: seq<nat>, begin: nat, n: nat, e: Event)
    requires |points| == |before| && e.Read?
  {
    && n <= |log| && begin <= |before|
    && e.observed == StateAt(log, n, e.key)
    && e.floor == AckedFloor(Run(before[..begin]), e.key)
    && CoversBarrier(log, n, e.barrier)
    && CoversAcks(log, n, before[..begin])
    && CoversReads(n, before, points)
    && AllRecorded(log, n, before)
  }

  /**
   * The log explains call `e` after `before`: acks carry the true position and the true previous value, reads see a
   * state that covers their barrier, the acks before they began and the reads before them, members have converged.
   * `point` is the state a read saw.
   */
  ghost predicate Explained(log: seq<Write>, before: seq<Event>, points: seq<nat>, e: Event, point: nat)
    requires |points| == |before|
  {
    match e
    case Ack(serial, logId, prev) => exists p: nat :: AckExplained(log, before, p, serial, logId, prev)
    case Read(_, _, _, _) => exists begin: nat :: ReadExplained(log, before, points, begin, point, e)
    case Final(members) => forall m :: m in members ==> exists n: nat :: Converged(log, n, before, points, m)
    case _ => true
  }

  ghost predicate Consistent(log: seq<Write>, events: seq<Event>, points: seq<nat>) {
    && |points| == |events|
    && forall i :: 0 <= i < |events| ==> Explained(log, events[..i], points[..i], events[i], points[i])
  }

  // Claims of such runs are true.

  ghost predicate InLog(log: seq<Write>, key: Bytes, serial: nat, logId: LogId) {
    exists p :: IsWrite(log, p, key, serial, logId)
  }

  ghost predicate EvidenceTrue(log: seq<Write>, evidence: set<Evidence>) {
    forall e :: e in evidence ==> InLog(log, e.key, e.serial, e.logId)
  }

  ghost predicate AbsenceTrue(log: seq<Write>, a: Absence) {
    forall p :: 0 <= p < |log| && log[p].key == a.key ==> !log[p].logId.Less(a.bound)
  }

  ghost predicate ClaimsTrue(log: seq<Write>, c: Claims) {
    EvidenceTrue(log, c.evidence) && forall a :: a in c.absences ==> AbsenceTrue(log, a)
  }

  lemma StateInLog(log: seq<Write>, n: nat, key: Bytes, meta: ValueMeta)
    requires n <= |log| && StateAt(log, n, key) == Some(meta)
    ensures InLog(log, key, meta.serial, meta.logId)
  {
    StateIsLastWrite(log, n, key);
    var p :| LastWrite(log, n, key, p) && meta == ValueMeta(log[p].value, log[p].serial, log[p].logId);
    assert IsWrite(log, p, key, meta.serial, meta.logId);
  }

  lemma {:induction false} KeyOfLatest(events: seq<Event>, serial: nat)
    ensures KeyOf(events, serial) ==
            match LatestAttempt(events, serial) { case Some(kv) => Some(kv.0) case None => None }
  {
    if events != [] {
      KeyOfLatest(events[..|events| - 1], serial);
    }
  }

  lemma AckClaimsTrue(log: seq<Write>, before: seq<Event>, p: nat, e: Event)
    requires IsLog(log) && e.Ack? && AckExplained(log, before, p, e.serial, e.logId, e.prev)
    ensures ClaimsTrue(log, ClaimsOfCall(before, e))
    ensures KeyOf(before, e.serial) == Some(log[p].key)
  {
    KeyOfLatest(before, e.serial);
    assert Recorded(before, log[p]);
    var key := log[p].key;
    assert IsWrite(log, p, key, e.serial, e.logId);
    if e.prev.Some? {
      StateInLog(log, p, key, e.prev.value);
    } else {
      StateIsLastWrite(log, p, key);
      forall q | 0 <= q < |log| && log[q].key == key
        ensures !log[q].logId.Less(e.logId)
      {
        assert q >= p;
      }
    }
  }

  lemma ReadClaimsTrue(log: seq<Write>, key: Bytes, observed: Option<ValueMeta>, barrier: Option<LogId>, n: nat)
    requires IsLog(log) && n <= |log| && observed == StateAt(log, n, key) && CoversBarrier(log, n, barrier)
    ensures ClaimsTrue(log, ReadClaims(key, observed, barrier))
  {
    if observed.Some? {
      StateInLog(log, n, key, observed.value);
    } else if barrier.Some? {
      StateIsLastWrite(log, n, key);
      forall q | 0 <= q < |log| && log[q].key == key
        ensures !log[q].logId.Less(After(barrier.value))
      {
        BelowAfter(log[q].logId, barrier.value);
      }
    }
  }

  /** No log id lies strictly between a log id and its successor under the same leader. */
  lemma BelowAfter(l: LogId, b: LogId)
    ensures l.Less(After(b)) <==> l.AtMost(b)
  {
  }

  lemma FinalClaimsTrue(log: seq<Write>, before: seq<Event>, points: seq<nat>, members: seq<Member>)
    requires |points| == |before|
    requires forall m :: m in members ==> exists n: nat :: Converged(log, n, before, points, m)
    ensures EvidenceTrue(log, EvidenceIn(members))
  {
    forall e | e in EvidenceIn(members)
      ensures InLog(log, e.key, e.serial, e.logId)
    {
      var m, k :| m in members && k in m.data && e == Evidence(k, m.data[k].serial, m.data[k].logId);
      var n: nat :| Converged(log, n, before, points, m);
      StateInLog(log, n, k, m.data[k]);
    }
  }

  lemma CallClaimsTrue(log: seq<Write>, before: seq<Event>, points: seq<nat>, e: Event, point: nat)
    requires IsLog(log) && |points| == |before| && Explained(log, before, points, e, point)
    ensures ClaimsTrue(log, ClaimsOfCall(before, e))
  {
    hide IsLog;
    match e
    case Ack(serial, logId, prev) =>
      var p: nat :| AckExplained(log, before, p, serial, logId, prev);
      AckClaimsTrue(log, before, p, e);
    case Read(key, observed, floor, barrier) =>
      var begin: nat :| ReadExplained(log, before, points, begin, point, e);
      ReadClaimsTrue(log, key, observed, barrier, point);
    case Final(members) => FinalClaimsTrue(log, before, points, members);
    case _ =>
  }

  lemma ConsistentPrefix(log: seq<Write>, events: seq<Event>, points: seq<nat>, n: nat)
    requires Consistent(log, events, points) && n <= |events|
    ensures Consistent(log, events[..n], points[..n])
  {
    hide Explained;
    forall i | 0 <= i < n
      ensures Explained(log, events[..n][..i], points[..n][..i], events[..n][i], points[..n][i])
    {
      assert events[..n][..i] == events[..i] && points[..n][..i] == points[..i];
    }
  }

  lemma {:induction false} RunClaimsTrue(log: seq<Write>, events: seq<Event>, points: seq<nat>)
    requires IsLog(log) && Consistent(log, events, points)
    ensures ClaimsTrue(log, ClaimsOf(events))
  {
    hide IsLog, Explained;
    if events != [] {
      var n := |events| - 1;
      ConsistentPrefix(log, events, points, n);
      RunClaimsTrue(log, events[..n], points[..n]);
      CallClaimsTrue(log, events[..n], points[..n], events[n], points[n]);
    }
  }

  // True claims raise no alarm.

  lemma SamePlace(log: seq<Write>, p: nat, q: nat)
    requires IsLog(log) && p < |log| && q < |log| && (log[p].serial == log[q].serial || log[p].logId == log[q].logId)
    ensures p == q
  {
  }

  lemma NoContradiction(log: seq<Write>, c: Claims, v: Violation)
    requires IsLog(log) && ClaimsTrue(log, c) && IsContradiction(v)
    ensures v.DuplicateApply? ==> !TwoLogIds(c.evidence, v.serial)
    ensures v.DivergentEntry? ==> !TwoSerials(c.evidence, v.logId)
    ensures v.WriteBelowAbsence? || v.BrokenPredecessor? ==> !WrittenBelowAbsence(c, v.key)
  {
    forall a, b | a in c.evidence && b in c.evidence && (a.serial == b.serial || a.logId == b.logId)
      ensures a.serial == b.serial && a.logId == b.logId
    {
      assert InLog(log, a.key, a.serial, a.logId) && InLog(log, b.key, b.serial, b.logId);
      var p :| IsWrite(log, p, a.key, a.serial, a.logId);
      var q :| IsWrite(log, q, b.key, b.serial, b.logId);
      SamePlace(log, p, q);
    }
    forall a, b | a in c.evidence && b in c.absences && a.key == b.key
      ensures !a.logId.Less(b.bound)
    {
      assert InLog(log, a.key, a.serial, a.logId) && AbsenceTrue(log, b);
      var p :| IsWrite(log, p, a.key, a.serial, a.logId);
    }
  }

  lemma NoContradictionUp(log: seq<Write>, events: seq<Event>, v: Violation)
    requires IsLog(log) && ClaimsTrue(log, ClaimsOf(events)) && IsContradiction(v)
    ensures v !in Run(events).violations
  {
    hide Run, ClaimsOf;
    NoContradiction(log, ClaimsOf(events), v);
    ContradictionsExactlyReported(events);
    var alarms := Run(events).violations;
    match v
    case DuplicateApply(serial, _, _) => assert !DuplicateUp(alarms, serial) && IsDuplicate(v, serial);
    case DivergentEntry(logId, _, _) => assert !DivergentUp(alarms, logId) && IsDivergent(v, logId);
    case WriteBelowAbsence(key, _, _, _) => assert !AbsenceUp(alarms, key) && IsAbsenceAlarm(v, key);
    case BrokenPredecessor(key, _, _, _) => assert !AbsenceUp(alarms, key) && IsAbsenceAlarm(v, key);
    case _ =>
  }

  lemma {:induction false} OfHas(alarms: seq<Violation>, v: Violation)
    requires v in alarms
    ensures Of(alarms, KindOf(v)) != []
  {
    var n := |alarms| - 1;
    if v != alarms[n] {
      assert v in alarms[..n];
      OfHas(alarms[..n], v);
    }
  }

  /** No alarm of any named kind and no contradiction: no alarm at all. */
  lemma NothingReported(alarms: seq<Violation>)
    requires forall kind :: kind != Other ==> Of(alarms, kind) == []
    requires forall v :: IsContradiction(v) ==> v !in alarms
    ensures alarms == []
  {
    hide Of;
    assert alarms != [] ==> alarms[0] in alarms;
    forall v | v in alarms
      ensures IsContradiction(v)
    {
      OfHas(alarms, v);
    }
  }

  // Marks of acks and reads come from calls.

  lemma {:induction false} AckHasCall(events: seq<Event>, a: Mark)
    requires a in AcksOf(events)
    ensures exists j :: 0 <= j < |events| && events[j].Ack? && events[j].logId == a.logId
                        && KeyOf(events[..j], events[j].serial) == Some(a.key)
  {
    var n := |events| - 1;
    if a in AcksOf(events[..n]) {
      AckHasCall(events[..n], a);
      var j :| 0 <= j < n && events[..n][j].Ack? && events[..n][j].logId == a.logId
               && KeyOf(events[..n][..j], events[..n][j].serial) == Some(a.key);
      assert events[..n][..j] == events[..j] && events[..n][j] == events[j];
    } else {
      assert events[n].Ack?;
    }
  }

  lemma {:induction false} ReadHasCall(events: seq<Event>, a: Mark)
    requires a in ReadsOf(events)
    ensures exists j :: 0 <= j < |events| && events[j].Read? && events[j].key == a.key
                        && LogIdOf(events[j].observed) == Some(a.logId)
  {
    var n := |events| - 1;
    if a in ReadsOf(events[..n]) {
      ReadHasCall(events[..n], a);
      var j :| 0 <= j < n && events[..n][j].Read? && events[..n][j].key == a.key
               && LogIdOf(events[..n][j].observed) == Some(a.logId);
      assert events[..n][j] == events[j];
    } else {
      assert events[n].Read?;
    }
  }

  /** Every acked mark is a write of the log, before any point that covers the acks. */
  lemma AckPlace(log: seq<Write>, events: seq<Event>, points: seq<nat>, a: Mark) returns (p: nat)
    requires IsLog(log) && Consistent(log, events, points) && a in AcksOf(events)
    ensures p < |log| && log[p].key == a.key && log[p].logId == a.logId
    ensures forall n :: CoversAcks(log, n, events) ==> p < n
  {
    AckHasCall(events, a);
    var j :| 0 <= j < |events| && events[j].Ack? && events[j].logId == a.logId
             && KeyOf(events[..j], events[j].serial) == Some(a.key);
    assert Explained(log, events[..j], points[..j], events[j], points[j]);
    p :| AckExplained(log, events[..j], p, events[j].serial, events[j].logId, events[j].prev);
    AckClaimsTrue(log, events[..j], p, events[j]);
  }

  lemma ReadPlace(log: seq<Write>, events: seq<Event>, points: seq<nat>, a: Mark) returns (p: nat)
    requires IsLog(log) && Consistent(log, events, points) && a in ReadsOf(events)
    ensures p < |log| && log[p].key == a.key && log[p].logId == a.logId
    ensures forall n :: CoversReads(n, events, points) ==> p < n
  {
    ReadHasCall(events, a);
    var j :| 0 <= j < |events| && events[j].Read? && events[j].key == a.key
      && LogIdOf(events[j].observed) == Some(a.logId);
    assert Explained(log, events[..j], points[..j], events[j], points[j]);
    var begin: nat :| ReadExplained(log, events[..j], points[..j], begin, points[j], events[j]);
    StateIsLastWrite(log, points[j], a.key);
    var q :| LastWrite(log, points[j], a.key, q)
             && events[j].observed.value == ValueMeta(log[q].value, log[q].serial, log[q].logId);
    p := q;
  }

  lemma NoAckMissed(log: seq<Write>, events: seq<Event>, points: seq<nat>, n: nat, key: Bytes)
    requires IsLog(log) && Consistent(log, events, points) && n <= |log| && CoversAcks(log, n, events)
    ensures !Misses(AcksOf(events), key, LogIdOf(StateAt(log, n, key)))
  {
    hide Consistent, IsBelow;
    forall a | a in AcksOf(events) && a.key == key
      ensures !IsBelow(LogIdOf(StateAt(log, n, key)), a.logId)
    {
      var p := AckPlace(log, events, points, a);
      StateCovers(log, n, p);
    }
  }

  lemma NoReadMissed(log: seq<Write>, events: seq<Event>, points: seq<nat>, n: nat, key: Bytes)
    requires IsLog(log) && Consistent(log, events, points) && n <= |log| && CoversReads(n, events, points)
    ensures !Misses(ReadsOf(events), key, LogIdOf(StateAt(log, n, key)))
  {
    hide Consistent, IsBelow;
    forall a | a in ReadsOf(events) && a.key == key
      ensures !IsBelow(LogIdOf(StateAt(log, n, key)), a.logId)
    {
      var p := ReadPlace(log, events, points, a);
      StateCovers(log, n, p);
    }
  }

  /** A value of the state at `n` is no phantom. */
  lemma StateRecorded(log: seq<Write>, n: nat, key: Bytes, meta: ValueMeta, before: seq<Event>)
    requires n <= |log| && AllRecorded(log, n, before) && StateAt(log, n, key) == Some(meta)
    ensures WasAttempted(before, Sighting(key, meta))
  {
    StateIsLastWrite(log, n, key);
    var p :| LastWrite(log, n, key, p) && meta == ValueMeta(log[p].value, log[p].serial, log[p].logId);
    assert Recorded(before, log[p]);
  }

  lemma NoPhantomSeen(log: seq<Write>, before: seq<Event>, points: seq<nat>, e: Event, point: nat, x: Sighting)
    requires IsLog(log) && |points| == |before| && Explained(log, before, points, e, point)
    requires x in SightingsIn(before, e)
    ensures WasAttempted(before, x)
  {
    match e
    case Ack(serial, logId, prev) =>
      var p: nat :| AckExplained(log, before, p, serial, logId, prev);
      AckClaimsTrue(log, before, p, e);
      StateRecorded(log, p, log[p].key, prev.value, before);
    case Read(key, observed, floor, barrier) =>
      var begin: nat :| ReadExplained(log, before, points, begin, point, e);
      StateRecorded(log, point, key, observed.value, before);
    case Final(members) =>
      var m, k :| m in members && k in m.data && x == Sighting(k, m.data[k]);
      var n: nat :| Converged(log, n, before, points, m);
      StateRecorded(log, n, k, m.data[k], before);
    case _ =>
  }

  // One explained call raises no alarm.

  ghost predicate Quiet(h: History) {
    forall kind :: kind != Other ==> Of(h.violations, kind) == []
  }

  lemma PhantomsQuiet(log: seq<Write>, before: seq<Event>, points: seq<nat>, e: Event, point: nat)
    requires IsLog(log) && |points| == |before| && Explained(log, before, points, e, point)
    requires Of(Run(before).violations, Phantom) == []
    ensures Of(Step(Run(before), e).violations, Phantom) == []
  {
    StepPhantoms(before, e);
    hide Run, Step, Of, Explained, IsLog, Matches, WasAttempted, SightingsIn;
    forall x | x in SightingsIn(before, e)
      ensures Matches(Run(before), x.key, x.meta)
    {
      NoPhantomSeen(log, before, points, e, point, x);
      MatchesExactly(before, x);
    }
  }

  lemma AckQuiet(log: seq<Write>, before: seq<Event>, points: seq<nat>, e: Event, point: nat)
    requires IsLog(log) && Consistent(log, before, points) && Explained(log, before, points, e, point) && e.Ack?
    requires Quiet(Run(before))
    ensures Quiet(Step(Run(before), e))
  {
    var h := Run(before);
    var p: nat :| AckExplained(log, before, p, e.serial, e.logId, e.prev);
    AckClaimsTrue(log, before, p, e);
    AttemptsKnown(before, e.serial);
    PhantomsQuiet(log, before, points, e, point);
    BrokenQuiet(log, before, points, e, point, p);
    hide Run, Of, WriteAcked, IsLog, Consistent, Explained, KeyOf;
    forall kind | kind != Other
      ensures Of(Step(h, e).violations, kind) == []
    {
      AckAdds(h, e.serial, e.logId, e.prev, kind);
    }
  }

  lemma BrokenQuiet(log: seq<Write>, before: seq<Event>, points: seq<nat>, e: Event, point: nat, p: nat)
    requires IsLog(log) && Consistent(log, before, points) && Explained(log, before, points, e, point) && e.Ack?
    requires AckExplained(log, before, p, e.serial, e.logId, e.prev)
    requires Of(Run(before).violations, Broken) == [] && e.serial in Run(before).attempts
    ensures Of(Step(Run(before), e).violations, Broken) == []
  {
    var h := Run(before);
    hide Run, Of, Explained, Consistent;
    if e.prev.Some? {
      PredecessorExactlyChecked(before, e.serial, e.logId, e.prev.value);
      AttemptsKnown(before, e.serial);
      AckClaimsTrue(log, before, p, e);
      var key := log[p].key;
      StateIsLastWrite(log, p, key);
      var q :| LastWrite(log, p, key, q) && e.prev.value == ValueMeta(log[q].value, log[q].serial, log[q].logId);
      ExtendedClaims(log, before, points, e, point);
      NothingBetween(log, ClaimsOf(before + [e]).evidence, p, q);
    } else {
      hide WriteAcked;
      AckAdds(h, e.serial, e.logId, e.prev, Broken);
    }
  }

  lemma ExtendedClaims(log: seq<Write>, before: seq<Event>, points: seq<nat>, e: Event, point: nat)
    requires IsLog(log) && Consistent(log, before, points) && Explained(log, before, points, e, point)
    ensures ClaimsTrue(log, ClaimsOf(before + [e]))
  {
    var all := before + [e];
    assert all[..|before|] == before;
    hide IsLog, Consistent, Explained;
    RunClaimsTrue(log, before, points);
    CallClaimsTrue(log, before, points, e, point);
  }

  lemma NothingBetween(log: seq<Write>, evidence: set<Evidence>, p: nat, q: nat)
    requires IsLog(log) && EvidenceTrue(log, evidence) && p < |log| && LastWrite(log, p, log[p].key, q)
    ensures log[q].logId.Less(log[p].logId) && !Skipped(evidence, log[p].key, log[q].logId, log[p].logId)
  {
    forall e | e in evidence && e.key == log[p].key && log[q].logId.Less(e.logId)
      ensures !e.logId.Less(log[p].logId)
    {
      assert InLog(log, e.key, e.serial, e.logId);
      var r :| IsWrite(log, r, e.key, e.serial, e.logId);
      assert r > q;
      assert r >= p;
    }
  }

  lemma ReadQuiet(log: seq<Write>, before: seq<Event>, points: seq<nat>, e: Event, point: nat)
    requires IsLog(log) && Consistent(log, before, points) && Explained(log, before, points, e, point) && e.Read?
    requires Quiet(Run(before))
    ensures Quiet(Step(Run(before), e))
  {
    var h := Run(before);
    var begin: nat :| ReadExplained(log, before, points, begin, point, e);
    PhantomsQuiet(log, before, points, e, point);
    hide Of, ReadDone, IsLog, Consistent, Explained, Misses;
    ConsistentPrefix(log, before, points, begin);
    NoAckMissed(log, before[..begin], points[..begin], point, e.key);
    StaleExactlyWhenAckMissed(before, begin, e.key, e.observed, e.barrier);
    NoReadMissed(log, before, points, point, e.key);
    RegressionExactlyWhenReadMissed(before, e.key, e.observed, e.floor, e.barrier);
    hide Run;
    forall kind | kind != Other
      ensures Of(Step(h, e).violations, kind) == []
    {
      ReadAdds(h, e.key, e.observed, e.floor, e.barrier, kind);
    }
  }

  lemma FinalQuiet(log: seq<Write>, before: seq<Event>, points: seq<nat>, e: Event, point: nat)
    requires IsLog(log) && Consistent(log, before, points) && Explained(log, before, points, e, point) && e.Final?
    requires Quiet(Run(before))
    ensures Quiet(Step(Run(before), e))
  {
    var h := Run(before);
    PhantomsQuiet(log, before, points, e, point);
    assert Step(h, e) == FinalChecked(h, e.members);
    hide Run, Step, FinalChecked, IsLog, Consistent, Of, Lacks, LosesAcked, LosesObserved, ShowsPhantom;
    forall m | m in e.members
      ensures !Lacks(m, AcksOf(before)) && !Lacks(m, ReadsOf(before))
    {
      var n: nat :| Converged(log, n, before, points, m);
      NothingLacking(log, before, points, n, m);
    }
    hide Explained;
    LossesExactlyReported(before, e.members);
    FinalKindsQuiet(h, e.members);
  }

  lemma FinalKindsQuiet(h: History, members: seq<Member>)
    requires Quiet(h)
    requires Of(FinalChecked(h, members).violations, Phantom) == []
    requires Of(FinalChecked(h, members).violations, LostAcked) == []
    requires Of(FinalChecked(h, members).violations, LostObserved) == []
    ensures Quiet(FinalChecked(h, members))
  {
    hide FinalChecked, Of, LosesAcked, LosesObserved, ShowsPhantom;
    FinalExactly(h, members);
    var g := FinalChecked(h, members);
    forall kind | kind != Other
      ensures Of(g.violations, kind) == []
    {
      match kind
      case Monotonic => assert Of(h.violations, Monotonic) == [];
      case Stale => assert Of(h.violations, Stale) == [];
      case Broken => assert Of(h.violations, Broken) == [];
      case _ =>
    }
  }

  lemma NothingLacking(log: seq<Write>, before: seq<Event>, points: seq<nat>, n: nat, m: Member)
    requires IsLog(log) && Consistent(log, before, points) && Converged(log, n, before, points, m)
    ensures !Lacks(m, AcksOf(before)) && !Lacks(m, ReadsOf(before))
  {
    hide IsLog, Consistent, AcksOf, ReadsOf, IsBelow, StateAt;
    forall a | a in AcksOf(before)
      ensures !IsBelow(FoundIn(m, a.key), a.logId)
    {
      NoAckMissed(log, before, points, n, a.key);
      assert FoundIn(m, a.key) == LogIdOf(StateAt(log, n, a.key));
    }
    forall a | a in ReadsOf(before)
      ensures !IsBelow(FoundIn(m, a.key), a.logId)
    {
      NoReadMissed(log, before, points, n, a.key);
      assert FoundIn(m, a.key) == LogIdOf(StateAt(log, n, a.key));
    }
  }

  lemma {:induction false} RunIsQuiet(log: seq<Write>, events: seq<Event>, points: seq<nat>)
    requires IsLog(log) && Consistent(log, events, points)
    ensures Quiet(Run(events))
  {
    if events != [] {
      var n := |events| - 1;
      var before, e := events[..n], events[n];
      ConsistentPrefix(log, events, points, n);
      RunIsQuiet(log, before, points[..n]);
      assert Explained(log, before, points[..n], e, points[n]);
      assert Run(events) == Step(Run(before), e);
      hide Run, Quiet, Explained, Consistent, IsLog;
      match e
      case Ack(_, _, _) => AckQuiet(log, before, points[..n], e, points[n]);
      case Read(_, _, _, _) => ReadQuiet(log, before, points[..n], e, points[n]);
      case Final(_) => FinalQuiet(log, before, points[..n], e, points[n]);
      case _ => OtherQuiet(Run(before), e);
    }
  }

  lemma OtherQuiet(h: History, e: Event)
    requires Quiet(h) && (e.Attempt? || e.Fail?)
    ensures Quiet(Step(h, e))
  {
    hide Of;
  }

  /**
   * Soundness: on every run that one committed log explains, whatever the order of acks, failures, reads and final
   * scans, nothing is ever reported.
   */
  lemma ConsistentRunsRaiseNoAlarm(log: seq<Write>, events: seq<Event>, points: seq<nat>)
    requires IsLog(log) && Consistent(log, events, points)
    ensures Run(events).violations == []
  {
    RunIsQuiet(log, events, points);
    RunClaimsTrue(log, events, points);
    hide Run, ClaimsOf, Of, IsLog, Consistent, ClaimsTrue;
    forall v | IsContradiction(v)
      ensures v !in Run(events).violations
    {
      NoContradictionUp(log, events, v);
    }
    NothingReported(Run(events).violations);
  }
}
