/** The client-observation oracle: what each call records and which alarms it raises. */
module ClientHistories {
  import opened RaftTypes
  import opened ByteStrings

  datatype Outcome = Pending | Acked(logId: LogId) | Unknown

  datatype WriteAttempt = WriteAttempt(key: Bytes, value: Bytes, outcome: Outcome)

  datatype ValueMeta = ValueMeta(value: Bytes, serial: nat, logId: LogId)

  datatype Violation =
    | PhantomValue(key: Bytes, serial: nat, value: Bytes)
    | NonMonotonicRead(key: Bytes, before: LogId, seen: Option<LogId>)
    | StaleRead(key: Bytes, acked: LogId, seen: Option<LogId>)
    | LostAckedWrite(node: nat, key: Bytes, acked: LogId, found: Option<LogId>)
    | LostObservedWrite(node: nat, key: Bytes, observed: LogId, found: Option<LogId>)
    | DuplicateApply(serial: nat, first: LogId, second: LogId)
    | DivergentEntry(logId: LogId, firstSerial: nat, secondSerial: nat)
    | BrokenPredecessor(key: Bytes, logId: LogId, prev: Option<LogId>, newestBelow: Option<LogId>)
    | WriteBelowAbsence(key: Bytes, serial: nat, logId: LogId, absentAt: LogId)

  /** A member's settled state machine: every key with its value. */
  datatype Member = Member(node: nat, data: map<Bytes, ValueMeta>)

  /** The value of a `ClientHistory` object. */
  datatype History = History(
    attempts: map<nat, WriteAttempt>,
    resolvedLog: map<nat, LogId>,
    resolvedSerial: map<LogId, nat>,
    committedByKey: map<Bytes, map<LogId, nat>>,
    absentBelow: map<Bytes, LogId>,
    maxAcked: map<Bytes, (LogId, nat)>,
    lastRead: map<Bytes, LogId>,
    violations: seq<Violation>)

  const NOTHING := History(map[], map[], map[], map[], map[], map[], map[], [])

  /** The known committed writes of a key. */
  function Committed(h: History, key: Bytes): map<LogId, nat> {
    if key in h.committedByKey then h.committedByKey[key] else map[]
  }

  predicate IsNewestBelow(writes: map<LogId, nat>, bound: LogId, l: LogId) {
    l in writes && l.Less(bound) && forall m :: m in writes && m.Less(bound) ==> m.AtMost(l)
  }

  ghost function Between(writes: map<LogId, nat>, low: LogId, bound: LogId): set<LogId> {
    set m | m in writes && low.Less(m) && m.Less(bound)
  }

  lemma {:induction false} NewestExists(writes: map<LogId, nat>, bound: LogId, l: LogId)
    requires l in writes && l.Less(bound)
    ensures exists m :: IsNewestBelow(writes, bound, m)
    decreases |Between(writes, l, bound)|
  {
    if m :| m in Between(writes, l, bound) {
      Shrinks(Between(writes, m, bound), Between(writes, l, bound), m);
      NewestExists(writes, bound, m);
    } else {
      forall m | m in writes && m.Less(bound)
        ensures m.AtMost(l)
      {
        assert m !in Between(writes, l, bound);
      }
      assert IsNewestBelow(writes, bound, l);
    }
  }

  lemma Shrinks(a: set<LogId>, b: set<LogId>, x: LogId)
    requires a <= b && x in b && x !in a
    ensures |a| < |b|
  {
    assert b == a + (b - a);
    assert x in b - a;
  }

  lemma NewestIsUnique(writes: map<LogId, nat>, bound: LogId)
    requires exists l :: l in writes && l.Less(bound)
    ensures exists m :: IsNewestBelow(writes, bound, m)
    ensures forall m, n :: IsNewestBelow(writes, bound, m) && IsNewestBelow(writes, bound, n) ==> m == n
  {
    var l :| l in writes && l.Less(bound);
    NewestExists(writes, bound, l);
  }

  /** The last entry of a sorted map's range below `bound`. */
  function NewestBelow(writes: map<LogId, nat>, bound: LogId): (r: Option<LogId>)
    ensures r.Some? ==> IsNewestBelow(writes, bound, r.value)
    ensures r.None? ==> forall l :: l in writes ==> !l.Less(bound)
  {
    if exists l :: l in writes && l.Less(bound) then
      NewestIsUnique(writes, bound);
      var m :| m in writes && IsNewestBelow(writes, bound, m);
      Some(m)
    else None
  }

  // What each call does.

  function Report(h: History, v: Violation): History {
    h.(violations := h.violations + [v])
  }

  function ReportIf(h: History, raised: bool, v: Violation): History {
    if raised then Report(h, v) else h
  }

  predicate Matches(h: History, key: Bytes, meta: ValueMeta) {
    meta.serial in h.attempts && h.attempts[meta.serial].key == key && h.attempts[meta.serial].value == meta.value
  }

  /** An observed value must be that of a tracked attempt. */
  function CheckAttempted(h: History, key: Bytes, meta: ValueMeta): History {
    ReportIf(h, !Matches(h, key, meta), PhantomValue(key, meta.serial, meta.value))
  }

  function PinSerial(h: History, serial: nat, logId: LogId): History {
    if serial !in h.resolvedLog then h.(resolvedLog := h.resolvedLog[serial := logId])
    else ReportIf(h, h.resolvedLog[serial] != logId, DuplicateApply(serial, h.resolvedLog[serial], logId))
  }

  function PinLogId(h: History, serial: nat, logId: LogId): History {
    if logId !in h.resolvedSerial then h.(resolvedSerial := h.resolvedSerial[logId := serial])
    else ReportIf(h, h.resolvedSerial[logId] != serial, DivergentEntry(logId, h.resolvedSerial[logId], serial))
  }

  function AddCommitted(h: History, key: Bytes, serial: nat, logId: LogId): History {
    h.(committedByKey := h.committedByKey[key := Committed(h, key)[logId := serial]])
  }

  function CheckFloor(h: History, key: Bytes, serial: nat, logId: LogId): History {
    if key in h.absentBelow
    then ReportIf(h, logId.Less(h.absentBelow[key]), WriteBelowAbsence(key, serial, logId, h.absentBelow[key]))
    else h
  }

  /** Pin a serial to a log id on a key. */
  function Resolve(h: History, key: Bytes, serial: nat, logId: LogId): History {
    CheckFloor(AddCommitted(PinLogId(PinSerial(h, serial, logId), serial, logId), key, serial, logId), key, serial,
      logId)
  }

  /** A value seen on a key: checked, then pinned. */
  function Observe(h: History, key: Bytes, meta: ValueMeta): History {
    Resolve(CheckAttempted(h, key, meta), key, meta.serial, meta.logId)
  }

  function RaiseFloor(h: History, key: Bytes, bound: LogId): History {
    if key in h.absentBelow && !h.absentBelow[key].Less(bound) then h
    else h.(absentBelow := h.absentBelow[key := bound])
  }

  function LogIdOf(meta: Option<ValueMeta>): Option<LogId> {
    if meta.Some? then Some(meta.value.logId) else None
  }

  predicate IsBroken(logId: LogId, prev: Option<LogId>, newest: Option<LogId>) {
    match (prev, newest)
    case (Some(p), _) => !p.Less(logId) || (newest.Some? && p.Less(newest.value))
    case (None, Some(_)) => true
    case (None, None) => false
  }

  /** Check the value that an apply found directly below its own position. */
  function CheckPrev(h: History, key: Bytes, logId: LogId, prev: Option<ValueMeta>): History {
    var h1 := if prev.Some? then Observe(h, key, prev.value) else h;
    var newest := NewestBelow(Committed(h1, key), logId);
    var h2 := ReportIf(h1, IsBroken(logId, LogIdOf(prev), newest),
      BrokenPredecessor(key, logId, LogIdOf(prev), newest));
    if prev.None? then RaiseFloor(h2, key, logId) else h2
  }

  function RaiseAcked(h: History, key: Bytes, serial: nat, logId: LogId): History {
    if key in h.maxAcked && !h.maxAcked[key].0.Less(logId) then h
    else h.(maxAcked := h.maxAcked[key := (logId, serial)])
  }

  function WriteAttempted(h: History, serial: nat, key: Bytes, value: Bytes): History {
    h.(attempts := h.attempts[serial := WriteAttempt(key, value, Pending)])
  }

  function SetOutcome(h: History, serial: nat, outcome: Outcome): History
    requires serial in h.attempts
  {
    h.(attempts := h.attempts[serial := h.attempts[serial].(outcome := outcome)])
  }

  function WriteAcked(h: History, serial: nat, logId: LogId, prev: Option<ValueMeta>): History {
    if serial !in h.attempts then h
    else
      var key := h.attempts[serial].key;
      var h1 := Resolve(SetOutcome(h, serial, Acked(logId)), key, serial, logId);
      CheckPrev(RaiseAcked(h1, key, serial, logId), key, logId, prev)
  }

  function WriteFailed(h: History, serial: nat): History {
    if serial in h.attempts then SetOutcome(h, serial, Unknown) else h
  }

  function AckedFloor(h: History, key: Bytes): Option<LogId> {
    if key in h.maxAcked then Some(h.maxAcked[key].0) else None
  }

  /** The value is missing or sits below `least`. */
  predicate IsBelow(found: Option<LogId>, least: LogId) {
    found.None? || found.value.Less(least)
  }

  function CheckMonotonic(h: History, key: Bytes, seen: Option<LogId>): History {
    if key in h.lastRead
    then ReportIf(h, IsBelow(seen, h.lastRead[key]), NonMonotonicRead(key, h.lastRead[key], seen))
    else h
  }

  function CheckStale(h: History, key: Bytes, seen: Option<LogId>, floor: Option<LogId>): History {
    if floor.Some? then ReportIf(h, IsBelow(seen, floor.value), StaleRead(key, floor.value, seen)) else h
  }

  /** The exclusive bound that stands for the inclusive bound `b`. */
  function After(b: LogId): LogId {
    LogId(b.leader, b.index + 1)
  }

  function CheckAbsent(h: History, key: Bytes, bound: LogId): History {
    var newest := NewestBelow(Committed(h, key), bound);
    var h1 := if newest.Some? then
                Report(h, WriteBelowAbsence(key, Committed(h, key)[newest.value], newest.value, bound))
              else h;
    RaiseFloor(h1, key, bound)
  }

  function ReadDone(h: History, key: Bytes, observed: Option<ValueMeta>, floor: Option<LogId>,
      barrier: Option<LogId>): History {
    var seen := LogIdOf(observed);
    var h1 := if observed.Some? then Observe(h, key, observed.value) else h;
    var h2 := CheckStale(CheckMonotonic(h1, key, seen), key, seen, floor);
    if observed.Some? then h2.(lastRead := h2.lastRead[key := observed.value.logId])
    else if barrier.Some? then CheckAbsent(h2, key, After(barrier.value))
    else h2
  }

  function FoundIn(m: Member, key: Bytes): Option<LogId> {
    if key in m.data then Some(m.data[key].logId) else None
  }

  function ScanAcked(h: History, m: Member, keys: seq<Bytes>): History
    requires forall k :: k in keys ==> k in h.maxAcked
  {
    if keys == [] then h
    else
      var n := |keys| - 1;
      var acked := h.maxAcked[keys[n]].0;
      ReportIf(ScanAcked(h, m, keys[..n]), IsBelow(FoundIn(m, keys[n]), acked),
               LostAckedWrite(m.node, keys[n], acked, FoundIn(m, keys[n])))
  }

  function ScanObserved(h: History, m: Member, keys: seq<Bytes>): History
    requires forall k :: k in keys ==> k in h.lastRead
  {
    if keys == [] then h
    else
      var n := |keys| - 1;
      var seen := h.lastRead[keys[n]];
      ReportIf(ScanObserved(h, m, keys[..n]), IsBelow(FoundIn(m, keys[n]), seen),
               LostObservedWrite(m.node, keys[n], seen, FoundIn(m, keys[n])))
  }

  function ScanData(h: History, m: Member, keys: seq<Bytes>): History
    requires forall k :: k in keys ==> k in m.data
  {
    if keys == [] then h
    else
      var n := |keys| - 1;
      Observe(ScanData(h, m, keys[..n]), keys[n], m.data[keys[n]])
  }

  /** Scans only report. */
  lemma {:induction false} ScansOnlyReport(h: History, m: Member, acked: seq<Bytes>, read: seq<Bytes>)
    requires forall k :: k in acked ==> k in h.maxAcked
    requires forall k :: k in read ==> k in h.lastRead
    ensures var a := ScanAcked(h, m, acked); a == h.(violations := a.violations) && h.violations <= a.violations
    ensures var o := ScanObserved(h, m, read); o == h.(violations := o.violations) && h.violations <= o.violations
    decreases |acked| + |read|
  {
    if acked != [] {
      ScansOnlyReport(h, m, acked[..|acked| - 1], []);
    }
    if read != [] {
      ScansOnlyReport(h, m, [], read[..|read| - 1]);
    }
  }

  /** One more key of each scan. */
  lemma ScanNothing(h: History, m: Member)
    ensures ScanAcked(h, m, []) == ScanObserved(h, m, []) == ScanData(h, m, []) == h
  {
  }

  lemma ScanAckedNext(h: History, m: Member, keys: seq<Bytes>, i: nat)
    requires i < |keys| && forall k :: k in keys ==> k in h.maxAcked
    ensures var a := ScanAcked(h, m, keys[..i]); a == h.(violations := a.violations)
    ensures ScanAcked(h, m, keys[..i + 1])
            == ReportIf(ScanAcked(h, m, keys[..i]), IsBelow(FoundIn(m, keys[i]), h.maxAcked[keys[i]].0),
                        LostAckedWrite(m.node, keys[i], h.maxAcked[keys[i]].0, FoundIn(m, keys[i])))
  {
    ScansOnlyReport(h, m, keys[..i], []);
    assert keys[..i + 1][..i] == keys[..i];
  }

  lemma ScanObservedNext(h: History, m: Member, keys: seq<Bytes>, i: nat)
    requires i < |keys| && forall k :: k in keys ==> k in h.lastRead
    ensures var o := ScanObserved(h, m, keys[..i]); o == h.(violations := o.violations)
    ensures ScanObserved(h, m, keys[..i + 1])
            == ReportIf(ScanObserved(h, m, keys[..i]), IsBelow(FoundIn(m, keys[i]), h.lastRead[keys[i]]),
                        LostObservedWrite(m.node, keys[i], h.lastRead[keys[i]], FoundIn(m, keys[i])))
  {
    ScansOnlyReport(h, m, [], keys[..i]);
    assert keys[..i + 1][..i] == keys[..i];
  }

  lemma ScanDataNext(h: History, m: Member, keys: seq<Bytes>, i: nat)
    requires i < |keys| && forall k :: k in keys ==> k in m.data
    ensures var g := ScanData(h, m, keys[..i]);
            ScanData(h, m, keys[..i + 1])
            == Resolve(CheckAttempted(g, keys[i], m.data[keys[i]]), keys[i], m.data[keys[i]].serial,
              m.data[keys[i]].logId)
  {
    hide Resolve, CheckAttempted;
    assert keys[..i + 1][..i] == keys[..i];
  }

  function CheckMember(h: History, m: Member): History {
    ScansOnlyReport(h, m, InOrder(h.maxAcked.Keys), []);
    var h1 := ScanAcked(h, m, InOrder(h.maxAcked.Keys));
    var h2 := ScanObserved(h1, m, InOrder(h1.lastRead.Keys));
    ScanData(h2, m, InOrder(m.data.Keys))
  }

  function FinalChecked(h: History, members: seq<Member>): History {
    if members == [] then h
    else CheckMember(FinalChecked(h, members[..|members| - 1]), members[|members| - 1])
  }

  /** The oracle object; each method is one call of the harness. */
  class ClientHistory {
    var attempts: map<nat, WriteAttempt>
    var resolvedLog: map<nat, LogId>
    var resolvedSerial: map<LogId, nat>
    var committedByKey: map<Bytes, map<LogId, nat>>
    var absentBelow: map<Bytes, LogId>
    var maxAcked: map<Bytes, (LogId, nat)>
    var lastRead: map<Bytes, LogId>
    var violations: seq<Violation>

    function State(): History
      reads this
    {
      History(attempts, resolvedLog, resolvedSerial, committedByKey, absentBelow, maxAcked, lastRead, violations)
    }

    constructor ()
      ensures State() == NOTHING
    {
      attempts, resolvedLog, resolvedSerial, committedByKey := map[], map[], map[], map[];
      absentBelow, maxAcked, lastRead, violations := map[], map[], map[], [];
    }

    method RecordWriteAttempt(serial: nat, key: Bytes, value: Bytes)
      modifies this
      ensures State() == WriteAttempted(old(State()), serial, key, value)
    {
      attempts := attempts[serial := WriteAttempt(key, value, Pending)];
    }

    method RecordWriteAcked(serial: nat, logId: LogId, prev: Option<ValueMeta>)
      modifies this
      ensures State() == WriteAcked(old(State()), serial, logId, prev)
    {
      if serial !in attempts {
        return;
      }
      var key := attempts[serial].key;
      attempts := attempts[serial := attempts[serial].(outcome := Acked(logId))];
      ResolveWrite(key, serial, logId);
      var isNewer := key !in maxAcked || maxAcked[key].0.Less(logId);
      if isNewer {
        maxAcked := maxAcked[key := (logId, serial)];
      }
      CheckPrevChain(key, logId, prev);
    }

    method RecordWriteFailed(serial: nat)
      modifies this
      ensures State() == WriteFailed(old(State()), serial)
    {
      if serial in attempts {
        attempts := attempts[serial := attempts[serial].(outcome := Unknown)];
      }
    }

    method RecordRead(key: Bytes, observed: Option<ValueMeta>, floor: Option<LogId>, barrier: Option<LogId>)
      modifies this
      ensures State() == ReadDone(old(State()), key, observed, floor, barrier)
    {
      if observed.Some? {
        CheckValueIsAttempted(key, observed.value);
        ResolveWrite(key, observed.value.serial, observed.value.logId);
      }
      var seen := LogIdOf(observed);
      if key in lastRead {
        var regressed := match observed { case Some(meta) => meta.logId.Less(lastRead[key]) case None => true };
        if regressed {
          violations := violations + [NonMonotonicRead(key, lastRead[key], seen)];
        }
      }
      if floor.Some? {
        var stale := match observed { case Some(meta) => meta.logId.Less(floor.value) case None => true };
        if stale {
          violations := violations + [StaleRead(key, floor.value, seen)];
        }
      }
      if observed.Some? {
        lastRead := lastRead[key := observed.value.logId];
      }
      if observed.None? && barrier.Some? {
        var bound := After(barrier.value);
        var writes := Committed(State(), key);
        var newest := NewestBelow(writes, bound);
        if newest.Some? {
          violations := violations + [WriteBelowAbsence(key, writes[newest.value], newest.value, bound)];
        }
        RaiseAbsenceFloor(key, bound);
      }
    }

    method CheckFinalDurability(members: seq<Member>)
      modifies this
      ensures State() == FinalChecked(old(State()), members)
    {
      for i := 0 to |members|
        invariant State() == FinalChecked(old(State()), members[..i])
      {
        assert members[..i + 1][..i] == members[..i];
        CheckOneMember(members[i]);
      }
      assert members[..|members|] == members;
    }

    method CheckOneMember(m: Member)
      modifies this
      ensures State() == CheckMember(old(State()), m)
    {
      ScansOnlyReport(State(), m, InOrder(maxAcked.Keys), []);
      CheckAcked(m);
      CheckObserved(m);
      CheckValues(m);
    }

    method CheckAckedKey(m: Member, key: Bytes)
      requires key in maxAcked
      modifies this`violations
      ensures State() == ReportIf(old(State()), IsBelow(FoundIn(m, key), maxAcked[key].0),
                                  LostAckedWrite(m.node, key, maxAcked[key].0, FoundIn(m, key)))
    {
      var found := FoundIn(m, key);
      var lost := match found { case Some(l) => l.Less(maxAcked[key].0) case None => true };
      if lost {
        violations := violations + [LostAckedWrite(m.node, key, maxAcked[key].0, found)];
      }
    }

    method CheckObservedKey(m: Member, key: Bytes)
      requires key in lastRead
      modifies this`violations
      ensures State() == ReportIf(old(State()), IsBelow(FoundIn(m, key), lastRead[key]),
                                  LostObservedWrite(m.node, key, lastRead[key], FoundIn(m, key)))
    {
      var found := FoundIn(m, key);
      var lost := match found { case Some(l) => l.Less(lastRead[key]) case None => true };
      if lost {
        violations := violations + [LostObservedWrite(m.node, key, lastRead[key], found)];
      }
    }

    method CheckAcked(m: Member)
      modifies this`violations
      ensures State() == ScanAcked(old(State()), m, InOrder(old(maxAcked).Keys))
    {
      var keys := InOrder(maxAcked.Keys);
      hide ScanAcked, InOrder, Sorted, Less, ReportIf, IsBelow, FoundIn;
      ghost var h := State();
      ScanNothing(h, m);
      assert keys[..0] == [];
      for i := 0 to |keys|
        invariant State() == ScanAcked(h, m, keys[..i])
      {
        ScanAckedNext(h, m, keys, i);
        CheckAckedKey(m, keys[i]);
      }
      assert keys[..|keys|] == keys;
    }

    method CheckObserved(m: Member)
      modifies this`violations
      ensures State() == ScanObserved(old(State()), m, InOrder(old(lastRead).Keys))
    {
      var keys := InOrder(lastRead.Keys);
      hide ScanObserved, InOrder, Sorted, Less, ReportIf, IsBelow, FoundIn;
      ghost var h := State();
      ScanNothing(h, m);
      assert keys[..0] == [];
      for i := 0 to |keys|
        invariant State() == ScanObserved(h, m, keys[..i])
      {
        ScanObservedNext(h, m, keys, i);
        CheckObservedKey(m, keys[i]);
      }
      assert keys[..|keys|] == keys;
    }

    method CheckValues(m: Member)
      modifies this
      ensures State() == ScanData(old(State()), m, InOrder(m.data.Keys))
    {
      var keys := InOrder(m.data.Keys);
      hide ScanData, InOrder, Sorted, Less, Resolve, CheckAttempted;
      ghost var h := State();
      ScanNothing(h, m);
      assert keys[..0] == [];
      for i := 0 to |keys|
        invariant State() == ScanData(h, m, keys[..i])
      {
        ScanDataNext(h, m, keys, i);
        var meta := m.data[keys[i]];
        CheckValueIsAttempted(keys[i], meta);
        ResolveWrite(keys[i], meta.serial, meta.logId);
      }
      assert keys[..|keys|] == keys;
    }

    method ResolveWrite(key: Bytes, serial: nat, logId: LogId)
      modifies this
      ensures State() == Resolve(old(State()), key, serial, logId)
    {
      if serial !in resolvedLog {
        resolvedLog := resolvedLog[serial := logId];
      } else if resolvedLog[serial] != logId {
        violations := violations + [DuplicateApply(serial, resolvedLog[serial], logId)];
      }
      if logId !in resolvedSerial {
        resolvedSerial := resolvedSerial[logId := serial];
      } else if resolvedSerial[logId] != serial {
        violations := violations + [DivergentEntry(logId, resolvedSerial[logId], serial)];
      }
      committedByKey := committedByKey[key := Committed(State(), key)[logId := serial]];
      if key in absentBelow && logId.Less(absentBelow[key]) {
        violations := violations + [WriteBelowAbsence(key, serial, logId, absentBelow[key])];
      }
    }

    method CheckPrevChain(key: Bytes, logId: LogId, prev: Option<ValueMeta>)
      modifies this
      ensures State() == CheckPrev(old(State()), key, logId, prev)
    {
      if prev.Some? {
        CheckValueIsAttempted(key, prev.value);
        ResolveWrite(key, prev.value.serial, prev.value.logId);
      }
      var newestBelow := NewestBelow(Committed(State(), key), logId);
      var prevPos := LogIdOf(prev);
      var broken :=
        if prevPos.Some? && !prevPos.value.Less(logId) then true
        else if prevPos.Some? && newestBelow.Some? then prevPos.value.Less(newestBelow.value)
        else prevPos.None? && newestBelow.Some?;
      if broken {
        violations := violations + [BrokenPredecessor(key, logId, prevPos, newestBelow)];
      }
      if prev.None? {
        RaiseAbsenceFloor(key, logId);
      }
    }

    method RaiseAbsenceFloor(key: Bytes, bound: LogId)
      modifies this
      ensures State() == RaiseFloor(old(State()), key, bound)
    {
      if key !in absentBelow {
        absentBelow := absentBelow[key := bound];
      }
      if absentBelow[key].Less(bound) {
        absentBelow := absentBelow[key := bound];
      }
    }

    method CheckValueIsAttempted(key: Bytes, meta: ValueMeta)
      modifies this
      ensures State() == CheckAttempted(old(State()), key, meta)
    {
      var matches := meta.serial in attempts && attempts[meta.serial].key == key
        && attempts[meta.serial].value == meta.value;
      if !matches {
        violations := violations + [PhantomValue(key, meta.serial, meta.value)];
      }
    }

    /** Take all violations collected since the last drain. */
    method DrainViolations() returns (drained: seq<Violation>)
      modifies this
      ensures drained == old(violations) && State() == old(State()).(violations := [])
    {
      drained := violations;
      violations := [];
    }
  }
}
