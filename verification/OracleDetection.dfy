/** What the oracle detects on every sequence of calls, whichever piece of evidence comes first. */
module OracleDetection {
  import opened RaftTypes
  import opened ByteStrings
  import opened ClientHistories

  datatype Event =
    | Attempt(serial: nat, key: Bytes, value: Bytes)
    | Ack(serial: nat, logId: LogId, prev: Option<ValueMeta>)
    | Fail(serial: nat)
    | Read(key: Bytes, observed: Option<ValueMeta>, floor: Option<LogId>, barrier: Option<LogId>)
    | Final(members: seq<Member>)

  function Step(h: History, e: Event): History {
    match e
    case Attempt(serial, key, value) => WriteAttempted(h, serial, key, value)
    case Ack(serial, logId, prev) => WriteAcked(h, serial, logId, prev)
    case Fail(serial) => WriteFailed(h, serial)
    case Read(key, observed, floor, barrier) => ReadDone(h, key, observed, floor, barrier)
    case Final(members) => FinalChecked(h, members)
  }

  function Run(events: seq<Event>): History {
    if events == [] then NOTHING else Step(Run(events[..|events| - 1]), events[|events| - 1])
  }

  // The claims that calls make, as sets: nothing here depends on their order.

  /** A committed write of `serial` to `key` was seen at `logId`. */
  datatype Evidence = Evidence(key: Bytes, serial: nat, logId: LogId)

  /** `key` was found to have no committed write below `bound`. */
  datatype Absence = Absence(key: Bytes, bound: LogId)

  datatype Claims = Claims(evidence: set<Evidence>, absences: set<Absence>)

  /** The key under which a serial was attempted, going by the latest attempt. */
  function KeyOf(events: seq<Event>, serial: nat): Option<Bytes> {
    if events == [] then None
    else
      var e := events[|events| - 1];
      if e.Attempt? && e.serial == serial then Some(e.key) else KeyOf(events[..|events| - 1], serial)
  }

  function EvidenceFrom(key: Bytes, meta: Option<ValueMeta>): set<Evidence> {
    if meta.Some? then {Evidence(key, meta.value.serial, meta.value.logId)} else {}
  }

  function EvidenceIn(members: seq<Member>): set<Evidence> {
    set m, k | m in members && k in m.data :: Evidence(k, m.data[k].serial, m.data[k].logId)
  }

  /** What one call claims; an ack of a serial that was never attempted claims nothing. */
  function ClaimsOfCall(before: seq<Event>, e: Event): Claims {
    match e
    case Ack(serial, logId, prev) =>
      (match KeyOf(before, serial)
       case None => Claims({}, {})
       case Some(key) =>
         Claims({Evidence(key, serial, logId)} + EvidenceFrom(key, prev), if prev.None? then {Absence(key, logId)}
           else {}))
    case Read(key, observed, _, barrier) => ReadClaims(key, observed, barrier)
    case Final(members) => Claims(EvidenceIn(members), {})
    case _ => Claims({}, {})
  }

  function ClaimsOf(events: seq<Event>): Claims {
    if events == [] then Claims({}, {})
    else
      var before := events[..|events| - 1];
      var c, d := ClaimsOf(before), ClaimsOfCall(before, events[|events| - 1]);
      Claims(c.evidence + d.evidence, c.absences + d.absences)
  }

  ghost predicate TwoLogIds(evidence: set<Evidence>, serial: nat) {
    exists a, b :: a in evidence && b in evidence && a.serial == b.serial == serial && a.logId != b.logId
  }

  ghost predicate TwoSerials(evidence: set<Evidence>, logId: LogId) {
    exists a, b :: a in evidence && b in evidence && a.logId == b.logId == logId && a.serial != b.serial
  }

  ghost predicate WrittenBelowAbsence(c: Claims, key: Bytes) {
    exists a, b :: a in c.evidence && b in c.absences && a.key == b.key == key && a.logId.Less(b.bound)
  }

  // Which alarms are up.

  predicate IsDuplicate(v: Violation, serial: nat) {
    v.DuplicateApply? && v.serial == serial
  }

  predicate IsDivergent(v: Violation, logId: LogId) {
    v.DivergentEntry? && v.logId == logId
  }

  /** An alarm about a write below a point where the key was found absent. */
  predicate IsAbsenceAlarm(v: Violation, key: Bytes) {
    (v.WriteBelowAbsence? && v.key == key) || (v.BrokenPredecessor? && v.key == key && v.prev.None?)
  }

  /** One of the alarms about contradicting claims. */
  predicate IsContradiction(v: Violation) {
    v.DuplicateApply? || v.DivergentEntry? || v.WriteBelowAbsence? || (v.BrokenPredecessor? && v.prev.None?)
  }

  ghost predicate DuplicateUp(alarms: seq<Violation>, serial: nat) {
    exists v :: v in alarms && IsDuplicate(v, serial)
  }

  ghost predicate DivergentUp(alarms: seq<Violation>, logId: LogId) {
    exists v :: v in alarms && IsDivergent(v, logId)
  }

  ghost predicate AbsenceUp(alarms: seq<Violation>, key: Bytes) {
    exists v :: v in alarms && IsAbsenceAlarm(v, key)
  }

  // The maps are exact summaries of the claims.

  ghost predicate PinsSerial(pins: map<nat, LogId>, evidence: set<Evidence>, s: nat)
    requires s in pins
  {
    exists e :: e in evidence && e.serial == s && e.logId == pins[s]
  }

  ghost predicate SerialsPinned(pins: map<nat, LogId>, alarms: seq<Violation>, evidence: set<Evidence>) {
    && (forall e :: e in evidence ==> e.serial in pins)
    && (forall s :: s in pins ==> PinsSerial(pins, evidence, s))
    && (forall s :: DuplicateUp(alarms, s) <==> TwoLogIds(evidence, s))
  }

  ghost predicate PinsLogId(pins: map<LogId, nat>, evidence: set<Evidence>, l: LogId)
    requires l in pins
  {
    exists e :: e in evidence && e.logId == l && e.serial == pins[l]
  }

  ghost predicate LogIdsPinned(pins: map<LogId, nat>, alarms: seq<Violation>, evidence: set<Evidence>) {
    && (forall e :: e in evidence ==> e.logId in pins)
    && (forall l :: l in pins ==> PinsLogId(pins, evidence, l))
    && (forall l :: DivergentUp(alarms, l) <==> TwoSerials(evidence, l))
  }

  ghost predicate Knows(known: map<Bytes, map<LogId, nat>>, k: Bytes, l: LogId) {
    k in known && l in known[k]
  }

  ghost predicate Claimed(evidence: set<Evidence>, k: Bytes, l: LogId) {
    exists e :: e in evidence && e.key == k && e.logId == l
  }

  ghost predicate CommittedKnown(known: map<Bytes, map<LogId, nat>>, evidence: set<Evidence>) {
    forall k, l :: Knows(known, k, l) <==> Claimed(evidence, k, l)
  }

  ghost predicate FloorsKnown(floors: map<Bytes, LogId>, absences: set<Absence>) {
    && (forall a :: a in absences ==> a.key in floors && a.bound.AtMost(floors[a.key]))
    && (forall k :: k in floors ==> Absence(k, floors[k]) in absences)
  }

  ghost predicate AbsencesChecked(alarms: seq<Violation>, c: Claims) {
    forall k :: AbsenceUp(alarms, k) <==> WrittenBelowAbsence(c, k)
  }

  ghost predicate Exact(h: History, c: Claims) {
    && SerialsPinned(h.resolvedLog, h.violations, c.evidence)
    && LogIdsPinned(h.resolvedSerial, h.violations, c.evidence)
    && CommittedKnown(h.committedByKey, c.evidence)
    && FloorsKnown(h.absentBelow, c.absences)
    && AbsencesChecked(h.violations, c)
  }

  ghost predicate SameAlarms(a: seq<Violation>, b: seq<Violation>) {
    forall v: Violation :: IsContradiction(v) ==> (v in a <==> v in b)
  }

  /** Equal in everything `Exact` looks at. */
  ghost predicate SameForClaims(h: History, g: History) {
    && h.resolvedLog == g.resolvedLog && h.resolvedSerial == g.resolvedSerial
    && h.committedByKey == g.committedByKey && h.absentBelow == g.absentBelow
    && SameAlarms(h.violations, g.violations)
  }

  lemma SameAlarmsUp(a: seq<Violation>, b: seq<Violation>)
    requires SameAlarms(a, b)
    ensures forall s :: DuplicateUp(a, s) <==> DuplicateUp(b, s)
    ensures forall l :: DivergentUp(a, l) <==> DivergentUp(b, l)
    ensures forall k :: AbsenceUp(a, k) <==> AbsenceUp(b, k)
  {
  }

  lemma SameKeepsExact(h: History, g: History, c: Claims)
    requires Exact(h, c) && SameForClaims(h, g)
    ensures Exact(g, c)
  {
    SameAlarmsUp(h.violations, g.violations);
    hide DuplicateUp, DivergentUp, AbsenceUp, TwoLogIds, TwoSerials, WrittenBelowAbsence, CommittedKnown, FloorsKnown,
      SameAlarms;
  }

  // One resolve adds one piece of evidence.

  lemma AppendMembers(alarms: seq<Violation>, v: Violation)
    ensures forall w :: w in alarms + [v] <==> w in alarms || w == v
  {
    assert (alarms + [v])[|alarms|] == v;
  }

  lemma ReportMembers(h: History, raised: bool, v: Violation)
    ensures forall w :: w in ReportIf(h, raised, v).violations <==> w in h.violations || (raised && w == v)
    ensures ReportIf(h, raised, v) == h.(violations := ReportIf(h, raised, v).violations)
  {
    AppendMembers(h.violations, v);
  }

  lemma ReportKeepsExact(h: History, c: Claims, raised: bool, v: Violation)
    requires Exact(h, c) && !IsContradiction(v)
    ensures Exact(ReportIf(h, raised, v), c)
  {
    ReportMembers(h, raised, v);
    hide ReportIf, Exact;
    SameKeepsExact(h, ReportIf(h, raised, v), c);
  }

  /** The alarms that pinning `x` raises. */
  predicate SerialClash(h: History, x: Evidence) {
    x.serial in h.resolvedLog && h.resolvedLog[x.serial] != x.logId
  }

  predicate LogIdClash(h: History, x: Evidence) {
    x.logId in h.resolvedSerial && h.resolvedSerial[x.logId] != x.serial
  }

  predicate FloorClash(h: History, x: Evidence) {
    x.key in h.absentBelow && x.logId.Less(h.absentBelow[x.key])
  }

  ghost predicate Raised(h: History, x: Evidence, v: Violation) {
    || (SerialClash(h, x) && v == DuplicateApply(x.serial, h.resolvedLog[x.serial], x.logId))
    || (LogIdClash(h, x) && v == DivergentEntry(x.logId, h.resolvedSerial[x.logId], x.serial))
    || (FloorClash(h, x) && v == WriteBelowAbsence(x.key, x.serial, x.logId, h.absentBelow[x.key]))
  }

  function ResolveIt(h: History, x: Evidence): History {
    Resolve(h, x.key, x.serial, x.logId)
  }

  lemma PinSerialFields(h: History, x: Evidence)
    ensures var g := PinSerial(h, x.serial, x.logId);
            && g == h.(resolvedLog := g.resolvedLog, violations := g.violations)
            && g.resolvedLog == (if x.serial in h.resolvedLog then h.resolvedLog
                 else h.resolvedLog[x.serial := x.logId])
            && g.violations == h.violations
                 + if SerialClash(h, x) then [DuplicateApply(x.serial, h.resolvedLog[x.serial], x.logId)] else []
  {
  }

  lemma PinLogIdFields(h: History, x: Evidence)
    ensures var g := PinLogId(h, x.serial, x.logId);
            && g == h.(resolvedSerial := g.resolvedSerial, violations := g.violations)
            && g.resolvedSerial == (if x.logId in h.resolvedSerial then h.resolvedSerial
                 else h.resolvedSerial[x.logId := x.serial])
            && g.violations == h.violations
                 + if LogIdClash(h, x) then [DivergentEntry(x.logId, h.resolvedSerial[x.logId], x.serial)] else []
  {
  }

  lemma CheckFloorFields(h: History, x: Evidence)
    ensures var g := CheckFloor(h, x.key, x.serial, x.logId);
            && g == h.(violations := g.violations)
            && g.violations == h.violations
                 + if FloorClash(h, x) then [WriteBelowAbsence(x.key, x.serial, x.logId, h.absentBelow[x.key])] else []
  {
  }

  lemma ResolveFields(h: History, x: Evidence)
    ensures ResolveIt(h, x).resolvedLog ==
            (if x.serial in h.resolvedLog then h.resolvedLog else h.resolvedLog[x.serial := x.logId])
    ensures ResolveIt(h, x).resolvedSerial ==
            (if x.logId in h.resolvedSerial then h.resolvedSerial else h.resolvedSerial[x.logId := x.serial])
    ensures ResolveIt(h, x).committedByKey == h.committedByKey[x.key := Committed(h, x.key)[x.logId := x.serial]]
    ensures ResolveIt(h, x).absentBelow == h.absentBelow
    ensures ResolveIt(h, x).attempts == h.attempts
    ensures ResolveIt(h, x).maxAcked == h.maxAcked
    ensures ResolveIt(h, x).lastRead == h.lastRead
    ensures ResolveIt(h, x).violations == h.violations
              + (if SerialClash(h, x) then [DuplicateApply(x.serial, h.resolvedLog[x.serial], x.logId)] else [])
              + (if LogIdClash(h, x) then [DivergentEntry(x.logId, h.resolvedSerial[x.logId], x.serial)] else [])
              + if FloorClash(h, x) then [WriteBelowAbsence(x.key, x.serial, x.logId, h.absentBelow[x.key])] else []
  {
    var h1 := PinSerial(h, x.serial, x.logId);
    var h2 := PinLogId(h1, x.serial, x.logId);
    PinSerialFields(h, x);
    PinLogIdFields(h1, x);
    CheckFloorFields(AddCommitted(h2, x.key, x.serial, x.logId), x);
    hide PinSerial, PinLogId, CheckFloor;
  }

  lemma ResolveAlarms(h: History, x: Evidence)
    ensures forall v :: v in ResolveIt(h, x).violations <==> v in h.violations || Raised(h, x, v)
  {
    ResolveFields(h, x);
    hide ResolveIt;
  }

  lemma ResolveSerials(h: History, g: History, c: set<Evidence>, x: Evidence)
    requires SerialsPinned(h.resolvedLog, h.violations, c)
    requires g.resolvedLog == if x.serial in h.resolvedLog then h.resolvedLog else h.resolvedLog[x.serial := x.logId]
    requires forall v :: v in g.violations <==> v in h.violations || Raised(h, x, v)
    ensures SerialsPinned(g.resolvedLog, g.violations, c + {x})
  {
    var d := c + {x};
    forall s | s in g.resolvedLog
      ensures PinsSerial(g.resolvedLog, d, s)
    {
      if s in h.resolvedLog {
        assert PinsSerial(h.resolvedLog, c, s);
        var e :| e in c && e.serial == s && e.logId == h.resolvedLog[s];
        assert e in d;
      } else {
        assert x in d;
      }
    }
    forall s
      ensures DuplicateUp(g.violations, s) <==> TwoLogIds(d, s)
    {
      SerialAlarm(h, g, c, x, s);
    }
  }

  lemma SerialAlarm(h: History, g: History, c: set<Evidence>, x: Evidence, s: nat)
    requires SerialsPinned(h.resolvedLog, h.violations, c)
    requires forall v :: v in g.violations <==> v in h.violations || Raised(h, x, v)
    ensures DuplicateUp(g.violations, s) <==> TwoLogIds(c + {x}, s)
  {
    var d := c + {x};
    if s == x.serial && s in h.resolvedLog {
      assert PinsSerial(h.resolvedLog, c, s);
      var pin :| pin in c && pin.serial == s && pin.logId == h.resolvedLog[s];
      assert pin in d && x in d;
      if pin.logId != x.logId {
        var v := DuplicateApply(s, h.resolvedLog[s], x.logId);
        assert Raised(h, x, v) && v in g.violations && IsDuplicate(v, s);
      } else {
        if a, b :| a in d && b in d && a.serial == b.serial == s && a.logId != b.logId {
          var a', b' := if a == x then pin else a, if b == x then pin else b;
          assert a' in c && b' in c;
        }
        assert TwoLogIds(d, s) <==> TwoLogIds(c, s);
        assert forall v :: IsDuplicate(v, s) ==> (v in g.violations <==> v in h.violations);
      }
    } else {
      assert TwoLogIds(d, s) <==> TwoLogIds(c, s);
      assert forall v :: IsDuplicate(v, s) ==> (v in g.violations <==> v in h.violations);
    }
  }

  lemma ResolveLogIds(h: History, g: History, c: set<Evidence>, x: Evidence)
    requires LogIdsPinned(h.resolvedSerial, h.violations, c)
    requires g.resolvedSerial == if x.logId in h.resolvedSerial then h.resolvedSerial
             else h.resolvedSerial[x.logId := x.serial]
    requires forall v :: v in g.violations <==> v in h.violations || Raised(h, x, v)
    ensures LogIdsPinned(g.resolvedSerial, g.violations, c + {x})
  {
    var d := c + {x};
    forall l | l in g.resolvedSerial
      ensures PinsLogId(g.resolvedSerial, d, l)
    {
      if l in h.resolvedSerial {
        assert PinsLogId(h.resolvedSerial, c, l);
        var e :| e in c && e.logId == l && e.serial == h.resolvedSerial[l];
        assert e in d;
      } else {
        assert x in d;
      }
    }
    forall l
      ensures DivergentUp(g.violations, l) <==> TwoSerials(d, l)
    {
      LogIdAlarm(h, g, c, x, l);
    }
  }

  lemma LogIdAlarm(h: History, g: History, c: set<Evidence>, x: Evidence, l: LogId)
    requires LogIdsPinned(h.resolvedSerial, h.violations, c)
    requires forall v :: v in g.violations <==> v in h.violations || Raised(h, x, v)
    ensures DivergentUp(g.violations, l) <==> TwoSerials(c + {x}, l)
  {
    var d := c + {x};
    if l == x.logId && l in h.resolvedSerial {
      assert PinsLogId(h.resolvedSerial, c, l);
      var pin :| pin in c && pin.logId == l && pin.serial == h.resolvedSerial[l];
      assert pin in d && x in d;
      if pin.serial != x.serial {
        var v := DivergentEntry(l, h.resolvedSerial[l], x.serial);
        assert Raised(h, x, v) && v in g.violations && IsDivergent(v, l);
      } else {
        if a, b :| a in d && b in d && a.logId == b.logId == l && a.serial != b.serial {
          var a', b' := if a == x then pin else a, if b == x then pin else b;
          assert a' in c && b' in c;
        }
        assert TwoSerials(d, l) <==> TwoSerials(c, l);
        assert forall v :: IsDivergent(v, l) ==> (v in g.violations <==> v in h.violations);
      }
    } else {
      assert TwoSerials(d, l) <==> TwoSerials(c, l);
      assert forall v :: IsDivergent(v, l) ==> (v in g.violations <==> v in h.violations);
    }
  }

  lemma ResolveCommitted(known: map<Bytes, map<LogId, nat>>, c: set<Evidence>, x: Evidence)
    requires CommittedKnown(known, c)
    ensures var prior := if x.key in known then known[x.key] else map[];
            CommittedKnown(known[x.key := prior[x.logId := x.serial]], c + {x})
  {
    var prior := if x.key in known then known[x.key] else map[];
    var now, d := known[x.key := prior[x.logId := x.serial]], c + {x};
    forall k, l
      ensures Knows(now, k, l) <==> Claimed(d, k, l)
    {
      assert Knows(known, k, l) <==> Claimed(c, k, l);
      if k == x.key && l == x.logId {
        assert x in d;
      } else {
        if e :| e in c && e.key == k && e.logId == l {
          assert e in d;
        }
      }
    }
  }

  lemma ResolveAbsences(h: History, g: History, c: Claims, x: Evidence)
    requires FloorsKnown(h.absentBelow, c.absences) && AbsencesChecked(h.violations, c)
    requires forall v :: v in g.violations <==> v in h.violations || Raised(h, x, v)
    ensures AbsencesChecked(g.violations, AddEvidence(c, x))
  {
    var d := AddEvidence(c, x);
    forall k
      ensures AbsenceUp(g.violations, k) <==> WrittenBelowAbsence(d, k)
    {
      if k == x.key && FloorClash(h, x) {
        var v := WriteBelowAbsence(k, x.serial, x.logId, h.absentBelow[k]);
        assert Raised(h, x, v) && v in g.violations && IsAbsenceAlarm(v, k);
        assert x in d.evidence && Absence(k, h.absentBelow[k]) in d.absences;
      } else {
        assert forall v :: IsAbsenceAlarm(v, k) ==> (v in g.violations <==> v in h.violations);
        assert AbsenceUp(g.violations, k) <==> AbsenceUp(h.violations, k);
        NoNewAbsence(h, c, x, k);
      }
    }
  }

  lemma BelowFloor(l: LogId, a: LogId, b: LogId)
    requires l.Less(a) && a.AtMost(b)
    ensures l.Less(b)
  {
  }

  lemma NoNewAbsence(h: History, c: Claims, x: Evidence, k: Bytes)
    requires FloorsKnown(h.absentBelow, c.absences)
    requires k == x.key ==> !FloorClash(h, x)
    ensures WrittenBelowAbsence(AddEvidence(c, x), k) <==> WrittenBelowAbsence(c, k)
  {
    var d := AddEvidence(c, x);
    if a, b :| a in c.evidence && b in c.absences && a.key == b.key == k && a.logId.Less(b.bound) {
      assert a in d.evidence;
    }
    if a, b :| a in d.evidence && b in d.absences && a.key == b.key == k && a.logId.Less(b.bound) {
      if a == x {
        BelowFloor(x.logId, b.bound, h.absentBelow[k]);
      }
      assert a in c.evidence;
    }
  }

  function AddEvidence(c: Claims, x: Evidence): Claims {
    Claims(c.evidence + {x}, c.absences)
  }

  function AddAbsence(c: Claims, a: Absence): Claims {
    Claims(c.evidence, c.absences + {a})
  }

  lemma ResolveKeepsExact(h: History, c: Claims, x: Evidence)
    requires Exact(h, c)
    ensures Exact(ResolveIt(h, x), AddEvidence(c, x))
  {
    var g := ResolveIt(h, x);
    ResolveFields(h, x);
    ResolveAlarms(h, x);
    hide ResolveIt, SerialsPinned, LogIdsPinned, CommittedKnown, FloorsKnown, AbsencesChecked, Raised;
    ResolveSerials(h, g, c.evidence, x);
    ResolveLogIds(h, g, c.evidence, x);
    ResolveCommitted(h.committedByKey, c.evidence, x);
    ResolveAbsences(h, g, c, x);
  }

  lemma ObserveKeepsExact(h: History, c: Claims, key: Bytes, meta: ValueMeta)
    requires Exact(h, c)
    ensures Exact(Observe(h, key, meta), AddEvidence(c, Evidence(key, meta.serial, meta.logId)))
  {
    hide Exact, Resolve;
    var g := CheckAttempted(h, key, meta);
    ReportKeepsExact(h, c, !Matches(h, key, meta), PhantomValue(key, meta.serial, meta.value));
    ResolveKeepsExact(g, c, Evidence(key, meta.serial, meta.logId));
  }

  // An absence is checked against what is known, then raises the floor.

  lemma RaiseKeepsFloors(h: History, absences: set<Absence>, key: Bytes, bound: LogId)
    requires FloorsKnown(h.absentBelow, absences)
    ensures FloorsKnown(RaiseFloor(h, key, bound).absentBelow, absences + {Absence(key, bound)})
  {
  }

  lemma AbsenceAlarms(h: History, g: History, c: Claims, key: Bytes, bound: LogId, raised: bool, v: Violation)
    requires CommittedKnown(h.committedByKey, c.evidence) && AbsencesChecked(h.violations, c)
    requires raised <==> exists l :: Knows(h.committedByKey, key, l) && l.Less(bound)
    requires IsAbsenceAlarm(v, key)
    requires forall w :: w in g.violations <==> w in h.violations || (raised && w == v)
    ensures AbsencesChecked(g.violations, AddAbsence(c, Absence(key, bound)))
  {
    var d := AddAbsence(c, Absence(key, bound));
    forall k
      ensures AbsenceUp(g.violations, k) <==> WrittenBelowAbsence(d, k)
    {
      if k == key && raised {
        var l :| Knows(h.committedByKey, key, l) && l.Less(bound);
        assert Claimed(c.evidence, key, l);
        var e :| e in c.evidence && e.key == key && e.logId == l;
        assert e in d.evidence && Absence(key, bound) in d.absences;
        assert v in g.violations;
      } else {
        assert forall w :: IsAbsenceAlarm(w, k) ==> (w in g.violations <==> w in h.violations);
        assert AbsenceUp(g.violations, k) <==> AbsenceUp(h.violations, k);
        if a, b :| a in d.evidence && b in d.absences && a.key == b.key == k && a.logId.Less(b.bound) {
          assert a.key == key ==> Claimed(c.evidence, key, a.logId) && Knows(h.committedByKey, key, a.logId);
          assert b in c.absences;
        }
        if a, b :| a in c.evidence && b in c.absences && a.key == b.key == k && a.logId.Less(b.bound) {
          assert b in d.absences;
        }
      }
    }
  }

  /** `v` is raised exactly when a known write of the key sits below `bound`. */
  lemma AbsenceKeepsExact(h: History, c: Claims, key: Bytes, bound: LogId, raised: bool, v: Violation)
    requires Exact(h, c)
    requires raised <==> exists l :: Knows(h.committedByKey, key, l) && l.Less(bound)
    requires IsAbsenceAlarm(v, key)
    ensures Exact(RaiseFloor(ReportIf(h, raised, v), key, bound), AddAbsence(c, Absence(key, bound)))
  {
    var h1 := ReportIf(h, raised, v);
    var g := RaiseFloor(h1, key, bound);
    ReportMembers(h, raised, v);
    RaiseFields(h1, key, bound);
    RaiseKeepsFloors(h1, c.absences, key, bound);
    hide RaiseFloor, ReportIf, SerialsPinned, LogIdsPinned, CommittedKnown, FloorsKnown, AbsencesChecked,
      IsAbsenceAlarm, Knows;
    AbsenceAlarms(h, g, c, key, bound, raised, v);
    PinsOutlastAbsence(h, h.violations, g.violations, c.evidence, v, key);
  }

  lemma PinsOutlastAbsence(h: History, a: seq<Violation>, b: seq<Violation>, c: set<Evidence>, v: Violation, key: Bytes)
    requires SerialsPinned(h.resolvedLog, a, c) && LogIdsPinned(h.resolvedSerial, a, c)
    requires IsAbsenceAlarm(v, key)
    requires forall w :: w in a ==> w in b
    requires forall w :: w in b ==> w in a || w == v
    ensures SerialsPinned(h.resolvedLog, b, c) && LogIdsPinned(h.resolvedSerial, b, c)
  {
    AbsenceIsNoClash(a, b, v, key);
    hide DuplicateUp, DivergentUp, TwoLogIds, TwoSerials;
  }

  lemma RaiseFields(h: History, key: Bytes, bound: LogId)
    ensures RaiseFloor(h, key, bound) == h.(absentBelow := RaiseFloor(h, key, bound).absentBelow)
  {
  }

  lemma AbsenceIsNoClash(a: seq<Violation>, b: seq<Violation>, v: Violation, key: Bytes)
    requires IsAbsenceAlarm(v, key)
    requires forall w :: w in a ==> w in b
    requires forall w :: w in b ==> w in a || w == v
    ensures forall s :: DuplicateUp(a, s) <==> DuplicateUp(b, s)
    ensures forall l :: DivergentUp(a, l) <==> DivergentUp(b, l)
  {
  }

  lemma NewestIffAny(h: History, key: Bytes, bound: LogId)
    ensures NewestBelow(Committed(h, key), bound).Some? <==>
            exists l :: Knows(h.committedByKey, key, l) && l.Less(bound)
  {
    var newest := NewestBelow(Committed(h, key), bound);
    if newest.Some? {
      assert Knows(h.committedByKey, key, newest.value);
    }
  }

  function AddClaims(c: Claims, d: Claims): Claims {
    Claims(c.evidence + d.evidence, c.absences + d.absences)
  }

  function PrevClaims(key: Bytes, logId: LogId, prev: Option<ValueMeta>): Claims {
    Claims(EvidenceFrom(key, prev), if prev.None? then {Absence(key, logId)} else {})
  }

  lemma PrevKeepsExact(h: History, c: Claims, key: Bytes, logId: LogId, prev: Option<ValueMeta>)
    requires Exact(h, c)
    ensures Exact(CheckPrev(h, key, logId, prev), AddClaims(c, PrevClaims(key, logId, prev)))
  {
    hide Exact, Observe, NewestBelow, IsBroken, RaiseFloor, ReportIf;
    var h1 := if prev.Some? then Observe(h, key, prev.value) else h;
    var newest := NewestBelow(Committed(h1, key), logId);
    var v := BrokenPredecessor(key, logId, LogIdOf(prev), newest);
    var sum := AddClaims(c, PrevClaims(key, logId, prev));
    if prev.Some? {
      ObserveKeepsExact(h, c, key, prev.value);
      assert sum == AddEvidence(c, Evidence(key, prev.value.serial, prev.value.logId));
      ReportKeepsExact(h1, sum, IsBroken(logId, LogIdOf(prev), newest), v);
    } else {
      NewestIffAny(h, key, logId);
      AbsentBroken(logId, newest);
      AbsenceKeepsExact(h, c, key, logId, newest.Some?, v);
      assert sum == AddAbsence(c, Absence(key, logId));
    }
  }

  lemma AbsentBroken(logId: LogId, newest: Option<LogId>)
    ensures IsBroken(logId, None, newest) <==> newest.Some?
  {
  }

  lemma AckKeepsExact(h: History, c: Claims, serial: nat, logId: LogId, prev: Option<ValueMeta>)
    requires Exact(h, c) && serial in h.attempts
    ensures var key := h.attempts[serial].key;
            Exact(WriteAcked(h, serial, logId, prev),
                  AddClaims(c, Claims({Evidence(key, serial, logId)} + EvidenceFrom(key, prev),
                                      if prev.None? then {Absence(key, logId)} else {})))
  {
    hide Exact, Resolve, CheckPrev;
    var key := h.attempts[serial].key;
    var h1 := SetOutcome(h, serial, Acked(logId));
    var x := Evidence(key, serial, logId);
    var h2 := ResolveIt(h1, x);
    var h3 := RaiseAcked(h2, key, serial, logId);
    var c1 := AddEvidence(c, x);
    SameKeepsExact(h, h1, c);
    ResolveKeepsExact(h1, c, x);
    SameKeepsExact(h2, h3, c1);
    PrevKeepsExact(h3, c1, key, logId, prev);
    assert AddClaims(c1, PrevClaims(key, logId, prev))
        == AddClaims(c, Claims({x} + EvidenceFrom(key, prev), if prev.None? then {Absence(key, logId)} else {}));
  }

  lemma ReadChecksKeepExact(h: History, c: Claims, key: Bytes, seen: Option<LogId>, floor: Option<LogId>)
    requires Exact(h, c)
    ensures Exact(CheckStale(CheckMonotonic(h, key, seen), key, seen, floor), c)
  {
    hide Exact, ReportIf, IsBelow;
    if key in h.lastRead {
      ReportKeepsExact(h, c, IsBelow(seen, h.lastRead[key]), NonMonotonicRead(key, h.lastRead[key], seen));
    }
    if floor.Some? {
      ReportKeepsExact(CheckMonotonic(h, key, seen), c, IsBelow(seen, floor.value), StaleRead(key, floor.value, seen));
    }
  }

  function ReadClaims(key: Bytes, observed: Option<ValueMeta>, barrier: Option<LogId>): Claims {
    Claims(EvidenceFrom(key, observed),
           if observed.None? && barrier.Some? then {Absence(key, After(barrier.value))} else {})
  }

  lemma ReadKeepsExact(h: History, c: Claims, key: Bytes, observed: Option<ValueMeta>, floor: Option<LogId>,
      barrier: Option<LogId>)
    requires Exact(h, c)
    ensures Exact(ReadDone(h, key, observed, floor, barrier), AddClaims(c, ReadClaims(key, observed, barrier)))
  {
    hide Exact, Observe, CheckStale, CheckMonotonic, CheckAbsent;
    var seen := LogIdOf(observed);
    var h1 := if observed.Some? then Observe(h, key, observed.value) else h;
    var h2 := CheckStale(CheckMonotonic(h1, key, seen), key, seen, floor);
    var sum := AddClaims(c, ReadClaims(key, observed, barrier));
    if observed.Some? {
      ObserveKeepsExact(h, c, key, observed.value);
      assert sum == AddEvidence(c, Evidence(key, observed.value.serial, observed.value.logId));
      ReadChecksKeepExact(h1, sum, key, seen, floor);
      var done := h2.(lastRead := h2.lastRead[key := observed.value.logId]);
      SameKeepsExact(h2, done, sum);
    } else {
      ReadChecksKeepExact(h1, c, key, seen, floor);
      if barrier.Some? {
        AbsentKeepsExact(h2, c, key, After(barrier.value));
        assert sum == AddAbsence(c, Absence(key, After(barrier.value)));
      } else {
        assert sum == c;
      }
    }
  }

  lemma AbsentKeepsExact(h: History, c: Claims, key: Bytes, bound: LogId)
    requires Exact(h, c)
    ensures Exact(CheckAbsent(h, key, bound), AddAbsence(c, Absence(key, bound)))
  {
    hide Exact, RaiseFloor, NewestBelow;
    var newest := NewestBelow(Committed(h, key), bound);
    NewestIffAny(h, key, bound);
    var v := if newest.Some? then WriteBelowAbsence(key, Committed(h, key)[newest.value], newest.value, bound)
             else WriteBelowAbsence(key, 0, bound, bound);
    AbsenceKeepsExact(h, c, key, bound, newest.Some?, v);
  }

  // The final scan.

  lemma {:induction false} AckedScanKeepsExact(h: History, c: Claims, m: Member, keys: seq<Bytes>)
    requires Exact(h, c) && forall k :: k in keys ==> k in h.maxAcked
    ensures Exact(ScanAcked(h, m, keys), c)
  {
    hide Exact, ReportIf, IsBelow, FoundIn;
    if keys != [] {
      var n := |keys| - 1;
      AckedScanKeepsExact(h, c, m, keys[..n]);
      var a, found := h.maxAcked[keys[n]].0, FoundIn(m, keys[n]);
      ReportKeepsExact(ScanAcked(h, m, keys[..n]), c, IsBelow(found, a), LostAckedWrite(m.node, keys[n], a, found));
    }
  }

  lemma {:induction false} ObservedScanKeepsExact(h: History, c: Claims, m: Member, keys: seq<Bytes>)
    requires Exact(h, c) && forall k :: k in keys ==> k in h.lastRead
    ensures Exact(ScanObserved(h, m, keys), c)
  {
    hide Exact, ReportIf, IsBelow, FoundIn;
    if keys != [] {
      var n := |keys| - 1;
      ObservedScanKeepsExact(h, c, m, keys[..n]);
      var a, found := h.lastRead[keys[n]], FoundIn(m, keys[n]);
      ReportKeepsExact(ScanObserved(h, m, keys[..n]), c, IsBelow(found, a),
        LostObservedWrite(m.node, keys[n], a, found));
    }
  }

  function EvidenceAt(m: Member, keys: seq<Bytes>): set<Evidence>
    requires forall k :: k in keys ==> k in m.data
  {
    set k | k in keys :: Evidence(k, m.data[k].serial, m.data[k].logId)
  }

  function WithEvidence(c: Claims, more: set<Evidence>): Claims {
    Claims(c.evidence + more, c.absences)
  }

  lemma {:induction false} DataKeepsExact(h: History, c: Claims, m: Member, keys: seq<Bytes>)
    requires Exact(h, c) && forall k :: k in keys ==> k in m.data
    ensures Exact(ScanData(h, m, keys), WithEvidence(c, EvidenceAt(m, keys)))
  {
    hide Exact, Observe;
    if keys == [] {
      assert WithEvidence(c, EvidenceAt(m, keys)) == c;
    } else {
      var n := |keys| - 1;
      DataKeepsExact(h, c, m, keys[..n]);
      var c1 := WithEvidence(c, EvidenceAt(m, keys[..n]));
      var meta := m.data[keys[n]];
      ObserveKeepsExact(ScanData(h, m, keys[..n]), c1, keys[n], meta);
      EvidenceAtNext(m, keys);
      assert AddEvidence(c1, Evidence(keys[n], meta.serial, meta.logId)) == WithEvidence(c, EvidenceAt(m, keys));
    }
  }

  lemma EvidenceAtNext(m: Member, keys: seq<Bytes>)
    requires keys != [] && forall k :: k in keys ==> k in m.data
    ensures var n := |keys| - 1;
            EvidenceAt(m, keys) == EvidenceAt(m, keys[..n])
              + {Evidence(keys[n], m.data[keys[n]].serial, m.data[keys[n]].logId)}
  {
    var n := |keys| - 1;
    assert keys == keys[..n] + [keys[n]];
  }

  lemma MemberKeepsExact(h: History, c: Claims, m: Member)
    requires Exact(h, c)
    ensures Exact(CheckMember(h, m), WithEvidence(c, EvidenceIn([m])))
  {
    hide Exact, InOrder, ScanAcked, ScanObserved, ScanData, Sorted, Less;
    var acked := InOrder(h.maxAcked.Keys);
    var h1 := ScanAcked(h, m, acked);
    AckedScanKeepsExact(h, c, m, acked);
    var read := InOrder(h1.lastRead.Keys);
    ObservedScanKeepsExact(h1, c, m, read);
    var keys := InOrder(m.data.Keys);
    DataKeepsExact(ScanObserved(h1, m, read), c, m, keys);
    AllKeysCovered(m, keys);
  }

  lemma AllKeysCovered(m: Member, keys: seq<Bytes>)
    requires forall k :: k in keys <==> k in m.data
    ensures EvidenceAt(m, keys) == EvidenceIn([m])
  {
    assert forall n :: n in [m] <==> n == m;
  }

  lemma {:induction false} FinalKeepsExact(h: History, c: Claims, members: seq<Member>)
    requires Exact(h, c)
    ensures Exact(FinalChecked(h, members), WithEvidence(c, EvidenceIn(members)))
  {
    hide Exact, CheckMember;
    if members == [] {
      assert WithEvidence(c, EvidenceIn(members)) == c;
    } else {
      var n := |members| - 1;
      FinalKeepsExact(h, c, members[..n]);
      var c1 := WithEvidence(c, EvidenceIn(members[..n]));
      MemberKeepsExact(FinalChecked(h, members[..n]), c1, members[n]);
      EvidenceSplit(members);
      assert WithEvidence(c1, EvidenceIn([members[n]])) == WithEvidence(c, EvidenceIn(members));
    }
  }

  lemma EvidenceSplit(members: seq<Member>)
    requires members != []
    ensures EvidenceIn(members) == EvidenceIn(members[..|members| - 1]) + EvidenceIn([members[|members| - 1]])
  {
    var n := |members| - 1;
    var front, last := members[..n], [members[n]];
    assert members == front + last;
    assert forall m :: m in members <==> m in front || m in last;
  }

  // Attempts.

  lemma {:induction false} DataKeepsAttempts(h: History, m: Member, keys: seq<Bytes>)
    requires forall k :: k in keys ==> k in m.data
    ensures ScanData(h, m, keys).attempts == h.attempts
  {
    if keys != [] {
      var n := |keys| - 1;
      DataKeepsAttempts(h, m, keys[..n]);
      ObserveKeepsAttempts(ScanData(h, m, keys[..n]), keys[n], m.data[keys[n]]);
      hide Observe;
    }
  }

  lemma ObserveKeepsAttempts(h: History, key: Bytes, meta: ValueMeta)
    ensures Observe(h, key, meta).attempts == h.attempts
  {
    ResolveFields(CheckAttempted(h, key, meta), Evidence(key, meta.serial, meta.logId));
    hide Resolve;
  }

  lemma {:induction false} FinalKeepsAttempts(h: History, members: seq<Member>)
    ensures FinalChecked(h, members).attempts == h.attempts
  {
    if members != [] {
      var n := |members| - 1;
      FinalKeepsAttempts(h, members[..n]);
      MemberKeepsAttempts(FinalChecked(h, members[..n]), members[n]);
      hide CheckMember;
    }
  }

  lemma MemberKeepsAttempts(h: History, m: Member)
    ensures CheckMember(h, m).attempts == h.attempts
  {
    hide InOrder, ScanAcked, ScanObserved, ScanData, Sorted, Less;
    var acked := InOrder(h.maxAcked.Keys);
    ScansOnlyReport(h, m, acked, []);
    var h1 := ScanAcked(h, m, acked);
    ScansOnlyReport(h1, m, [], InOrder(h1.lastRead.Keys));
    DataKeepsAttempts(ScanObserved(h1, m, InOrder(h1.lastRead.Keys)), m, InOrder(m.data.Keys));
  }

  lemma AckKeepsKeys(h: History, serial: nat, logId: LogId, prev: Option<ValueMeta>)
    requires serial in h.attempts
    ensures WriteAcked(h, serial, logId, prev).attempts == SetOutcome(h, serial, Acked(logId)).attempts
  {
    hide Resolve, Observe;
    var key := h.attempts[serial].key;
    var h1 := SetOutcome(h, serial, Acked(logId));
    ResolveFields(h1, Evidence(key, serial, logId));
    var h2 := RaiseAcked(Resolve(h1, key, serial, logId), key, serial, logId);
    if prev.Some? {
      ObserveKeepsAttempts(h2, key, prev.value);
    }
  }

  lemma ReadKeepsAttempts(h: History, key: Bytes, observed: Option<ValueMeta>, floor: Option<LogId>,
      barrier: Option<LogId>)
    ensures ReadDone(h, key, observed, floor, barrier).attempts == h.attempts
  {
    var h1 := if observed.Some? then Observe(h, key, observed.value) else h;
    if observed.Some? {
      ObserveKeepsAttempts(h, key, observed.value);
    }
    var h2 := CheckStale(CheckMonotonic(h1, key, LogIdOf(observed)), key, LogIdOf(observed), floor);
    ReadChecksOnlyReport(h1, key, LogIdOf(observed), floor);
    hide Observe, CheckStale, CheckMonotonic;
    if barrier.Some? {
      CheckAbsentFields(h2, key, After(barrier.value));
    }
    hide CheckAbsent;
  }

  lemma ReadChecksOnlyReport(h: History, key: Bytes, seen: Option<LogId>, floor: Option<LogId>)
    ensures var g := CheckStale(CheckMonotonic(h, key, seen), key, seen, floor); g == h.(violations := g.violations)
  {
  }

  lemma CheckAbsentFields(h: History, key: Bytes, bound: LogId)
    ensures var g := CheckAbsent(h, key, bound); g == h.(violations := g.violations, absentBelow := g.absentBelow)
  {
  }

  /** The oracle knows exactly the attempted serials, under their keys. */
  lemma {:induction false} AttemptsKnown(events: seq<Event>, serial: nat)
    ensures serial in Run(events).attempts <==> KeyOf(events, serial).Some?
    ensures serial in Run(events).attempts ==> KeyOf(events, serial) == Some(Run(events).attempts[serial].key)
  {
    if events != [] {
      var n := |events| - 1;
      AttemptsKnown(events[..n], serial);
      StepAttempts(Run(events[..n]), events[n], serial);
      hide Step;
    }
  }

  lemma StepAttempts(h: History, e: Event, serial: nat)
    ensures var g := Step(h, e).attempts;
            if e.Attempt? && e.serial == serial then serial in g && g[serial].key == e.key
            else (serial in g <==> serial in h.attempts) && (serial in g ==> g[serial].key == h.attempts[serial].key)
  {
    hide WriteAcked, ReadDone, FinalChecked;
    match e
    case Ack(s, logId, prev) =>
      if s in h.attempts {
        AckKeepsKeys(h, s, logId, prev);
      } else {
        UnknownAckIgnored(h, s, logId, prev);
      }
    case Read(key, observed, floor, barrier) =>
      ReadKeepsAttempts(h, key, observed, floor, barrier);
    case Final(members) =>
      FinalKeepsAttempts(h, members);
    case _ =>
  }

  /** The oracle's maps and alarms summarise the claims of every sequence of calls exactly. */
  lemma {:induction false} RunIsExact(events: seq<Event>)
    ensures Exact(Run(events), ClaimsOf(events))
  {
    if events == [] {
      StartIsExact();
    } else {
      var n := |events| - 1;
      var before := events[..n];
      RunIsExact(before);
      StepKeepsExact(Run(before), ClaimsOf(before), before, events[n]);
      hide Exact;
    }
  }

  lemma StartIsExact()
    ensures Exact(NOTHING, Claims({}, {}))
  {
  }

  lemma StepKeepsExact(h: History, c: Claims, before: seq<Event>, e: Event)
    requires Exact(h, c) && h == Run(before)
    ensures Exact(Step(h, e), AddClaims(c, ClaimsOfCall(before, e)))
  {
    hide Exact;
    match e
    case Attempt(serial, key, value) =>
      SameKeepsExact(h, Step(h, e), c);
      assert AddClaims(c, Claims({}, {})) == c;
    case Ack(serial, logId, prev) =>
      AttemptsKnown(before, serial);
      hide Run, KeyOf, WriteAcked;
      if serial in h.attempts {
        AckKeepsExact(h, c, serial, logId, prev);
      } else {
        assert AddClaims(c, Claims({}, {})) == c;
        UnknownAckIgnored(h, serial, logId, prev);
      }
    case Fail(serial) =>
      SameKeepsExact(h, Step(h, e), c);
      assert AddClaims(c, Claims({}, {})) == c;
    case Read(key, observed, floor, barrier) =>
      ReadKeepsExact(h, c, key, observed, floor, barrier);
    case Final(members) =>
      FinalKeepsExact(h, c, members);
      assert AddClaims(c, Claims(EvidenceIn(members), {})) == WithEvidence(c, EvidenceIn(members));
  }

  lemma UnknownAckIgnored(h: History, serial: nat, logId: LogId, prev: Option<ValueMeta>)
    requires serial !in h.attempts
    ensures WriteAcked(h, serial, logId, prev) == h
  {
  }

  /**
   * Order-free detection. On every sequence of calls: a serial seen at two log ids, a log id seen with two serials, and
   * a write below a point where its key was found absent each raise their alarm, whichever piece of evidence comes
   * first, and these alarms are raised by nothing else.
   */
  lemma ContradictionsExactlyReported(events: seq<Event>)
    ensures forall s :: DuplicateUp(Run(events).violations, s) <==> TwoLogIds(ClaimsOf(events).evidence, s)
    ensures forall l :: DivergentUp(Run(events).violations, l) <==> TwoSerials(ClaimsOf(events).evidence, l)
    ensures forall k :: AbsenceUp(Run(events).violations, k) <==> WrittenBelowAbsence(ClaimsOf(events), k)
  {
    RunIsExact(events);
    hide Run, ClaimsOf;
  }
}
