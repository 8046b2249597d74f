/** When the read alarms and the final alarms are raised, and what a run without them guarantees. */
module OracleDurability {
  import opened RaftTypes
  import opened ByteStrings
  import opened ClientHistories
  import opened OracleDetection

  /**
    * `Broken` is a predecessor that contradicts the known writes; `Other` are the contradictions counted by
    * `IsContradiction`.
    */
  datatype Kind = Phantom | Monotonic | Stale | LostAcked | LostObserved | Broken | Other

  function KindOf(v: Violation): Kind {
    match v
    case PhantomValue(_, _, _) => Phantom
    case NonMonotonicRead(_, _, _) => Monotonic
    case StaleRead(_, _, _) => Stale
    case LostAckedWrite(_, _, _, _) => LostAcked
    case LostObservedWrite(_, _, _, _) => LostObserved
    case BrokenPredecessor(_, _, prev, _) => if prev.Some? then Broken else Other
    case _ => Other
  }

  /** The alarms of one kind, in order. */
  function Of(alarms: seq<Violation>, kind: Kind): seq<Violation> {
    if alarms == [] then []
    else
      var n := |alarms| - 1;
      Of(alarms[..n], kind) + if KindOf(alarms[n]) == kind then [alarms[n]] else []
  }

  lemma {:induction false} OfConcat(a: seq<Violation>, b: seq<Violation>, kind: Kind)
    ensures Of(a + b, kind) == Of(a, kind) + Of(b, kind)
    decreases |b|
  {
    if b == [] {
      assert a + b == a;
    } else {
      var n := |b| - 1;
      assert (a + b)[..|a| + n] == a + b[..n];
      OfConcat(a, b[..n], kind);
    }
  }

  /** One report adds one alarm to its kind and none to the others. */
  lemma OfReport(h: History, raised: bool, v: Violation, kind: Kind)
    ensures Of(ReportIf(h, raised, v).violations, kind)
            == Of(h.violations, kind) + if raised && KindOf(v) == kind then [v] else []
  {
    if raised {
      assert (h.violations + [v])[..|h.violations|] == h.violations;
    }
  }

  lemma OfNone(base: seq<Violation>, extra: seq<Violation>, kind: Kind)
    requires kind != Other && |extra| <= 1 && forall v :: v in extra ==> KindOf(v) == Other
    ensures Of(base + extra, kind) == Of(base, kind)
  {
    OfConcat(base, extra, kind);
    assert extra == [] || (extra[..0] == [] && KindOf(extra[0]) == Other);
  }

  lemma OfResolve(h: History, x: Evidence, kind: Kind)
    requires kind != Other
    ensures Of(ResolveIt(h, x).violations, kind) == Of(h.violations, kind)
  {
    ResolveFields(h, x);
    hide ResolveIt, Of;
    var a := if SerialClash(h, x) then [DuplicateApply(x.serial, h.resolvedLog[x.serial], x.logId)] else [];
    var b := if LogIdClash(h, x) then [DivergentEntry(x.logId, h.resolvedSerial[x.logId], x.serial)] else [];
    var d := if FloorClash(h, x) then [WriteBelowAbsence(x.key, x.serial, x.logId, h.absentBelow[x.key])] else [];
    OfNone(h.violations, a, kind);
    OfNone(h.violations + a, b, kind);
    OfNone(h.violations + a + b, d, kind);
  }

  lemma OfObserve(h: History, key: Bytes, meta: ValueMeta, kind: Kind)
    requires kind != Other
    ensures Of(Observe(h, key, meta).violations, kind)
            == Of(h.violations, kind) + if kind == Phantom && !Matches(h, key, meta)
              then [PhantomValue(key, meta.serial, meta.value)] else []
  {
    hide Resolve;
    OfReport(h, !Matches(h, key, meta), PhantomValue(key, meta.serial, meta.value), kind);
    OfResolve(CheckAttempted(h, key, meta), Evidence(key, meta.serial, meta.logId), kind);
  }

  lemma ObserveFields(h: History, key: Bytes, meta: ValueMeta)
    ensures var g := Observe(h, key, meta);
            g.attempts == h.attempts && g.maxAcked == h.maxAcked && g.lastRead == h.lastRead
  {
    ResolveFields(CheckAttempted(h, key, meta), Evidence(key, meta.serial, meta.logId));
    hide Resolve;
  }

  // What an ack adds.

  function PhantomsIn(h: History, key: Bytes, meta: Option<ValueMeta>): seq<Violation> {
    if meta.Some? && !Matches(h, key, meta.value) then [PhantomValue(key, meta.value.serial, meta.value.value)] else []
  }

  /** The known writes of the key once the previous value is pinned. */
  function KnownWithPrev(h: History, key: Bytes, prev: Option<ValueMeta>): map<LogId, nat> {
    Committed(if prev.Some? then Observe(h, key, prev.value) else h, key)
  }

  function BrokenIn(h: History, key: Bytes, logId: LogId, prev: Option<ValueMeta>): seq<Violation> {
    var newest := NewestBelow(KnownWithPrev(h, key, prev), logId);
    if prev.Some? && IsBroken(logId, LogIdOf(prev), newest) then [BrokenPredecessor(key, logId, LogIdOf(prev), newest)]
      else []
  }

  lemma PrevAdds(h: History, key: Bytes, logId: LogId, prev: Option<ValueMeta>, kind: Kind)
    requires kind != Other
    ensures var g := CheckPrev(h, key, logId, prev);
            && Of(g.violations, kind)
                 == Of(h.violations, kind)
                    + (if kind == Phantom then PhantomsIn(h, key, prev) else [])
                    + (if kind == Broken then BrokenIn(h, key, logId, prev) else [])
            && g.maxAcked == h.maxAcked && g.lastRead == h.lastRead
  {
    hide Observe, NewestBelow, IsBroken, ReportIf, RaiseFloor;
    var h1 := if prev.Some? then Observe(h, key, prev.value) else h;
    if prev.Some? {
      OfObserve(h, key, prev.value, kind);
      ObserveFields(h, key, prev.value);
    }
    var newest := NewestBelow(Committed(h1, key), logId);
    var broken, v := IsBroken(logId, LogIdOf(prev), newest), BrokenPredecessor(key, logId, LogIdOf(prev), newest);
    OfReport(h1, broken, v, kind);
    ReportMembers(h1, broken, v);
    RaiseFields(ReportIf(h1, broken, v), key, logId);
  }

  /** The state in which an ack's previous value is checked: the write itself is pinned and counted. */
  function AckPinned(h: History, serial: nat, logId: LogId): History
    requires serial in h.attempts
  {
    var key := h.attempts[serial].key;
    RaiseAcked(Resolve(SetOutcome(h, serial, Acked(logId)), key, serial, logId), key, serial, logId)
  }

  lemma AckAdds(h: History, serial: nat, logId: LogId, prev: Option<ValueMeta>, kind: Kind)
    requires kind != Other && serial in h.attempts
    ensures var g, key := WriteAcked(h, serial, logId, prev), h.attempts[serial].key;
            && Of(g.violations, kind)
                 == Of(h.violations, kind)
                    + (if kind == Phantom then PhantomsIn(h, key, prev) else [])
                    + (if kind == Broken then BrokenIn(AckPinned(h, serial, logId), key, logId, prev) else [])
            && g.maxAcked == (if key in h.maxAcked && !h.maxAcked[key].0.Less(logId) then h.maxAcked
                              else h.maxAcked[key := (logId, serial)])
            && g.lastRead == h.lastRead
  {
    hide Resolve, CheckPrev, Of, BrokenIn;
    var key := h.attempts[serial].key;
    var h1 := SetOutcome(h, serial, Acked(logId));
    var x := Evidence(key, serial, logId);
    ResolveFields(h1, x);
    OfResolve(h1, x, kind);
    var h3 := RaiseAcked(ResolveIt(h1, x), key, serial, logId);
    PrevAdds(h3, key, logId, prev, kind);
    assert prev.Some? ==> (Matches(h3, key, prev.value) <==> Matches(h, key, prev.value));
  }

  // What a read adds.

  function MonotonicIn(h: History, key: Bytes, seen: Option<LogId>): seq<Violation> {
    if key in h.lastRead && IsBelow(seen, h.lastRead[key]) then [NonMonotonicRead(key, h.lastRead[key], seen)] else []
  }

  function StaleIn(key: Bytes, seen: Option<LogId>, floor: Option<LogId>): seq<Violation> {
    if floor.Some? && IsBelow(seen, floor.value) then [StaleRead(key, floor.value, seen)] else []
  }

  lemma ChecksAdd(h: History, key: Bytes, seen: Option<LogId>, floor: Option<LogId>, kind: Kind)
    ensures Of(CheckStale(CheckMonotonic(h, key, seen), key, seen, floor).violations, kind)
            == Of(h.violations, kind)
               + (if kind == Monotonic then MonotonicIn(h, key, seen) else [])
               + if kind == Stale then StaleIn(key, seen, floor) else []
  {
    hide ReportIf, IsBelow, Of;
    if key in h.lastRead {
      OfReport(h, IsBelow(seen, h.lastRead[key]), NonMonotonicRead(key, h.lastRead[key], seen), kind);
    }
    if floor.Some? {
      OfReport(CheckMonotonic(h, key, seen), IsBelow(seen, floor.value), StaleRead(key, floor.value, seen), kind);
    }
  }

  lemma AbsentAdds(h: History, key: Bytes, bound: LogId, kind: Kind)
    requires kind != Other
    ensures Of(CheckAbsent(h, key, bound).violations, kind) == Of(h.violations, kind)
  {
    hide NewestBelow, RaiseFloor, Of;
    var newest := NewestBelow(Committed(h, key), bound);
    if newest.Some? {
      var v := WriteBelowAbsence(key, Committed(h, key)[newest.value], newest.value, bound);
      OfReport(h, true, v, kind);
      RaiseFields(Report(h, v), key, bound);
    } else {
      RaiseFields(h, key, bound);
    }
  }

  lemma ReadAdds(h: History, key: Bytes, observed: Option<ValueMeta>, floor: Option<LogId>, barrier: Option<LogId>,
      kind: Kind)
    requires kind != Other
    ensures var g, seen := ReadDone(h, key, observed, floor, barrier), LogIdOf(observed);
            && Of(g.violations, kind)
                 == Of(h.violations, kind)
                    + (if kind == Phantom then PhantomsIn(h, key, observed) else [])
                    + (if kind == Monotonic then MonotonicIn(h, key, seen) else [])
                    + (if kind == Stale then StaleIn(key, seen, floor) else [])
            && g.maxAcked == h.maxAcked
            && g.lastRead == if observed.Some? then h.lastRead[key := observed.value.logId] else h.lastRead
  {
    hide Observe, CheckStale, CheckMonotonic, CheckAbsent, Of;
    var seen := LogIdOf(observed);
    var h1 := if observed.Some? then Observe(h, key, observed.value) else h;
    if observed.Some? {
      OfObserve(h, key, observed.value, kind);
      ObserveFields(h, key, observed.value);
    }
    ChecksAdd(h1, key, seen, floor, kind);
    ReadChecksOnlyReport(h1, key, seen, floor);
    var h2 := CheckStale(CheckMonotonic(h1, key, seen), key, seen, floor);
    if barrier.Some? {
      AbsentAdds(h2, key, After(barrier.value), kind);
      CheckAbsentFields(h2, key, After(barrier.value));
    }
  }

  // What the final check adds.

  function LostAckedIn(h: History, m: Member, keys: seq<Bytes>): seq<Violation>
    requires forall k :: k in keys ==> k in h.maxAcked
  {
    if keys == [] then []
    else
      var n := |keys| - 1;
      var acked, found := h.maxAcked[keys[n]].0, FoundIn(m, keys[n]);
      LostAckedIn(h, m, keys[..n]) + if IsBelow(found, acked) then [LostAckedWrite(m.node, keys[n], acked, found)]
        else []
  }

  function LostObservedIn(h: History, m: Member, keys: seq<Bytes>): seq<Violation>
    requires forall k :: k in keys ==> k in h.lastRead
  {
    if keys == [] then []
    else
      var n := |keys| - 1;
      var seen, found := h.lastRead[keys[n]], FoundIn(m, keys[n]);
      LostObservedIn(h, m, keys[..n]) + if IsBelow(found, seen) then [LostObservedWrite(m.node, keys[n], seen, found)]
        else []
  }

  lemma {:induction false} AckedScanAdds(h: History, m: Member, keys: seq<Bytes>, kind: Kind)
    requires forall k :: k in keys ==> k in h.maxAcked
    ensures Of(ScanAcked(h, m, keys).violations, kind)
            == Of(h.violations, kind) + if kind == LostAcked then LostAckedIn(h, m, keys) else []
  {
    hide Of, IsBelow, FoundIn, ReportIf;
    if keys != [] {
      var n := |keys| - 1;
      AckedScanAdds(h, m, keys[..n], kind);
      var acked, found := h.maxAcked[keys[n]].0, FoundIn(m, keys[n]);
      OfReport(ScanAcked(h, m, keys[..n]), IsBelow(found, acked), LostAckedWrite(m.node, keys[n], acked, found), kind);
    }
  }

  lemma {:induction false} ObservedScanAdds(h: History, m: Member, keys: seq<Bytes>, kind: Kind)
    requires forall k :: k in keys ==> k in h.lastRead
    ensures Of(ScanObserved(h, m, keys).violations, kind)
            == Of(h.violations, kind) + if kind == LostObserved then LostObservedIn(h, m, keys) else []
  {
    hide Of, IsBelow, FoundIn, ReportIf;
    if keys != [] {
      var n := |keys| - 1;
      ObservedScanAdds(h, m, keys[..n], kind);
      var seen, found := h.lastRead[keys[n]], FoundIn(m, keys[n]);
      OfReport(ScanObserved(h, m, keys[..n]), IsBelow(found, seen), LostObservedWrite(m.node, keys[n], seen, found),
        kind);
    }
  }

  /** Whether a scan of the data meets a value that no attempt wrote. */
  ghost predicate HasPhantom(h: History, m: Member, keys: seq<Bytes>)
    requires forall k :: k in keys ==> k in m.data
  {
    exists k :: k in keys && !Matches(h, k, m.data[k])
  }

  lemma {:induction false} DataScanAdds(h: History, m: Member, keys: seq<Bytes>, kind: Kind)
    requires kind != Other && forall k :: k in keys ==> k in m.data
    ensures var g := ScanData(h, m, keys);
            && (kind != Phantom ==> Of(g.violations, kind) == Of(h.violations, kind))
            && (Of(g.violations, Phantom) != [] <==> Of(h.violations, Phantom) != [] || HasPhantom(h, m, keys))
            && g.attempts == h.attempts && g.maxAcked == h.maxAcked && g.lastRead == h.lastRead
  {
    hide Of, Observe;
    if keys != [] {
      var n := |keys| - 1;
      DataScanAdds(h, m, keys[..n], kind);
      var g := ScanData(h, m, keys[..n]);
      OfObserve(g, keys[n], m.data[keys[n]], kind);
      OfObserve(g, keys[n], m.data[keys[n]], Phantom);
      ObserveFields(g, keys[n], m.data[keys[n]]);
      assert keys == keys[..n] + [keys[n]];
    }
  }

  lemma MemberAdds(h: History, m: Member, kind: Kind)
    requires kind != Other
    ensures var g := CheckMember(h, m);
            && (kind == LostAcked ==>
                 Of(g.violations, kind) == Of(h.violations, kind) + LostAckedIn(h, m, InOrder(h.maxAcked.Keys)))
            && (kind == LostObserved ==>
                 Of(g.violations, kind) == Of(h.violations, kind) + LostObservedIn(h, m, InOrder(h.lastRead.Keys)))
            && (kind == Monotonic || kind == Stale || kind == Broken ==>
                 Of(g.violations, kind) == Of(h.violations, kind))
            && (Of(g.violations, Phantom) != [] <==>
                 Of(h.violations, Phantom) != [] || HasPhantom(h, m, InOrder(m.data.Keys)))
            && g.attempts == h.attempts && g.maxAcked == h.maxAcked && g.lastRead == h.lastRead
  {
    hide Of, InOrder, Sorted, Less, ScanAcked, ScanObserved, ScanData, LostAckedIn, LostObservedIn, Matches;
    var acked := InOrder(h.maxAcked.Keys);
    var h1 := ScanAcked(h, m, acked);
    ScansOnlyReport(h, m, acked, []);
    AckedScanAdds(h, m, acked, kind);
    AckedScanAdds(h, m, acked, Phantom);
    var read := InOrder(h1.lastRead.Keys);
    var h2 := ScanObserved(h1, m, read);
    ScansOnlyReport(h1, m, [], read);
    ObservedScanAdds(h1, m, read, kind);
    ObservedScanAdds(h1, m, read, Phantom);
    SameReads(h, h1, m, read);
    DataScanAdds(h2, m, InOrder(m.data.Keys), kind);
    SameAttempts(h, h2, m, InOrder(m.data.Keys));
  }

  lemma {:induction false} SameReads(h: History, g: History, m: Member, keys: seq<Bytes>)
    requires h.lastRead == g.lastRead && forall k :: k in keys ==> k in h.lastRead
    ensures LostObservedIn(h, m, keys) == LostObservedIn(g, m, keys)
  {
    if keys != [] {
      SameReads(h, g, m, keys[..|keys| - 1]);
    }
  }

  lemma SameAttempts(h: History, g: History, m: Member, keys: seq<Bytes>)
    requires h.attempts == g.attempts && forall k :: k in keys ==> k in m.data
    ensures HasPhantom(h, m, keys) <==> HasPhantom(g, m, keys)
  {
    assert forall k :: k in keys ==> (Matches(h, k, m.data[k]) <==> Matches(g, k, m.data[k]));
  }

  lemma {:induction false} LostAckedExactly(h: History, m: Member, keys: seq<Bytes>)
    requires forall k :: k in keys ==> k in h.maxAcked
    ensures LostAckedIn(h, m, keys) != [] <==> exists k :: k in keys && IsBelow(FoundIn(m, k), h.maxAcked[k].0)
  {
    hide IsBelow, FoundIn;
    if keys != [] {
      var n := |keys| - 1;
      LostAckedExactly(h, m, keys[..n]);
      assert keys == keys[..n] + [keys[n]];
    }
  }

  lemma {:induction false} LostObservedExactly(h: History, m: Member, keys: seq<Bytes>)
    requires forall k :: k in keys ==> k in h.lastRead
    ensures LostObservedIn(h, m, keys) != [] <==> exists k :: k in keys && IsBelow(FoundIn(m, k), h.lastRead[k])
  {
    hide IsBelow, FoundIn;
    if keys != [] {
      var n := |keys| - 1;
      LostObservedExactly(h, m, keys[..n]);
      assert keys == keys[..n] + [keys[n]];
    }
  }

  ghost predicate LosesAcked(h: History, m: Member) {
    exists k :: k in h.maxAcked && IsBelow(FoundIn(m, k), h.maxAcked[k].0)
  }

  ghost predicate LosesObserved(h: History, m: Member) {
    exists k :: k in h.lastRead && IsBelow(FoundIn(m, k), h.lastRead[k])
  }

  ghost predicate ShowsPhantom(h: History, m: Member) {
    exists k :: k in m.data && !Matches(h, k, m.data[k])
  }

  lemma MemberExactly(h: History, m: Member)
    ensures var g := CheckMember(h, m);
            && (Of(g.violations, LostAcked) != [] <==> Of(h.violations, LostAcked) != [] || LosesAcked(h, m))
            && (Of(g.violations, LostObserved) != [] <==> Of(h.violations, LostObserved) != [] || LosesObserved(h, m))
            && (Of(g.violations, Phantom) != [] <==> Of(h.violations, Phantom) != [] || ShowsPhantom(h, m))
            && Of(g.violations, Monotonic) == Of(h.violations, Monotonic)
            && Of(g.violations, Stale) == Of(h.violations, Stale)
            && Of(g.violations, Broken) == Of(h.violations, Broken)
            && g.attempts == h.attempts && g.maxAcked == h.maxAcked && g.lastRead == h.lastRead
  {
    hide Of, InOrder, Sorted, Less, CheckMember, LostAckedIn, LostObservedIn, Matches, IsBelow, FoundIn;
    MemberAdds(h, m, LostAcked);
    MemberAdds(h, m, LostObserved);
    MemberAdds(h, m, Monotonic);
    MemberAdds(h, m, Stale);
    MemberAdds(h, m, Broken);
    LostAckedExactly(h, m, InOrder(h.maxAcked.Keys));
    LostObservedExactly(h, m, InOrder(h.lastRead.Keys));
  }

  lemma {:induction false} FinalExactly(h: History, members: seq<Member>)
    ensures var g := FinalChecked(h, members);
            && (Of(g.violations, LostAcked) != [] <==>
                 Of(h.violations, LostAcked) != [] || exists m :: m in members && LosesAcked(h, m))
            && (Of(g.violations, LostObserved) != [] <==>
                 Of(h.violations, LostObserved) != [] || exists m :: m in members && LosesObserved(h, m))
            && (Of(g.violations, Phantom) != [] <==>
                 Of(h.violations, Phantom) != [] || exists m :: m in members && ShowsPhantom(h, m))
            && Of(g.violations, Monotonic) == Of(h.violations, Monotonic)
            && Of(g.violations, Stale) == Of(h.violations, Stale)
            && Of(g.violations, Broken) == Of(h.violations, Broken)
            && g.attempts == h.attempts && g.maxAcked == h.maxAcked && g.lastRead == h.lastRead
  {
    hide Of, CheckMember, LosesAcked, LosesObserved, ShowsPhantom;
    if members != [] {
      var n := |members| - 1;
      FinalExactly(h, members[..n]);
      var g := FinalChecked(h, members[..n]);
      MemberExactly(g, members[n]);
      SameLosses(h, g, members[n]);
      assert members == members[..n] + [members[n]];
      assert FinalChecked(h, members) == CheckMember(g, members[n]);
      hide FinalChecked;
    }
  }

  lemma SameLosses(h: History, g: History, m: Member)
    requires g.attempts == h.attempts && g.maxAcked == h.maxAcked && g.lastRead == h.lastRead
    ensures LosesAcked(h, m) <==> LosesAcked(g, m)
    ensures LosesObserved(h, m) <==> LosesObserved(g, m)
    ensures ShowsPhantom(h, m) <==> ShowsPhantom(g, m)
  {
    assert forall k :: k in m.data ==> (Matches(h, k, m.data[k]) <==> Matches(g, k, m.data[k]));
    hide IsBelow, FoundIn, Matches;
  }

  // Over whole runs: what the clients were told, as sets of marks.

  /** A write to `key` at `logId`, acked or read. */
  datatype Mark = Mark(key: Bytes, logId: LogId)

  function AcksOf(events: seq<Event>): set<Mark> {
    if events == [] then {}
    else
      var before, e := events[..|events| - 1], events[|events| - 1];
      AcksOf(before) + if e.Ack? && KeyOf(before, e.serial).Some? then {Mark(KeyOf(before, e.serial).value, e.logId)}
        else {}
  }

  function ReadsOf(events: seq<Event>): set<Mark> {
    if events == [] then {}
    else
      var before, e := events[..|events| - 1], events[|events| - 1];
      ReadsOf(before) + if e.Read? && e.observed.Some? then {Mark(e.key, e.observed.value.logId)} else {}
  }

  ghost predicate AcksSummed(h: History, acks: set<Mark>) {
    && (forall a :: a in acks ==> a.key in h.maxAcked && a.logId.AtMost(h.maxAcked[a.key].0))
    && (forall k :: k in h.maxAcked ==> Mark(k, h.maxAcked[k].0) in acks)
  }

  ghost predicate ReadsSummed(h: History, seenMarks: set<Mark>) {
    && (forall r :: r in seenMarks ==> r.key in h.lastRead)
    && (forall k :: k in h.lastRead ==> Mark(k, h.lastRead[k]) in seenMarks)
    && (Of(h.violations, Monotonic) == [] ==> forall r :: r in seenMarks ==> r.logId.AtMost(h.lastRead[r.key]))
  }

  function AckOf(h: History, e: Event): set<Mark> {
    if e.Ack? && e.serial in h.attempts then {Mark(h.attempts[e.serial].key, e.logId)} else {}
  }

  function ReadOf(e: Event): set<Mark> {
    if e.Read? && e.observed.Some? then {Mark(e.key, e.observed.value.logId)} else {}
  }

  /**
    * The highest ack per key is the maximum over the history; the last read is too, unless a regression was reported.
    */
  lemma {:induction false} MaximaKnown(events: seq<Event>)
    ensures AcksSummed(Run(events), AcksOf(events))
    ensures ReadsSummed(Run(events), ReadsOf(events))
  {
    if events != [] {
      var n := |events| - 1;
      var before, e := events[..n], events[n];
      MaximaKnown(before);
      if e.Ack? {
        AttemptsKnown(before, e.serial);
      }
      assert AcksOf(events) == AcksOf(before) + AckOf(Run(before), e);
      assert ReadsOf(events) == ReadsOf(before) + ReadOf(e);
      AckMaxima(Run(before), e, AcksOf(before));
      ReadMaxima(Run(before), e, ReadsOf(before));
      hide Step, AcksSummed, ReadsSummed;
    }
  }

  lemma AckMaxima(h: History, e: Event, acks: set<Mark>)
    requires AcksSummed(h, acks)
    ensures AcksSummed(Step(h, e), acks + AckOf(h, e))
  {
    hide Of, AcksSummed;
    match e
    case Ack(serial, logId, prev) =>
      hide WriteAcked;
      if serial in h.attempts {
        AckAdds(h, serial, logId, prev, Stale);
        AckMaximum(h, WriteAcked(h, serial, logId, prev), acks, h.attempts[serial].key, serial, logId);
      } else {
        UnknownAckIgnored(h, serial, logId, prev);
        SameMaxima(h, h, acks);
      }
    case Read(key, observed, floor, barrier) =>
      hide ReadDone;
      ReadAdds(h, key, observed, floor, barrier, Stale);
      SameMaxima(h, ReadDone(h, key, observed, floor, barrier), acks);
    case Final(members) =>
      hide FinalChecked, LosesAcked, LosesObserved, ShowsPhantom;
      FinalExactly(h, members);
      SameMaxima(h, FinalChecked(h, members), acks);
    case _ =>
      SameMaxima(h, Step(h, e), acks);
  }

  lemma SameMaxima(h: History, g: History, acks: set<Mark>)
    requires AcksSummed(h, acks) && g.maxAcked == h.maxAcked
    ensures AcksSummed(g, acks + {})
  {
    assert acks + {} == acks;
  }

  lemma AckMaximum(h: History, g: History, acks: set<Mark>, key: Bytes, serial: nat, logId: LogId)
    requires AcksSummed(h, acks)
    requires g.maxAcked == if key in h.maxAcked && !h.maxAcked[key].0.Less(logId) then h.maxAcked
                           else h.maxAcked[key := (logId, serial)]
    ensures AcksSummed(g, acks + {Mark(key, logId)})
  {
    forall a | a in acks + {Mark(key, logId)}
      ensures a.key in g.maxAcked && a.logId.AtMost(g.maxAcked[a.key].0)
    {
      if a in acks && a.key == key && g.maxAcked[key].0 != h.maxAcked[key].0 {
        AtMostTransitive(a.logId, h.maxAcked[key].0, logId);
      }
    }
  }

  lemma AtMostTransitive(a: LogId, b: LogId, c: LogId)
    requires a.AtMost(b) && b.Less(c)
    ensures a.AtMost(c)
  {
  }

  lemma ReadMaxima(h: History, e: Event, seenMarks: set<Mark>)
    requires ReadsSummed(h, seenMarks)
    ensures ReadsSummed(Step(h, e), seenMarks + ReadOf(e))
  {
    hide Of, ReadsSummed;
    match e
    case Ack(serial, logId, prev) =>
      hide WriteAcked;
      if serial in h.attempts {
        AckAdds(h, serial, logId, prev, Monotonic);
      } else {
        UnknownAckIgnored(h, serial, logId, prev);
      }
      SameReadMaxima(h, WriteAcked(h, serial, logId, prev), seenMarks);
    case Read(key, observed, floor, barrier) =>
      hide ReadDone;
      ReadAdds(h, key, observed, floor, barrier, Monotonic);
      ReadMaximum(h, Step(h, e), seenMarks, key, observed);
    case Final(members) =>
      hide FinalChecked, LosesAcked, LosesObserved, ShowsPhantom;
      FinalExactly(h, members);
      SameReadMaxima(h, FinalChecked(h, members), seenMarks);
    case _ =>
      SameReadMaxima(h, Step(h, e), seenMarks);
  }

  lemma SameReadMaxima(h: History, g: History, seenMarks: set<Mark>)
    requires ReadsSummed(h, seenMarks) && g.lastRead == h.lastRead
    requires Of(g.violations, Monotonic) == Of(h.violations, Monotonic)
    ensures ReadsSummed(g, seenMarks + {})
  {
    hide Of;
    assert seenMarks + {} == seenMarks;
  }

  lemma ReadMaximum(h: History, g: History, seenMarks: set<Mark>, key: Bytes, observed: Option<ValueMeta>)
    requires ReadsSummed(h, seenMarks)
    requires Of(g.violations, Monotonic) == Of(h.violations, Monotonic) + MonotonicIn(h, key, LogIdOf(observed))
    requires g.lastRead == if observed.Some? then h.lastRead[key := observed.value.logId] else h.lastRead
    ensures ReadsSummed(g, seenMarks + if observed.Some? then {Mark(key, observed.value.logId)} else {})
  {
    hide Of;
    var more := seenMarks + if observed.Some? then {Mark(key, observed.value.logId)} else {};
    if Of(g.violations, Monotonic) == [] {
      assert MonotonicIn(h, key, LogIdOf(observed)) == [];
      forall r | r in more
        ensures r.logId.AtMost(g.lastRead[r.key])
      {
        if r in seenMarks && r.key == key && observed.Some? {
          assert !observed.value.logId.Less(h.lastRead[key]);
        }
      }
    }
  }

  lemma BelowTop(found: Option<LogId>, l: LogId, top: LogId)
    requires l.AtMost(top) && IsBelow(found, l)
    ensures IsBelow(found, top)
  {
  }

  /** Some mark of the key is not covered by what was found. */
  ghost predicate Misses(marks: set<Mark>, key: Bytes, found: Option<LogId>) {
    exists a :: a in marks && a.key == key && IsBelow(found, a.logId)
  }

  /**
   * A read is reported stale exactly when it misses a write to its key that was acked before the moment `begin` at
   * which the floor was captured.
   */
  lemma StaleExactlyWhenAckMissed(events: seq<Event>, begin: nat, key: Bytes, observed: Option<ValueMeta>,
      barrier: Option<LogId>)
    requires begin <= |events|
    ensures var h, floor := Run(events), AckedFloor(Run(events[..begin]), key);
            Of(ReadDone(h, key, observed, floor, barrier).violations, Stale) != Of(h.violations, Stale)
            <==> Misses(AcksOf(events[..begin]), key, LogIdOf(observed))
  {
    hide Run, AcksOf, Of, ReadDone;
    var h, g, acks := Run(events), Run(events[..begin]), AcksOf(events[..begin]);
    var floor, seen := AckedFloor(g, key), LogIdOf(observed);
    MaximaKnown(events[..begin]);
    ReadAdds(h, key, observed, floor, barrier, Stale);
    if key in g.maxAcked && IsBelow(seen, g.maxAcked[key].0) {
      assert Mark(key, g.maxAcked[key].0) in acks;
    }
    if a :| a in acks && a.key == key && IsBelow(seen, a.logId) {
      BelowTop(seen, a.logId, g.maxAcked[key].0);
    }
  }

  /** What the latest read of the key that found a value found. */
  function LatestRead(events: seq<Event>, key: Bytes): Option<LogId> {
    if events == [] then None
    else
      var before, e := events[..|events| - 1], events[|events| - 1];
      if e.Read? && e.key == key && e.observed.Some? then Some(e.observed.value.logId) else LatestRead(before, key)
  }

  lemma {:induction false} LatestReadKept(events: seq<Event>, key: Bytes)
    ensures LatestRead(events, key) == if key in Run(events).lastRead then Some(Run(events).lastRead[key]) else None
  {
    if events != [] {
      var before, e := events[..|events| - 1], events[|events| - 1];
      LatestReadKept(before, key);
      StepReads(Run(before), e);
      hide Step;
    }
  }

  lemma StepReads(h: History, e: Event)
    ensures Step(h, e).lastRead
            == if e.Read? && e.observed.Some? then h.lastRead[e.key := e.observed.value.logId] else h.lastRead
  {
    hide Of;
    match e
    case Ack(serial, logId, prev) =>
      hide WriteAcked;
      if serial in h.attempts {
        AckAdds(h, serial, logId, prev, Stale);
      } else {
        UnknownAckIgnored(h, serial, logId, prev);
      }
    case Read(key, observed, floor, barrier) =>
      hide ReadDone;
      ReadAdds(h, key, observed, floor, barrier, Stale);
    case Final(members) =>
      hide FinalChecked, LosesAcked, LosesObserved, ShowsPhantom;
      FinalExactly(h, members);
    case _ =>
  }

  ghost predicate BelowLatest(events: seq<Event>, key: Bytes, found: Option<LogId>) {
    LatestRead(events, key).Some? && IsBelow(found, LatestRead(events, key).value)
  }

  /** Whatever was reported before, a read is reported as a regression exactly when it is below the latest read. */
  lemma RegressionExactlyWhenBelowLatest(
    events: seq<Event>, key: Bytes, observed: Option<ValueMeta>, floor: Option<LogId>, barrier: Option<LogId>)
    ensures Of(ReadDone(Run(events), key, observed, floor, barrier).violations, Monotonic) !=
            Of(Run(events).violations, Monotonic)
            <==> BelowLatest(events, key, LogIdOf(observed))
  {
    hide Run, LatestRead, Of, ReadDone;
    LatestReadKept(events, key);
    ReadAdds(Run(events), key, observed, floor, barrier, Monotonic);
  }

  /** The final check reports a lost read exactly when a member is below the latest read of some key. */
  lemma LostReadsExactlyReported(events: seq<Event>, members: seq<Member>)
    requires Of(Run(events).violations, LostObserved) == []
    ensures Of(FinalChecked(Run(events), members).violations, LostObserved) != []
            <==> exists m, key :: m in members && BelowLatest(events, key, FoundIn(m, key))
  {
    hide Run, LatestRead, Of, FinalChecked, LosesAcked, ShowsPhantom, FoundIn, IsBelow;
    FinalExactly(Run(events), members);
    forall key {
      LatestReadKept(events, key);
    }
    assert forall m, key :: BelowLatest(events, key, FoundIn(m, key)) ==> LosesObserved(Run(events), m);
    forall m | LosesObserved(Run(events), m)
      ensures exists key :: BelowLatest(events, key, FoundIn(m, key))
    {
      var key :| key in Run(events).lastRead && IsBelow(FoundIn(m, key), Run(events).lastRead[key]);
      assert BelowLatest(events, key, FoundIn(m, key));
    }
  }

  /** After a reported regression, a read may miss an earlier read without being reported. */
  lemma SomeMissedReadIsSilent()
    ensures exists events, key, observed ::
              && Misses(ReadsOf(events), key, LogIdOf(observed))
              && Of(ReadDone(Run(events), key, observed, None, None).violations, Monotonic) ==
                   Of(Run(events).violations, Monotonic)
  {
    hide Run, ReadDone, Of;
    var l := LeaderId(1, 0);
    var high, low, between :=
      ValueMeta([], 0, LogId(l, 5)), ValueMeta([], 1, LogId(l, 3)), ValueMeta([], 2, LogId(l, 4));
    var first := [Read([], Some(high), None, None)];
    var events := first + [Read([], Some(low), None, None)];
    assert events[..1] == first && first[..0] == [];
    assert Mark([], high.logId) in ReadsOf(events);
    assert LatestRead(events, []) == Some(low.logId);
    RegressionExactlyWhenBelowLatest(events, [], Some(between), None, None);
    assert Misses(ReadsOf(events), [], LogIdOf(Some(between)));
  }

  /**
    * As long as no regression was reported, a read is reported as one exactly when it misses an earlier read of its
    * key.
    */
  lemma RegressionExactlyWhenReadMissed(
    events: seq<Event>, key: Bytes, observed: Option<ValueMeta>, floor: Option<LogId>, barrier: Option<LogId>)
    requires Of(Run(events).violations, Monotonic) == []
    ensures Of(ReadDone(Run(events), key, observed, floor, barrier).violations, Monotonic) != []
            <==> Misses(ReadsOf(events), key, LogIdOf(observed))
  {
    hide Run, ReadsOf, Of, ReadDone;
    var h, seenMarks, seen := Run(events), ReadsOf(events), LogIdOf(observed);
    MaximaKnown(events);
    ReadAdds(h, key, observed, floor, barrier, Monotonic);
    if key in h.lastRead && IsBelow(seen, h.lastRead[key]) {
      assert Mark(key, h.lastRead[key]) in seenMarks;
    }
    if a :| a in seenMarks && a.key == key && IsBelow(seen, a.logId) {
      BelowTop(seen, a.logId, h.lastRead[key]);
    }
  }

  /** The member lacks something that `marks` promise. */
  ghost predicate Lacks(m: Member, marks: set<Mark>) {
    exists a :: a in marks && IsBelow(FoundIn(m, a.key), a.logId)
  }

  lemma LacksExactly(h: History, m: Member, acks: set<Mark>)
    requires AcksSummed(h, acks)
    ensures LosesAcked(h, m) <==> Lacks(m, acks)
  {
    if k :| k in h.maxAcked && IsBelow(FoundIn(m, k), h.maxAcked[k].0) {
      assert Mark(k, h.maxAcked[k].0) in acks;
    }
    if a :| a in acks && IsBelow(FoundIn(m, a.key), a.logId) {
      BelowTop(FoundIn(m, a.key), a.logId, h.maxAcked[a.key].0);
    }
  }

  lemma LacksReadExactly(h: History, m: Member, seenMarks: set<Mark>)
    requires ReadsSummed(h, seenMarks) && Of(h.violations, Monotonic) == []
    ensures LosesObserved(h, m) <==> Lacks(m, seenMarks)
  {
    hide Of;
    if k :| k in h.lastRead && IsBelow(FoundIn(m, k), h.lastRead[k]) {
      assert Mark(k, h.lastRead[k]) in seenMarks;
    }
    if a :| a in seenMarks && IsBelow(FoundIn(m, a.key), a.logId) {
      BelowTop(FoundIn(m, a.key), a.logId, h.lastRead[a.key]);
    }
  }

  /**
   * The final check reports a lost acked write exactly when some member sits below some ack of the whole history, and,
   * if reads never regressed, a lost observed write exactly when some member sits below some read of it.
   */
  lemma LossesExactlyReported(events: seq<Event>, members: seq<Member>)
    requires Of(Run(events).violations, LostAcked) == [] && Of(Run(events).violations, LostObserved) == []
    ensures Of(FinalChecked(Run(events), members).violations, LostAcked) != []
            <==> exists m :: m in members && Lacks(m, AcksOf(events))
    ensures Of(Run(events).violations, Monotonic) == [] ==>
              (Of(FinalChecked(Run(events), members).violations, LostObserved) != []
               <==> exists m :: m in members && Lacks(m, ReadsOf(events)))
  {
    hide Run, AcksOf, ReadsOf, Of, FinalChecked, LosesAcked, LosesObserved, ShowsPhantom, Lacks;
    var h := Run(events);
    MaximaKnown(events);
    FinalExactly(h, members);
    forall m | m in members
      ensures LosesAcked(h, m) <==> Lacks(m, AcksOf(events))
    {
      LacksExactly(h, m, AcksOf(events));
    }
    if Of(h.violations, Monotonic) == [] {
      forall m | m in members
        ensures LosesObserved(h, m) <==> Lacks(m, ReadsOf(events))
      {
        LacksReadExactly(h, m, ReadsOf(events));
      }
    }
  }

  /**
   * Clean run implies durability: if nothing was reported up to and including the final check, every member holds, for
   * each key, a value at or above every acked log id and every log id that any read observed.
   */
  lemma CleanRunMeansDurable(events: seq<Event>, members: seq<Member>, m: Member, a: Mark)
    requires FinalChecked(Run(events), members).violations == []
    requires Run(events).violations == []
    requires m in members && (a in AcksOf(events) || a in ReadsOf(events))
    ensures a.key in m.data && a.logId.AtMost(m.data[a.key].logId)
  {
    LossesExactlyReported(events, members);
    hide Run, AcksOf, ReadsOf, FinalChecked;
    assert !Lacks(m, AcksOf(events)) && !Lacks(m, ReadsOf(events));
    assert !IsBelow(FoundIn(m, a.key), a.logId);
  }

  // Phantoms.

  /** A value that a call reports under a key. */
  datatype Sighting = Sighting(key: Bytes, meta: ValueMeta)

  function SightingFrom(key: Bytes, meta: Option<ValueMeta>): set<Sighting> {
    if meta.Some? then {Sighting(key, meta.value)} else {}
  }

  function SightingsIn(before: seq<Event>, e: Event): set<Sighting> {
    match e
    case Ack(serial, _, prev) => if KeyOf(before, serial).Some? then SightingFrom(KeyOf(before, serial).value, prev)
      else {}
    case Read(key, observed, _, _) => SightingFrom(key, observed)
    case Final(members) => set m, k | m in members && k in m.data :: Sighting(k, m.data[k])
    case _ => {}
  }

  /** The key and value of the latest attempt of a serial. */
  function LatestAttempt(events: seq<Event>, serial: nat): Option<(Bytes, Bytes)> {
    if events == [] then None
    else
      var e := events[|events| - 1];
      if e.Attempt? && e.serial == serial then Some((e.key, e.value)) else LatestAttempt(events[..|events| - 1], serial)
  }

  predicate WasAttempted(events: seq<Event>, x: Sighting) {
    LatestAttempt(events, x.meta.serial) == Some((x.key, x.meta.value))
  }

  ghost predicate SawPhantom(events: seq<Event>, i: int, x: Sighting) {
    0 <= i < |events| && x in SightingsIn(events[..i], events[i]) && !WasAttempted(events[..i], x)
  }

  lemma {:induction false} MatchesExactly(events: seq<Event>, x: Sighting)
    ensures Matches(Run(events), x.key, x.meta) <==> WasAttempted(events, x)
  {
    if events != [] {
      var n := |events| - 1;
      MatchesExactly(events[..n], x);
      StepMatches(Run(events[..n]), events[n], x);
      hide Step, Matches;
    }
  }

  lemma StepMatches(h: History, e: Event, x: Sighting)
    ensures Matches(Step(h, e), x.key, x.meta)
            <==> if e.Attempt? && e.serial == x.meta.serial then e.key == x.key && e.value == x.meta.value
              else Matches(h, x.key, x.meta)
  {
    hide WriteAcked, ReadDone, FinalChecked;
    match e
    case Ack(s, logId, prev) =>
      if s in h.attempts {
        AckKeepsKeys(h, s, logId, prev);
      } else {
        UnknownAckIgnored(h, s, logId, prev);
      }
    case Read(key, observed, floor, barrier) =>
      ReadKeepsAttempts(h, key, observed, floor, barrier);
    case Final(members) =>
      FinalKeepsAttempts(h, members);
    case _ =>
  }

  ghost predicate CallShowsPhantom(before: seq<Event>, e: Event) {
    exists x :: x in SightingsIn(before, e) && !Matches(Run(before), x.key, x.meta)
  }

  lemma AckPhantoms(before: seq<Event>, serial: nat, logId: LogId, prev: Option<ValueMeta>)
    ensures Of(WriteAcked(Run(before), serial, logId, prev).violations, Phantom) != []
            <==> Of(Run(before).violations, Phantom) != [] || CallShowsPhantom(before, Ack(serial, logId, prev))
  {
    hide Run, Of, WriteAcked, Matches, KeyOf;
    var h := Run(before);
    AttemptsKnown(before, serial);
    if serial in h.attempts {
      var key := h.attempts[serial].key;
      AckAdds(h, serial, logId, prev, Phantom);
      assert SightingsIn(before, Ack(serial, logId, prev)) == SightingFrom(key, prev);
      OneSighting(h, key, prev);
    } else {
      UnknownAckIgnored(h, serial, logId, prev);
    }
  }

  lemma OneSighting(h: History, key: Bytes, meta: Option<ValueMeta>)
    ensures PhantomsIn(h, key, meta) != [] <==> exists x :: x in SightingFrom(key, meta) && !Matches(h, x.key, x.meta)
  {
    hide Matches;
    if meta.Some? {
      assert Sighting(key, meta.value) in SightingFrom(key, meta);
    }
  }

  lemma ReadPhantoms(before: seq<Event>, key: Bytes, observed: Option<ValueMeta>, floor: Option<LogId>,
      barrier: Option<LogId>)
    ensures Of(ReadDone(Run(before), key, observed, floor, barrier).violations, Phantom) != []
            <==>
            Of(Run(before).violations, Phantom) != [] || CallShowsPhantom(before, Read(key, observed, floor, barrier))
  {
    hide Run, Of, ReadDone, Matches;
    ReadAdds(Run(before), key, observed, floor, barrier, Phantom);
    OneSighting(Run(before), key, observed);
  }

  lemma FinalPhantoms(before: seq<Event>, members: seq<Member>)
    ensures Of(FinalChecked(Run(before), members).violations, Phantom) != []
            <==> Of(Run(before).violations, Phantom) != [] || CallShowsPhantom(before, Final(members))
  {
    hide Run, Of, FinalChecked, LosesAcked, LosesObserved, Matches;
    var h := Run(before);
    FinalExactly(h, members);
    if m :| m in members && ShowsPhantom(h, m) {
      var k :| k in m.data && !Matches(h, k, m.data[k]);
      assert Sighting(k, m.data[k]) in SightingsIn(before, Final(members));
    }
    if x :| x in SightingsIn(before, Final(members)) && !Matches(h, x.key, x.meta) {
      var m, k :| m in members && k in m.data && x == Sighting(k, m.data[k]);
      assert ShowsPhantom(h, m);
    }
  }

  lemma StepPhantoms(before: seq<Event>, e: Event)
    ensures Of(Step(Run(before), e).violations, Phantom) != []
            <==> Of(Run(before).violations, Phantom) != [] || CallShowsPhantom(before, e)
  {
    match e
    case Ack(serial, logId, prev) =>
      AckPhantoms(before, serial, logId, prev);
      hide Run, Of, WriteAcked, CallShowsPhantom;
    case Read(key, observed, floor, barrier) =>
      ReadPhantoms(before, key, observed, floor, barrier);
      hide Run, Of, ReadDone, CallShowsPhantom;
    case Final(members) =>
      FinalPhantoms(before, members);
      hide Run, Of, FinalChecked, CallShowsPhantom;
    case _ =>
      hide Run, Of, Matches;
  }

  lemma SawPhantomEarlier(events: seq<Event>, n: nat, i: int, x: Sighting)
    requires i < n <= |events|
    ensures SawPhantom(events[..n], i, x) <==> SawPhantom(events, i, x)
  {
    hide SightingsIn, WasAttempted;
    if 0 <= i {
      assert events[..n][..i] == events[..i];
    }
  }

  lemma PhantomInRange(events: seq<Event>)
    ensures forall i, x :: SawPhantom(events, i, x) ==> 0 <= i < |events|
  {
  }

  lemma LastPhantom(events: seq<Event>)
    requires events != []
    ensures var n := |events| - 1;
            CallShowsPhantom(events[..n], events[n]) <==> exists x :: SawPhantom(events, n, x)
  {
    hide Run, Matches, WasAttempted, SightingsIn;
    var n := |events| - 1;
    forall x | x in SightingsIn(events[..n], events[n])
      ensures Matches(Run(events[..n]), x.key, x.meta) <==> WasAttempted(events[..n], x)
    {
      MatchesExactly(events[..n], x);
    }
    if x :| x in SightingsIn(events[..n], events[n]) && !Matches(Run(events[..n]), x.key, x.meta) {
      assert SawPhantom(events, n, x);
    }
  }

  /** A phantom value is reported exactly when some call saw a value that was not that of its serial's attempt. */
  lemma {:induction false} PhantomsExactlyReported(events: seq<Event>)
    ensures Of(Run(events).violations, Phantom) != [] <==> exists i, x :: SawPhantom(events, i, x)
  {
    if events == [] {
      assert forall i, x :: !SawPhantom(events, i, x);
    } else {
      var n := |events| - 1;
      var before := events[..n];
      PhantomsExactlyReported(before);
      StepPhantoms(before, events[n]);
      LastPhantom(events);
      PhantomInRange(before);
      PhantomInRange(events);
      hide Of, Step, CallShowsPhantom, SawPhantom;
      forall i, x | i < n
        ensures SawPhantom(before, i, x) <==> SawPhantom(events, i, x)
      {
        SawPhantomEarlier(events, n, i, x);
      }
    }
  }
}
