/** The entry recorded under each log id at append time, and when its reuse is reported. */
module EntryHistories {
  import opened RaftTypes
  import opened LogDisks

  /** The entry recorded under a log id and the nodes that appended it. */
  datatype Holding = Holding(entry: Entry, holders: set<nat>)

  /** A reuse of `logId`, first seen when `node` appended `entry`. */
  datatype Reuse = Reuse(logId: LogId, node: nat, entry: Entry)

  /** The value of an `EntryHistory` object. */
  datatype History = History(entries: map<LogId, Holding>, reuses: seq<Reuse>)

  const EMPTY_HISTORY := History(map[], [])

  function Recorded(h: History, node: nat, entry: Entry): History {
    var id := entry.logId;
    if id !in h.entries then h.(entries := h.entries[id := Holding(entry, {node})])
    else
      var held := h.entries[id];
      if held.entry == entry then h.(entries := h.entries[id := held.(holders := held.holders + {node})])
      else if held.holders <= {node} then h.(entries := h.entries[id := held.(entry := entry)])
      else h.(reuses := h.reuses + [Reuse(id, node, entry)])
  }

  class EntryHistory {
    var entries: map<LogId, Holding>
    var reuses: seq<Reuse>

    function State(): History
      reads this
    {
      History(entries, reuses)
    }

    constructor ()
      ensures State() == EMPTY_HISTORY
    {
      entries, reuses := map[], [];
    }

    method Record(node: nat, entry: Entry)
      modifies this
      ensures State() == Recorded(old(State()), node, entry)
    {
      if entry.logId !in entries {
        entries := entries[entry.logId := Holding(entry, {node})];
        return;
      }
      var held := entries[entry.logId];
      if held.entry == entry {
        entries := entries[entry.logId := held.(holders := held.holders + {node})];
        return;
      }
      var onlyOnThisNode := forall holder :: holder in held.holders ==> holder == node;
      if onlyOnThisNode {
        entries := entries[entry.logId := held.(entry := entry)];
        return;
      }
      reuses := reuses + [Reuse(entry.logId, node, entry)];
    }
  }

  // Whole runs of appends.

  datatype Append = Append(node: nat, entry: Entry)

  function Run(appends: seq<Append>): History {
    if appends == [] then EMPTY_HISTORY
    else
      var n := |appends| - 1;
      Recorded(Run(appends[..n]), appends[n].node, appends[n].entry)
  }

  /** The appends under one log id, in order. */
  function Under(appends: seq<Append>, id: LogId): seq<Append> {
    if appends == [] then []
    else
      var n := |appends| - 1;
      Under(appends[..n], id) + if appends[n].entry.logId == id then [appends[n]] else []
  }

  /** Append `m` is the first by a second node. */
  ghost predicate SecondNodeAt(a: seq<Append>, m: int) {
    0 < m < |a| && a[m].node != a[0].node && forall i :: 0 <= i < m ==> a[i].node == a[0].node
  }

  /** From the last append before the second node on, not every append is of the same entry. */
  ghost predicate Reused(a: seq<Append>) {
    exists m, i :: SecondNodeAt(a, m) && m <= i < |a| && a[i].entry != a[m - 1].entry
  }

  ghost predicate SharedByNow(a: seq<Append>) {
    exists m :: SecondNodeAt(a, m)
  }

  ghost predicate Reported(h: History, id: LogId) {
    exists r :: r in h.reuses && r.logId == id
  }

  /** What is recorded under a log id after the appends `a` to it. */
  ghost predicate Summed(h: History, id: LogId, a: seq<Append>) {
    && (id in h.entries <==> a != [])
    && (Reported(h, id) <==> Reused(a))
    && (a != [] && !SharedByNow(a) ==> h.entries[id] == Holding(a[|a| - 1].entry, {a[0].node}))
    && (forall m :: SecondNodeAt(a, m) && !Reused(a) ==>
          && h.entries[id].entry == a[m - 1].entry
          && {a[0].node, a[m].node} <= h.entries[id].holders)
  }

  lemma SecondNodeUnique(a: seq<Append>, m: int, n: int)
    requires SecondNodeAt(a, m) && SecondNodeAt(a, n)
    ensures m == n
  {
  }

  /** Whether a second node comes first with the new append, or came before. */
  lemma SecondNodeSnoc(a: seq<Append>, x: Append, m: int)
    ensures SecondNodeAt(a + [x], m) <==>
              SecondNodeAt(a, m) || (m == |a| && a != [] && x.node != a[0].node && !SharedByNow(a))
  {
    var b := a + [x];
    assert a != [] ==> b[0] == a[0];
    assert forall i :: 0 <= i < |a| ==> b[i] == a[i];
    if m == |a| && a != [] && !SharedByNow(a) {
      FirstOther(a);
    }
    if SecondNodeAt(b, m) && m == |a| {
      assert forall n :: 0 <= n < |a| ==> a[n].node == b[n].node == a[0].node;
    }
  }

  lemma {:induction false} FirstOther(a: seq<Append>)
    requires a != [] && !SharedByNow(a)
    ensures forall i :: 0 <= i < |a| ==> a[i].node == a[0].node
  {
    var n := |a| - 1;
    if n > 0 {
      var front := a[..n];
      forall m | SecondNodeAt(front, m)
        ensures SecondNodeAt(a, m)
      {
        assert forall i :: 0 <= i <= m ==> front[i] == a[i];
      }
      FirstOther(front);
      assert forall i :: 0 <= i < n ==> a[i] == front[i];
      if a[n].node != a[0].node {
        assert SecondNodeAt(a, n);
      }
    }
  }

  lemma ReusedSnoc(a: seq<Append>, x: Append, m: int)
    requires SecondNodeAt(a + [x], m)
    ensures Reused(a + [x]) <==> Reused(a) || x.entry != (a + [x])[m - 1].entry
  {
    var b := a + [x];
    assert forall i :: 0 <= i < |a| ==> b[i] == a[i];
    SecondNodeSnoc(a, x, m);
    if p, i :| SecondNodeAt(a, p) && p <= i < |a| && a[i].entry != a[p - 1].entry {
      SecondNodeSnoc(a, x, p);
      assert b[i].entry != b[p - 1].entry;
    }
    if p, i :| SecondNodeAt(b, p) && p <= i < |b| && b[i].entry != b[p - 1].entry {
      SecondNodeUnique(b, p, m);
      if i < |a| {
        assert SecondNodeAt(a, m) && a[i].entry != a[m - 1].entry;
      }
    }
    if x.entry != b[m - 1].entry {
      assert b[|a|].entry != b[m - 1].entry;
    }
  }

  lemma NotSharedSnoc(a: seq<Append>, x: Append)
    requires !SharedByNow(a + [x])
    ensures !SharedByNow(a) && !Reused(a) && !Reused(a + [x]) && (a != [] ==> x.node == a[0].node)
  {
    forall m
      ensures !SecondNodeAt(a, m)
    {
      SecondNodeSnoc(a, x, m);
    }
    SecondNodeSnoc(a, x, |a|);
  }

  lemma ReportedSnoc(h: History, node: nat, entry: Entry, id: LogId)
    ensures Reported(Recorded(h, node, entry), id)
            <==> Reported(h, id)
                 || (entry.logId == id && id in h.entries && h.entries[id].entry != entry
                      && !(h.entries[id].holders <= {node}))
  {
    var g := Recorded(h, node, entry);
    if g.reuses != h.reuses {
      assert g.reuses[|h.reuses|] == Reuse(entry.logId, node, entry);
      assert g.reuses == h.reuses + [Reuse(entry.logId, node, entry)];
    }
  }

  lemma RecordOne(h: History, x: Append, a: seq<Append>)
    requires Summed(h, x.entry.logId, a)
    ensures Summed(Recorded(h, x.node, x.entry), x.entry.logId, a + [x])
  {
    var id, b, g := x.entry.logId, a + [x], Recorded(h, x.node, x.entry);
    ReportedSnoc(h, x.node, x.entry, id);
    if SharedByNow(b) {
      var m :| SecondNodeAt(b, m);
      SecondNodeSnoc(a, x, m);
      ReusedSnoc(a, x, m);
      assert forall i :: 0 <= i < |a| ==> b[i] == a[i];
      forall n | SecondNodeAt(b, n)
        ensures n == m
      {
        SecondNodeUnique(b, n, m);
      }
    } else {
      NotSharedSnoc(a, x);
      assert b[|b| - 1] == x;
    }
  }

  lemma RecordOther(h: History, x: Append, id: LogId, a: seq<Append>)
    requires Summed(h, id, a) && x.entry.logId != id
    ensures Summed(Recorded(h, x.node, x.entry), id, a)
  {
    ReportedSnoc(h, x.node, x.entry, id);
  }

  lemma {:induction false} RunIsSummed(appends: seq<Append>, id: LogId)
    ensures Summed(Run(appends), id, Under(appends, id))
  {
    if appends != [] {
      var n := |appends| - 1;
      var h, x, a := Run(appends[..n]), appends[n], Under(appends[..n], id);
      RunIsSummed(appends[..n], id);
      if x.entry.logId == id {
        RecordOne(h, x, a);
      } else {
        RecordOther(h, x, id, a);
        assert Under(appends, id) == a;
      }
    }
  }

  /**
   * Reuse of a log id is reported exactly when the appends to it, from the first one by a second node onward and
   * together with the last one before that, are not all of one entry.
   */
  lemma ReuseExactlyReported(appends: seq<Append>, id: LogId)
    ensures Reported(Run(appends), id) <==> Reused(Under(appends, id))
  {
    RunIsSummed(appends, id);
  }

  /** Append `i` is the last one by its node. */
  ghost predicate LastOfNode(a: seq<Append>, i: int) {
    0 <= i < |a| && forall j :: i < j < |a| ==> a[j].node != a[i].node
  }

  /** Without a report, the latest entries of any two nodes under a log id agree. */
  lemma NoReportMeansNodesAgree(appends: seq<Append>, id: LogId, i: int, j: int)
    requires !Reported(Run(appends), id)
    requires LastOfNode(Under(appends, id), i) && LastOfNode(Under(appends, id), j)
    ensures Under(appends, id)[i].entry == Under(appends, id)[j].entry
  {
    ReuseExactlyReported(appends, id);
    hide Run, Under;
    var a := Under(appends, id);
    if a[i].node == a[j].node {
      assert i == j;
    } else {
      if !SharedByNow(a) {
        FirstOther(a);
      }
      var m :| SecondNodeAt(a, m);
      LastIsShared(a, i, m);
      LastIsShared(a, j, m);
    }
  }

  /** A node's last append is the last one before the second node, or comes after it. */
  lemma LastIsShared(a: seq<Append>, i: int, m: int)
    requires LastOfNode(a, i) && SecondNodeAt(a, m) && !Reused(a)
    ensures a[i].entry == a[m - 1].entry
  {
    if i < m {
      assert a[m - 1].node == a[0].node;
      assert i == m - 1;
    } else {
      assert !(a[i].entry != a[m - 1].entry);
    }
  }
}
