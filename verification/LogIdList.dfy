/** The compact list of log ids: the last log id of each leader, in place of every log id. */
module LogIdLists {
  import opened RaftTypes

  /** Where the log ids of key `j` start, counted from `first`. */
  function RunStart(first: nat, keys: seq<LogId>, j: int): int
    requires 0 <= j <= |keys|
  {
    if j == 0 then 0 else keys[j - 1].index + 1 - first
  }

  /** The log ids from position `from` to `to` are those of this leader. */
  ghost predicate IsRun(first: nat, ids: seq<LogId>, leader: LeaderId, from: int, to: int) {
    0 <= from <= to <= |ids| && forall i :: from <= i < to ==> ids[i] == LogId(leader, first + i)
  }

  /**
    * `ids` are consecutive log ids from index `first`, one run per leader, leaders ascending; `keys` are the
    * last log ids of the runs.
    */
  ghost predicate Summarises(first: nat, ids: seq<LogId>, keys: seq<LogId>) {
    if keys == [] then ids == []
    else
      var n := |keys| - 1;
      var m := RunStart(first, keys, n);
      && 0 <= m < |ids| && keys[n] == ids[|ids| - 1]
      && IsRun(first, ids, keys[n].leader, m, |ids|)
      && (n > 0 ==> keys[n - 1].leader.Less(keys[n].leader))
      && Summarises(first, ids[..m], keys[..n])
  }

  /** The first key at or beyond an index. */
  predicate IsBound(keys: seq<LogId>, index: int, j: int) {
    && 0 <= j <= |keys|
    && (forall i :: 0 <= i < j ==> keys[i].index < index)
    && (forall i :: j <= i < |keys| ==> index <= keys[i].index)
  }

  method BinarySearch(keys: seq<LogId>, index: nat) returns (j: nat)
    requires forall a, b :: 0 <= a < b < |keys| ==> keys[a].index < keys[b].index
    ensures IsBound(keys, index, j)
  {
    var lo, hi := 0, |keys|;
    while lo < hi
      invariant 0 <= lo <= hi <= |keys|
      invariant forall i :: 0 <= i < lo ==> keys[i].index < index
      invariant forall i :: hi <= i < |keys| ==> index <= keys[i].index
    {
      var mid := (lo + hi) / 2;
      if keys[mid].index < index {
        lo := mid + 1;
      } else {
        hi := mid;
      }
    }
    j := lo;
  }

  method SearchLeader(keys: seq<LogId>, leader: LeaderId) returns (j: nat)
    requires forall a, b :: 0 <= a < b < |keys| ==> keys[a].leader.Less(keys[b].leader)
    ensures j <= |keys|
    ensures forall i :: 0 <= i < j ==> keys[i].leader.Less(leader)
    ensures forall i :: j <= i < |keys| ==> Upto(leader, keys[i].leader)
  {
    var lo, hi := 0, |keys|;
    while lo < hi
      invariant 0 <= lo <= hi <= |keys|
      invariant forall i :: 0 <= i < lo ==> keys[i].leader.Less(leader)
      invariant forall i :: hi <= i < |keys| ==> Upto(leader, keys[i].leader)
    {
      var mid := (lo + hi) / 2;
      if keys[mid].leader.Less(leader) {
        lo := mid + 1;
      } else {
        hi := mid;
      }
    }
    j := lo;
  }

  /** Push a log id, replacing the last key of the same leader. */
  function Pushed(keys: seq<LogId>, id: LogId): seq<LogId> {
    if keys != [] && keys[|keys| - 1].leader == id.leader then keys[..|keys| - 1] + [id] else keys + [id]
  }

  /** The first keys summarise the log ids up to where the next run starts. */
  lemma {:induction false} KeysUpto(first: nat, ids: seq<LogId>, keys: seq<LogId>, j: nat)
    requires Summarises(first, ids, keys) && j <= |keys|
    ensures 0 <= RunStart(first, keys, j) <= |ids|
    ensures Summarises(first, ids[..RunStart(first, keys, j)], keys[..j])
    ensures j == |keys| ==> RunStart(first, keys, j) == |ids|
    decreases |keys|
  {
    var n := |keys| - 1;
    if j == |keys| {
      assert keys[..j] == keys;
      assert keys != [] ==> RunStart(first, keys, j) == |ids|;
      assert ids[..|ids|] == ids;
    } else {
      var m := RunStart(first, keys, n);
      KeysUpto(first, ids[..m], keys[..n], j);
      assert RunStart(first, keys[..n], j) == RunStart(first, keys, j);
      assert keys[..n][..j] == keys[..j];
      assert ids[..m][..RunStart(first, keys, j)] == ids[..RunStart(first, keys, j)];
    }
  }

  /** Key `j` stands for the log ids of its leader from where the key before it ends up to itself. */
  lemma RunOfKey(first: nat, ids: seq<LogId>, keys: seq<LogId>, j: nat)
    requires Summarises(first, ids, keys) && j < |keys|
    ensures var m, e := RunStart(first, keys, j), RunStart(first, keys, j + 1);
            0 <= m < e <= |ids| && IsRun(first, ids, keys[j].leader, m, e)
    ensures j > 0 ==> keys[j - 1].leader.Less(keys[j].leader)
  {
    KeysUpto(first, ids, keys, j + 1);
    var upto := keys[..j + 1];
    assert upto[j] == keys[j] && RunStart(first, upto, j) == RunStart(first, keys, j);
    var e := RunStart(first, keys, j + 1);
    assert forall i :: 0 <= i < e ==> ids[..e][i] == ids[i];
  }

  lemma {:induction false} KeysAscend(first: nat, ids: seq<LogId>, keys: seq<LogId>, i: nat, j: nat)
    requires Summarises(first, ids, keys) && i < j < |keys|
    ensures keys[i].index < keys[j].index && keys[i].leader.Less(keys[j].leader)
    decreases j
  {
    RunOfKey(first, ids, keys, j);
    if i < j - 1 {
      KeysAscend(first, ids, keys, i, j - 1);
    }
  }

  lemma KeysSorted(first: nat, ids: seq<LogId>, keys: seq<LogId>)
    requires Summarises(first, ids, keys)
    ensures forall i, j :: 0 <= i < j < |keys| ==> keys[i].index < keys[j].index && keys[i].leader.Less(keys[j].leader)
  {
    forall i, j | 0 <= i < j < |keys|
      ensures keys[i].index < keys[j].index && keys[i].leader.Less(keys[j].leader)
    {
      KeysAscend(first, ids, keys, i, j);
    }
  }

  /** The leader at an index is that of the first key at or beyond it. */
  lemma LookupIs(first: nat, ids: seq<LogId>, keys: seq<LogId>, index: nat, j: nat)
    requires Summarises(first, ids, keys) && first <= index && IsBound(keys, index, j)
    ensures j < |keys| <==> index < first + |ids|
    ensures j < |keys| ==>
              ids[index - first] == LogId(keys[j].leader, index) && RunStart(first, keys, j) <= index - first
  {
    KeysUpto(first, ids, keys, |keys|);
    if j < |keys| {
      RunOfKey(first, ids, keys, j);
    }
  }

  /** One more run. */
  lemma RunAdded(first: nat, ids: seq<LogId>, keys: seq<LogId>, m: nat, last: LogId)
    requires m < |ids| && m == RunStart(first, keys, |keys|) && Summarises(first, ids[..m], keys)
    requires last == ids[|ids| - 1] && IsRun(first, ids, last.leader, m, |ids|)
    requires keys != [] ==> keys[|keys| - 1].leader.Less(last.leader)
    ensures Summarises(first, ids, keys + [last])
  {
    var all := keys + [last];
    assert all[..|keys|] == keys;
    assert RunStart(first, all, |keys|) == m;
  }

  lemma PushSummarises(first: nat, ids: seq<LogId>, keys: seq<LogId>, id: LogId)
    requires Summarises(first, ids, keys) && id.index == first + |ids|
    requires ids != [] ==> Upto(ids[|ids| - 1].leader, id.leader)
    ensures Summarises(first, ids + [id], Pushed(keys, id))
  {
    var all := ids + [id];
    var n := |keys|;
    KeysUpto(first, ids, keys, n);
    if n > 0 && keys[n - 1].leader == id.leader {
      KeysUpto(first, ids, keys, n - 1);
      RunOfKey(first, ids, keys, n - 1);
      hide Summarises;
      var m := RunStart(first, keys, n - 1);
      assert all[..m] == ids[..m];
      assert RunStart(first, keys[..n - 1], n - 1) == m;
      RunAdded(first, all, keys[..n - 1], m, id);
    } else {
      assert n > 0 ==> keys[n - 1] == ids[|ids| - 1];
      hide Summarises;
      assert all[..|ids|] == ids;
      RunAdded(first, all, keys, |ids|, id);
    }
  }

  /** Cutting the log ids at a position inside run `j`, or at its start. */
  lemma CutSummarises(first: nat, ids: seq<LogId>, keys: seq<LogId>, at: nat, j: nat)
    requires Summarises(first, ids, keys) && first <= at < first + |ids| && IsBound(keys, at, j)
    ensures j < |keys| && RunStart(first, keys, j) <= at - first
    ensures at - first == RunStart(first, keys, j) ==> Summarises(first, ids[..at - first], keys[..j])
    ensures at - first > RunStart(first, keys, j) ==>
              Summarises(first, ids[..at - first], keys[..j] + [LogId(keys[j].leader, at - 1)])
  {
    hide Summarises;
    LookupIs(first, ids, keys, at, j);
    KeysUpto(first, ids, keys, j);
    RunOfKey(first, ids, keys, j);
    var m := RunStart(first, keys, j);
    if at - first > m {
      var cut := ids[..at - first];
      assert cut[..m] == ids[..m];
      assert RunStart(first, keys[..j], j) == m;
      RunAdded(first, cut, keys[..j], m, LogId(keys[j].leader, at - 1));
    }
  }

  /** Dropping the log ids up to an index inside run `j`. */
  lemma {:induction false} DropSummarises(first: nat, ids: seq<LogId>, keys: seq<LogId>, next: nat, j: nat)
    requires Summarises(first, ids, keys) && first <= next <= first + |ids| && IsBound(keys, next, j)
    ensures Summarises(next, ids[next - first..], keys[j..])
    decreases |keys|
  {
    hide Summarises;
    KeysUpto(first, ids, keys, |keys|);
    LookupDrop(first, ids, keys, next, j);
    NothingSummarised(next);
    if j < |keys| {
      var n := |keys| - 1;
      var rest := ids[next - first..];
      KeysUpto(first, ids, keys, n);
      RunOfKey(first, ids, keys, n);
      var m := if j < n then RunStart(first, keys, n) - (next - first) else 0;
      if j < n {
        var cut := ids[..RunStart(first, keys, n)];
        assert next <= keys[n - 1].index;
        DropSummarises(first, cut, keys[..n], next, j);
        assert cut[next - first..] == rest[..m];
      } else {
        assert rest[..0] == [] && keys[..n][j..] == [];
      }
      var left := keys[..n][j..];
      assert left + [keys[n]] == keys[j..];
      RunAdded(next, rest, left, m, keys[n]);
    }
  }

  lemma LookupDrop(first: nat, ids: seq<LogId>, keys: seq<LogId>, next: nat, j: nat)
    requires Summarises(first, ids, keys) && first <= next <= first + |ids| && IsBound(keys, next, j)
    ensures j == |keys| ==> next == first + |ids|
    ensures j < |keys| ==> next < first + |ids| && RunStart(first, keys, j) <= next - first
  {
    LookupIs(first, ids, keys, next, j);
  }

  class LogIdList {
    var purged: Option<LogId>
    var keys: seq<LogId>

    /** Every log id after the purged ones. */
    ghost var ids: seq<LogId>

    ghost predicate Valid()
      reads this
    {
      Summarises(NextIndex(purged), ids, keys)
        && (purged.Some? && ids != [] ==> Upto(purged.value.leader, ids[0].leader))
    }

    constructor ()
      ensures Valid() && purged == None && ids == []
    {
      purged := None;
      keys := [];
      ids := [];
    }

    method Last() returns (last: Option<LogId>)
      requires Valid()
      ensures last == if ids == [] then purged else Some(ids[|ids| - 1])
    {
      last := if keys != [] then Some(keys[|keys| - 1]) else purged;
    }

    method First() returns (first: Option<LogId>)
      requires Valid()
      ensures first == if ids == [] then None else Some(ids[0])
    {
      if keys == [] {
        return None;
      }
      RunOfKey(NextIndex(purged), ids, keys, 0);
      first := Some(LogId(keys[0].leader, NextIndex(purged)));
    }

    method Append(id: LogId)
      requires Valid() && id.index == NextIndex(purged) + |ids|
      requires if ids != [] then Upto(ids[|ids| - 1].leader, id.leader)
               else purged.Some? ==> Upto(purged.value.leader, id.leader)
      modifies this
      ensures Valid() && purged == old(purged) && ids == old(ids) + [id]
    {
      PushSummarises(NextIndex(purged), ids, keys, id);
      keys := Pushed(keys, id);
      ids := ids + [id];
    }

    /** Log ids of one leader, of which only the first and the last are looked at. */
    method ExtendFromSameLeader(leader: LeaderId, count: nat)
      requires Valid()
      requires if ids != [] then Upto(ids[|ids| - 1].leader, leader)
               else purged.Some? ==> Upto(purged.value.leader, leader)
      modifies this
      ensures Valid() && purged == old(purged) && |ids| == |old(ids)| + count && old(ids) <= ids
      ensures IsRun(NextIndex(purged), ids, leader, |old(ids)|, |ids|)
    {
      hide Summarises, Pushed;
      if count == 0 {
        return;
      }
      var next := GetNext();
      Append(LogId(leader, next));
      if count > 1 {
        ghost var more := seq(count - 1, i requires 0 <= i < count - 1 => LogId(leader, next + 1 + i));
        LastIsKey(NextIndex(purged), ids, keys);
        SameLeaderAdded(NextIndex(purged), ids, keys, leader, more);
        keys := Pushed(keys, LogId(leader, next + count - 1));
        ids := ids + more;
      }
    }

    method GetNext() returns (next: nat)
      requires Valid()
      ensures next == NextIndex(purged) + |ids|
    {
      var last := Last();
      LastIndex(NextIndex(purged), ids, keys);
      next := NextIndex(last);
    }

    /** Drop the log ids from `at` on. */
    method Truncate(at: nat)
      requires Valid()
      modifies this
      ensures Valid() && purged == old(purged)
      ensures ids == if at <= NextIndex(purged) then []
              else if at < NextIndex(purged) + |old(ids)| then old(ids)[..at - NextIndex(purged)] else old(ids)
    {
      hide Summarises, IsBound;
      ghost var first := NextIndex(purged);
      NothingSummarised(first);
      if at == 0 {
        keys := [];
        ids := [];
        return;
      }
      KeysSorted(first, ids, keys);
      var i := BinarySearch(keys, at);
      TruncateBound(first, ids, keys, at, i);
      if i == |keys| {
        return;
      }
      var end := if i == 0 then NextIndex(purged) else keys[i - 1].index + 1;
      if at > end {
        CutSummarises(first, ids, keys, at, i);
        keys := keys[..i] + [LogId(keys[i].leader, at - 1)];
        ids := ids[..at - first];
      } else {
        KeysUpto(first, ids, keys, i);
        keys := keys[..i];
        ids := ids[..RunStart(first, old(keys), i)];
      }
    }

    /** Drop the log ids up to `upto`, which may lie beyond the last. */
    method Purge(upto: LogId)
      requires Valid()
      requires NextIndex(purged) <= upto.index < NextIndex(purged) + |ids| ==>
               ids[upto.index - NextIndex(purged)] == upto
      modifies this
      ensures Valid()
      ensures var first := NextIndex(old(purged));
              if upto.index < first then purged == old(purged) && ids == old(ids)
              else purged == Some(upto) && ids == if upto.index < first + |old(ids)|
                then old(ids)[upto.index + 1 - first..] else []
    {
      hide Summarises, IsBound;
      var next := GetNext();
      NothingSummarised(upto.index + 1);
      if upto.index >= next {
        purged := Some(upto);
        keys := [];
        ids := [];
        return;
      }
      if upto.index < NextIndex(purged) {
        return;
      }
      ghost var first := NextIndex(purged);
      KeysSorted(first, ids, keys);
      var i := BinarySearch(keys, upto.index + 1);
      DropSummarises(first, ids, keys, upto.index + 1, i);
      if upto.index + 1 < first + |ids| {
        LeadersAscend(first, ids, keys, upto.index - first, upto.index + 1 - first);
      }
      keys := keys[i..];
      ids := ids[upto.index + 1 - first..];
      purged := Some(upto);
    }

    method Get(index: nat) returns (id: Option<LogId>)
      requires Valid()
      ensures var first := NextIndex(purged);
              id == if index < first then (if index + 1 == first then purged else None)
                    else if index < first + |ids| then Some(ids[index - first])
                    else None
    {
      if index < NextIndex(purged) {
        return if index == purged.value.index then purged else None;
      }
      KeysSorted(NextIndex(purged), ids, keys);
      var i := BinarySearch(keys, index);
      LookupIs(NextIndex(purged), ids, keys, index, i);
      if i >= |keys| {
        return None;
      }
      var start := if i == 0 then NextIndex(purged) else keys[i - 1].index + 1;
      if index < start {
        return None;
      }
      id := Some(LogId(keys[i].leader, index));
    }

    /** The greatest known log id of a leader at or before an index. */
    method GetAtOrBefore(leader: LeaderId, index: nat) returns (r: Option<LogId>)
      requires Valid()
      ensures r.Some? ==> IsKnown(purged, ids, r.value) && r.value.leader == leader && r.value.index <= index
      ensures forall id :: IsKnown(purged, ids, id) && id.leader == leader && id.index <= index ==>
                r.Some? && id.index <= r.value.index
    {
      ghost var first := NextIndex(purged);
      KeysSorted(first, ids, keys);
      var i := SearchLeader(keys, leader);
      KnownOfLeader(first, purged, ids, keys, leader, i);
      hide Summarises;
      var last;
      if i < |keys| && keys[i].leader == leader {
        last := keys[i];
      } else if purged.Some? {
        last := purged.value;
      } else {
        return None;
      }
      if last.leader != leader {
        return None;
      }
      var id := Get(if last.index < index then last.index else index);
      if id.None? || id.value.leader != leader {
        return None;
      }
      r := id;
    }

    /** First and last log id of the last leader; of purged log ids only the last is known. */
    method ByLastLeader() returns (r: Option<(LogId, LogId)>)
      requires Valid()
      ensures ids == [] ==> r == if purged.None? then None else Some((purged.value, purged.value))
      ensures ids != [] ==>
                && r.Some? && r.value.1 == ids[|ids| - 1] && r.value.0 in ids
                && r.value.0.leader == r.value.1.leader
                && forall i :: 0 <= i < |ids| ==>
                     (ids[i].leader == r.value.1.leader <==> r.value.0.index <= ids[i].index)
    {
      var last := Last();
      if last.None? {
        return None;
      }
      var l := |keys|;
      if l == 0 {
        return Some((last.value, last.value));
      }
      var start := if l == 1 then NextIndex(purged) else keys[l - 2].index + 1;
      LastRun(NextIndex(purged), ids, keys);
      r := Some((LogId(last.value.leader, start), last.value));
    }
  }

  /** The log ids of which a list knows: the purge boundary and those after it. */
  ghost predicate IsKnown(purged: Option<LogId>, ids: seq<LogId>, id: LogId) {
    purged == Some(id) || id in ids
  }

  lemma LeadersAscend(first: nat, ids: seq<LogId>, keys: seq<LogId>, i: nat, j: nat)
    requires Summarises(first, ids, keys) && i <= j < |ids|
    ensures Upto(ids[i].leader, ids[j].leader)
    decreases |keys|
  {
    EarlierLeader(first, ids, keys, j);
    var n := |keys| - 1;
    var m := RunStart(first, keys, n);
    EarlierLeader(first, ids, keys, i);
    if j < m {
      LeadersAscend(first, ids[..m], keys[..n], i, j);
    }
  }

  /** Every log id belongs to the key that covers it. */
  lemma KeyOf(first: nat, ids: seq<LogId>, keys: seq<LogId>, p: nat) returns (j: nat)
    requires Summarises(first, ids, keys) && p < |ids|
    ensures j < |keys| && ids[p] == LogId(keys[j].leader, first + p)
    ensures RunStart(first, keys, j) <= p < RunStart(first, keys, j + 1)
    decreases |keys|
  {
    var n := |keys| - 1;
    var m := RunStart(first, keys, n);
    if p < m {
      j := KeyOf(first, ids[..m], keys[..n], p);
      assert ids[p] == ids[..m][p];
    } else {
      j := n;
      KeysUpto(first, ids, keys, n + 1);
    }
  }

  /** The log ids of the leader of key `i` are those the key covers. */
  lemma IdsOfKey(first: nat, ids: seq<LogId>, keys: seq<LogId>, i: nat, p: nat)
    requires Summarises(first, ids, keys) && i < |keys| && p < |ids|
    ensures ids[p].leader == keys[i].leader <==> RunStart(first, keys, i) <= p <= keys[i].index - first
    ensures ids[p].index == first + p
  {
    var j := KeyOf(first, ids, keys, p);
    hide Summarises;
    if j < i {
      KeysAscend(first, ids, keys, j, i);
      StartsAscend(first, ids, keys, j + 1, i);
    } else if i < j {
      KeysAscend(first, ids, keys, i, j);
      StartsAscend(first, ids, keys, i + 1, j);
    }
  }

  lemma StartsAscend(first: nat, ids: seq<LogId>, keys: seq<LogId>, i: nat, j: nat)
    requires Summarises(first, ids, keys) && 0 < i <= j < |keys|
    ensures RunStart(first, keys, i) <= RunStart(first, keys, j)
  {
    if i < j {
      KeysAscend(first, ids, keys, i - 1, j - 1);
    }
  }

  /** What the search for a leader's key tells of the log ids of that leader. */
  lemma KnownOfLeader(first: nat, purged: Option<LogId>, ids: seq<LogId>, keys: seq<LogId>, leader: LeaderId, i: nat)
    requires Summarises(first, ids, keys) && first == NextIndex(purged) && i <= |keys|
    requires purged.Some? && ids != [] ==> Upto(purged.value.leader, ids[0].leader)
    requires forall k :: 0 <= k < i ==> keys[k].leader.Less(leader)
    requires forall k :: i <= k < |keys| ==> Upto(leader, keys[k].leader)
    ensures forall p :: 0 <= p < |ids| ==> ids[p].index == first + p
    ensures i < |keys| && keys[i].leader == leader ==>
              && first <= keys[i].index < first + |ids|
              && (forall p :: 0 <= p < |ids| ==>
                   (ids[p].leader == leader <==> RunStart(first, keys, i) <= p <= keys[i].index - first))
              && (purged.Some? && purged.value.leader == leader ==> RunStart(first, keys, i) <= 0)
    ensures !(i < |keys| && keys[i].leader == leader) ==> forall p :: 0 <= p < |ids| ==> ids[p].leader != leader
  {
    forall p | 0 <= p < |ids|
      ensures ids[p].index == first + p
      ensures !(i < |keys| && keys[i].leader == leader) ==> ids[p].leader != leader
    {
      var j := KeyOf(first, ids, keys, p);
      assert j < i ==> keys[j].leader.Less(leader);
      if i < j {
        KeysAscend(first, ids, keys, i, j);
      }
    }
    if i < |keys| && keys[i].leader == leader {
      LastKey(first, ids, keys, i);
      forall p | 0 <= p < |ids|
        ensures ids[p].leader == leader <==> RunStart(first, keys, i) <= p <= keys[i].index - first
      {
        IdsOfKey(first, ids, keys, i, p);
      }
      if purged.Some? && purged.value.leader == leader {
        LeadersAscend(first, ids, keys, 0, keys[i].index - first);
        assert ids[keys[i].index - first].leader == leader;
      }
    }
  }

  lemma LastIndex(first: nat, ids: seq<LogId>, keys: seq<LogId>)
    requires Summarises(first, ids, keys)
    ensures ids != [] ==> ids[|ids| - 1].index == first + |ids| - 1
  {
  }

  lemma LastIsKey(first: nat, ids: seq<LogId>, keys: seq<LogId>)
    requires Summarises(first, ids, keys) && ids != []
    ensures keys != [] && keys[|keys| - 1] == ids[|ids| - 1]
  {
  }

  lemma NothingSummarised(first: nat)
    ensures Summarises(first, [], [])
  {
  }

  lemma SameLeaderAdded(first: nat, ids: seq<LogId>, keys: seq<LogId>, leader: LeaderId, more: seq<LogId>)
    requires Summarises(first, ids, keys) && keys != [] && keys[|keys| - 1].leader == leader && more != []
    requires forall i :: 0 <= i < |more| ==> more[i] == LogId(leader, first + |ids| + i)
    ensures Summarises(first, ids + more, Pushed(keys, more[|more| - 1]))
  {
    var n := |keys| - 1;
    KeysUpto(first, ids, keys, n);
    KeysUpto(first, ids, keys, n + 1);
    RunOfKey(first, ids, keys, n);
    hide Summarises;
    var m := RunStart(first, keys, n);
    var all := ids + more;
    assert all[..m] == ids[..m];
    assert RunStart(first, keys[..n], n) == m;
    RunAdded(first, all, keys[..n], m, more[|more| - 1]);
  }

  lemma TruncateBound(first: nat, ids: seq<LogId>, keys: seq<LogId>, at: nat, i: nat)
    requires Summarises(first, ids, keys) && IsBound(keys, at, i)
    ensures i == |keys| ==> ids == [] || at >= first + |ids|
    ensures i < |keys| ==> at < first + |ids| && (at <= first ==> i == 0)
    ensures i < |keys| && at > first ==> RunStart(first, keys, i) <= at - first
  {
    KeysUpto(first, ids, keys, |keys|);
    if i < |keys| {
      RunOfKey(first, ids, keys, 0);
      RunOfKey(first, ids, keys, i);
      LastKey(first, ids, keys, i);
      if at > first {
        LookupIs(first, ids, keys, at, i);
      }
    }
  }

  lemma LastKey(first: nat, ids: seq<LogId>, keys: seq<LogId>, i: nat)
    requires Summarises(first, ids, keys) && i < |keys|
    ensures first <= keys[i].index < first + |ids|
  {
    KeysUpto(first, ids, keys, i + 1);
    RunOfKey(first, ids, keys, i);
  }

  lemma LastRun(first: nat, ids: seq<LogId>, keys: seq<LogId>)
    requires Summarises(first, ids, keys) && keys != []
    ensures var m := RunStart(first, keys, |keys| - 1);
            && 0 <= m < |ids| && ids[m] == LogId(keys[|keys| - 1].leader, first + m)
            && (forall i :: 0 <= i < |ids| ==> ids[i].index == first + i)
            && (forall i :: 0 <= i < |ids| ==> (ids[i].leader == keys[|keys| - 1].leader <==> m <= i))
  {
    var n := |keys| - 1;
    RunOfKey(first, ids, keys, n);
    forall i | 0 <= i < |ids|
      ensures ids[i].index == first + i
      ensures i < RunStart(first, keys, n) ==> ids[i].leader.Less(keys[n].leader)
    {
      EarlierLeader(first, ids, keys, i);
    }
  }

  lemma {:induction false} EarlierLeader(first: nat, ids: seq<LogId>, keys: seq<LogId>, i: nat)
    requires Summarises(first, ids, keys) && i < |ids|
    ensures keys != [] && ids[i].index == first + i && Upto(ids[i].leader, keys[|keys| - 1].leader)
    ensures i < RunStart(first, keys, |keys| - 1) ==> ids[i].leader.Less(keys[|keys| - 1].leader)
    decreases |keys|
  {
    var n := |keys| - 1;
    var m := RunStart(first, keys, n);
    if i < m {
      EarlierLeader(first, ids[..m], keys[..n], i);
    }
  }

  // Finding the keys in a stored log.

  /** The log ids in storage: consecutive, leaders ascending. */
  ghost predicate Stored(first: nat, ids: seq<LogId>) {
    && (forall i :: 0 <= i < |ids| ==> ids[i].index == first + i)
    && (forall i, j :: 0 <= i <= j < |ids| ==> Upto(ids[i].leader, ids[j].leader))
  }

  /** Two log ids of one leader: all between them are that leader's. */
  lemma SameLeaderBetween(first: nat, ids: seq<LogId>, f: nat, l: nat)
    requires Stored(first, ids) && f <= l < |ids| && ids[f].leader == ids[l].leader
    ensures IsRun(first, ids, ids[f].leader, f, l + 1)
  {
    forall i | f <= i < l + 1
      ensures ids[i] == LogId(ids[f].leader, first + i)
    {
      assert Upto(ids[f].leader, ids[i].leader) && Upto(ids[i].leader, ids[l].leader);
    }
  }

  /** `keys` summarises the log ids before `z`, and from there to position `at` there is one leader. */
  ghost predicate FoundTo(first: nat, ids: seq<LogId>, keys: seq<LogId>, z: int, at: int) {
    && 0 <= at < |ids| && 0 <= z <= at + 1
    && Summarises(first, ids[..z], keys)
    && IsRun(first, ids, ids[at].leader, z, at + 1)
  }

  lemma PushFound(first: nat, ids: seq<LogId>, keys: seq<LogId>, z: nat, at: nat)
    requires Stored(first, ids) && FoundTo(first, ids, keys, z, at)
    ensures Summarises(first, ids[..at + 1], Pushed(keys, ids[at]))
  {
    hide Summarises;
    assert z > 0 ==> Upto(ids[z - 1].leader, ids[at].leader);
    hide Stored;
    var done, more := ids[..z], ids[z..at + 1];
    assert ids[..at + 1] == done + more;
    KeysUpto(first, done, keys, |keys|);
    if z > 0 {
      LastIsKey(first, done, keys);
      PushFoundRun(first, ids, keys, z, at);
    } else {
      EmptyKeys(first, keys);
      assert ids[..at + 1][..0] == done;
      RunAdded(first, ids[..at + 1], [], 0, ids[at]);
      assert Pushed([], ids[at]) == [] + [ids[at]];
    }
  }

  lemma EmptyKeys(first: nat, keys: seq<LogId>)
    requires Summarises(first, [], keys)
    ensures keys == []
  {
  }

  lemma PushFoundRun(first: nat, ids: seq<LogId>, keys: seq<LogId>, z: nat, at: nat)
    requires FoundTo(first, ids, keys, z, at) && 0 < z && keys != [] && keys[|keys| - 1] == ids[z - 1]
    requires Upto(ids[z - 1].leader, ids[at].leader) && RunStart(first, keys, |keys|) == z
    ensures Summarises(first, ids[..at + 1], Pushed(keys, ids[at]))
  {
    hide Summarises;
    var done, more := ids[..z], ids[z..at + 1];
    assert ids[..at + 1] == done + more;
    if more == [] {
      assert keys[..|keys| - 1] + [ids[at]] == keys;
    } else if ids[z - 1].leader == ids[at].leader {
      SameLeaderAdded(first, done, keys, ids[at].leader, more);
    } else {
      assert ids[..at + 1][..z] == done;
      RunAdded(first, ids[..at + 1], keys, z, ids[at]);
    }
  }

  datatype Range = Range(first: nat, last: nat)

  /** The ranges still to search, the next one last: each begins where the one before it ends. */
  ghost predicate Pending(stack: seq<Range>, count: nat) {
    && (forall k :: 0 <= k < |stack| ==> stack[k].first <= stack[k].last < count)
    && (forall k :: 0 < k < |stack| ==> stack[k].last == stack[k - 1].first)
    && (stack != [] ==> stack[0].last == count - 1)
  }

  function RangeWeight(r: Range): nat {
    if r.first < r.last then 2 * (r.last - r.first) - 1 else 1
  }

  function Weight(stack: seq<Range>): nat {
    if stack == [] then 0 else Weight(stack[..|stack| - 1]) + RangeWeight(stack[|stack| - 1])
  }

  lemma WeightSnoc(stack: seq<Range>, range: Range)
    ensures Weight(stack + [range]) == Weight(stack) + RangeWeight(range)
  {
    assert (stack + [range])[..|stack|] == stack;
  }

  lemma PendingPop(stack: seq<Range>, count: nat)
    requires Pending(stack, count) && stack != []
    ensures var r := stack[|stack| - 1];
            var rest := stack[..|stack| - 1];
            && r.first <= r.last < count && stack == rest + [r]
            && Pending(rest, count) && (if rest == [] then r.last == count - 1 else rest[|rest| - 1].first == r.last)
  {
  }

  lemma PendingPush(rest: seq<Range>, count: nat, r: Range)
    requires Pending(rest, count) && r.first <= r.last < count
    requires if rest == [] then r.last == count - 1 else rest[|rest| - 1].first == r.last
    ensures Pending(rest + [r], count)
  {
  }

  /** Everything from `f` to `l` is one leader's: its last log id is found. */
  lemma FoundRun(first: nat, ids: seq<LogId>, keys: seq<LogId>, z: int, f: nat, l: nat)
    requires Stored(first, ids) && FoundTo(first, ids, keys, z, f) && f <= l < |ids| && ids[f].leader == ids[l].leader
    ensures FoundTo(first, ids, keys, z, l)
    ensures FoundTo(first, ids, Pushed(keys, ids[l]), l + 1, l)
  {
    SameLeaderBetween(first, ids, f, l);
    hide Summarises, Stored;
    assert FoundTo(first, ids, keys, z, l);
    PushFound(first, ids, keys, z, l);
  }

  lemma FoundNext(first: nat, ids: seq<LogId>, keys: seq<LogId>, f: nat)
    requires Stored(first, ids) && FoundTo(first, ids, keys, f + 1, f) && f + 1 < |ids|
    ensures FoundTo(first, ids, keys, f + 1, f + 1)
  {
    hide Summarises;
    SameLeaderBetween(first, ids, f + 1, f + 1);
  }

  lemma FoundAll(first: nat, ids: seq<LogId>, keys: seq<LogId>, l: nat)
    requires FoundTo(first, ids, keys, l + 1, l) && l == |ids| - 1
    ensures Summarises(first, ids, keys)
  {
    hide Summarises;
    assert ids[..l + 1] == ids;
  }

  lemma FoundNone(first: nat, ids: seq<LogId>)
    requires ids != [] && Stored(first, ids)
    ensures FoundTo(first, ids, [], 0, 0)
  {
    assert ids[..0] == [];
    SameLeaderBetween(first, ids, 0, 0);
  }

  /** By bisection, the last log id of every leader in a stored log. */
  method GetKeyLogIds(first: nat, ids: seq<LogId>) returns (keys: seq<LogId>)
    requires ids != [] && Stored(first, ids)
    ensures Summarises(first, ids, keys)
  {
    hide Summarises, Weight, Stored, FoundTo, Pending, Pushed;
    keys := [];
    var stack := [Range(0, |ids| - 1)];
    ghost var z: int := 0;
    FoundNone(first, ids);
    FirstRange(|ids|);
    while stack != []
      invariant Pending(stack, |ids|)
      invariant if stack == [] then Summarises(first, ids, keys)
                else FoundTo(first, ids, keys, z, stack[|stack| - 1].first)
      decreases Weight(stack)
    {
      PendingPop(stack, |ids|);
      var Range(f, l) := stack[|stack| - 1];
      var rest := stack[..|stack| - 1];
      WeightSnoc(rest, Range(f, l));
      if ids[f].leader == ids[l].leader {
        FoundRun(first, ids, keys, z, f, l);
        keys := Pushed(keys, ids[l]);
        z := l + 1;
        stack := rest;
        if stack == [] {
          FoundAll(first, ids, keys, l);
        }
      } else if f + 1 == l {
        FoundRun(first, ids, keys, z, f, f);
        keys := Pushed(keys, ids[f]);
        FoundNext(first, ids, keys, f);
        FoundRun(first, ids, keys, l, l, l);
        keys := Pushed(keys, ids[l]);
        z := l + 1;
        stack := rest;
        if stack == [] {
          FoundAll(first, ids, keys, l);
        }
      } else {
        var mid := (f + l) / 2;
        var right := rest + [Range(mid, l)];
        WeightSnoc(rest, Range(mid, l));
        PendingPush(rest, |ids|, Range(mid, l));
        if ids[f].leader == ids[mid].leader {
          FoundRun(first, ids, keys, z, f, mid);
          stack := right;
        } else {
          WeightSnoc(right, Range(f, mid));
          PendingPush(right, |ids|, Range(f, mid));
          stack := right + [Range(f, mid)];
        }
      }
    }
  }

  lemma FirstRange(count: nat)
    requires count > 0
    ensures Pending([Range(0, count - 1)], count)
  {
  }
}
