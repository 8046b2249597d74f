/** One copy of what a log store holds, and what every sequence of writes leaves on it. */
module LogDisks {
  import opened RaftTypes

  datatype Payload =
    | Blank
    | Normal(clientId: string, serial: nat, key: string, value: string)
    | Membership(voters: set<nat>)

  datatype Entry = Entry(logId: LogId, payload: Payload)

  /** The value of a `LogDisk` object. */
  datatype Disk = Disk(vote: Option<Vote>, committed: Option<LogId>, lastPurged: Option<LogId>, log: map<nat, Entry>)

  const EMPTY := Disk(None, None, None, map[])

  datatype LogWrite =
    | Append(entries: seq<Entry>)
    | Truncate(lastKept: Option<LogId>)
    | Purge(upto: LogId)
    | SaveVote(vote: Vote)
    | SaveCommitted(committed: Option<LogId>)

  function InsertAll(log: map<nat, Entry>, entries: seq<Entry>): map<nat, Entry> {
    if entries == [] then log
    else
      var e := entries[|entries| - 1];
      InsertAll(log, entries[..|entries| - 1])[e.logId.index := e]
  }

  function Applied(disk: Disk, write: LogWrite): Disk {
    match write
    case Append(entries) => disk.(log := InsertAll(disk.log, entries))
    case Truncate(lastKept) => disk.(log := map i | i in disk.log && i < NextIndex(lastKept) :: disk.log[i])
    case Purge(upto) =>
      disk.(lastPurged := Some(upto), log := map i | i in disk.log && upto.index + 1 <= i :: disk.log[i])
    case SaveVote(vote) => disk.(vote := Some(vote))
    case SaveCommitted(committed) => disk.(committed := committed)
  }

  /** The disk after `writes`, oldest first. */
  function AppliedAll(disk: Disk, writes: seq<LogWrite>): Disk {
    if writes == [] then disk
    else Applied(AppliedAll(disk, writes[..|writes| - 1]), writes[|writes| - 1])
  }

  lemma {:induction false} AppliedAllConcat(disk: Disk, first: seq<LogWrite>, second: seq<LogWrite>)
    ensures AppliedAll(disk, first + second) == AppliedAll(AppliedAll(disk, first), second)
    decreases |second|
  {
    if second == [] {
      assert first + second == first;
    } else {
      var all := first + second;
      assert all[..|all| - 1] == first + second[..|second| - 1];
      AppliedAllConcat(disk, first, second[..|second| - 1]);
    }
  }

  /** The mutable copy that the store keeps. */
  class LogDisk {
    var vote: Option<Vote>
    var committed: Option<LogId>
    var lastPurged: Option<LogId>
    var log: map<nat, Entry>

    function Value(): Disk
      reads this
    {
      Disk(vote, committed, lastPurged, log)
    }

    constructor ()
      ensures Value() == EMPTY
    {
      vote, committed, lastPurged, log := None, None, None, map[];
    }

    constructor CloneOf(that: LogDisk)
      ensures Value() == that.Value()
    {
      vote, committed, lastPurged, log := that.vote, that.committed, that.lastPurged, that.log;
    }

    method Apply(write: LogWrite)
      modifies this
      ensures Value() == Applied(old(Value()), write)
    {
      match write
      case Append(entries) =>
        for i := 0 to |entries|
          invariant Value() == old(Value()).(log := InsertAll(old(log), entries[..i]))
        {
          assert entries[..i + 1][..i] == entries[..i];
          log := log[entries[i].logId.index := entries[i]];
        }
        assert entries[..|entries|] == entries;
      case Truncate(lastKept) =>
        var start := match lastKept { case Some(logId) => logId.index + 1 case None => 0 };
        log := map i | i in log && i < start :: log[i];
      case Purge(upto) =>
        lastPurged := Some(upto);
        log := map i | i in log && upto.index + 1 <= i :: log[i];
      case SaveVote(v) =>
        vote := Some(v);
      case SaveCommitted(c) =>
        committed := c;
    }
  }

  // What a reader finds, said about the history of writes and not about maps.

  /** `write` decides what index `i` holds: it writes it, truncates it or purges it. */
  ghost predicate Covers(write: LogWrite, i: nat) {
    match write
    case Append(entries) => exists j :: 0 <= j < |entries| && entries[j].logId.index == i
    case Truncate(lastKept) => lastKept.None? || lastKept.value.index < i
    case Purge(upto) => i <= upto.index
    case SaveVote(_) => false
    case SaveCommitted(_) => false
  }

  /** `entries[j]` is the last of `entries` at its index. */
  ghost predicate LastAt(entries: seq<Entry>, j: int) {
    && 0 <= j < |entries|
    && forall m :: j < m < |entries| ==> entries[m].logId.index != entries[j].logId.index
  }

  /** `writes[k]` wrote `e` at index `i` and no later write covers the index. */
  ghost predicate WrittenLast(writes: seq<LogWrite>, k: int, i: nat, e: Entry) {
    && 0 <= k < |writes|
    && writes[k].Append?
    && e.logId.index == i
    && (exists j :: LastAt(writes[k].entries, j) && writes[k].entries[j] == e)
    && forall m :: k < m < |writes| ==> !Covers(writes[m], i)
  }

  lemma {:induction false} InsertAllShows(log: map<nat, Entry>, entries: seq<Entry>, i: nat)
    ensures !Covers(Append(entries), i) ==>
              (i in InsertAll(log, entries) <==> i in log) && (i in log ==> InsertAll(log, entries)[i] == log[i])
    ensures Covers(Append(entries), i) ==>
              && i in InsertAll(log, entries)
              && exists j :: LastAt(entries, j) && entries[j].logId.index == i
                   && InsertAll(log, entries)[i] == entries[j]
  {
    if entries != [] {
      var n := |entries| - 1;
      InsertAllShows(log, entries[..n], i);
      if entries[n].logId.index == i {
        assert LastAt(entries, n);
      } else if Covers(Append(entries), i) {
        var j :| 0 <= j < |entries| && entries[j].logId.index == i;
        assert entries[..n][j] == entries[j];
        var l :| LastAt(entries[..n], l) && entries[..n][l].logId.index == i
          && InsertAll(log, entries[..n])[i] == entries[..n][l];
        assert LastAt(entries, l);
      } else {
        assert !Covers(Append(entries[..n]), i);
      }
    }
  }

  lemma LastAtUnique(entries: seq<Entry>, j: nat, m: nat)
    requires LastAt(entries, j) && LastAt(entries, m) && entries[j].logId.index == entries[m].logId.index
    ensures j == m
  {
  }

  /** One write: an uncovered index keeps what it held, a covered one holds the entry the write put there, if any. */
  lemma AppliedShows(disk: Disk, w: LogWrite, i: nat)
    ensures !Covers(w, i) ==>
              (i in Applied(disk, w).log <==> i in disk.log)
                && (i in disk.log ==> Applied(disk, w).log[i] == disk.log[i])
    ensures Covers(w, i) && i in Applied(disk, w).log ==> w.Append?
    ensures Covers(w, i) && w.Append? ==>
              && i in Applied(disk, w).log
              && exists j :: LastAt(w.entries, j) && w.entries[j].logId.index == i
                   && Applied(disk, w).log[i] == w.entries[j]
  {
    if w.Append? {
      InsertAllShows(disk.log, w.entries, i);
    }
  }

  /**
   * A reader finds entry `e` at index `i` exactly when some write of the history put it there and no later write of
   * the history overwrote, truncated or purged that index.
   */
  lemma {:induction false} ReadableExactlyWhenWrittenLast(writes: seq<LogWrite>, i: nat, e: Entry)
    ensures (i in AppliedAll(EMPTY, writes).log && AppliedAll(EMPTY, writes).log[i] == e)
            <==> exists k :: WrittenLast(writes, k, i, e)
  {
    if writes != [] {
      var n := |writes| - 1;
      var before := writes[..n];
      ReadableExactlyWhenWrittenLast(before, i, e);
      AppliedShows(AppliedAll(EMPTY, before), writes[n], i);
      if Covers(writes[n], i) {
        if i in AppliedAll(EMPTY, writes).log && AppliedAll(EMPTY, writes).log[i] == e {
          assert WrittenLast(writes, n, i, e);
        }
        if k :| WrittenLast(writes, k, i, e) {
          assert k == n;
          var j :| LastAt(writes[n].entries, j) && writes[n].entries[j] == e;
          var m :| LastAt(writes[n].entries, m) && writes[n].entries[m].logId.index == i
                   && AppliedAll(EMPTY, writes).log[i] == writes[n].entries[m];
          LastAtUnique(writes[n].entries, j, m);
        }
      } else {
        if k :| WrittenLast(before, k, i, e) {
          assert WrittenLast(writes, k, i, e);
        }
        if k :| WrittenLast(writes, k, i, e) {
          assert k != n;
          assert writes[k] == before[k];
          assert WrittenLast(before, k, i, e);
        }
      }
    }
  }

  /** The vote, the commit mark and the purge mark are each those of the last write of their kind. */
  lemma {:induction false} MarksAreLastWritten(writes: seq<LogWrite>, k: nat)
    requires k < |writes|
    ensures writes[k].SaveVote? && (forall m :: k < m < |writes| ==> !writes[m].SaveVote?)
            ==> AppliedAll(EMPTY, writes).vote == Some(writes[k].vote)
    ensures writes[k].SaveCommitted? && (forall m :: k < m < |writes| ==> !writes[m].SaveCommitted?)
            ==> AppliedAll(EMPTY, writes).committed == writes[k].committed
    ensures writes[k].Purge? && (forall m :: k < m < |writes| ==> !writes[m].Purge?)
            ==> AppliedAll(EMPTY, writes).lastPurged == Some(writes[k].upto)
  {
    var n := |writes| - 1;
    if k < n {
      assert writes[..n][k] == writes[k];
      MarksAreLastWritten(writes[..n], k);
    }
  }
}
