/**
  * What a Raft node has on disk, what it has only submitted, and what a restart finds. Writes reach the disk in
  * the order they were submitted; a crash keeps a prefix of them. The log includes the entries that a snapshot
  * stands for and that are purged from storage.
  */
module RaftStorage {
  import opened RaftTypes

  type NodeId = nat

  datatype Entry = Entry(leader: LeaderId, payload: nat)

  type Log = seq<Entry>

  function IdAt(log: Log, i: nat): LogId
    requires i < |log|
  {
    LogId(log[i].leader, i)
  }

  function LastId(log: Log): Option<LogId> {
    if log == [] then None else Some(IdAt(log, |log| - 1))
  }

  predicate IdLess(a: Option<LogId>, b: Option<LogId>) {
    b.Some? && (a.None? || a.value.Less(b.value))
  }

  predicate IdAtMost(a: Option<LogId>, b: Option<LogId>) {
    a == b || IdLess(a, b)
  }

  predicate HasAt(log: Log, id: LogId) {
    id.index < |log| && IdAt(log, id.index) == id
  }

  /** A write that makes progress: a vote, and for the vote of a leader the last log id written for it. */
  datatype IoId = IoId(vote: Vote, last: Option<LogId>)

  function Accepted(was: IoId, io: IoId): IoId {
    if was.vote.Less(io.vote) || (was.vote == io.vote && IdLess(was.last, io.last)) then io else was
  }

  /** `mark` is the committed log id that was saved last. */
  datatype Disk = Disk(vote: Vote, log: Log, mark: Option<LogId>)

  datatype Write =
    | SaveVote(vote: Vote)
    | Append(entries: Log, io: IoId)
    | Truncate(since: nat)
      /** Writes nothing; says that the entries of `io` are there already. */
    | Progress(io: IoId)
      /** The state machine stands for the entries `image`. Submitted only once it does. */
    | Purge(image: Log)
    | SaveCommitted(id: LogId)

  function Written(disk: Disk, w: Write): Disk {
    match w
    case SaveVote(vote) => disk.(vote := vote)
    case Append(entries, _) => disk.(log := disk.log + entries)
    case Truncate(since) => if since < |disk.log| then disk.(log := disk.log[..since]) else disk
    case Progress(_) => disk
    case Purge(image) => disk.(log := image + if |image| < |disk.log| then disk.log[|image|..] else [])
    case SaveCommitted(id) => disk.(mark := Some(id))
  }

  function Replayed(disk: Disk, writes: seq<Write>): Disk {
    if writes == [] then disk
    else Written(Replayed(disk, writes[..|writes| - 1]), writes[|writes| - 1])
  }

  /**
    * The storage of a node: the disk, the writes submitted after it, the last write known to be on disk, and the
    * entries the state machine applied, which are durable when it did.
    */
  datatype Store = Store(disk: Disk, pending: seq<Write>, flushed: IoId, applied: Log)

  function NewStore(vote: Vote): Store {
    Store(Disk(vote, [], None), [], IoId(vote, None), [])
  }

  function Submitted(st: Store, w: Write): Store {
    st.(pending := st.pending + [w])
  }

  /** What the state machine stands for once the snapshots among the writes are installed. */
  function Installed(applied: Log, writes: seq<Write>): Log {
    if writes == [] then applied
    else
      var before, w := Installed(applied, writes[..|writes| - 1]), writes[|writes| - 1];
      if w.Purge? && |before| < |w.image| then w.image else before
  }

  /** Submits a write and waits until it is on disk, with every write before it. */
  function Synced(st: Store, w: Write): Store {
    st.(disk := Replayed(st.disk, st.pending + [w]), pending := [], applied := Installed(st.applied, st.pending))
  }

  function VoteSaved(st: Store, vote: Vote): Store {
    Synced(st, SaveVote(vote)).(flushed := Accepted(st.flushed, IoId(vote, None)))
  }

  function IoOf(w: Write): Option<IoId> {
    match w
    case Append(_, io) => Some(io)
    case Progress(io) => Some(io)
    case _ => None
  }

  /** Whether a write may have been submitted: a purge waits for the snapshot to be installed. */
  predicate Ready(w: Write, applied: Log) {
    w.Purge? ==> |w.image| <= |applied|
  }

  /** The oldest submitted write reaches the disk. */
  function Persisted(st: Store): Store
    requires st.pending != []
  {
    var w := st.pending[0];
    st.(disk := Written(st.disk, w), pending := st.pending[1..],
        flushed := match IoOf(w) case Some(io) => Accepted(st.flushed, io) case None => st.flushed)
  }

  // Starting from what a crash left.

  /** How far the state machine must be: as far as it was, or as far as the saved committed log id. */
  function Target(kept: Disk, applied: Log): Option<LogId> {
    if IdLess(kept.mark, LastId(applied)) then LastId(applied) else kept.mark
  }

  /** Whether log entries must be applied again to reach the target. */
  predicate Behind(kept: Disk, applied: Log) {
    IdLess(LastId(applied), Target(kept, applied)) && |applied| < NextIndex(Target(kept, applied))
  }

  /** The state machine after applying them, read by index. */
  function Reapplied(kept: Disk, applied: Log): Log
    requires Behind(kept, applied) ==> NextIndex(Target(kept, applied)) <= |kept.log|
  {
    if Behind(kept, applied) then applied + kept.log[|applied|..NextIndex(Target(kept, applied))] else applied
  }

  datatype Recovery = Recovery(log: Log, pending: seq<Write>, applied: Log, committed: Option<LogId>)

  /**
    * What startup makes of the disk and the state machine. A log that ends before what was applied is purged, the
    * state machine then stands for all of it. None if startup refuses: an entry to apply again is missing, or the
    * log ends below the last applied log id but not before its index.
    */
  function Recovered(kept: Disk, applied: Log): Option<Recovery> {
    var target := Target(kept, applied);
    if Behind(kept, applied) && |kept.log| < NextIndex(target) then None
    else
      var again := Reapplied(kept, applied);
      if !IdLess(LastId(kept.log), target) then Some(Recovery(kept.log, [], again, target))
      else if |kept.log| >= NextIndex(target) then None
      else Some(Recovery(again, [Purge(again)], again, target))
  }

  /** The log left by a crash ends before the last applied log id, or has it at its index. */
  predicate Agrees(kept: Disk, applied: Log) {
    var target := Target(kept, applied);
    target.Some? ==> IdLess(LastId(kept.log), target) || HasAt(kept.log, target.value)
  }

  // Images: what a crash may leave.

  lemma ReplayedSnoc(disk: Disk, writes: seq<Write>, w: Write)
    ensures Replayed(disk, writes + [w]) == Written(Replayed(disk, writes), w)
  {
    assert (writes + [w])[..|writes|] == writes;
  }

  lemma {:induction false} ReplayedShift(disk: Disk, writes: seq<Write>, k: nat)
    requires k < |writes|
    ensures Replayed(Written(disk, writes[0]), writes[1..][..k]) == Replayed(disk, writes[..k + 1])
  {
    hide Written;
    assert writes[..k + 1][..k] == writes[..k];
    if k > 0 {
      ReplayedShift(disk, writes, k - 1);
      assert writes[1..][..k][..k - 1] == writes[1..][..k - 1];
      assert writes[1..][..k][k - 1] == writes[k] == writes[..k + 1][k];
      assert writes[..k + 1][..k] == writes[..k - 1 + 1];
    } else {
      assert writes[..1] == [writes[0]] && [writes[0]][..0] == [];
      assert writes[1..][..0] == [];
    }
  }

  lemma {:induction false} VoteStays(disk: Disk, writes: seq<Write>)
    requires forall w :: w in writes ==> !w.SaveVote?
    ensures Replayed(disk, writes).vote == disk.vote
  {
    if writes != [] {
      VoteStays(disk, writes[..|writes| - 1]);
    }
  }
}
