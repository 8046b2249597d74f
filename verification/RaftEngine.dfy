/** One Raft node: votes, its log, elections, replication, commit and restart, handler by handler. */
module RaftEngine {
  import opened RaftTypes
  import opened RaftStorage

  /** The payload of the entry a leader writes on taking office. */
  const BLANK: nat := 0

  /** A commit as reported by a leader. */
  datatype CommitMark = CommitMark(leader: LeaderId, id: Option<LogId>) {

    predicate Less(that: CommitMark) {
      leader.Less(that.leader) || (leader == that.leader && IdLess(id, that.id))
    }
  }

  datatype Candidate = Candidate(vote: Vote, last: Option<LogId>, granted: set<NodeId>)

  /** A leader, and the last log id each node has confirmed to it. */
  datatype Leader = Leader(leader: LeaderId, matched: map<NodeId, LogId>)

  datatype Node = Node(
    id: NodeId,
    vote: Vote,
    log: Log,
    accepted: IoId,
    cluster: Option<CommitMark>,
    committed: Option<LogId>,
    candidate: Option<Candidate>,
    leader: Option<Leader>,
    store: Store)

  function NewNode(id: NodeId): Node {
    var vote := Vote(LeaderId(0, id), false);
    Node(id, vote, [], IoId(vote, None), None, None, None, None, NewStore(vote))
  }

  /** The quorums of a membership: of votes to win an election, of writes to commit. */
  datatype Quorums = Quorums(read: set<set<NodeId>>, write: set<set<NodeId>>)

  ghost predicate Intersecting(q: Quorums) {
    forall r, w :: r in q.read && w in q.write ==> exists n :: n in r && n in w
  }

  predicate Wins(q: Quorums, granted: set<NodeId>) {
    exists r :: r in q.read && r <= granted
  }

  // Votes.

  /** Every message's vote is checked first: a smaller vote is refused, a greater one adopted. */
  function VoteUpdated(n: Node, vote: Vote): Option<Node> {
    if !n.vote.AtMost(vote) then None
    else
      var updated :=
        if n.vote.Less(vote)
        then n.(vote := vote, accepted := Accepted(n.accepted, IoId(vote, None)), store := VoteSaved(n.store, vote))
        else n;
      Some(if vote.leader.node == n.id then updated else updated.(candidate := None, leader := None))
  }

  function Elected(n: Node): Node {
    var vote := Vote(LeaderId(n.vote.leader.term + 1, n.id), false);
    n.(candidate := Some(Candidate(vote, LastId(n.log), {})), leader := None,
       vote := vote, accepted := Accepted(n.accepted, IoId(vote, None)), store := VoteSaved(n.store, vote))
  }

  datatype VoteOutcome = VoteOutcome(node: Node, granted: bool)

  function VoteRequested(n: Node, vote: Vote, last: Option<LogId>): VoteOutcome {
    if !IdAtMost(LastId(n.log), last) then VoteOutcome(n, false)
    else
      match VoteUpdated(n, vote)
      case None => VoteOutcome(n, false)
      case Some(updated) => VoteOutcome(updated, true)
  }

  function LeaderAppended(n: Node, payload: nat): Node
    requires n.leader.Some?
  {
    var leader := n.leader.value.leader;
    var log := n.log + [Entry(leader, payload)];
    var io := IoId(Vote(leader, true), LastId(log));
    n.(log := log, accepted := Accepted(n.accepted, io),
      store := Submitted(n.store, Append([Entry(leader, payload)], io)))
  }

  function Established(n: Node): Node
    requires n.candidate.Some?
  {
    var Candidate(vote, last, _) := n.candidate.value;
    if n.leader.Some? && !n.leader.value.leader.Less(vote.leader) then n.(candidate := None)
    else
      var leading := n.(candidate := None, leader := Some(Leader(vote.leader, map[])));
      match VoteUpdated(leading, Vote(vote.leader, true))
      case None => leading
      case Some(voted) =>
        if voted.leader.None? then voted
        else LeaderAppended(voted.(accepted := Accepted(voted.accepted, IoId(Vote(vote.leader, true), last))), BLANK)
  }

  function VoteAnswered(n: Node, q: Quorums, from: NodeId, vote: Vote, granted: bool): Node {
    if n.candidate.None? then n
    else if granted && vote == n.candidate.value.vote then
      var candidate := n.candidate.value.(granted := n.candidate.value.granted + {from});
      var counted := n.(candidate := Some(candidate));
      if Wins(q, candidate.granted) then Established(counted) else counted
    else
      match VoteUpdated(n, Vote(vote.leader, false))
      case None => n
      case Some(updated) => updated
  }

  // Following a leader.

  /** Whether the node has this log id; below the committed index it is taken for granted. */
  predicate HasLogId(n: Node, id: LogId) {
    id.index < NextIndex(n.committed) || HasAt(n.log, id)
  }

  function Truncated(n: Node, since: nat): Node {
    if since < |n.log| then n.(log := n.log[..since], store := Submitted(n.store, Truncate(since))) else n
  }

  /** How many of the entries, which start at index `first`, the node has. */
  function FirstConflict(n: Node, first: nat, entries: Log): (r: nat)
    ensures r <= |entries|
    decreases |entries|
  {
    if entries == [] || !HasLogId(n, LogId(entries[0].leader, first)) then 0
    else 1 + FirstConflict(n, first + 1, entries[1..])
  }

  function LastOf(prev: Option<LogId>, entries: Log): Option<LogId> {
    if entries == [] then prev else Some(LogId(entries[|entries| - 1].leader, NextIndex(prev) + |entries| - 1))
  }

  function EntriesAppended(n: Node, leader: LeaderId, prev: Option<LogId>, entries: Log): Node {
    var last := LastOf(prev, entries);
    var greatest := if IdLess(last, prev) then prev else last;
    var io := IoId(Vote(leader, true), greatest);
    var noted := n.(accepted := Accepted(n.accepted, io));
    var since := FirstConflict(n, NextIndex(prev), entries);
    if since < |entries| then
      var cut := Truncated(noted, NextIndex(prev) + since);
      cut.(log := cut.log + entries[since..],
           store := Submitted(cut.store, Append(entries[since..], IoId(Vote(leader, true), last))))
    else if noted.accepted == n.accepted then noted
    else noted.(store := Submitted(n.store, Progress(io)))
  }

  datatype AppendOutcome = AppendOutcome(node: Node, ok: bool)

  function SegmentReceived(n: Node, leader: LeaderId, prev: Option<LogId>, entries: Log): AppendOutcome {
    match VoteUpdated(n, Vote(leader, true))
    case None => AppendOutcome(n, false)
    case Some(voted) =>
      if prev.Some? && !HasLogId(voted, prev.value) then AppendOutcome(Truncated(voted, prev.value.index), false)
      else AppendOutcome(EntriesAppended(voted, leader, prev, entries), true)
  }

  /** A snapshot stands for the entries `image`; it replaces the log up to there, and conflicting entries after. */
  function SnapshotInstalled(n: Node, leader: LeaderId, image: Log): Node
    requires image != []
  {
    var k := |image|;
    var conflict := k <= |n.log| && IdAt(n.log, k - 1) != IdAt(image, k - 1);
    var kept := if conflict then Truncated(n, NextIndex(n.committed)) else n;
    kept.(log := image + (if k < |kept.log| then kept.log[k..] else []),
          accepted := Accepted(kept.accepted, IoId(Vote(leader, true), LastId(image))),
          committed := LastId(image),
          store := Submitted(kept.store, Purge(image)))
  }

  /** A snapshot of entries the node already knows to be committed is not installed. */
  function SnapshotReceived(n: Node, leader: LeaderId, image: Log): AppendOutcome
    requires image != []
  {
    match VoteUpdated(n, Vote(leader, true))
    case None => AppendOutcome(n, false)
    case Some(voted) =>
      if IdAtMost(LastId(image), voted.committed) then AppendOutcome(voted, true)
      else AppendOutcome(SnapshotInstalled(voted, leader, image), true)
  }

  // Committing.

  function ClusterCommitted(was: Option<CommitMark>, mark: CommitMark): CommitMark {
    if was.None? || was.value.Less(mark) then mark else was.value
  }

  /** What the node may apply: as far as it accepted from a leader no older than the reported commit. */
  function LocalCommit(accepted: IoId, cluster: CommitMark): Option<LogId> {
    if cluster.id.None? || !accepted.vote.committed then None
    else
      var leader := accepted.vote.leader;
      if leader.Less(cluster.leader) || leader.Less(cluster.id.value.leader) then None
      else if IdLess(accepted.last, cluster.id) then accepted.last
      else cluster.id
  }

  function LocallyCommitted(n: Node, id: Option<LogId>): Node {
    if IdLess(n.committed, id) then n.(committed := id) else n
  }

  function CommitLearned(n: Node, mark: CommitMark): Node {
    var cluster := ClusterCommitted(n.cluster, mark);
    LocallyCommitted(n.(cluster := Some(cluster)), LocalCommit(n.accepted, cluster))
  }

  /** An append request: its segment, then its commit, the latter even when the segment is refused. */
  function AppendReceived(n: Node, leader: LeaderId, prev: Option<LogId>, entries: Log,
      commit: Option<LogId>): AppendOutcome {
    var r := SegmentReceived(n, leader, prev, entries);
    AppendOutcome(CommitLearned(r.node, CommitMark(leader, commit)), r.ok)
  }

  function Matched(n: Node, from: NodeId, id: LogId): Node
    requires n.leader.Some?
  {
    var matched := n.leader.value.matched;
    if from in matched && id.AtMost(matched[from]) then n
    else n.(leader := Some(n.leader.value.(matched := matched[from := id])))
  }

  /** The log id was confirmed by a write quorum; it is committed if the current leader proposed it. */
  function CommitTried(n: Node, granted: LogId): Node {
    if granted.leader != n.vote.leader then n
    else
      LocallyCommitted(n.(cluster := Some(ClusterCommitted(n.cluster, CommitMark(n.vote.leader, Some(granted))))),
        Some(granted))
  }

  // Starting.

  /** The disk after a crash that kept the first `kept` submitted writes. */
  function Kept(n: Node, kept: nat): Disk
    requires kept <= |n.store.pending|
  {
    Replayed(n.store.disk, n.store.pending[..kept])
  }

  /**
    * A restart from what a crash left on disk and in the state machine; a leader's vote is held back to
    * uncommitted, in memory. None if startup refuses.
    */
  function Restarted(n: Node, kept: nat): Option<Node>
    requires kept <= |n.store.pending|
  {
    var disk := Kept(n, kept);
    match Recovered(disk, n.store.applied)
    case None => None
    case Some(r) =>
      var io := IoId(disk.vote, None);
      Some(Node(n.id, if disk.vote.leader.node == n.id then Vote(disk.vote.leader, false) else disk.vote, r.log, io,
                None, r.committed, None, None, Store(disk, r.pending, io, r.applied)))
  }

  // The state machine.

  /** The state machine applies committed entries, or installs a snapshot, up to `count`. */
  function AppliedUpto(n: Node, count: nat): Node
    requires count <= |n.log|
  {
    n.(store := n.store.(applied := n.log[..count]))
  }

  function CommitSaved(n: Node, count: nat): Node
    requires 0 < count <= |n.log|
  {
    n.(store := Submitted(n.store, SaveCommitted(IdAt(n.log, count - 1))))
  }

  /**
    * The first log entry of a cluster, which no leader proposes. It is on disk before anything else happens: an
    * election follows at once, and its vote is saved after the entry.
    */
  function Initialized(n: Node, payload: nat): Option<Node> {
    if n.log != [] || n.vote.leader.term != 0 then None
    else
      var leader := LeaderId(0, n.id);
      var io := IoId(Vote(leader, true), Some(LogId(leader, 0)));
      Some(n.(vote := Vote(leader, true), log := [Entry(leader, payload)],
              store := Synced(n.store, Append([Entry(leader, payload)], io)).(
                flushed := Accepted(n.store.flushed, io))))
  }

  /** The engine of one node with its storage. */
  class Engine {
    const id: NodeId
    var vote: Vote
    var log: Log
    var accepted: IoId
    var cluster: Option<CommitMark>
    var committed: Option<LogId>
    var candidate: Option<Candidate>
    var leader: Option<Leader>
    var disk: Disk
    var pending: seq<Write>
    var flushed: IoId
    var applied: Log

    function Storage(): Store
      reads this
    {
      Store(disk, pending, flushed, applied)
    }

    function State(): Node
      reads this
    {
      Node(id, vote, log, accepted, cluster, committed, candidate, leader, Storage())
    }

    constructor (id: NodeId)
      ensures this.id == id && State() == NewNode(id)
    {
      this.id := id;
      vote := Vote(LeaderId(0, id), false);
      log := [];
      accepted := IoId(Vote(LeaderId(0, id), false), None);
      cluster := None;
      committed := None;
      candidate := None;
      leader := None;
      disk := Disk(Vote(LeaderId(0, id), false), [], None);
      pending := [];
      flushed := IoId(Vote(LeaderId(0, id), false), None);
      applied := [];
    }

    method Submit(w: Write)
      modifies this`pending
      ensures State() == old(State()).(store := Submitted(old(Storage()), w))
    {
      pending := pending + [w];
    }

    /** Waits for every write submitted so far, and for this one. */
    method Sync(w: Write)
      requires !w.Purge?
      modifies this`disk, this`pending, this`applied
      ensures State() == old(State()).(store := Synced(old(Storage()), w))
    {
      var all := pending + [w];
      for i := 0 to |all|
        invariant pending == old(pending)
        invariant disk == Replayed(old(disk), all[..i]) && applied == Installed(old(applied), all[..i])
      {
        assert all[..i + 1][..i] == all[..i];
        disk := Written(disk, all[i]);
        if all[i].Purge? && |applied| < |all[i].image| {
          applied := all[i].image;
        }
      }
      assert all[..|all|] == all && all[..|all| - 1] == pending;
      pending := [];
    }

    method SaveVoteNow(input: Vote)
      modifies this`disk, this`pending, this`applied, this`flushed
      ensures State() == old(State()).(store := VoteSaved(old(Storage()), input))
    {
      Sync(SaveVote(input));
      Flushed(IoId(input, None));
    }

    /** A write was reported to be on disk. */
    method Flushed(io: IoId)
      modifies this`flushed
      ensures State() == old(State()).(store := old(Storage()).(flushed := Accepted(old(flushed), io)))
    {
      if flushed.vote.Less(io.vote) || (flushed.vote == io.vote && IdLess(flushed.last, io.last)) {
        flushed := io;
      }
    }

    method Persist()
      requires pending != []
      modifies this`disk, this`pending, this`flushed
      ensures State() == old(State()).(store := Persisted(old(Storage())))
    {
      var w := pending[0];
      disk := Written(disk, w);
      pending := pending[1..];
      if w.Append? || w.Progress? {
        Flushed(w.io);
      }
    }

    method Apply(count: nat)
      requires count <= |log|
      modifies this`applied
      ensures State() == AppliedUpto(old(State()), count)
    {
      applied := log[..count];
    }

    method SaveCommittedUpto(count: nat)
      requires 0 < count <= |log|
      modifies this`pending
      ensures State() == CommitSaved(old(State()), count)
    {
      Submit(SaveCommitted(IdAt(log, count - 1)));
    }

    method AcceptLogIo(io: IoId)
      modifies this
      ensures State() == old(State()).(accepted := Accepted(old(accepted), io))
    {
      if accepted.vote.Less(io.vote) || (accepted.vote == io.vote && IdLess(accepted.last, io.last)) {
        accepted := io;
      }
    }

    method UpdateVote(input: Vote) returns (ok: bool)
      modifies this
      ensures var r := VoteUpdated(old(State()), input);
              ok == r.Some? && State() == if ok then r.value else old(State())
    {
      if !vote.AtMost(input) {
        return false;
      }
      if vote.Less(input) {
        vote := input;
        AcceptLogIo(IoId(input, None));
        SaveVoteNow(input);
      }
      if input.leader.node != id {
        leader := None;
        candidate := None;
      }
      ok := true;
    }

    /** Returns the last log id to ask for votes with. */
    method Elect() returns (last: Option<LogId>)
      modifies this
      ensures State() == Elected(old(State())) && last == LastId(log)
    {
      hide VoteSaved, LastId, Accepted;
      leader := None;
      var ballot := Vote(LeaderId(vote.leader.term + 1, id), false);
      last := LastId(log);
      candidate := Some(Candidate(ballot, last, {}));
      var _ := UpdateVote(ballot);
    }

    method HandleVoteReq(input: Vote, last: Option<LogId>) returns (granted: bool)
      modifies this
      ensures VoteOutcome(State(), granted) == VoteRequested(old(State()), input, last)
    {
      if !IdAtMost(LastId(log), last) {
        return false;
      }
      granted := UpdateVote(input);
    }

    method HandleVoteResp(q: Quorums, from: NodeId, input: Vote, granted: bool)
      modifies this
      ensures State() == VoteAnswered(old(State()), q, from, input, granted)
    {
      if candidate.None? {
        return;
      }
      if granted && input == candidate.value.vote {
        candidate := Some(candidate.value.(granted := candidate.value.granted + {from}));
        if Wins(q, candidate.value.granted) {
          EstablishLeader();
        }
        return;
      }
      var _ := UpdateVote(Vote(input.leader, false));
    }

    method EstablishLeader()
      requires candidate.Some?
      modifies this
      ensures State() == Established(old(State()))
    {
      var Candidate(ballot, last, _) := candidate.value;
      candidate := None;
      if leader.Some? && !leader.value.leader.Less(ballot.leader) {
        return;
      }
      leader := Some(Leader(ballot.leader, map[]));
      var ok := UpdateVote(Vote(ballot.leader, true));
      if !ok || leader.None? {
        return;
      }
      AcceptLogIo(IoId(Vote(ballot.leader, true), last));
      LeaderAppendEntry(BLANK);
    }

    method LeaderAppendEntry(payload: nat)
      requires leader.Some?
      modifies this
      ensures State() == LeaderAppended(old(State()), payload)
    {
      var entry := Entry(leader.value.leader, payload);
      log := log + [entry];
      var io := IoId(Vote(leader.value.leader, true), LastId(log));
      AcceptLogIo(io);
      Submit(Append([entry], io));
    }

    method FirstConflictingIndex(first: nat, entries: Log) returns (since: nat)
      ensures since == FirstConflict(State(), first, entries)
    {
      since := 0;
      while since < |entries|
        invariant 0 <= since <= |entries|
        invariant FirstConflict(State(), first, entries) ==
                  since + FirstConflict(State(), first + since, entries[since..])
      {
        if !HasLogId(State(), LogId(entries[since].leader, first + since)) {
          return;
        }
        assert entries[since..][1..] == entries[since + 1..];
        since := since + 1;
      }
    }

    method TruncateLogs(since: nat)
      modifies this
      ensures State() == Truncated(old(State()), since)
    {
      if since < |log| {
        log := log[..since];
        Submit(Truncate(since));
      }
    }

    method FollowerAppend(from: LeaderId, prev: Option<LogId>, entries: Log)
      modifies this
      ensures State() == EntriesAppended(old(State()), from, prev, entries)
    {
      var since := FirstConflictingIndex(NextIndex(prev), entries);
      var last := LastOf(prev, entries);
      var io := IoId(Vote(from, true), if IdLess(last, prev) then prev else last);
      var before := accepted;
      AcceptLogIo(io);
      if since < |entries| {
        TruncateLogs(NextIndex(prev) + since);
        log := log + entries[since..];
        Submit(Append(entries[since..], IoId(Vote(from, true), last)));
      } else if accepted != before {
        Submit(Progress(io));
      }
    }

    method AppendSegment(from: LeaderId, prev: Option<LogId>, entries: Log) returns (ok: bool)
      modifies this
      ensures AppendOutcome(State(), ok) == SegmentReceived(old(State()), from, prev, entries)
    {
      ok := UpdateVote(Vote(from, true));
      if !ok {
        return;
      }
      if prev.Some? && !HasLogId(State(), prev.value) {
        TruncateLogs(prev.value.index);
        return false;
      }
      FollowerAppend(from, prev, entries);
    }

    method UpdateLocalCommitted(local: Option<LogId>)
      modifies this
      ensures State() == LocallyCommitted(old(State()), local)
    {
      if IdLess(committed, local) {
        committed := local;
      }
    }

    method UpdateCommitted(mark: CommitMark)
      modifies this
      ensures State() == CommitLearned(old(State()), mark)
    {
      if cluster.None? || cluster.value.Less(mark) {
        cluster := Some(mark);
      }
      UpdateLocalCommitted(LocalCommit(accepted, cluster.value));
    }

    method HandleAppendEntries(from: LeaderId, prev: Option<LogId>, entries: Log,
        commit: Option<LogId>) returns (ok: bool)
      modifies this
      ensures AppendOutcome(State(), ok) == AppendReceived(old(State()), from, prev, entries, commit)
    {
      ok := AppendSegment(from, prev, entries);
      UpdateCommitted(CommitMark(from, commit));
    }

    method InstallSnapshot(from: LeaderId, image: Log)
      requires image != []
      modifies this
      ensures State() == SnapshotInstalled(old(State()), from, image)
    {
      var k := |image|;
      if k <= |log| && IdAt(log, k - 1) != IdAt(image, k - 1) {
        TruncateLogs(NextIndex(committed));
      }
      AcceptLogIo(IoId(Vote(from, true), LastId(image)));
      committed := LastId(image);
      log := image + if k < |log| then log[k..] else [];
      Submit(Purge(image));
    }

    method HandleInstallSnapshot(from: LeaderId, image: Log) returns (ok: bool)
      requires image != []
      modifies this
      ensures AppendOutcome(State(), ok) == SnapshotReceived(old(State()), from, image)
    {
      ok := UpdateVote(Vote(from, true));
      if !ok {
        return;
      }
      if IdAtMost(LastId(image), committed) {
        return;
      }
      InstallSnapshot(from, image);
    }

    method UpdateMatching(from: NodeId, matched: LogId)
      requires leader.Some?
      modifies this
      ensures State() == Matched(old(State()), from, matched)
    {
      if from in leader.value.matched && matched.AtMost(leader.value.matched[from]) {
        return;
      }
      leader := Some(leader.value.(matched := leader.value.matched[from := matched]));
    }

    method TryCommitQuorumAccepted(granted: LogId)
      modifies this
      ensures State() == CommitTried(old(State()), granted)
    {
      if granted.leader != vote.leader {
        return;
      }
      var mark := CommitMark(vote.leader, Some(granted));
      if cluster.None? || cluster.value.Less(mark) {
        cluster := Some(mark);
      }
      UpdateLocalCommitted(Some(granted));
    }

    /** A start after a crash that kept the first `kept` submitted writes, or a refusal to start. */
    method Startup(kept: nat) returns (ok: bool)
      requires kept <= |pending|
      modifies this
      ensures var r := Restarted(old(State()), kept);
              ok == r.Some? && State() == if ok then r.value else old(State())
    {
      hide Replayed, Recovered;
      var found := Replay(disk, pending[..kept]);
      var r := Recovered(found, applied);
      if r.None? {
        return false;
      }
      disk := found;
      log := r.value.log;
      pending := r.value.pending;
      applied := r.value.applied;
      committed := r.value.committed;
      vote := found.vote;
      accepted := IoId(vote, None);
      flushed := accepted;
      if vote.leader.node == id {
        vote := Vote(vote.leader, false);
      }
      cluster := None;
      candidate := None;
      leader := None;
      ok := true;
    }

    static method Replay(from: Disk, writes: seq<Write>) returns (found: Disk)
      ensures found == Replayed(from, writes)
    {
      found := from;
      for i := 0 to |writes|
        invariant found == Replayed(from, writes[..i])
      {
        assert writes[..i + 1][..i] == writes[..i];
        found := Written(found, writes[i]);
      }
      assert writes[..|writes|] == writes;
    }

    method Initialize(payload: nat) returns (ok: bool)
      modifies this
      ensures var r := Initialized(old(State()), payload);
              ok == r.Some? && State() == if ok then r.value else old(State())
    {
      if log != [] || vote.leader.term != 0 {
        return false;
      }
      vote := Vote(LeaderId(0, id), true);
      var entry := Entry(LeaderId(0, id), payload);
      log := [entry];
      var io := IoId(vote, Some(LogId(vote.leader, 0)));
      Sync(Append([entry], io));
      Flushed(io);
      ok := true;
    }
  }
}
