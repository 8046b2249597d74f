/**
  * A cluster of Raft nodes over a network that may lose, repeat and reorder messages, on disks that lose what was
  * not flushed.
  */
module RaftCluster {
  import opened RaftTypes
  import opened RaftStorage
  import opened RaftEngine

  datatype Message =
    | VoteRequest(vote: Vote, last: Option<LogId>)
    | VoteReply(from: NodeId, vote: Vote, granted: bool)
    | AppendRequest(leader: LeaderId, prev: Option<LogId>, entries: Log, commit: Option<LogId>)
      /** `from` has the leader's log up to `matched` on disk. */
    | AppendReply(from: NodeId, leader: LeaderId, matched: LogId)
      /** A snapshot of the state after the entries `image`. */
    | SnapshotRequest(leader: LeaderId, image: Log)
      /** `from` took a snapshot up to `matched`, or knew that much to be committed; maybe only in memory. */
    | SnapshotReply(from: NodeId, leader: LeaderId, matched: LogId)

  /** History: the log a leader took office with, and its log now. */
  datatype Reign = Reign(start: Log, log: Log)

  datatype Grant = Grant(node: NodeId, leader: LeaderId)

  /**
    * The nodes and every message ever sent. `reigns` and `grants` are history that no node reads: every
    * leader's log, and for every vote granted the log the voter had when it first granted it.
    */
  datatype System = System(
    nodes: map<NodeId, Node>,
    net: set<Message>,
    reigns: map<LeaderId, Reign>,
    grants: map<Grant, Log>)

  function Fresh(ids: set<NodeId>): System {
    System(map id | id in ids :: NewNode(id), {}, map[], map[])
  }

  datatype Event =
    | Initialize(node: NodeId, payload: nat)
      /** `expired`: the node leads, but a leadership transfer it began has timed out. */
    | Elect(node: NodeId, expired: bool)
    | TakeVoteRequest(node: NodeId, vote: Vote, last: Option<LogId>)
    | TakeVoteReply(node: NodeId, from: NodeId, vote: Vote, granted: bool)
    | Propose(node: NodeId, payload: nat)
      /** The leader sends its entries from index `first` up to `end`. */
    | Replicate(node: NodeId, first: nat, end: nat)
    | TakeAppend(node: NodeId, leader: LeaderId, prev: Option<LogId>, entries: Log, commit: Option<LogId>)
      /** The leader sends a snapshot of its first `count` entries. */
    | SendSnapshot(node: NodeId, count: nat)
    | TakeSnapshot(node: NodeId, leader: LeaderId, image: Log)
      /** The node's oldest submitted write reaches the disk. */
    | Persist(node: NodeId)
      /** The node confirms to its leader, or to itself, an entry it accepted and has on disk. */
    | Confirm(node: NodeId, index: nat)
    | TakeAppendReply(node: NodeId, from: NodeId, leader: LeaderId, matched: LogId)
    | TakeSnapshotReply(node: NodeId, from: NodeId, leader: LeaderId, matched: LogId)
    | TryCommit(node: NodeId, index: nat)
      /** The state machine applies committed entries, or installs a snapshot, up to `count` entries in all. */
    | Apply(node: NodeId, count: nat)
    | SaveCommit(node: NodeId, count: nat)
      /** A crash that keeps the first `kept` of the submitted writes, and a restart. */
    | Restart(node: NodeId, kept: nat)

  function WithNode(s: System, n: NodeId, node: Node): System {
    s.(nodes := s.nodes[n := node])
  }

  function Initialization(s: System, n: NodeId, payload: nat): System
    requires n in s.nodes
  {
    match Initialized(s.nodes[n], payload)
    case None => s
    case Some(node) =>
      WithNode(s, n, node).(reigns := s.reigns[LeaderId(0, n) := Reign([], node.log)])
  }

  function Election(s: System, n: NodeId): System
    requires n in s.nodes
  {
    var node := Elected(s.nodes[n]);
    WithNode(s, n, node).(
      net := s.net + {VoteRequest(node.vote, LastId(node.log)), VoteReply(n, node.vote, true)},
      grants := s.grants[Grant(n, node.vote.leader) := node.log])
  }

  function VoteRequestTaken(s: System, n: NodeId, vote: Vote, last: Option<LogId>): System
    requires n in s.nodes
  {
    var r := VoteRequested(s.nodes[n], vote, last);
    var grant := Grant(n, vote.leader);
    WithNode(s, n, r.node).(
      net := s.net + {VoteReply(n, r.node.vote, r.granted)},
      grants := if r.granted && grant !in s.grants then s.grants[grant := s.nodes[n].log] else s.grants)
  }

  function VoteReplyTaken(s: System, q: Quorums, n: NodeId, from: NodeId, vote: Vote, granted: bool): System
    requires n in s.nodes
  {
    var node := VoteAnswered(s.nodes[n], q, from, vote, granted);
    var next := WithNode(s, n, node);
    if s.nodes[n].leader.None? && node.leader.Some?
    then next.(reigns := s.reigns[node.leader.value.leader := Reign(s.nodes[n].log, node.log)])
    else next
  }

  function Proposal(s: System, n: NodeId, payload: nat): System
    requires n in s.nodes && s.nodes[n].leader.Some? && s.nodes[n].leader.value.leader in s.reigns
  {
    var node := LeaderAppended(s.nodes[n], payload);
    var leader := s.nodes[n].leader.value.leader;
    WithNode(s, n, node).(reigns := s.reigns[leader := s.reigns[leader].(log := node.log)])
  }

  function Replication(s: System, n: NodeId, first: nat, end: nat): System
    requires n in s.nodes && s.nodes[n].leader.Some? && first <= end <= |s.nodes[n].log|
  {
    var node := s.nodes[n];
    var prev := if first == 0 then None else Some(IdAt(node.log, first - 1));
    var commit := if node.cluster.None? then None else node.cluster.value.id;
    s.(net := s.net + {AppendRequest(node.leader.value.leader, prev, node.log[first..end], commit)})
  }

  function AppendTaken(s: System, n: NodeId, leader: LeaderId, prev: Option<LogId>, entries: Log,
      commit: Option<LogId>): System
    requires n in s.nodes
  {
    WithNode(s, n, AppendReceived(s.nodes[n], leader, prev, entries, commit).node)
  }

  function SnapshotTaken(s: System, n: NodeId, leader: LeaderId, image: Log): System
    requires n in s.nodes && image != []
  {
    var r := SnapshotReceived(s.nodes[n], leader, image);
    WithNode(s, n, r.node).(
      net := if r.ok then s.net + {SnapshotReply(n, leader, LastId(image).value)} else s.net)
  }

  /** The node accepted its leader's log up to this index, and that is on disk. */
  predicate MayConfirm(node: Node, index: nat) {
    var io := node.store.flushed;
    && io.vote.leader.term > 0 && node.accepted.vote == io.vote && index < |node.log|
    && io.last.Some? && index <= io.last.value.index
    && node.accepted.last.Some? && index <= node.accepted.last.value.index
  }

  predicate MayApply(node: Node, count: nat) {
    |node.store.applied| <= count <= NextIndex(node.committed) && count <= |node.log|
  }

  /** Every write that the crash kept had been submitted. */
  predicate MayKeep(st: Store, kept: nat) {
    kept <= |st.pending| && forall i :: 0 <= i < kept ==> Ready(st.pending[i], st.applied)
  }

  function Restarting(s: System, n: NodeId, kept: nat): System
    requires n in s.nodes && kept <= |s.nodes[n].store.pending|
  {
    match Restarted(s.nodes[n], kept)
    case None => s
    case Some(node) => WithNode(s, n, node)
  }

  /** These nodes confirmed the leader's log up to this log id. */
  predicate MatchedBy(leader: Leader, id: LogId, nodes: set<NodeId>) {
    forall m :: m in nodes ==> m in leader.matched && id.AtMost(leader.matched[m])
  }

  predicate QuorumMatched(q: Quorums, leader: Leader, id: LogId) {
    exists w :: w in q.write && MatchedBy(leader, id, w)
  }

  function Step(q: Quorums, s: System, e: Event): System {
    if e.node !in s.nodes then s
    else
      var n := e.node;
      var node := s.nodes[n];
      match e
      case Initialize(_, payload) => Initialization(s, n, payload)
      case Elect(_, expired) => if node.leader.None? || expired then Election(s, n) else s
      case TakeVoteRequest(_, vote, last) =>
        if VoteRequest(vote, last) in s.net then VoteRequestTaken(s, n, vote, last) else s
      case TakeVoteReply(_, from, vote, granted) =>
        if VoteReply(from, vote, granted) in s.net then VoteReplyTaken(s, q, n, from, vote, granted) else s
      case Propose(_, payload) =>
        if node.leader.Some? && node.leader.value.leader in s.reigns then Proposal(s, n, payload) else s
      case Replicate(_, first, end) =>
        if node.leader.Some? && first <= end <= |node.log| then Replication(s, n, first, end) else s
      case TakeAppend(_, leader, prev, entries, commit) =>
        if AppendRequest(leader, prev, entries, commit) in s.net && n != leader.node
        then AppendTaken(s, n, leader, prev, entries, commit)
        else s
      case SendSnapshot(_, count) =>
        if node.leader.Some? && 0 < count <= NextIndex(node.committed) && count <= |node.log|
        then s.(net := s.net + {SnapshotRequest(node.leader.value.leader, node.log[..count])})
        else s
      case TakeSnapshot(_, leader, image) =>
        if SnapshotRequest(leader, image) in s.net && n != leader.node && image != []
        then SnapshotTaken(s, n, leader, image)
        else s
      case Persist(_) =>
        if node.store.pending != [] && Ready(node.store.pending[0], node.store.applied)
        then WithNode(s, n, node.(store := Persisted(node.store)))
        else s
      case Confirm(_, index) =>
        if MayConfirm(node, index)
        then s.(net := s.net + {AppendReply(n, node.store.flushed.vote.leader, IdAt(node.log, index))})
        else s
      case TakeAppendReply(_, from, leader, matched) =>
        if AppendReply(from, leader, matched) in s.net && node.leader.Some? && node.leader.value.leader == leader
        then WithNode(s, n, Matched(node, from, matched))
        else s
      case TakeSnapshotReply(_, from, leader, matched) =>
        if SnapshotReply(from, leader, matched) in s.net && node.leader.Some? && node.leader.value.leader == leader
        then WithNode(s, n, Matched(node, from, matched))
        else s
      case TryCommit(_, index) =>
        if node.leader.Some? && index < |node.log| && QuorumMatched(q, node.leader.value, IdAt(node.log, index))
        then WithNode(s, n, CommitTried(node, IdAt(node.log, index)))
        else s
      case Apply(_, count) => if MayApply(node, count) then WithNode(s, n, AppliedUpto(node, count)) else s
      case SaveCommit(_, count) =>
        if 0 < count && MayApply(node, count) then WithNode(s, n, CommitSaved(node, count)) else s
      case Restart(_, kept) => if MayKeep(node.store, kept) then Restarting(s, n, kept) else s
  }

  /**
    * No restart of the run finds a log that goes on past the last applied log id without having it. A restart that
    * startup refuses leaves the node silent, which is a run in which it takes no more steps.
    */
  predicate SoundStarts(q: Quorums, ids: set<NodeId>, events: seq<Event>) {
    forall i :: 0 <= i < |events| ==> SoundStart(Run(q, ids, events[..i]), events[i])
  }

  predicate SoundStart(s: System, e: Event) {
    e.Restart? && e.node in s.nodes && e.kept <= |s.nodes[e.node].store.pending| ==>
      Agrees(Kept(s.nodes[e.node], e.kept), s.nodes[e.node].store.applied)
  }

  function Run(q: Quorums, ids: set<NodeId>, events: seq<Event>): System {
    if events == [] then Fresh(ids)
    else Step(q, Run(q, ids, events[..|events| - 1]), events[|events| - 1])
  }
}
