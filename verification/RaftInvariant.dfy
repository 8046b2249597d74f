/** What every reachable cluster state keeps, and why a new leader has every committed entry. */
module RaftInvariant {
  import opened RaftTypes
  import opened RaftStorage
  import opened RaftEngine
  import opened RaftCluster

  // Logs.

  /** Each entry came from its leader's log, with everything before it. */
  ghost predicate LogSound(reigns: map<LeaderId, Reign>, log: Log) {
    forall i :: 0 <= i < |log| ==> EntrySound(reigns, log, i)
  }

  ghost predicate EntrySound(reigns: map<LeaderId, Reign>, log: Log, i: int)
    requires 0 <= i < |log|
  {
    var b := log[i].leader;
    b in reigns && i < |reigns[b].log| && log[..i + 1] == reigns[b].log[..i + 1]
  }

  ghost predicate ReignSound(reigns: map<LeaderId, Reign>, b: LeaderId)
    requires b in reigns
  {
    var r := reigns[b];
    && r.start <= r.log && |r.start| < |r.log|
    && (forall i :: 0 <= i < |r.start| ==> r.log[i].leader.Less(b))
    && (forall i :: |r.start| <= i < |r.log| ==> r.log[i].leader == b)
    && LogSound(reigns, r.start)
  }

  ghost predicate ReignsSound(reigns: map<LeaderId, Reign>) {
    forall b :: b in reigns ==> ReignSound(reigns, b)
  }

  /** The first `j` entries of leader `b`'s log. */
  function Prefix(s: System, b: LeaderId, j: int): Log
    requires b in s.reigns && 0 <= j <= |s.reigns[b].log|
  {
    s.reigns[b].log[..j]
  }

  /** A leader after `b` and before `end` does not have the first `j` entries of `b`. */
  ghost predicate LostBefore(s: System, b: LeaderId, j: int, end: LeaderId) {
    && b in s.reigns && 0 <= j <= |s.reigns[b].log|
    && exists d :: d in s.reigns && b.Less(d) && d.Less(end) && !(Prefix(s, b, j) <= s.reigns[d].log)
  }

  /** Node `n` with this vote may have followed `d`. */
  predicate Followable(vote: Vote, n: NodeId, d: LeaderId) {
    d.Less(vote.leader) || (d == vote.leader && vote.committed && d.node != n)
  }

  /** Likewise a leader that node `n` with this vote may have followed. */
  ghost predicate LostUnder(s: System, b: LeaderId, j: int, vote: Vote, n: NodeId) {
    && b in s.reigns && 0 <= j <= |s.reigns[b].log|
    && exists d :: d in s.reigns && b.Less(d) && Followable(vote, n, d) && !(Prefix(s, b, j) <= s.reigns[d].log)
  }

  /** Once the first `from` submitted writes are on disk, no crash can take `p` from the log or the state machine. */
  ghost predicate Stays(node: Node, from: nat, p: Log) {
    forall k :: from <= k <= |node.store.pending| ==> p <= Kept(node, k).log || p <= node.store.applied
  }

  // Votes.

  /** A leader id in use is no greater than its node's vote, so a node never uses one twice. */
  ghost predicate Known(s: System, b: LeaderId) {
    b.node in s.nodes && Upto(b, s.nodes[b.node].vote.leader)
  }

  ghost predicate GrantSound(s: System, g: Grant)
    requires g in s.grants
  {
    var own := Grant(g.leader.node, g.leader);
    && g.node in s.nodes && Upto(g.leader, s.nodes[g.node].vote.leader)
    && Known(s, g.leader) && g.leader.term > 0
    && own in s.grants && IdAtMost(LastId(s.grants[g]), LastId(s.grants[own]))
    && LogSound(s.reigns, s.grants[g])
    && forall i :: 0 <= i < |s.grants[g]| ==> s.grants[g][i].leader.Less(g.leader)
  }

  ghost predicate ElectedBy(s: System, b: LeaderId, r: set<NodeId>) {
    forall m :: m in r ==> Grant(m, b) in s.grants
  }

  /** A leader took office with the log of its election, granted by a read quorum. */
  ghost predicate OfficeSound(s: System, q: Quorums, b: LeaderId)
    requires b in s.reigns
  {
    && Known(s, b)
    && (b.term > 0 ==>
         && Grant(b.node, b) in s.grants && s.reigns[b].start == s.grants[Grant(b.node, b)]
         && exists r :: r in q.read && ElectedBy(s, b, r))
  }

  // Confirmations and commits.

  ghost predicate IdInReign(s: System, b: LeaderId, id: LogId) {
    b in s.reigns && id.index < |s.reigns[b].log| && s.reigns[b].log[id.index].leader == id.leader
  }

  /** Every node of the write quorum confirmed the first `k` entries of leader `b`. */
  ghost predicate Confirmed(s: System, b: LeaderId, k: int, w: set<NodeId>) {
    forall m :: m in w ==> exists id :: AppendReply(m, b, id) in s.net && k <= id.index + 1
  }

  /** The first `k` entries of leader `b` are committed, by an entry of `b`'s own. */
  ghost predicate Chosen(s: System, q: Quorums, b: LeaderId, k: int) {
    && b in s.reigns && b.term > 0 && 0 < k <= |s.reigns[b].log| && s.reigns[b].log[k - 1].leader == b
    && exists w :: w in q.write && Confirmed(s, b, k, w)
  }

  /** The log id is among entries committed by a leader up to `bound`. */
  ghost predicate CommittedBy(s: System, q: Quorums, id: LogId, bound: LeaderId) {
    exists b, k :: Chosen(s, q, b, k) && Upto(b, bound) && id.index < k && IdInReign(s, b, id)
  }

  ghost predicate ReplySound(s: System, n: NodeId, b: LeaderId, id: LogId) {
    && n in s.nodes && b.term > 0 && IdInReign(s, b, id) && Upto(b, s.nodes[n].vote.leader)
  }

  /** The entries are part of a longer committed log, of a leader that node `n` with this vote may have followed. */
  ghost predicate Superseded(s: System, q: Quorums, p: Log, vote: Vote, n: NodeId) {
    exists b, k :: Chosen(s, q, b, k) && Followable(vote, n, b) && |p| < k && p <= Prefix(s, b, k)
  }

  /** Likewise of a leader before `end`. */
  ghost predicate SupersededBefore(s: System, q: Quorums, p: Log, end: LeaderId) {
    exists b, k :: Chosen(s, q, b, k) && b.Less(end) && |p| < k && p <= Prefix(s, b, k)
  }

  /** The `j`-th entry of leader `b`'s log is its own. */
  predicate IsOwn(s: System, b: LeaderId, j: int) {
    b in s.reigns && 0 < j <= |s.reigns[b].log| && s.reigns[b].log[j - 1].leader == b
  }

  /**
    * The node has the entries whatever crash comes, unless a later leader it may have followed lacks them, or
    * they are known to be part of a longer committed log: a conflicting snapshot makes a node cut its log.
    */
  ghost predicate StaysOrLost(s: System, q: Quorums, n: NodeId, node: Node, b: LeaderId, j: int)
    requires IsOwn(s, b, j)
  {
    Stays(node, 0, Prefix(s, b, j)) || LostUnder(s, b, j, node.vote, n)
      || Superseded(s, q, Prefix(s, b, j), node.vote, n)
  }

  ghost predicate KeepsConfirmed(s: System, q: Quorums, n: NodeId, b: LeaderId, id: LogId)
    requires ReplySound(s, n, b, id)
  {
    forall j :: j <= id.index + 1 && IsOwn(s, b, j) ==> StaysOrLost(s, q, n, s.nodes[n], b, j)
  }

  /** It had them when it granted a later vote, with the same exceptions for leaders in between. */
  ghost predicate GrantedWith(s: System, q: Quorums, n: NodeId, c: LeaderId, b: LeaderId, id: LogId)
    requires Grant(n, c) in s.grants && ReplySound(s, n, b, id)
  {
    forall j :: j <= id.index + 1 && IsOwn(s, b, j) ==> HadOrLost(s, q, s.grants[Grant(n, c)], b, j, c)
  }

  ghost predicate HadOrLost(s: System, q: Quorums, log: Log, b: LeaderId, j: int, c: LeaderId)
    requires IsOwn(s, b, j)
  {
    Prefix(s, b, j) <= log || LostBefore(s, b, j, c) || SupersededBefore(s, q, Prefix(s, b, j), c)
  }

  ghost predicate MessageSound(s: System, q: Quorums, m: Message) {
    match m
    case VoteRequest(v, last) =>
      var own := Grant(v.leader.node, v.leader);
      !v.committed && own in s.grants && last == LastId(s.grants[own])
    case VoteReply(from, v, granted) =>
      Known(s, v.leader) && (granted ==> !v.committed && Grant(from, v.leader) in s.grants)
    case AppendRequest(d, prev, entries, commit) =>
      && d in s.reigns && d.term > 0
      && (prev.Some? ==> IdInReign(s, d, prev.value))
      && NextIndex(prev) + |entries| <= |s.reigns[d].log|
      && entries == s.reigns[d].log[NextIndex(prev)..NextIndex(prev) + |entries|]
      && (commit.Some? ==> CommittedBy(s, q, commit.value, d))
    case AppendReply(n, b, id) => ReplySound(s, n, b, id)
    case SnapshotRequest(d, image) =>
      && d in s.reigns && d.term > 0 && image != [] && image <= s.reigns[d].log
      && CommittedBy(s, q, IdAt(image, |image| - 1), d)
    case SnapshotReply(n, b, id) => b.term > 0 && IdInReign(s, b, id) && CommittedBy(s, q, id, b)
  }

  // Nodes.

  ghost predicate CandidateSound(s: System, node: Node) {
    node.candidate.Some? ==>
      var c := node.candidate.value;
      var b := node.vote.leader;
      && node.leader.None? && c.vote == node.vote && !node.vote.committed && b.node == node.id
      && b.term > 0 && b !in s.reigns
      && Grant(node.id, b) in s.grants && s.grants[Grant(node.id, b)] == node.log
      && c.last == LastId(node.log)
      && ElectedBy(s, b, c.granted)
  }

  ghost predicate LeaderSound(s: System, node: Node) {
    node.leader.Some? ==>
      var b := node.leader.value.leader;
      && node.vote == Vote(b, true) && b.node == node.id && b.term > 0
      && b in s.reigns && s.reigns[b].log == node.log
      && forall m :: m in node.leader.value.matched ==> Answered(s, m, b, node.leader.value.matched[m])
  }

  ghost predicate Answered(s: System, m: NodeId, b: LeaderId, id: LogId) {
    AppendReply(m, b, id) in s.net || SnapshotReply(m, b, id) in s.net
  }

  /** What the node accepted from its leader, its log has. */
  ghost predicate AcceptedSound(s: System, node: Node) {
    && (node.accepted.vote == node.vote
         || (node.vote.leader.node == node.id && node.accepted.vote.leader == node.vote.leader))
    && (node.accepted.last.Some? ==>
         var d := node.accepted.vote.leader;
         var id := node.accepted.last.value;
         && node.accepted.vote.committed && IdInReign(s, d, id)
         && Prefix(s, d, id.index + 1) <= node.log)
  }

  ghost predicate CommitSound(s: System, q: Quorums, node: Node) {
    && (node.cluster.Some? ==>
         && Upto(node.cluster.value.leader, node.vote.leader)
         && (node.cluster.value.id.Some? ==> CommittedBy(s, q, node.cluster.value.id.value, node.cluster.value.leader)))
    && (node.committed.Some? ==>
         HasAt(node.log, node.committed.value) && CommittedBy(s, q, node.committed.value, node.vote.leader))
  }

  /** A node votes for itself as leader only while it leads; before any vote it has at most its own first entry. */
  ghost predicate OwnVoteSound(s: System, node: Node) {
    if node.vote.leader.term == 0
    then node.vote.leader.node == node.id && (node.vote.leader in s.reigns ==> node.log != [])
    else node.vote.leader.node == node.id && node.vote.committed ==> node.leader.Some?
  }

  /** A node has entries only of leaders it followed, or of its own. */
  ghost predicate LogUnderVote(log: Log, vote: Vote, n: NodeId) {
    forall i :: 0 <= i < |log| ==>
      && Upto(log[i].leader, vote.leader)
      && (log[i].leader == vote.leader ==> vote.committed || vote.leader.node == n)
  }

  // Storage.

  /** What a crash may leave on disk. */
  ghost predicate ImageSound(s: System, q: Quorums, node: Node, disk: Disk) {
    && LogSound(s.reigns, disk.log)
    && LogUnderVote(disk.log, disk.vote, node.id)
    && (disk.mark.Some? ==>
         && disk.mark.value.index < NextIndex(node.committed)
         && HasAt(disk.log, disk.mark.value) && CommittedBy(s, q, disk.mark.value, node.vote.leader))
  }

  /** Once the first `from` submitted writes are on disk, so is the leader's log up to where `io` says. */
  ghost predicate IoBacked(s: System, q: Quorums, node: Node, io: IoId, from: nat) {
    io.last.Some? ==>
      var d := node.vote.leader;
      && io.vote == Vote(d, true) && (node.vote.committed || d.node == node.id) && IdInReign(s, d, io.last.value)
      && var p := Prefix(s, d, io.last.value.index + 1);
         Stays(node, from, p) || Superseded(s, q, p, node.vote, node.id)
  }

  ghost predicate WriteSound(s: System, q: Quorums, node: Node, i: nat)
    requires i < |node.store.pending|
  {
    var w := node.store.pending[i];
    && !w.SaveVote?
    && (IoOf(w).Some? ==> IoBacked(s, q, node, IoOf(w).value, i + 1))
    && (w.Purge? ==> w.image <= node.log && |w.image| <= NextIndex(node.committed))
  }

  /** A node that follows no leader: before its first vote, or with a vote for another's candidacy. */
  predicate IsStill(node: Node) {
    node.vote.leader.term == 0 || (node.vote.leader.node != node.id && !node.vote.committed)
  }

  ghost predicate StoreSound(s: System, q: Quorums, node: Node) {
    var st := node.store;
    && st.disk.vote.leader == node.vote.leader && (node.vote.leader.node != node.id ==> st.disk.vote == node.vote)
    && Kept(node, |st.pending|).log == node.log
    && (forall k :: 0 <= k <= |st.pending| ==> ImageSound(s, q, node, Kept(node, k)))
    && (IsStill(node) ==> forall k :: 0 <= k <= |st.pending| ==> Kept(node, k).log == node.log)
    && (forall i :: 0 <= i < |st.pending| ==> WriteSound(s, q, node, i))
    && st.applied <= node.log && |st.applied| <= NextIndex(node.committed)
    && IoBacked(s, q, node, st.flushed, 0)
  }

  ghost predicate NodeSound(s: System, q: Quorums, n: NodeId)
    requires n in s.nodes
  {
    var node := s.nodes[n];
    && node.id == n
    && Known(s, node.vote.leader)
    && OwnVoteSound(s, node)
    && LogSound(s.reigns, node.log)
    && LogUnderVote(node.log, node.vote, n)
    && CandidateSound(s, node)
    && LeaderSound(s, node)
    && AcceptedSound(s, node)
    && CommitSound(s, q, node)
    && StoreSound(s, q, node)
  }

  ghost predicate RepliesKept(s: System, q: Quorums) {
    forall n, b, id :: AppendReply(n, b, id) in s.net ==> ReplySound(s, n, b, id) && KeepsConfirmed(s, q, n, b, id)
  }

  ghost predicate GrantsKept(s: System, q: Quorums) {
    forall n, c, b, id :: Grant(n, c) in s.grants && AppendReply(n, b, id) in s.net && b.Less(c) ==>
      ReplySound(s, n, b, id) && GrantedWith(s, q, n, c, b, id)
  }

  ghost predicate Inv(s: System, q: Quorums) {
    && ReignsSound(s.reigns)
    && (forall b :: b in s.reigns ==> OfficeSound(s, q, b))
    && (forall g :: g in s.grants ==> GrantSound(s, g))
    && (forall m :: m in s.net ==> MessageSound(s, q, m))
    && (forall n :: n in s.nodes ==> NodeSound(s, q, n))
    && RepliesKept(s, q)
    && GrantsKept(s, q)
  }

  lemma InvReigns(s: System, q: Quorums)
    requires Inv(s, q)
    ensures ReignsSound(s.reigns)
  {
  }

  lemma InvNode(s: System, q: Quorums, n: NodeId)
    requires Inv(s, q) && n in s.nodes
    ensures NodeSound(s, q, n)
  {
    hide ReignsSound, OfficeSound, GrantSound, MessageSound, NodeSound, RepliesKept, GrantsKept;
  }

  lemma InvGrant(s: System, q: Quorums, g: Grant)
    requires Inv(s, q) && g in s.grants
    ensures GrantSound(s, g)
  {
    hide ReignsSound, OfficeSound, GrantSound, MessageSound, NodeSound, RepliesKept, GrantsKept;
  }

  lemma InvOffice(s: System, q: Quorums, b: LeaderId)
    requires Inv(s, q) && b in s.reigns
    ensures OfficeSound(s, q, b)
  {
    hide ReignsSound, OfficeSound, GrantSound, MessageSound, NodeSound, RepliesKept, GrantsKept;
  }

  lemma InvMessage(s: System, q: Quorums, m: Message)
    requires Inv(s, q) && m in s.net
    ensures MessageSound(s, q, m)
  {
    hide ReignsSound, OfficeSound, GrantSound, MessageSound, NodeSound, RepliesKept, GrantsKept;
  }

  lemma InvReply(s: System, q: Quorums, n: NodeId, b: LeaderId, id: LogId)
    requires Inv(s, q) && AppendReply(n, b, id) in s.net
    ensures ReplySound(s, n, b, id) && KeepsConfirmed(s, q, n, b, id)
  {
    hide ReignsSound, OfficeSound, GrantSound, MessageSound, NodeSound, GrantsKept, ReplySound, KeepsConfirmed;
  }

  lemma InvGrantReply(s: System, q: Quorums, n: NodeId, c: LeaderId, b: LeaderId, id: LogId)
    requires Inv(s, q) && Grant(n, c) in s.grants && AppendReply(n, b, id) in s.net && b.Less(c)
    ensures ReplySound(s, n, b, id) && GrantedWith(s, q, n, c, b, id)
  {
    hide ReignsSound, OfficeSound, GrantSound, MessageSound, NodeSound, RepliesKept, ReplySound, GrantedWith;
  }

  // Leader logs.

  lemma LogOfReignSound(reigns: map<LeaderId, Reign>, b: LeaderId)
    requires ReignsSound(reigns) && b in reigns
    ensures LogSound(reigns, reigns[b].log)
  {
    var r := reigns[b];
    assert ReignSound(reigns, b);
    forall i | 0 <= i < |r.log|
      ensures EntrySound(reigns, r.log, i)
    {
      if i < |r.start| {
        assert EntrySound(reigns, r.start, i);
        assert r.log[..i + 1] == r.start[..i + 1];
      }
    }
  }

  /** Leader ids ascend along a log. */
  lemma LogAscends(reigns: map<LeaderId, Reign>, log: Log, i: int, j: int)
    requires ReignsSound(reigns) && LogSound(reigns, log) && 0 <= i <= j < |log|
    ensures Upto(log[i].leader, log[j].leader)
  {
    assert EntrySound(reigns, log, j);
    var b := log[j].leader;
    assert ReignSound(reigns, b);
    assert log[i] == log[..j + 1][i] == reigns[b].log[..j + 1][i] == reigns[b].log[i];
  }

  /** Along a log, log ids are ordered as their indexes. */
  lemma IdsFollowIndexes(reigns: map<LeaderId, Reign>, log: Log, i: int, j: int)
    requires ReignsSound(reigns) && LogSound(reigns, log) && 0 <= i < |log| && 0 <= j < |log|
    ensures IdAt(log, i).AtMost(IdAt(log, j)) <==> i <= j
  {
    if i <= j {
      LogAscends(reigns, log, i, j);
    } else {
      LogAscends(reigns, log, j, i);
    }
  }

  /** Two logs that agree on the leader of one entry agree up to there. */
  lemma LogsMatch(reigns: map<LeaderId, Reign>, a: Log, b: Log, i: int)
    requires LogSound(reigns, a) && LogSound(reigns, b)
    requires 0 <= i < |a| && i < |b| && a[i].leader == b[i].leader
    ensures a[..i + 1] == b[..i + 1]
  {
    assert EntrySound(reigns, a, i) && EntrySound(reigns, b, i);
  }

  // Leader completeness.

  /** Entries of `b` or before do not reach into what a later leader proposed itself. */
  lemma PrefixWithinStart(s: System, b: LeaderId, k: int, e: LeaderId)
    requires ReignsSound(s.reigns) && b in s.reigns && e in s.reigns && b.Less(e)
    requires 0 <= k <= |s.reigns[b].log| && Prefix(s, b, k) <= s.reigns[e].log
    ensures k <= |s.reigns[e].start|
  {
    assert ReignSound(s.reigns, b) && ReignSound(s.reigns, e);
    var i := |s.reigns[e].start|;
    assert i < k ==> s.reigns[e].log[i] == Prefix(s, b, k)[i] == s.reigns[b].log[i];
    assert i < k ==> Upto(s.reigns[b].log[i].leader, b);
  }

  /** A log at least as up to date as one that has `b`'s committed entries has them too. */
  lemma NewerLogHas(s: System, b: LeaderId, k: int, c: LeaderId, voter: Log, log: Log)
    requires ReignsSound(s.reigns) && b in s.reigns
    requires 0 < k <= |s.reigns[b].log| && s.reigns[b].log[k - 1].leader == b
    requires LogSound(s.reigns, voter) && LogSound(s.reigns, log)
    requires Prefix(s, b, k) <= voter && IdAtMost(LastId(voter), LastId(log))
    requires forall i :: 0 <= i < |log| ==> log[i].leader.Less(c)
    requires forall d :: d in s.reigns && b.Less(d) && d.Less(c) ==> Prefix(s, b, k) <= s.reigns[d].log
    ensures Prefix(s, b, k) <= log
  {
    assert voter[k - 1] == Prefix(s, b, k)[k - 1] == s.reigns[b].log[k - 1];
    LogAscends(s.reigns, voter, k - 1, |voter| - 1);
    var x := |log| - 1;
    assert log != [];
    var e := log[x].leader;
    assert Upto(b, e);
    assert EntrySound(s.reigns, log, x);
    assert log == s.reigns[e].log[..x + 1] by { assert log[..x + 1] == log; }
    if e == b {
      assert |log| >= |voter|;
    } else {
      PrefixWithinStart(s, b, k, e);
      assert ReignSound(s.reigns, e);
      assert x >= |s.reigns[e].start|;
    }
  }

  /** A voter in both quorums saw the committed entries. */
  lemma SharedVoter(s: System, q: Quorums, b: LeaderId, k: int, c: LeaderId) returns (n: NodeId, id: LogId)
    requires Inv(s, q) && Intersecting(q) && Chosen(s, q, b, k) && c in s.reigns && b.Less(c)
    ensures Grant(n, c) in s.grants && Grant(c.node, c) in s.grants
    ensures AppendReply(n, b, id) in s.net && ReplySound(s, n, b, id)
    ensures k <= id.index + 1
    ensures HadOrLost(s, q, s.grants[Grant(n, c)], b, k, c)
    ensures s.reigns[c].start == s.grants[Grant(c.node, c)]
  {
    hide Inv;
    InvOffice(s, q, c);
    var r :| r in q.read && ElectedBy(s, c, r);
    var w :| w in q.write && Confirmed(s, b, k, w);
    n :| n in r && n in w;
    id :| AppendReply(n, b, id) in s.net && k <= id.index + 1;
    InvGrantReply(s, q, n, c, b, id);
    assert IsOwn(s, b, k);
  }

  ghost predicate LogsWithin(reigns: map<LeaderId, Reign>, bound: nat) {
    forall b :: b in reigns ==> |reigns[b].log| <= bound
  }

  lemma {:induction false} SomeBound(reigns: map<LeaderId, Reign>) returns (bound: nat)
    ensures LogsWithin(reigns, bound)
    decreases |reigns|
  {
    if reigns == map[] {
      bound := 0;
    } else {
      var b :| b in reigns;
      var rest := reigns - {b};
      assert rest.Keys == reigns.Keys - {b} && |rest.Keys| == |rest| && |reigns.Keys| == |reigns|;
      bound := SomeBound(rest);
      assert forall d :: d in reigns && d != b ==> d in rest;
      bound := if bound < |reigns[b].log| then |reigns[b].log| else bound;
    }
  }

  /** Every leader after `b` has `b`'s committed entries. */
  lemma LaterLeadersHave(s: System, q: Quorums, b: LeaderId, k: int, c: LeaderId)
    requires Inv(s, q) && Intersecting(q) && Chosen(s, q, b, k) && c in s.reigns && b.Less(c)
    ensures Prefix(s, b, k) <= s.reigns[c].log
  {
    hide Inv;
    var bound := SomeBound(s.reigns);
    LaterHave(s, q, b, k, c, bound);
  }

  lemma {:induction false} LaterHave(s: System, q: Quorums, b: LeaderId, k: int, c: LeaderId, bound: nat)
    requires Inv(s, q) && Intersecting(q) && Chosen(s, q, b, k) && c in s.reigns && b.Less(c)
             && LogsWithin(s.reigns, bound)
    ensures Prefix(s, b, k) <= s.reigns[c].log
    decreases c.term, c.node, bound - k
  {
    hide Inv, LogSound, ReignsSound;
    var n, id := SharedVoter(s, q, b, k, c);
    if SupersededBefore(s, q, Prefix(s, b, k), c) {
      var d, j :| Chosen(s, q, d, j) && d.Less(c) && |Prefix(s, b, k)| < j && Prefix(s, b, k) <= Prefix(s, d, j);
      LaterHave(s, q, d, j, c, bound);
    } else {
      forall d | d in s.reigns && b.Less(d) && d.Less(c)
        ensures Prefix(s, b, k) <= s.reigns[d].log
      {
        LaterHave(s, q, b, k, d, bound);
      }
      InvGrant(s, q, Grant(n, c));
      var own := Grant(c.node, c);
      InvGrant(s, q, own);
      InvReigns(s, q);
      NewerLogHas(s, b, k, c, s.grants[Grant(n, c)], s.grants[own]);
      StartWithin(s.reigns, c);
    }
  }

  lemma StartWithin(reigns: map<LeaderId, Reign>, b: LeaderId)
    requires ReignsSound(reigns) && b in reigns
    ensures reigns[b].start <= reigns[b].log
  {
    assert ReignSound(reigns, b);
  }

  /** A leader no older than a committed entry's leader has the entry. */
  lemma LeaderHasCommitted(s: System, q: Quorums, id: LogId, d: LeaderId)
    requires Inv(s, q) && Intersecting(q) && CommittedBy(s, q, id, d) && d in s.reigns
    ensures IdInReign(s, d, id)
  {
    hide Inv;
    var b, k :| Chosen(s, q, b, k) && Upto(b, d) && id.index < k && IdInReign(s, b, id);
    if b != d {
      LaterLeadersHave(s, q, b, k, d);
      assert s.reigns[d].log[id.index] == Prefix(s, b, k)[id.index];
    }
  }
}
