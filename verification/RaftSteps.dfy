/** Sending, confirming, committing and writing to disk keep the invariant. */
module RaftSteps {
  import opened RaftTypes
  import opened RaftStorage
  import opened RaftEngine
  import opened RaftCluster
  import opened RaftInvariant
  import opened RaftGrowth
  import opened RaftImages

  /** Node `n` keeps its confirmed entries if nothing that no crash could take is lost. */
  lemma RepliesStay(s: System, t: System, q: Quorums, n: NodeId)
    requires Inv(s, q) && Grows(s, t) && ReignsSound(t.reigns) && n in s.nodes
    requires StoreKeeps(s.nodes[n], t.nodes[n]) && VoteFollows(s.nodes[n].vote, t.nodes[n].vote, n)
    requires forall b, id :: AppendReply(n, b, id) in t.net ==> AppendReply(n, b, id) in s.net
    ensures RepliesOfKept(t, q, n)
  {
    hide Inv, ReignsSound, KeepsConfirmed, ReplySound, StoreKeeps;
    InvReigns(s, q);
    forall b, id | AppendReply(n, b, id) in t.net
      ensures ReplySound(t, n, b, id) && KeepsConfirmed(t, q, n, b, id)
    {
      InvReply(s, q, n, b, id);
      ConfirmedStay(s, t, q, n, b, id);
    }
  }

  lemma NoNewGrants(s: System, t: System, q: Quorums, n: NodeId)
    requires t.grants == s.grants
    requires forall b, id :: AppendReply(n, b, id) in t.net ==> AppendReply(n, b, id) in s.net
    ensures NewGrantsKept(s, t, q, n)
  {
    hide GrantedWith, ReplySound;
  }

  /** Only messages were sent, and no reply among them. */
  lemma SendKeepsInv(s: System, t: System, q: Quorums, n: NodeId)
    requires Inv(s, q) && n in s.nodes && t == s.(net := t.net) && s.net <= t.net
    requires forall m :: m in t.net && m !in s.net ==> !m.AppendReply? && MessageSound(t, q, m)
    ensures Inv(t, q)
  {
    hide Inv, ReignsSound, NodeSound, MessageSound;
    InvReigns(s, q);
    InvNode(s, q, n);
    assert Grows(s, t);
    NodeStaysSound(s, t, q, n);
    RepliesStay(s, t, q, n);
    NoNewGrants(s, t, q, n);
    hide RepliesOfKept, NewGrantsKept;
    StepKeepsInv(s, t, q, n);
  }

  /** A leader's log is the log of its reign. */
  lemma LeaderFacts(s: System, q: Quorums, n: NodeId)
    requires Inv(s, q) && n in s.nodes && s.nodes[n].leader.Some?
    ensures var b := s.nodes[n].leader.value.leader;
            && s.nodes[n].vote == Vote(b, true) && b.node == n && b.term > 0
            && b in s.reigns && s.reigns[b].log == s.nodes[n].log
            && s.nodes[n].candidate.None?
            && (forall m :: m in s.nodes[n].leader.value.matched ==>
                 Answered(s, m, b, s.nodes[n].leader.value.matched[m]))
    ensures CommitSound(s, q, s.nodes[n]) && AcceptedSound(s, s.nodes[n]) && StoreSound(s, q, s.nodes[n])
  {
    hide Inv, LogSound, AcceptedSound, CommitSound, StoreSound;
    InvNode(s, q, n);
  }

  lemma ReplicationKeepsInv(s: System, q: Quorums, n: NodeId, first: nat, end: nat)
    requires Inv(s, q) && n in s.nodes && s.nodes[n].leader.Some? && first <= end <= |s.nodes[n].log|
    ensures Inv(Replication(s, n, first, end), q)
  {
    hide Inv, MessageSound, AcceptedSound, CommittedBy, StoreSound;
    var node := s.nodes[n];
    var t := Replication(s, n, first, end);
    var b := node.leader.value.leader;
    var prev := if first == 0 then None else Some(IdAt(node.log, first - 1));
    var commit := if node.cluster.None? then None else node.cluster.value.id;
    LeaderFacts(s, q, n);
    if commit.Some? {
      CommittedStays(s, t, q, commit.value, node.cluster.value.leader, b);
    }
    RequestSound(t, q, b, prev, node.log[first..end], commit, first);
    SendKeepsInv(s, t, q, n);
  }

  lemma RequestSound(t: System, q: Quorums, b: LeaderId, prev: Option<LogId>, entries: Log, commit: Option<LogId>,
      first: nat)
    requires b in t.reigns && b.term > 0 && NextIndex(prev) == first
    requires prev.Some? ==> IdInReign(t, b, prev.value)
    requires first + |entries| <= |t.reigns[b].log| && entries == t.reigns[b].log[first..first + |entries|]
    requires commit.Some? ==> CommittedBy(t, q, commit.value, b)
    ensures MessageSound(t, q, AppendRequest(b, prev, entries, commit))
  {
  }

  /** A reply that confirms what no crash can take from the node, under the vote for that leader. */
  lemma NewReplyKept(t: System, q: Quorums, n: NodeId, b: LeaderId, id: LogId)
    requires n in t.nodes && b.term > 0 && IdInReign(t, b, id) && Upto(b, t.nodes[n].vote.leader)
    requires var p := Prefix(t, b, id.index + 1);
             Stays(t.nodes[n], 0, p) || Superseded(t, q, p, t.nodes[n].vote, n)
    ensures ReplySound(t, n, b, id) && KeepsConfirmed(t, q, n, b, id)
  {
    hide Stays, Superseded;
    var p := Prefix(t, b, id.index + 1);
    forall j | j <= id.index + 1 && IsOwn(t, b, j)
      ensures StaysOrLost(t, q, n, t.nodes[n], b, j)
    {
      assert Prefix(t, b, j) == p[..j];
      if Stays(t.nodes[n], 0, p) {
        PartStays(t.nodes[n], 0, p, Prefix(t, b, j));
      } else {
        PartSuperseded(t, q, p, Prefix(t, b, j), t.nodes[n].vote, n);
      }
    }
  }

  lemma PartSuperseded(s: System, q: Quorums, p: Log, part: Log, vote: Vote, n: NodeId)
    requires Superseded(s, q, p, vote, n) && part <= p
    ensures Superseded(s, q, part, vote, n)
  {
    var b, k :| Chosen(s, q, b, k) && Followable(vote, n, b) && |p| < k && p <= Prefix(s, b, k);
    assert part <= Prefix(s, b, k);
  }

  lemma PartStays(node: Node, from: nat, p: Log, part: Log)
    requires Stays(node, from, p) && part <= p
    ensures Stays(node, from, part)
  {
    hide Kept;
  }

  /** No vote after `b` was granted by a node whose vote was not beyond `b`. */
  lemma NoLaterGrants(s: System, q: Quorums, n: NodeId, b: LeaderId, c: LeaderId)
    requires Inv(s, q) && n in s.nodes && Upto(s.nodes[n].vote.leader, b) && Grant(n, c) in s.grants
    ensures !b.Less(c)
  {
    hide Inv, LogSound;
    InvGrant(s, q, Grant(n, c));
  }

  /** The only new reply is node `n`'s to a leader its vote was not beyond. */
  lemma NewReplyMeetsNoGrant(s: System, t: System, q: Quorums, n: NodeId, b: LeaderId, id: LogId)
    requires Inv(s, q) && n in s.nodes && Upto(s.nodes[n].vote.leader, b) && t.grants == s.grants
    requires forall a, i :: AppendReply(n, a, i) in t.net ==> AppendReply(n, a, i) in s.net || (a == b && i == id)
    ensures NewGrantsKept(s, t, q, n)
  {
    hide Inv, GrantedWith, ReplySound;
    forall c | Grant(n, c) in t.grants
      ensures !b.Less(c)
    {
      NoLaterGrants(s, q, n, b, c);
    }
  }

  /** What the node may confirm it has on disk. */
  lemma MayConfirmFacts(s: System, q: Quorums, n: NodeId, index: nat)
    requires Inv(s, q) && n in s.nodes && MayConfirm(s.nodes[n], index)
    ensures var b := s.nodes[n].store.flushed.vote.leader;
            && b == s.nodes[n].vote.leader && b.term > 0 && IdInReign(s, b, IdAt(s.nodes[n].log, index))
            && var p := Prefix(s, b, index + 1);
               Stays(s.nodes[n], 0, p) || Superseded(s, q, p, s.nodes[n].vote, n)
  {
    hide Inv, LogSound, CommitSound, Stays, Superseded, ImageSound, WriteSound, Kept;
    InvNode(s, q, n);
    var node := s.nodes[n];
    var b, last := node.vote.leader, node.store.flushed.last.value;
    var p := Prefix(s, b, last.index + 1);
    assert node.log[index] == Prefix(s, b, node.accepted.last.value.index + 1)[index];
    assert Prefix(s, b, index + 1) <= p;
    if Stays(node, 0, p) {
      PartStays(node, 0, p, Prefix(s, b, index + 1));
    } else {
      PartSuperseded(s, q, p, Prefix(s, b, index + 1), node.vote, n);
    }
  }

  lemma ConfirmKeepsInv(s: System, q: Quorums, n: NodeId, index: nat)
    requires Inv(s, q) && n in s.nodes && MayConfirm(s.nodes[n], index)
    ensures Inv(s.(net := s.net + {AppendReply(n, s.nodes[n].store.flushed.vote.leader, IdAt(s.nodes[n].log, index))}),
            q)
  {
    hide Inv, ReignsSound, KeepsConfirmed, NodeSound, Stays, Superseded;
    var node := s.nodes[n];
    var b, id := node.store.flushed.vote.leader, IdAt(node.log, index);
    var t := s.(net := s.net + {AppendReply(n, b, id)});
    MayConfirmFacts(s, q, n, index);
    InvReigns(s, q);
    InvNode(s, q, n);
    var p := Prefix(s, b, index + 1);
    assert Prefix(t, b, index + 1) == p;
    if Superseded(s, q, p, node.vote, n) {
      SupersededStays(s, t, q, p, node.vote, node.vote, n);
    }
    NewReplyKept(t, q, n, b, id);
    hide ReplySound;
    forall a, i | AppendReply(n, a, i) in t.net
      ensures ReplySound(t, n, a, i) && KeepsConfirmed(t, q, n, a, i)
    {
      if AppendReply(n, a, i) in s.net {
        InvReply(s, q, n, a, i);
        ConfirmedStay(s, t, q, n, a, i);
      }
    }
    NewReplyMeetsNoGrant(s, t, q, n, b, id);
    NodeStaysSound(s, t, q, n);
    hide NewGrantsKept, RepliesOfKept;
    StepKeepsInv(s, t, q, n);
  }

  /** Node `n` moved without touching the history: nothing on disk lost, its vote no smaller. */
  lemma LocalKeepsInv(s: System, t: System, q: Quorums, n: NodeId)
    requires Inv(s, q) && n in s.nodes && n in t.nodes && t == WithNode(s, n, t.nodes[n])
    requires StoreKeeps(s.nodes[n], t.nodes[n]) && s.nodes[n].vote.AtMost(t.nodes[n].vote)
    requires NodeSound(t, q, n)
    ensures Inv(t, q)
  {
    hide Inv, ReignsSound, NodeSound, StoreKeeps;
    InvReigns(s, q);
    RepliesStay(s, t, q, n);
    NoNewGrants(s, t, q, n);
    hide RepliesOfKept, NewGrantsKept;
    StepKeepsInv(s, t, q, n);
  }

  /** With the history unchanged, what was sound about a node still is. */
  lemma SameHistory(s: System, t: System, q: Quorums, node: Node)
    requires t.reigns == s.reigns && t.net == s.net && t.grants == s.grants
    ensures CommitSound(s, q, node) ==> CommitSound(t, q, node)
    ensures AcceptedSound(s, node) ==> AcceptedSound(t, node)
    ensures LeaderSound(s, node) ==> LeaderSound(t, node)
    ensures CandidateSound(s, node) ==> CandidateSound(t, node)
    ensures OwnVoteSound(s, node) ==> OwnVoteSound(t, node)
    ensures StoreSound(s, q, node) ==> StoreSound(t, q, node)
  {
    if CommitSound(s, q, node) {
      CommitStays(s, t, q, node);
    }
    hide StoreSound, CommitSound;
    if StoreSound(s, q, node) {
      StoreStays(s, t, q, node);
    }
  }

  /** A node of the same log is sound if its changed parts are. */
  lemma NodeBecomesSound(s: System, t: System, q: Quorums, n: NodeId, node: Node)
    requires Inv(s, q) && n in s.nodes && t == WithNode(s, n, node) && node.id == n && node.log == s.nodes[n].log
    requires Upto(s.nodes[n].vote.leader, node.vote.leader) && Known(t, node.vote.leader)
    requires LogUnderVote(node.log, node.vote, n)
    requires OwnVoteSound(s, node) && CandidateSound(s, node) && LeaderSound(s, node)
    requires AcceptedSound(s, node) && CommitSound(s, q, node) && StoreSound(s, q, node)
    ensures NodeSound(t, q, n)
  {
    hide Inv, OwnVoteSound, CandidateSound, LeaderSound, AcceptedSound, CommitSound, StoreSound;
    InvNode(s, q, n);
    SameHistory(s, t, q, node);
  }

  lemma MatchedKeepsInv(s: System, q: Quorums, n: NodeId, from: NodeId, leader: LeaderId, id: LogId)
    requires Inv(s, q) && n in s.nodes && s.nodes[n].leader.Some? && s.nodes[n].leader.value.leader == leader
    requires Answered(s, from, leader, id)
    ensures Inv(WithNode(s, n, Matched(s.nodes[n], from, id)), q)
  {
    hide Inv, AcceptedSound, CommitSound, LogSound, StoreSound, StoreKeeps;
    LeaderFacts(s, q, n);
    InvNode(s, q, n);
    var node := Matched(s.nodes[n], from, id);
    var t := WithNode(s, n, node);
    assert AcceptedSound(s, node) && CommitSound(s, q, node) by { OtherFields(s, q, s.nodes[n], node); }
    StoreRaised(s, q, s.nodes[n], node);
    NodeBecomesSound(s, t, q, n, node);
    hide NodeSound;
    LocalKeepsInv(s, t, q, n);
  }

  /** Accepted and committed state do not involve candidacy or leadership. */
  lemma OtherFields(s: System, q: Quorums, was: Node, node: Node)
    requires node == was.(candidate := node.candidate, leader := node.leader)
    requires AcceptedSound(s, was) && CommitSound(s, q, was)
    ensures AcceptedSound(s, node) && CommitSound(s, q, node)
  {
    hide CommittedBy;
  }

  /** What is before a committed entry in a leader's log is committed. */
  lemma EarlierInReign(s: System, q: Quorums, id: LogId, bound: LeaderId, d: LeaderId, earlier: LogId)
    requires ReignsSound(s.reigns) && CommittedBy(s, q, id, bound) && IdInReign(s, d, id)
    requires IdInReign(s, d, earlier) && earlier.index <= id.index
    ensures CommittedBy(s, q, earlier, bound)
  {
    hide ReignsSound, LogSound, Chosen;
    var b, k :| Chosen(s, q, b, k) && Upto(b, bound) && id.index < k && IdInReign(s, b, id);
    LogOfReignSound(s.reigns, b);
    LogOfReignSound(s.reigns, d);
    LogsMatch(s.reigns, s.reigns[d].log, s.reigns[b].log, id.index);
    var i := earlier.index;
    assert s.reigns[d].log[i] == s.reigns[d].log[..id.index + 1][i] == s.reigns[b].log[..id.index + 1][i] ==
      s.reigns[b].log[i];
    assert IdInReign(s, b, earlier);
  }

  /** Entries up to one that every node of a write quorum answered for, the leader's own, are committed. */
  lemma MatchedIsCommitted(s: System, q: Quorums, n: NodeId, index: nat)
    requires Inv(s, q) && n in s.nodes && s.nodes[n].leader.Some? && index < |s.nodes[n].log|
    requires QuorumMatched(q, s.nodes[n].leader.value, IdAt(s.nodes[n].log, index))
    requires s.nodes[n].log[index].leader == s.nodes[n].vote.leader
    ensures CommittedBy(s, q, IdAt(s.nodes[n].log, index), s.nodes[n].vote.leader)
  {
    hide Inv, ReignsSound, LogSound, AcceptedSound, CommitSound, CommittedBy, StoreSound;
    var node := s.nodes[n];
    var b := node.vote.leader;
    var matched := node.leader.value.matched;
    LeaderFacts(s, q, n);
    InvReigns(s, q);
    var w :| w in q.write && MatchedBy(node.leader.value, IdAt(node.log, index), w);
    forall m | m in w
      ensures MatchedFrom(s, n, m, index)
    {
      MatchedReaches(s, q, n, m, index);
    }
    if m :| m in w && SnapshotReply(m, b, matched[m]) in s.net {
      InvMessage(s, q, SnapshotReply(m, b, matched[m]));
      EarlierInReign(s, q, matched[m], b, b, IdAt(node.log, index));
    } else {
      assert Confirmed(s, b, index + 1, w) by {
        forall m | m in w
          ensures exists id :: AppendReply(m, b, id) in s.net && index + 1 <= id.index + 1
        {
          assert Answered(s, m, b, matched[m]);
        }
      }
      ConfirmedIsCommitted(s, q, b, index, w);
    }
  }

  /** Node `m` answered for an entry at this index or later. */
  ghost predicate MatchedFrom(s: System, n: NodeId, m: NodeId, index: nat) {
    && n in s.nodes && s.nodes[n].leader.Some? && m in s.nodes[n].leader.value.matched
    && IdInReign(s, s.nodes[n].vote.leader, s.nodes[n].leader.value.matched[m])
    && index <= s.nodes[n].leader.value.matched[m].index
  }

  lemma MatchedReaches(s: System, q: Quorums, n: NodeId, m: NodeId, index: nat)
    requires Inv(s, q) && n in s.nodes && s.nodes[n].leader.Some? && index < |s.nodes[n].log|
    requires m in s.nodes[n].leader.value.matched
             && IdAt(s.nodes[n].log, index).AtMost(s.nodes[n].leader.value.matched[m])
    ensures MatchedFrom(s, n, m, index)
  {
    hide Inv, ReignsSound, LogSound, AcceptedSound, CommitSound, CommittedBy, StoreSound;
    var node := s.nodes[n];
    var b, id := node.vote.leader, node.leader.value.matched[m];
    LeaderFacts(s, q, n);
    InvReigns(s, q);
    LogOfReignSound(s.reigns, b);
    if AppendReply(m, b, id) in s.net {
      InvMessage(s, q, AppendReply(m, b, id));
    } else {
      InvMessage(s, q, SnapshotReply(m, b, id));
    }
    assert IdAt(node.log, id.index) == id;
    IdsFollowIndexes(s.reigns, node.log, index, id.index);
  }

  lemma ConfirmedIsCommitted(s: System, q: Quorums, b: LeaderId, index: nat, w: set<NodeId>)
    requires b in s.reigns && b.term > 0 && index < |s.reigns[b].log| && s.reigns[b].log[index].leader == b
    requires w in q.write && Confirmed(s, b, index + 1, w)
    ensures CommittedBy(s, q, IdAt(s.reigns[b].log, index), b)
  {
    assert Chosen(s, q, b, index + 1);
    assert IdInReign(s, b, IdAt(s.reigns[b].log, index));
  }

  lemma CommitKeepsInv(s: System, q: Quorums, n: NodeId, index: nat)
    requires Inv(s, q) && n in s.nodes && s.nodes[n].leader.Some? && index < |s.nodes[n].log|
    requires QuorumMatched(q, s.nodes[n].leader.value, IdAt(s.nodes[n].log, index))
    ensures Inv(WithNode(s, n, CommitTried(s.nodes[n], IdAt(s.nodes[n].log, index))), q)
  {
    hide Inv, LogSound, CommittedBy, QuorumMatched, StoreSound, StoreKeeps, ReignsSound;
    var was := s.nodes[n];
    var id := IdAt(was.log, index);
    var node := CommitTried(was, id);
    LeaderFacts(s, q, n);
    InvNode(s, q, n);
    var t := WithNode(s, n, node);
    if was.log[index].leader == was.vote.leader {
      MatchedIsCommitted(s, q, n, index);
    }
    if node.committed != was.committed && was.committed.Some? {
      InvReigns(s, q);
      IdsFollowIndexes(s.reigns, was.log, index, was.committed.value.index);
    }
    StoreRaised(s, q, was, node);
    NodeBecomesSound(s, t, q, n, node);
    hide NodeSound;
    LocalKeepsInv(s, t, q, n);
  }

  // Storage.

  /** Only the storage of node `n` moved. */
  lemma StorageKeepsInv(s: System, q: Quorums, n: NodeId, node: Node)
    requires Inv(s, q) && n in s.nodes && node == s.nodes[n].(store := node.store)
    requires StoreSound(s, q, node) && StoreKeeps(s.nodes[n], node)
    ensures Inv(WithNode(s, n, node), q)
  {
    hide Inv, LogSound, CommittedBy, StoreSound, StoreKeeps;
    InvNode(s, q, n);
    NodeBecomesSound(s, WithNode(s, n, node), q, n, node);
    hide NodeSound;
    LocalKeepsInv(s, WithNode(s, n, node), q, n);
  }

  lemma PersistKeepsInv(s: System, q: Quorums, n: NodeId)
    requires Inv(s, q) && n in s.nodes && s.nodes[n].store.pending != []
    ensures Inv(WithNode(s, n, s.nodes[n].(store := Persisted(s.nodes[n].store))), q)
  {
    hide Inv, StoreSound, StoreKeeps;
    InvNode(s, q, n);
    var node := s.nodes[n].(store := Persisted(s.nodes[n].store));
    PersistedSound(s, q, s.nodes[n], node);
    StorageKeepsInv(s, q, n, node);
  }

  lemma ApplyKeepsInv(s: System, q: Quorums, n: NodeId, count: nat)
    requires Inv(s, q) && n in s.nodes && MayApply(s.nodes[n], count)
    ensures Inv(WithNode(s, n, AppliedUpto(s.nodes[n], count)), q)
  {
    hide Inv, StoreSound, StoreKeeps;
    InvNode(s, q, n);
    AppliedSound(s, q, s.nodes[n], count);
    StorageKeepsInv(s, q, n, AppliedUpto(s.nodes[n], count));
  }

  /** What was applied is committed. */
  lemma AppliedIsCommitted(s: System, q: Quorums, n: NodeId, count: nat)
    requires Inv(s, q) && n in s.nodes && 0 < count <= NextIndex(s.nodes[n].committed)
    ensures count <= |s.nodes[n].log|
    ensures CommittedBy(s, q, IdAt(s.nodes[n].log, count - 1), s.nodes[n].vote.leader)
  {
    hide Inv, ReignsSound, LogSound, CommittedBy, StoreSound;
    InvNode(s, q, n);
    InvReigns(s, q);
    var node := s.nodes[n];
    PartCommitted(s, q, node.log, node.committed.value, node.vote.leader, count);
  }

  /** Entries of a log before a committed one of it are committed. */
  lemma PartCommitted(s: System, q: Quorums, log: Log, id: LogId, bound: LeaderId, count: nat)
    requires ReignsSound(s.reigns) && LogSound(s.reigns, log) && HasAt(log, id) && CommittedBy(s, q, id, bound)
    requires 0 < count <= id.index + 1
    ensures CommittedBy(s, q, IdAt(log, count - 1), bound)
  {
    hide ReignsSound, CommittedBy;
    assert EntrySound(s.reigns, log, id.index);
    var d := id.leader;
    assert log[count - 1] == log[..id.index + 1][count - 1] == s.reigns[d].log[..id.index + 1][count - 1];
    assert log[id.index] == log[..id.index + 1][id.index] == s.reigns[d].log[..id.index + 1][id.index];
    EarlierInReign(s, q, id, bound, d, IdAt(log, count - 1));
  }

  lemma SaveCommitKeepsInv(s: System, q: Quorums, n: NodeId, count: nat)
    requires Inv(s, q) && n in s.nodes && 0 < count && MayApply(s.nodes[n], count)
    ensures Inv(WithNode(s, n, CommitSaved(s.nodes[n], count)), q)
  {
    hide Inv, StoreSound, LogSound, CommittedBy, Kept, Stays;
    InvNode(s, q, n);
    var was, node := s.nodes[n], CommitSaved(s.nodes[n], count);
    var w := SaveCommitted(IdAt(was.log, count - 1));
    AppliedIsCommitted(s, q, n, count);
    LastImage(s, q, was);
    SavedImage(s, q, was);
    if was.vote.leader in s.reigns {
      AllShared(s, q, was, s.reigns[was.vote.leader].log, was.log);
    }
    hide KeepsShared;
    SubmitSound(s, q, was, node, w);
    forall p | Stays(was, 0, p)
      ensures Stays(node, 0, p)
    {
      StaysInLog(s, q, was, 0, p);
      StaysSubmitted(was, node, w, 0, p);
    }
    assert StoreKeeps(was, node);
    StorageKeepsInv(s, q, n, node);
  }

  /** The log in memory is also one a crash may leave. */
  lemma SavedImage(s: System, q: Quorums, node: Node)
    requires StoreSound(s, q, node)
    ensures LogUnderVote(node.log, node.store.disk.vote, node.id)
  {
    hide IoBacked, WriteSound, LogSound, CommittedBy;
    NoVotePending(s, q, node, |node.store.pending|);
    assert ImageSound(s, q, node, Kept(node, |node.store.pending|));
  }
}
