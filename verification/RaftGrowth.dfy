/** The cluster's history only grows, and what was sound stays sound. */
module RaftGrowth {
  import opened RaftTypes
  import opened RaftStorage
  import opened RaftEngine
  import opened RaftCluster
  import opened RaftInvariant

  ghost predicate ReignsGrow(s: System, t: System) {
    forall b :: b in s.reigns ==>
      b in t.reigns && t.reigns[b].start == s.reigns[b].start && s.reigns[b].log <= t.reigns[b].log
  }

  ghost predicate VotesGrow(s: System, t: System) {
    t.nodes.Keys == s.nodes.Keys &&
    forall n :: n in s.nodes ==> Upto(s.nodes[n].vote.leader, t.nodes[n].vote.leader)
  }

  ghost predicate GrantsGrow(s: System, t: System) {
    forall g :: g in s.grants ==> g in t.grants && t.grants[g] == s.grants[g]
  }

  ghost predicate Grows(s: System, t: System) {
    ReignsGrow(s, t) && VotesGrow(s, t) && GrantsGrow(s, t) && s.net <= t.net
  }

  lemma UptoTransitive(a: LeaderId, b: LeaderId, c: LeaderId)
    requires Upto(a, b) && Upto(b, c)
    ensures Upto(a, c)
  {
  }

  lemma LogStaysSound(s: System, t: System, log: Log)
    requires ReignsGrow(s, t) && LogSound(s.reigns, log)
    ensures LogSound(t.reigns, log)
  {
    forall i | 0 <= i < |log|
      ensures EntrySound(t.reigns, log, i)
    {
      assert EntrySound(s.reigns, log, i);
      var b := log[i].leader;
      assert t.reigns[b].log[..i + 1] == s.reigns[b].log[..i + 1];
    }
  }

  lemma PrefixStays(s: System, t: System, b: LeaderId, j: int)
    requires ReignsGrow(s, t) && b in s.reigns && 0 <= j <= |s.reigns[b].log|
    ensures Prefix(t, b, j) == Prefix(s, b, j)
  {
  }

  lemma IdStays(s: System, t: System, b: LeaderId, id: LogId)
    requires ReignsGrow(s, t) && IdInReign(s, b, id)
    ensures IdInReign(t, b, id)
  {
  }

  /** A leader that lacks entries of an earlier one never gets them. */
  lemma LackStays(s: System, t: System, b: LeaderId, j: int, d: LeaderId)
    requires ReignsGrow(s, t) && ReignsSound(s.reigns) && ReignsSound(t.reigns)
    requires b in s.reigns && 0 <= j <= |s.reigns[b].log| && d in s.reigns && b.Less(d)
    requires !(Prefix(s, b, j) <= s.reigns[d].log)
    ensures !(Prefix(t, b, j) <= t.reigns[d].log)
  {
    PrefixStays(s, t, b, j);
    if Prefix(t, b, j) <= t.reigns[d].log {
      PrefixWithinStart(t, b, j, d);
      StartWithin(s.reigns, d);
    }
  }

  /** A later vote of the node: greater, or its own of a leader id it had. */
  predicate VoteFollows(vote: Vote, later: Vote, n: NodeId) {
    vote.AtMost(later) || (vote.leader == later.leader && later.leader.node == n)
  }

  lemma LostUnderStays(s: System, t: System, b: LeaderId, j: int, vote: Vote, later: Vote, n: NodeId)
    requires ReignsGrow(s, t) && ReignsSound(s.reigns) && ReignsSound(t.reigns)
    requires LostUnder(s, b, j, vote, n) && VoteFollows(vote, later, n)
    ensures LostUnder(t, b, j, later, n)
  {
    hide ReignsSound;
    var d :| d in s.reigns && b.Less(d) && Followable(vote, n, d) && !(Prefix(s, b, j) <= s.reigns[d].log);
    LackStays(s, t, b, j, d);
    assert Followable(later, n, d);
  }

  lemma LostBeforeStays(s: System, t: System, b: LeaderId, j: int, end: LeaderId)
    requires ReignsGrow(s, t) && ReignsSound(s.reigns) && ReignsSound(t.reigns)
    requires LostBefore(s, b, j, end)
    ensures LostBefore(t, b, j, end)
  {
    hide ReignsSound;
    var d :| d in s.reigns && b.Less(d) && d.Less(end) && !(Prefix(s, b, j) <= s.reigns[d].log);
    LackStays(s, t, b, j, d);
  }

  lemma KnownStays(s: System, t: System, b: LeaderId)
    requires VotesGrow(s, t) && Known(s, b)
    ensures Known(t, b)
  {
  }

  lemma GrantStaysSound(s: System, t: System, g: Grant)
    requires Grows(s, t) && g in s.grants && GrantSound(s, g)
    ensures GrantSound(t, g)
  {
    LogStaysSound(s, t, s.grants[g]);
  }

  lemma OfficeStaysSound(s: System, t: System, q: Quorums, b: LeaderId)
    requires Grows(s, t) && b in s.reigns && OfficeSound(s, q, b)
    ensures OfficeSound(t, q, b)
  {
    if b.term > 0 {
      var r :| r in q.read && ElectedBy(s, b, r);
      assert ElectedBy(t, b, r);
    }
  }

  lemma ChosenStays(s: System, t: System, q: Quorums, b: LeaderId, k: int)
    requires ReignsGrow(s, t) && s.net <= t.net && Chosen(s, q, b, k)
    ensures Chosen(t, q, b, k)
  {
    var w :| w in q.write && Confirmed(s, b, k, w);
    assert Confirmed(t, b, k, w);
  }

  lemma CommittedStays(s: System, t: System, q: Quorums, id: LogId, bound: LeaderId, later: LeaderId)
    requires ReignsGrow(s, t) && s.net <= t.net && CommittedBy(s, q, id, bound) && Upto(bound, later)
    ensures CommittedBy(t, q, id, later)
  {
    var b, k :| Chosen(s, q, b, k) && Upto(b, bound) && id.index < k && IdInReign(s, b, id);
    ChosenStays(s, t, q, b, k);
    UptoTransitive(b, bound, later);
  }

  lemma ReplyStaysSound(s: System, t: System, n: NodeId, b: LeaderId, id: LogId)
    requires Grows(s, t) && ReplySound(s, n, b, id)
    ensures ReplySound(t, n, b, id)
  {
    IdStays(s, t, b, id);
    UptoTransitive(b, s.nodes[n].vote.leader, t.nodes[n].vote.leader);
  }

  lemma MessageStaysSound(s: System, t: System, q: Quorums, m: Message)
    requires Grows(s, t) && MessageSound(s, q, m)
    ensures MessageSound(t, q, m)
  {
    match m {
      case VoteRequest(v, last) =>
      case VoteReply(from, v, granted) => KnownStays(s, t, v.leader);
      case AppendRequest(d, prev, entries, commit) =>
        var i := NextIndex(prev);
        assert t.reigns[d].log[i..i + |entries|] == s.reigns[d].log[i..i + |entries|];
        if commit.Some? {
          CommittedStays(s, t, q, commit.value, d, d);
        }
      case AppendReply(n, b, id) => ReplyStaysSound(s, t, n, b, id);
      case SnapshotRequest(d, image) => CommittedStays(s, t, q, IdAt(image, |image| - 1), d, d);
      case SnapshotReply(n, b, id) => CommittedStays(s, t, q, id, b, b);
    }
  }

  lemma OwnWas(s: System, t: System, b: LeaderId, j: int)
    requires ReignsGrow(s, t) && b in s.reigns && j <= |s.reigns[b].log|
    ensures IsOwn(s, b, j) <==> IsOwn(t, b, j)
  {
  }

  lemma SupersededStays(s: System, t: System, q: Quorums, p: Log, vote: Vote, later: Vote, n: NodeId)
    requires ReignsGrow(s, t) && s.net <= t.net && Superseded(s, q, p, vote, n) && VoteFollows(vote, later, n)
    ensures Superseded(t, q, p, later, n)
  {
    var b, k :| Chosen(s, q, b, k) && Followable(vote, n, b) && |p| < k && p <= Prefix(s, b, k);
    ChosenStays(s, t, q, b, k);
    PrefixStays(s, t, b, k);
    assert Followable(later, n, b);
  }

  lemma SupersededBeforeStays(s: System, t: System, q: Quorums, p: Log, end: LeaderId)
    requires ReignsGrow(s, t) && s.net <= t.net && SupersededBefore(s, q, p, end)
    ensures SupersededBefore(t, q, p, end)
  {
    var b, k :| Chosen(s, q, b, k) && b.Less(end) && |p| < k && p <= Prefix(s, b, k);
    ChosenStays(s, t, q, b, k);
    PrefixStays(s, t, b, k);
  }

  /** Whatever no crash could take from the node before, none can take now. */
  ghost predicate StoreKeeps(was: Node, node: Node) {
    forall p :: Stays(was, 0, p) ==> Stays(node, 0, p)
  }

  /** A node that kept its confirmed entries still does after the history grew. */
  lemma ConfirmedStay(s: System, t: System, q: Quorums, n: NodeId, b: LeaderId, id: LogId)
    requires Grows(s, t) && ReignsSound(s.reigns) && ReignsSound(t.reigns)
    requires ReplySound(s, n, b, id) && KeepsConfirmed(s, q, n, b, id)
    requires StoreKeeps(s.nodes[n], t.nodes[n]) && VoteFollows(s.nodes[n].vote, t.nodes[n].vote, n)
    ensures ReplySound(t, n, b, id) && KeepsConfirmed(t, q, n, b, id)
  {
    hide ReignsSound, LostUnder, Stays, Superseded;
    ReplyStaysSound(s, t, n, b, id);
    forall j | j <= id.index + 1 && IsOwn(t, b, j)
      ensures StaysOrLost(t, q, n, t.nodes[n], b, j)
    {
      OwnWas(s, t, b, j);
      assert StaysOrLost(s, q, n, s.nodes[n], b, j);
      PrefixStays(s, t, b, j);
      if LostUnder(s, b, j, s.nodes[n].vote, n) {
        LostUnderStays(s, t, b, j, s.nodes[n].vote, t.nodes[n].vote, n);
      } else if Superseded(s, q, Prefix(s, b, j), s.nodes[n].vote, n) {
        SupersededStays(s, t, q, Prefix(s, b, j), s.nodes[n].vote, t.nodes[n].vote, n);
      }
    }
  }

  lemma GrantedWithStays(s: System, t: System, q: Quorums, n: NodeId, c: LeaderId, b: LeaderId, id: LogId)
    requires Grows(s, t) && ReignsSound(s.reigns) && ReignsSound(t.reigns)
    requires Grant(n, c) in s.grants && ReplySound(s, n, b, id) && GrantedWith(s, q, n, c, b, id)
    ensures ReplySound(t, n, b, id) && GrantedWith(t, q, n, c, b, id)
  {
    hide ReignsSound, LostBefore, SupersededBefore;
    ReplyStaysSound(s, t, n, b, id);
    forall j | j <= id.index + 1 && IsOwn(t, b, j)
      ensures HadOrLost(t, q, t.grants[Grant(n, c)], b, j, c)
    {
      OwnWas(s, t, b, j);
      assert HadOrLost(s, q, s.grants[Grant(n, c)], b, j, c);
      PrefixStays(s, t, b, j);
      if LostBefore(s, b, j, c) {
        LostBeforeStays(s, t, b, j, c);
      } else if SupersededBefore(s, q, Prefix(s, b, j), c) {
        SupersededBeforeStays(s, t, q, Prefix(s, b, j), c);
      }
    }
  }

  /** Nothing happened to the leaderships of node `m`. */
  ghost predicate ReignsOfKept(s: System, t: System, m: NodeId) {
    forall b :: b in t.reigns && b.node == m ==> b in s.reigns && t.reigns[b] == s.reigns[b]
  }

  lemma CandidateStays(s: System, t: System, node: Node)
    requires Grows(s, t) && ReignsOfKept(s, t, node.id) && CandidateSound(s, node)
    ensures CandidateSound(t, node)
  {
  }

  lemma LeaderStays(s: System, t: System, node: Node)
    requires Grows(s, t) && ReignsOfKept(s, t, node.id) && LeaderSound(s, node)
    ensures LeaderSound(t, node)
  {
  }

  lemma AcceptedStays(s: System, t: System, node: Node)
    requires ReignsGrow(s, t) && AcceptedSound(s, node)
    ensures AcceptedSound(t, node)
  {
  }

  lemma CommitStays(s: System, t: System, q: Quorums, node: Node)
    requires ReignsGrow(s, t) && s.net <= t.net && CommitSound(s, q, node)
    ensures CommitSound(t, q, node)
  {
    hide CommittedBy;
    if node.cluster.Some? && node.cluster.value.id.Some? {
      CommittedStays(s, t, q, node.cluster.value.id.value, node.cluster.value.leader, node.cluster.value.leader);
    }
    if node.committed.Some? {
      CommittedStays(s, t, q, node.committed.value, node.vote.leader, node.vote.leader);
    }
  }

  lemma ImageStays(s: System, t: System, q: Quorums, node: Node, disk: Disk)
    requires ReignsGrow(s, t) && s.net <= t.net && ImageSound(s, q, node, disk)
    ensures ImageSound(t, q, node, disk)
  {
    hide CommittedBy, LogSound;
    LogStaysSound(s, t, disk.log);
    if disk.mark.Some? {
      CommittedStays(s, t, q, disk.mark.value, node.vote.leader, node.vote.leader);
    }
  }

  lemma IoStays(s: System, t: System, q: Quorums, node: Node, io: IoId, from: nat)
    requires ReignsGrow(s, t) && s.net <= t.net && IoBacked(s, q, node, io, from)
    ensures IoBacked(t, q, node, io, from)
  {
    hide Stays, Superseded;
    if io.last.Some? {
      var p := Prefix(s, node.vote.leader, io.last.value.index + 1);
      PrefixStays(s, t, node.vote.leader, io.last.value.index + 1);
      if Superseded(s, q, p, node.vote, node.id) {
        SupersededStays(s, t, q, p, node.vote, node.vote, node.id);
      }
    }
  }

  lemma StoreStays(s: System, t: System, q: Quorums, node: Node)
    requires ReignsGrow(s, t) && s.net <= t.net && StoreSound(s, q, node)
    ensures StoreSound(t, q, node)
  {
    hide ImageSound, IoBacked, Kept;
    forall k | 0 <= k <= |node.store.pending|
      ensures ImageSound(t, q, node, Kept(node, k))
    {
      ImageStays(s, t, q, node, Kept(node, k));
    }
    forall i | 0 <= i < |node.store.pending|
      ensures WriteSound(t, q, node, i)
    {
      assert WriteSound(s, q, node, i);
      var w := node.store.pending[i];
      if IoOf(w).Some? {
        IoStays(s, t, q, node, IoOf(w).value, i + 1);
      }
    }
    IoStays(s, t, q, node, node.store.flushed, 0);
  }

  lemma NodeStaysSound(s: System, t: System, q: Quorums, m: NodeId)
    requires Grows(s, t) && m in s.nodes && NodeSound(s, q, m)
    requires t.nodes[m] == s.nodes[m] && ReignsOfKept(s, t, m)
    ensures NodeSound(t, q, m)
  {
    hide CandidateSound, LeaderSound, AcceptedSound, CommitSound, LogSound, StoreSound;
    var node := s.nodes[m];
    StoreStays(s, t, q, node);
    LogStaysSound(s, t, node.log);
    CandidateStays(s, t, node);
    LeaderStays(s, t, node);
    AcceptedStays(s, t, node);
    CommitStays(s, t, q, node);
  }

  // One node moved: what is new is sound.

  /** Only node `n`, its leaderships, its grants and its replies may have changed. */
  ghost predicate OnlyNode(s: System, t: System, n: NodeId) {
    && Grows(s, t) && n in s.nodes
    && (forall m :: m in s.nodes && m != n ==> t.nodes[m] == s.nodes[m] && ReignsOfKept(s, t, m))
    && (forall b :: b in t.reigns && b !in s.reigns ==> b.node == n)
    && (forall g :: g in t.grants && g !in s.grants ==> g.node == n)
    && (forall m, b, id :: AppendReply(m, b, id) in t.net && AppendReply(m, b, id) !in s.net ==> m == n)
  }

  ghost predicate NewsSound(s: System, t: System, q: Quorums) {
    && ReignsSound(t.reigns)
    && (forall b :: b in t.reigns && b !in s.reigns ==> OfficeSound(t, q, b))
    && (forall g :: g in t.grants && g !in s.grants ==> GrantSound(t, g))
    && (forall m :: m in t.net && m !in s.net ==> MessageSound(t, q, m))
  }

  ghost predicate RepliesOfKept(t: System, q: Quorums, n: NodeId) {
    forall b, id :: AppendReply(n, b, id) in t.net ==> ReplySound(t, n, b, id) && KeepsConfirmed(t, q, n, b, id)
  }

  /** Grants and replies of node `n` of which at least one is new. */
  ghost predicate NewGrantsKept(s: System, t: System, q: Quorums, n: NodeId) {
    forall c, b, id :: Grant(n, c) in t.grants && AppendReply(n, b, id) in t.net && b.Less(c)
                       && (Grant(n, c) !in s.grants || AppendReply(n, b, id) !in s.net) ==>
      ReplySound(t, n, b, id) && GrantedWith(t, q, n, c, b, id)
  }

  lemma RepliesStayKept(s: System, t: System, q: Quorums, n: NodeId)
    requires OnlyNode(s, t, n) && ReignsSound(s.reigns) && ReignsSound(t.reigns)
    requires RepliesKept(s, q) && RepliesOfKept(t, q, n)
    ensures RepliesKept(t, q)
  {
    hide ReignsSound, KeepsConfirmed, ReplySound, ReignsOfKept;
    forall m, b, id | AppendReply(m, b, id) in t.net
      ensures ReplySound(t, m, b, id) && KeepsConfirmed(t, q, m, b, id)
    {
      if m != n {
        assert AppendReply(m, b, id) in s.net;
        ReplyNode(s, m, b, id);
        ConfirmedStay(s, t, q, m, b, id);
      }
    }
  }

  lemma ReplyNode(s: System, m: NodeId, b: LeaderId, id: LogId)
    requires ReplySound(s, m, b, id)
    ensures m in s.nodes
  {
  }

  lemma GrantsStayKept(s: System, t: System, q: Quorums, n: NodeId)
    requires OnlyNode(s, t, n) && ReignsSound(s.reigns) && ReignsSound(t.reigns)
    requires GrantsKept(s, q) && NewGrantsKept(s, t, q, n)
    ensures GrantsKept(t, q)
  {
    hide ReignsSound, GrantedWith, ReplySound, ReignsOfKept;
    forall m, c, b, id | Grant(m, c) in t.grants && AppendReply(m, b, id) in t.net && b.Less(c)
      ensures ReplySound(t, m, b, id) && GrantedWith(t, q, m, c, b, id)
    {
      if Grant(m, c) in s.grants && AppendReply(m, b, id) in s.net {
        GrantedWithStays(s, t, q, m, c, b, id);
      } else {
        assert m == n;
      }
    }
  }

  lemma StepKeepsInv(s: System, t: System, q: Quorums, n: NodeId)
    requires Inv(s, q) && OnlyNode(s, t, n) && NewsSound(s, t, q)
    requires NodeSound(t, q, n) && RepliesOfKept(t, q, n) && NewGrantsKept(s, t, q, n)
    ensures Inv(t, q)
  {
    hide ReignsSound, OfficeSound, GrantSound, MessageSound, NodeSound, RepliesKept, GrantsKept, RepliesOfKept,
      NewGrantsKept;
    RepliesStayKept(s, t, q, n);
    GrantsStayKept(s, t, q, n);
    forall b | b in t.reigns
      ensures OfficeSound(t, q, b)
    {
      if b in s.reigns {
        OfficeStaysSound(s, t, q, b);
      }
    }
    forall g | g in t.grants
      ensures GrantSound(t, g)
    {
      if g in s.grants {
        GrantStaysSound(s, t, g);
      }
    }
    forall m | m in t.net
      ensures MessageSound(t, q, m)
    {
      if m in s.net {
        MessageStaysSound(s, t, q, m);
      }
    }
    forall m | m in t.nodes
      ensures NodeSound(t, q, m)
    {
      if m != n {
        NodeStaysSound(s, t, q, m);
      }
    }
  }
}
