/** Proposals and elections keep the invariant. */
module RaftElections {
  import opened RaftTypes
  import opened RaftStorage
  import opened RaftEngine
  import opened RaftCluster
  import opened RaftInvariant
  import opened RaftGrowth
  import opened RaftImages
  import opened RaftSteps

  // Propose.

  /** A leader's log grew by an entry of its own. */
  lemma ReignExtended(s: System, t: System, b: LeaderId, entry: Entry)
    requires ReignsSound(s.reigns) && b in s.reigns && entry.leader == b
    requires t.reigns == s.reigns[b := s.reigns[b].(log := s.reigns[b].log + [entry])]
    ensures ReignsSound(t.reigns) && ReignsGrow(s, t)
  {
    assert ReignsGrow(s, t);
    forall d | d in t.reigns
      ensures ReignSound(t.reigns, d)
    {
      assert ReignSound(s.reigns, d);
      LogStaysSound(s, t, s.reigns[d].start);
    }
  }

  /** A leader submits an entry of its own. */
  lemma OwnEntryStored(t: System, q: Quorums, was: Node, node: Node, entry: Entry)
    requires StoreSound(t, q, was) && NextIndex(was.committed) <= |was.log| && entry.leader == was.vote.leader
    requires var b := was.vote.leader;
             && node.log == was.log + [entry] && b in t.reigns && t.reigns[b].log == node.log
             && node.store == Submitted(was.store, Append([entry], IoId(Vote(b, true), LastId(node.log))))
    requires node.id == was.id && node.vote == was.vote && node.committed == was.committed
    requires LogSound(t.reigns, node.log) && was.vote.leader.node == was.id && was.vote.leader.term > 0
    ensures StoreSound(t, q, node) && StoreKeeps(was, node)
  {
    hide StoreSound, LogSound, CommittedBy, Kept, Stays;
    var b := was.vote.leader;
    var w := Append([entry], IoId(Vote(b, true), LastId(node.log)));
    LastImage(t, q, was);
    SavedImage(t, q, was);
    StoredVote(t, q, was);
    assert Prefix(t, b, |node.log|) == node.log;
    AllShared(t, q, was, node.log, node.log);
    hide KeepsShared;
    SubmitSound(t, q, was, node, w);
    forall p | Stays(was, 0, p)
      ensures Stays(node, 0, p)
    {
      StaysInLog(t, q, was, 0, p);
      StaysSubmitted(was, node, w, 0, p);
    }
  }

  lemma StoredVote(s: System, q: Quorums, node: Node)
    requires StoreSound(s, q, node)
    ensures node.store.disk.vote.leader == node.vote.leader
    ensures node.vote.leader.node != node.id ==> node.store.disk.vote == node.vote
  {
    hide ImageSound, WriteSound, IoBacked, Kept;
  }

  lemma AppendedNode(s: System, t: System, q: Quorums, n: NodeId, payload: nat)
    requires Inv(s, q) && n in s.nodes && s.nodes[n].leader.Some? && s.nodes[n].leader.value.leader in s.reigns
    requires t == Proposal(s, n, payload) && ReignsSound(t.reigns) && ReignsGrow(s, t)
    ensures NodeSound(t, q, n) && StoreKeeps(s.nodes[n], t.nodes[n])
  {
    hide Inv, ReignsSound, CommittedBy, StoreSound, StoreKeeps, LogSound;
    LeaderFacts(s, q, n);
    InvNode(s, q, n);
    var was, node := s.nodes[n], t.nodes[n];
    var b := was.leader.value.leader;
    LogOfReignSound(t.reigns, b);
    CommitStays(s, t, q, was);
    AcceptedStays(s, t, was);
    assert was.log <= node.log;
    assert Prefix(t, b, |node.log|) == node.log;
    StoreStays(s, t, q, was);
    OwnEntryStored(t, q, was, node, Entry(b, payload));
  }

  lemma ProposalKeepsInv(s: System, q: Quorums, n: NodeId, payload: nat)
    requires Inv(s, q) && n in s.nodes && s.nodes[n].leader.Some? && s.nodes[n].leader.value.leader in s.reigns
    ensures Inv(Proposal(s, n, payload), q)
  {
    hide Inv, ReignsSound, NodeSound, AcceptedSound, CommitSound, StoreSound, StoreKeeps;
    LeaderFacts(s, q, n);
    InvReigns(s, q);
    var t := Proposal(s, n, payload);
    ReignExtended(s, t, s.nodes[n].leader.value.leader, Entry(s.nodes[n].leader.value.leader, payload));
    AppendedNode(s, t, q, n, payload);
    RepliesStay(s, t, q, n);
    NoNewGrants(s, t, q, n);
    hide RepliesOfKept, NewGrantsKept;
    StepKeepsInv(s, t, q, n);
  }

  // Votes.

  /** A node that grants a vote beyond its own has what it confirmed, unless a leader before that vote lacks it. */
  lemma NewGrantKept(s: System, t: System, q: Quorums, n: NodeId, c: LeaderId, b: LeaderId, id: LogId)
    requires Inv(s, q) && Grows(s, t) && t.reigns == s.reigns && n in s.nodes
    requires Grant(n, c) in t.grants && t.grants[Grant(n, c)] == s.nodes[n].log
             && s.nodes[n].vote.AtMost(Vote(c, false))
    requires AppendReply(n, b, id) in s.net
    ensures ReplySound(t, n, b, id) && GrantedWith(t, q, n, c, b, id)
  {
    hide Inv, Stays, StoreSound;
    InvReply(s, q, n, b, id);
    InvNode(s, q, n);
    ReplyStaysSound(s, t, n, b, id);
    forall j | j <= id.index + 1 && IsOwn(t, b, j)
      ensures HadOrLost(t, q, t.grants[Grant(n, c)], b, j, c)
    {
      assert StaysOrLost(s, q, n, s.nodes[n], b, j);
      assert Prefix(t, b, j) == Prefix(s, b, j);
      if Stays(s.nodes[n], 0, Prefix(s, b, j)) {
        StaysInLog(s, q, s.nodes[n], 0, Prefix(s, b, j));
      } else if Superseded(s, q, Prefix(s, b, j), s.nodes[n].vote, n) {
        GrantSupersedes(s, t, q, Prefix(s, b, j), s.nodes[n].vote, n, c);
      } else {
        var d :| d in s.reigns && b.Less(d) && Followable(s.nodes[n].vote, n, d)
          && !(Prefix(s, b, j) <= s.reigns[d].log);
        assert d.Less(c);
        assert !(Prefix(t, b, j) <= t.reigns[d].log);
      }
    }
  }

  lemma GrantSupersedes(s: System, t: System, q: Quorums, p: Log, vote: Vote, n: NodeId, c: LeaderId)
    requires ReignsGrow(s, t) && s.net <= t.net && Superseded(s, q, p, vote, n) && vote.AtMost(Vote(c, false))
    ensures SupersededBefore(t, q, p, c)
  {
    var b, k :| Chosen(s, q, b, k) && Followable(vote, n, b) && |p| < k && p <= Prefix(s, b, k);
    assert b.Less(c);
    assert SupersededBefore(s, q, p, c);
    SupersededBeforeStays(s, t, q, p, c);
  }

  /** The only new grant is node `n`'s, with its log, for a vote not below its own. */
  lemma GrantingKeepsGrants(s: System, t: System, q: Quorums, n: NodeId, c: LeaderId)
    requires Inv(s, q) && Grows(s, t) && t.reigns == s.reigns && n in s.nodes
    requires s.nodes[n].vote.AtMost(Vote(c, false))
    requires forall d :: Grant(n, d) in t.grants && Grant(n, d) !in s.grants ==>
             d == c && t.grants[Grant(n, d)] == s.nodes[n].log
    requires forall b, id :: AppendReply(n, b, id) in t.net ==> AppendReply(n, b, id) in s.net
    ensures NewGrantsKept(s, t, q, n)
  {
    hide Inv, GrantedWith, ReplySound;
    forall d, b, id | Grant(n, d) in t.grants && AppendReply(n, b, id) in t.net && b.Less(d)
                      && (Grant(n, d) !in s.grants || AppendReply(n, b, id) !in s.net)
      ensures ReplySound(t, n, b, id) && GrantedWith(t, q, n, d, b, id)
    {
      NewGrantKept(s, t, q, n, c, b, id);
    }
  }

  /** Adopting a greater vote of another node, or its own new one, only resets what was accepted. */
  lemma VotedNode(s: System, q: Quorums, n: NodeId, node: Node, vote: Vote)
    requires Inv(s, q) && n in s.nodes && s.nodes[n].vote.Less(vote) && s.nodes[n].vote.leader.Less(vote.leader)
    requires node == s.nodes[n].(vote := vote, accepted := Accepted(s.nodes[n].accepted, IoId(vote, None)),
                                 candidate := None, leader := None, store := VoteSaved(s.nodes[n].store, vote))
    requires vote.leader.term > 0 && (vote.committed ==> vote.leader.node != n)
    ensures AcceptedSound(s, node) && CommitSound(s, q, node) && CandidateSound(s, node) && LeaderSound(s, node)
    ensures node.accepted == IoId(vote, None)
    ensures OwnVoteSound(s, node) && LogUnderVote(node.log, node.vote, n)
    ensures StoreSound(s, q, node) && StoreKeeps(s.nodes[n], node)
  {
    hide Inv, LogSound, CommittedBy, StoreSound, VoteSaved;
    InvNode(s, q, n);
    var was := s.nodes[n];
    assert was.accepted.vote.Less(vote);
    CommitLater(s, q, was, node);
    VoteStored(s, q, was, node, vote);
  }

  lemma VoteStored(s: System, q: Quorums, was: Node, node: Node, vote: Vote)
    requires StoreSound(s, q, was) && node.store == VoteSaved(was.store, vote) && node.vote == vote
    requires node.id == was.id && node.log == was.log && node.committed == was.committed
    requires was.vote.Less(vote) && LogUnderVote(was.log, vote, was.id)
    requires was.store.flushed.last.Some? ==> was.vote.leader.Less(vote.leader)
    ensures StoreSound(s, q, node) && StoreKeeps(was, node)
  {
    hide StoreSound, VoteSaved, Stays;
    VoteSavedSound(s, q, was, node, vote);
    forall p | Stays(was, 0, p)
      ensures Stays(node, 0, p)
    {
      StaysInLog(s, q, was, 0, p);
    }
  }

  /** Commits stay sound under a later vote. */
  lemma CommitLater(s: System, q: Quorums, was: Node, node: Node)
    requires CommitSound(s, q, was) && Upto(was.vote.leader, node.vote.leader)
    requires node.log == was.log && node.cluster == was.cluster && node.committed == was.committed
    ensures CommitSound(s, q, node)
  {
    hide CommittedBy;
    if was.committed.Some? {
      CommittedStays(s, s, q, was.committed.value, was.vote.leader, node.vote.leader);
    }
    if was.cluster.Some? {
      UptoTransitive(was.cluster.value.leader, was.vote.leader, node.vote.leader);
    }
  }

  /** A leader id beyond its node's vote was never used. */
  lemma UnusedLeader(s: System, q: Quorums, n: NodeId, b: LeaderId)
    requires Inv(s, q) && n in s.nodes && b.node == n && s.nodes[n].vote.leader.Less(b)
    ensures b !in s.reigns && forall m :: Grant(m, b) !in s.grants
  {
    hide Inv, LogSound;
    if b in s.reigns {
      InvOffice(s, q, b);
    }
    forall m | Grant(m, b) in s.grants
      ensures false
    {
      InvGrant(s, q, Grant(m, b));
    }
  }

  lemma OwnGrantSound(s: System, t: System, q: Quorums, n: NodeId, b: LeaderId)
    requires Inv(s, q) && n in s.nodes && n in t.nodes && t.reigns == s.reigns && b.node == n && b.term > 0
    requires s.nodes[n].vote.leader.Less(b) && t.nodes[n].vote.leader == b
    requires Grant(n, b) in t.grants && t.grants[Grant(n, b)] == s.nodes[n].log
    ensures GrantSound(t, Grant(n, b))
  {
    hide Inv, LogSound, AcceptedSound, CommitSound, StoreSound;
    InvNode(s, q, n);
  }

  /** A step that gives a vote, and confirms nothing. */
  lemma GrantingKeepsInv(s: System, t: System, q: Quorums, n: NodeId, c: LeaderId)
    requires Inv(s, q) && OnlyNode(s, t, n) && NewsSound(s, t, q) && NodeSound(t, q, n) && t.reigns == s.reigns
    requires StoreKeeps(s.nodes[n], t.nodes[n]) && VoteFollows(s.nodes[n].vote, t.nodes[n].vote, n)
    requires s.nodes[n].vote.AtMost(Vote(c, false))
    requires forall d :: Grant(n, d) in t.grants && Grant(n, d) !in s.grants ==>
             d == c && t.grants[Grant(n, d)] == s.nodes[n].log
    requires forall b, id :: AppendReply(n, b, id) in t.net ==> AppendReply(n, b, id) in s.net
    ensures Inv(t, q)
  {
    hide Inv, NodeSound, StoreKeeps, RepliesOfKept, NewGrantsKept, VoteFollows, ReignsSound, NewsSound;
    InvReigns(s, q);
    RepliesStay(s, t, q, n);
    GrantingKeepsGrants(s, t, q, n, c);
    StepKeepsInv(s, t, q, n);
  }

  lemma CandidateNode(s: System, q: Quorums, n: NodeId)
    requires Inv(s, q) && n in s.nodes
    ensures NodeSound(Election(s, n), q, n) && StoreKeeps(s.nodes[n], Elected(s.nodes[n]))
    ensures forall m :: Grant(m, Elected(s.nodes[n]).vote.leader) !in s.grants
  {
    hide Inv, ReignsSound, LogSound, AcceptedSound, CommitSound, GrantSound, LastId, StoreSound, StoreKeeps, VoteSaved;
    var was := s.nodes[n];
    var t := Election(s, n);
    var node := t.nodes[n];
    InvNode(s, q, n);
    InvReigns(s, q);
    var b := node.vote.leader;
    UnusedLeader(s, q, n, b);
    VotedNode(s, q, n, node.(candidate := None), node.vote);
    OtherFields(s, q, node.(candidate := None), node);
    CandidateStored(s, q, was, node);
    assert Grows(s, t);
    AcceptedStays(s, t, node);
    CommitStays(s, t, q, node);
    StoreStays(s, t, q, node);
  }

  lemma ElectionKeepsInv(s: System, q: Quorums, n: NodeId)
    requires Inv(s, q) && n in s.nodes
    ensures Inv(Election(s, n), q)
  {
    hide Inv, ReignsSound, LogSound, NodeSound, GrantSound, LastId, StoreKeeps, VoteSaved;
    var t := Election(s, n);
    var b := t.nodes[n].vote.leader;
    CandidateNode(s, q, n);
    InvReigns(s, q);
    InvNodeId(s, q, n);
    OwnGrantSound(s, t, q, n, b);
    GrantingKeepsInv(s, t, q, n, b);
  }

  lemma InvNodeId(s: System, q: Quorums, n: NodeId)
    requires Inv(s, q) && n in s.nodes
    ensures s.nodes[n].id == n
  {
    hide Inv, LogSound, AcceptedSound, CommitSound, StoreSound, OwnVoteSound, CandidateSound, LeaderSound;
    InvNode(s, q, n);
  }

  lemma CandidateStored(s: System, q: Quorums, was: Node, node: Node)
    requires StoreSound(s, q, node.(candidate := None)) && StoreKeeps(was, node.(candidate := None))
    ensures StoreSound(s, q, node) && StoreKeeps(was, node)
  {
    hide StoreSound, Stays;
    StoreRaised(s, q, node.(candidate := None), node);
  }

  /** A vote request granted or refused. */
  lemma VoteRequestFacts(s: System, q: Quorums, n: NodeId, vote: Vote, last: Option<LogId>)
    requires Inv(s, q) && n in s.nodes && VoteRequest(vote, last) in s.net
    requires VoteRequested(s.nodes[n], vote, last).granted
    ensures !vote.committed && vote.leader.term > 0 && Known(s, vote.leader)
    ensures vote == s.nodes[n].vote
            || (s.nodes[n].vote.Less(vote) && s.nodes[n].vote.leader.Less(vote.leader) && vote.leader.node != n)
    ensures var own := Grant(vote.leader.node, vote.leader);
            own in s.grants && IdAtMost(LastId(s.nodes[n].log), LastId(s.grants[own]))
  {
    hide Inv, LogSound, IdAtMost, LastId;
    InvMessage(s, q, VoteRequest(vote, last));
    InvGrant(s, q, Grant(vote.leader.node, vote.leader));
  }

  lemma VoterGrantSound(s: System, t: System, q: Quorums, n: NodeId, vote: Vote, last: Option<LogId>)
    requires Inv(s, q) && n in s.nodes && VoteRequest(vote, last) in s.net
    requires VoteRequested(s.nodes[n], vote, last).granted
    requires Grows(s, t) && t.reigns == s.reigns && Upto(vote.leader, t.nodes[n].vote.leader)
    requires Grant(n, vote.leader) !in s.grants
    requires Grant(n, vote.leader) in t.grants && t.grants[Grant(n, vote.leader)] == s.nodes[n].log
    ensures GrantSound(t, Grant(n, vote.leader))
  {
    hide Inv, LogSound, AcceptedSound, CommitSound, IdAtMost, LastId, VoteRequested, StoreSound;
    VoteRequestFacts(s, q, n, vote, last);
    InvNode(s, q, n);
  }

  lemma VoteRefusalKeepsInv(s: System, q: Quorums, n: NodeId)
    requires Inv(s, q) && n in s.nodes
    ensures Inv(s.(net := s.net + {VoteReply(n, s.nodes[n].vote, false)}), q)
  {
    hide Inv, LogSound;
    var t := s.(net := s.net + {VoteReply(n, s.nodes[n].vote, false)});
    InvNode(s, q, n);
    assert MessageSound(t, q, VoteReply(n, s.nodes[n].vote, false));
    hide MessageSound, NodeSound;
    SendKeepsInv(s, t, q, n);
  }

  lemma VoteRequestKeepsInv(s: System, q: Quorums, n: NodeId, vote: Vote, last: Option<LogId>)
    requires Inv(s, q) && n in s.nodes && VoteRequest(vote, last) in s.net
    ensures Inv(VoteRequestTaken(s, n, vote, last), q)
  {
    hide Inv;
    if VoteRequested(s.nodes[n], vote, last).granted {
      VoteGrantKeepsInv(s, q, n, vote, last);
    } else {
      VoteRefusalKeepsInv(s, q, n);
      assert WithNode(s, n, s.nodes[n]).nodes == s.nodes;
    }
  }

  /** A node that grants a vote follows nobody but that candidate. */
  lemma GrantingNode(s: System, q: Quorums, n: NodeId, vote: Vote, last: Option<LogId>)
    requires Inv(s, q) && n in s.nodes && VoteRequest(vote, last) in s.net
    requires VoteRequested(s.nodes[n], vote, last).granted
    ensures var node := VoteRequested(s.nodes[n], vote, last).node;
            && node.vote == vote && node.log == s.nodes[n].log
            && NodeSound(WithNode(s, n, node), q, n) && StoreKeeps(s.nodes[n], node)
  {
    hide Inv, LogSound, CommittedBy, StoreSound, VoteSaved;
    VoteRequestFacts(s, q, n, vote, last);
    InvNode(s, q, n);
    var was := s.nodes[n];
    var node := VoteRequested(was, vote, last).node;
    if vote == was.vote {
      assert node == was;
      assert WithNode(s, n, node) == s;
    } else {
      VotedNode(s, q, n, node, vote);
      hide AcceptedSound, CommitSound, CandidateSound, LeaderSound, OwnVoteSound, LogUnderVote, StoreKeeps;
      NodeBecomesSound(s, WithNode(s, n, node), q, n, node);
    }
  }

  lemma VoteGrantNews(s: System, q: Quorums, n: NodeId, vote: Vote, last: Option<LogId>)
    requires Inv(s, q) && n in s.nodes && VoteRequest(vote, last) in s.net
    requires VoteRequested(s.nodes[n], vote, last).granted
    ensures NewsSound(s, VoteRequestTaken(s, n, vote, last), q)
    ensures NodeSound(VoteRequestTaken(s, n, vote, last), q, n)
  {
    hide Inv, LogSound, ReignsSound, NodeSound, GrantSound, VoteRequested, IdAtMost, LastId, StoreKeeps;
    var t := VoteRequestTaken(s, n, vote, last);
    VoteRequestFacts(s, q, n, vote, last);
    GrantingNode(s, q, n, vote, last);
    InvReigns(s, q);
    var mid := WithNode(s, n, t.nodes[n]);
    assert Grows(s, t) && Grows(mid, t);
    NodeStaysSound(mid, t, q, n);
    if Grant(n, vote.leader) !in s.grants {
      VoterGrantSound(s, t, q, n, vote, last);
    }
  }

  lemma VoteGrantKeepsInv(s: System, q: Quorums, n: NodeId, vote: Vote, last: Option<LogId>)
    requires Inv(s, q) && n in s.nodes && VoteRequest(vote, last) in s.net
    requires VoteRequested(s.nodes[n], vote, last).granted
    ensures Inv(VoteRequestTaken(s, n, vote, last), q)
  {
    hide Inv, NodeSound, NewsSound, VoteRequested, IdAtMost, LastId, StoreKeeps;
    VoteRequestFacts(s, q, n, vote, last);
    GrantingNode(s, q, n, vote, last);
    VoteGrantNews(s, q, n, vote, last);
    GrantingKeepsInv(s, VoteRequestTaken(s, n, vote, last), q, n, vote.leader);
  }

  // Vote replies.

  lemma CandidateFacts(s: System, q: Quorums, n: NodeId)
    requires Inv(s, q) && n in s.nodes && s.nodes[n].candidate.Some?
    ensures var node := s.nodes[n];
            var b := node.vote.leader;
            && node.id == n && node.leader.None? && node.candidate.value.vote == node.vote == Vote(b, false)
            && b.node == n && b.term > 0 && b !in s.reigns
            && Grant(n, b) in s.grants && s.grants[Grant(n, b)] == node.log
            && node.candidate.value.last == LastId(node.log)
            && ElectedBy(s, b, node.candidate.value.granted)
            && node.accepted.vote.leader == b && node.accepted.last.None?
            && (forall i :: 0 <= i < |node.log| ==> node.log[i].leader.Less(b))
            && LogSound(s.reigns, node.log)
            && CommitSound(s, q, node) && StoreSound(s, q, node)
  {
    hide Inv, LogSound, CommittedBy, StoreSound;
    InvNode(s, q, n);
    InvGrant(s, q, Grant(n, s.nodes[n].vote.leader));
  }

  lemma CountedKeepsInv(s: System, q: Quorums, n: NodeId, from: NodeId)
    requires Inv(s, q) && n in s.nodes && s.nodes[n].candidate.Some? && Grant(from, s.nodes[n].vote.leader) in s.grants
    ensures var c := s.nodes[n].candidate.value;
            Inv(WithNode(s, n, s.nodes[n].(candidate := Some(c.(granted := c.granted + {from})))), q)
  {
    hide Inv, LogSound, CommitSound, AcceptedSound, StoreSound, StoreKeeps;
    CandidateFacts(s, q, n);
    InvNode(s, q, n);
    var c := s.nodes[n].candidate.value;
    var node := s.nodes[n].(candidate := Some(c.(granted := c.granted + {from})));
    var t := WithNode(s, n, node);
    OtherFields(s, q, s.nodes[n], node);
    StoreRaised(s, q, s.nodes[n], node);
    NodeBecomesSound(s, t, q, n, node);
    hide NodeSound;
    LocalKeepsInv(s, t, q, n);
  }

  /** Its storage: the committed vote saved, the blank entry submitted. */
  function OfficeStore(st: Store, b: LeaderId, log: Log): Store {
    Submitted(VoteSaved(st, Vote(b, true)), Append([Entry(b, BLANK)], IoId(Vote(b, true), LastId(log))))
  }

  /** The node a candidate becomes on winning. */
  lemma EstablishedIs(s: System, q: Quorums, n: NodeId, granted: set<NodeId>)
    requires Inv(s, q) && n in s.nodes && s.nodes[n].candidate.Some?
    ensures var was := s.nodes[n];
            var b := was.vote.leader;
            var log := was.log + [Entry(b, BLANK)];
            Established(was.(candidate := Some(was.candidate.value.(granted := granted)))) ==
              was.(vote := Vote(b, true), log := log, accepted := IoId(Vote(b, true), LastId(log)),
                   candidate := None, leader := Some(Leader(b, map[])), store := OfficeStore(was.store, b, log))
  {
    hide Inv, LogSound, CommitSound, StoreSound, VoteSaved;
    CandidateFacts(s, q, n);
    var was := s.nodes[n];
    var b := was.vote.leader;
    var log := was.log + [Entry(b, BLANK)];
    assert IdLess(LastId(was.log), LastId(log));
    var office := Vote(b, true);
    var leading := was.(candidate := None, leader := Some(Leader(b, map[])));
    var voted := leading.(vote := office, accepted := IoId(office, None), store := VoteSaved(was.store, office));
    assert VoteUpdated(leading, office) == Some(voted);
    assert Accepted(voted.accepted, IoId(office, LastId(was.log))) == IoId(office, LastId(was.log));
    var ready := voted.(accepted := IoId(office, LastId(was.log)));
    assert LeaderAppended(ready, BLANK)
        == ready.(log := log, accepted := IoId(office, LastId(log)), store := OfficeStore(was.store, b, log));
  }

  lemma NewReignSound(s: System, t: System, b: LeaderId, log: Log)
    requires ReignsSound(s.reigns) && b !in s.reigns && LogSound(s.reigns, log)
    requires forall i :: 0 <= i < |log| ==> log[i].leader.Less(b)
    requires t.reigns == s.reigns[b := Reign(log, log + [Entry(b, BLANK)])]
    ensures ReignsSound(t.reigns) && ReignsGrow(s, t)
  {
    hide LogSound;
    assert ReignsGrow(s, t);
    LogStaysSound(s, t, log);
    forall d | d in t.reigns
      ensures ReignSound(t.reigns, d)
    {
      if d != b {
        assert ReignSound(s.reigns, d);
        LogStaysSound(s, t, s.reigns[d].start);
      }
    }
  }

  lemma EstablishedNode(s: System, t: System, q: Quorums, n: NodeId, node: Node)
    requires Inv(s, q) && n in s.nodes && s.nodes[n].candidate.Some?
    requires var was := s.nodes[n];
             var b := was.vote.leader;
             var log := was.log + [Entry(b, BLANK)];
             && node == was.(vote := Vote(b, true), log := log, accepted := IoId(Vote(b, true), LastId(log)),
                             candidate := None, leader := Some(Leader(b, map[])),
                               store := OfficeStore(was.store, b, log))
             && t == WithNode(s, n, node).(reigns := s.reigns[b := Reign(was.log, log)])
    requires ReignsSound(t.reigns) && ReignsGrow(s, t)
    ensures NodeSound(t, q, n) && StoreKeeps(s.nodes[n], node)
  {
    hide Inv, ReignsSound, CommittedBy, LogSound, StoreSound, StoreKeeps, OfficeStore;
    CandidateFacts(s, q, n);
    InvNode(s, q, n);
    var was := s.nodes[n];
    var b := was.vote.leader;
    LogOfReignSound(t.reigns, b);
    CommitStays(s, t, q, was);
    assert Prefix(t, b, |node.log|) == node.log;
    NothingFlushed(s, q, was);
    StoreStays(s, t, q, was);
    OfficeStored(t, q, was, node);
  }

  /** A candidate confirmed nothing under its vote. */
  lemma NothingFlushed(s: System, q: Quorums, node: Node)
    requires StoreSound(s, q, node) && node.vote.leader !in s.reigns
    ensures node.store.flushed.last.None?
  {
    hide ImageSound, WriteSound, Kept;
  }

  lemma OfficeStored(t: System, q: Quorums, was: Node, node: Node)
    requires StoreSound(t, q, was) && was.store.flushed.last.None?
    requires was.vote.leader.node == was.id && was.vote.leader.term > 0 && !was.vote.committed
    requires var b := was.vote.leader;
             && node.log == was.log + [Entry(b, BLANK)] && node.vote == Vote(b, true)
             && b in t.reigns && t.reigns[b].log == node.log && node.store == OfficeStore(was.store, b, node.log)
    requires node.id == was.id && node.committed == was.committed && NextIndex(was.committed) <= |was.log|
    requires LogSound(t.reigns, node.log) && LogUnderVote(was.log, was.vote, was.id)
    ensures StoreSound(t, q, node) && StoreKeeps(was, node)
  {
    hide StoreSound, LogSound, VoteSaved, StoreKeeps;
    var b := was.vote.leader;
    var mid := was.(vote := Vote(b, true), store := VoteSaved(was.store, Vote(b, true)));
    VoteStored(t, q, was, mid, Vote(b, true));
    OwnEntryStored(t, q, mid, node, Entry(b, BLANK));
    KeepsChain(was, mid, node);
  }

  lemma KeepsChain(a: Node, b: Node, c: Node)
    requires StoreKeeps(a, b) && StoreKeeps(b, c)
    ensures StoreKeeps(a, c)
  {
    hide Stays;
  }

  lemma EstablishedKeepsInv(s: System, q: Quorums, n: NodeId, granted: set<NodeId>)
    requires Inv(s, q) && n in s.nodes && s.nodes[n].candidate.Some?
    requires ElectedBy(s, s.nodes[n].vote.leader, granted) && Wins(q, granted)
    ensures var was := s.nodes[n];
            var node := Established(was.(candidate := Some(was.candidate.value.(granted := granted))));
            && node.leader.Some?
            && Inv(WithNode(s, n, node).(reigns := s.reigns[node.leader.value.leader := Reign(was.log, node.log)]), q)
  {
    hide Inv, ReignsSound, LogSound, CommitSound, NodeSound, Established, StoreSound, StoreKeeps, OfficeStore;
    var was := s.nodes[n];
    var b := was.vote.leader;
    var node := Established(was.(candidate := Some(was.candidate.value.(granted := granted))));
    EstablishedIs(s, q, n, granted);
    CandidateFacts(s, q, n);
    InvReigns(s, q);
    var t := WithNode(s, n, node).(reigns := s.reigns[b := Reign(was.log, node.log)]);
    NewReignSound(s, t, b, was.log);
    EstablishedNode(s, t, q, n, node);
    var r :| r in q.read && r <= granted;
    assert ElectedBy(t, b, r);
    assert OfficeSound(t, q, b) by { InvGrant(s, q, Grant(n, b)); }
    RepliesStay(s, t, q, n);
    NoNewGrants(s, t, q, n);
    hide RepliesOfKept, NewGrantsKept;
    StepKeepsInv(s, t, q, n);
  }

  /** A refusal tells the candidate of another vote. */
  lemma RefusedKeepsInv(s: System, q: Quorums, n: NodeId, from: NodeId, vote: Vote, granted: bool)
    requires Inv(s, q) && n in s.nodes && s.nodes[n].candidate.Some? && VoteReply(from, vote, granted) in s.net
    ensures match VoteUpdated(s.nodes[n], Vote(vote.leader, false))
            case None => true
            case Some(node) => node.leader.None? && Inv(WithNode(s, n, node), q)
  {
    hide Inv, LogSound, CommittedBy, StoreSound, VoteSaved;
    CandidateFacts(s, q, n);
    InvNode(s, q, n);
    InvMessage(s, q, VoteReply(from, vote, granted));
    var was := s.nodes[n];
    var adopted := Vote(vote.leader, false);
    var r := VoteUpdated(was, adopted);
    if r.Some? {
      var node := r.value;
      if was.vote == adopted {
        assert node == was;
        assert WithNode(s, n, node) == s;
      } else {
        VotedNode(s, q, n, node, adopted);
        hide AcceptedSound, CommitSound, CandidateSound, LeaderSound, OwnVoteSound, LogUnderVote, StoreKeeps;
        NodeBecomesSound(s, WithNode(s, n, node), q, n, node);
        hide NodeSound;
        LocalKeepsInv(s, WithNode(s, n, node), q, n);
      }
    }
  }

  lemma VoteReplyKeepsInv(s: System, q: Quorums, n: NodeId, from: NodeId, vote: Vote, granted: bool)
    requires Inv(s, q) && n in s.nodes && VoteReply(from, vote, granted) in s.net
    ensures Inv(VoteReplyTaken(s, q, n, from, vote, granted), q)
  {
    hide Inv, LogSound, Established, VoteUpdated, Wins, CommitSound, ElectedBy, StoreSound;
    var was := s.nodes[n];
    assert WithNode(s, n, was) == s;
    if was.candidate.Some? {
      CandidateFacts(s, q, n);
      InvMessage(s, q, VoteReply(from, vote, granted));
      if granted && vote == was.candidate.value.vote {
        var more := was.candidate.value.granted + {from};
        CountedKeepsInv(s, q, n, from);
        if Wins(q, more) {
          MoreElected(s, was.vote.leader, was.candidate.value.granted, from);
          EstablishedKeepsInv(s, q, n, more);
        }
      } else {
        RefusedKeepsInv(s, q, n, from, vote, granted);
      }
    }
  }

  lemma MoreElected(s: System, b: LeaderId, granted: set<NodeId>, from: NodeId)
    requires ElectedBy(s, b, granted) && Grant(from, b) in s.grants
    ensures ElectedBy(s, b, granted + {from})
  {
  }

  // Initialize.

  lemma InitializationKeepsInv(s: System, q: Quorums, n: NodeId, payload: nat)
    requires Inv(s, q) && n in s.nodes
    ensures Inv(Initialization(s, n, payload), q)
  {
    hide Inv, ReignsSound, NodeSound, LogSound, StoreKeeps, Synced;
    InvReigns(s, q);
    var was := s.nodes[n];
    if was.log == [] && was.vote.leader.term == 0 {
      var t := Initialization(s, n, payload);
      InitialNode(s, q, n, payload);
      RepliesStay(s, t, q, n);
      NoNewGrants(s, t, q, n);
      hide RepliesOfKept, NewGrantsKept;
      StepKeepsInv(s, t, q, n);
    }
  }

  lemma InitialNode(s: System, q: Quorums, n: NodeId, payload: nat)
    requires Inv(s, q) && n in s.nodes && s.nodes[n].log == [] && s.nodes[n].vote.leader.term == 0
    ensures var t := Initialization(s, n, payload);
            && s.nodes[n].id == n && s.nodes[n].vote.leader == LeaderId(0, n) && LeaderId(0, n) !in s.reigns
            && ReignsSound(t.reigns) && ReignsGrow(s, t) && NodeSound(t, q, n) && StoreKeeps(s.nodes[n], t.nodes[n])
  {
    hide Inv, ReignsSound, CommittedBy, StoreSound, Synced, StoreKeeps;
    InvNode(s, q, n);
    InvReigns(s, q);
    var was, t, b := s.nodes[n], Initialization(s, n, payload), LeaderId(0, n);
    assert was.vote.leader == b && b !in s.reigns;
    FirstReignSound(s, t, b, t.nodes[n].log);
    CommitStays(s, t, q, was);
    StoreStays(s, t, q, was);
    FirstStored(t, q, was, t.nodes[n], payload);
  }

  lemma FirstStored(t: System, q: Quorums, was: Node, node: Node, payload: nat)
    requires StoreSound(t, q, was) && was.log == [] && was.vote.leader == LeaderId(0, was.id) && was.committed == None
    requires Initialized(was, payload) == Some(node)
    requires LeaderId(0, was.id) in t.reigns && t.reigns[LeaderId(0, was.id)].log == node.log
             && LogSound(t.reigns, node.log)
    ensures StoreSound(t, q, node) && StoreKeeps(was, node)
  {
    hide LogSound, Installed, Stays, Kept;
    var b := LeaderId(0, was.id);
    var entry := Entry(b, payload);
    var w := Append([entry], IoId(Vote(b, true), Some(LogId(b, 0))));
    SyncedDisk(was, w);
    InstalledSound(t, q, was);
    LastImage(t, q, was);
    NoVotePending(t, q, was, |was.store.pending|);
    assert ImageSound(t, q, was, Kept(was, |was.store.pending|));
    assert node.store.disk.log == [entry] == node.log;
    NothingPending(node, node.log);
    assert Prefix(t, b, 1) == node.log;
    forall p | Stays(was, 0, p)
      ensures Stays(node, 0, p)
    {
      StaysInLog(t, q, was, 0, p);
      NothingPending(node, p);
    }
  }

  lemma FirstReignSound(s: System, t: System, b: LeaderId, log: Log)
    requires ReignsSound(s.reigns) && b !in s.reigns && |log| == 1 && log[0].leader == b
    requires t.reigns == s.reigns[b := Reign([], log)]
    ensures ReignsSound(t.reigns) && ReignsGrow(s, t) && LogSound(t.reigns, log)
  {
    assert ReignsGrow(s, t);
    forall d | d in t.reigns
      ensures ReignSound(t.reigns, d)
    {
      if d != b {
        assert ReignSound(s.reigns, d);
        LogStaysSound(s, t, s.reigns[d].start);
      }
    }
    assert EntrySound(t.reigns, log, 0);
  }
}
