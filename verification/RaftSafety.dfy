/** Safety of every run: what is committed is committed for good and everywhere the same. */
module RaftSafety {
  import opened RaftTypes
  import opened RaftStorage
  import opened RaftEngine
  import opened RaftCluster
  import opened RaftInvariant
  import opened RaftGrowth
  import opened RaftSteps
  import opened RaftElections
  import opened RaftAppends
  import opened RaftRestarts

  lemma StepIsSafe(s: System, q: Quorums, e: Event)
    requires Inv(s, q) && Intersecting(q) && SoundStart(s, e)
    ensures Inv(Step(q, s, e), q)
  {
    hide Inv, Initialization, Election, VoteRequestTaken, VoteReplyTaken, Proposal, Replication, AppendTaken, Restarted,
      SnapshotTaken, Matched, CommitTried, QuorumMatched, Intersecting, MayConfirm, MayApply, MayKeep, Persisted,
      Agrees, Kept, AppliedUpto, CommitSaved;
    if e.node in s.nodes {
      var n := e.node;
      match e {
        case Initialize(_, payload) => InitializationKeepsInv(s, q, n, payload);
        case Elect(_, _) => ElectionKeepsInv(s, q, n);
        case TakeVoteRequest(_, vote, last) =>
          if VoteRequest(vote, last) in s.net {
            VoteRequestKeepsInv(s, q, n, vote, last);
          }
        case TakeVoteReply(_, from, vote, granted) =>
          if VoteReply(from, vote, granted) in s.net {
            VoteReplyKeepsInv(s, q, n, from, vote, granted);
          }
        case Propose(_, payload) =>
          if s.nodes[n].leader.Some? && s.nodes[n].leader.value.leader in s.reigns {
            ProposalKeepsInv(s, q, n, payload);
          }
        case Replicate(_, first, end) =>
          if s.nodes[n].leader.Some? && first <= end <= |s.nodes[n].log| {
            ReplicationKeepsInv(s, q, n, first, end);
          }
        case TakeAppend(_, leader, prev, entries, commit) =>
          if AppendRequest(leader, prev, entries, commit) in s.net && n != leader.node {
            AppendKeepsInv(s, q, n, leader, prev, entries, commit);
          }
        case SendSnapshot(_, count) =>
          if s.nodes[n].leader.Some? && 0 < count <= NextIndex(s.nodes[n].committed) && count <= |s.nodes[n].log| {
            SendSnapshotKeepsInv(s, q, n, count);
          }
        case TakeSnapshot(_, leader, image) =>
          if SnapshotRequest(leader, image) in s.net && n != leader.node && image != [] {
            SnapshotKeepsInv(s, q, n, leader, image);
          }
        case Persist(_) =>
          if s.nodes[n].store.pending != [] {
            PersistKeepsInv(s, q, n);
          }
        case Confirm(_, index) =>
          if MayConfirm(s.nodes[n], index) {
            ConfirmKeepsInv(s, q, n, index);
          }
        case TakeAppendReply(_, from, leader, matched) =>
          if AppendReply(from, leader, matched) in s.net && s.nodes[n].leader.Some?
            && s.nodes[n].leader.value.leader == leader {
            MatchedKeepsInv(s, q, n, from, leader, matched);
          }
        case TakeSnapshotReply(_, from, leader, matched) =>
          if SnapshotReply(from, leader, matched) in s.net && s.nodes[n].leader.Some?
            && s.nodes[n].leader.value.leader == leader {
            MatchedKeepsInv(s, q, n, from, leader, matched);
          }
        case TryCommit(_, index) =>
          if s.nodes[n].leader.Some? && index < |s.nodes[n].log|
            && QuorumMatched(q, s.nodes[n].leader.value, IdAt(s.nodes[n].log, index)) {
            CommitKeepsInv(s, q, n, index);
          }
        case Apply(_, count) =>
          if MayApply(s.nodes[n], count) {
            ApplyKeepsInv(s, q, n, count);
          }
        case SaveCommit(_, count) =>
          if 0 < count && MayApply(s.nodes[n], count) {
            SaveCommitKeepsInv(s, q, n, count);
          }
        case Restart(_, kept) => RestartingKeepsInv(s, q, n, kept);
      }
    }
  }

  lemma RestartingKeepsInv(s: System, q: Quorums, n: NodeId, kept: nat)
    requires Inv(s, q) && Intersecting(q) && n in s.nodes && SoundStart(s, Restart(n, kept))
    ensures Inv(Step(q, s, Restart(n, kept)), q)
  {
    hide Inv, Restarted, Agrees, Kept, Intersecting;
    if MayKeep(s.nodes[n].store, kept) && Restarted(s.nodes[n], kept).Some? {
      RestartKeepsInv(s, q, n, kept, Restarted(s.nodes[n], kept).value);
    }
  }

  lemma FreshNode(ids: set<NodeId>, q: Quorums, n: NodeId)
    requires n in ids
    ensures NodeSound(Fresh(ids), q, n)
  {
    var node := NewNode(n);
    assert Fresh(ids).nodes[n] == node;
    assert node.store.pending[..0] == [];
    assert Kept(node, 0) == node.store.disk;
  }

  lemma FreshIsSafe(q: Quorums, ids: set<NodeId>)
    ensures Inv(Fresh(ids), q)
  {
    hide NodeSound;
    forall n | n in ids
      ensures NodeSound(Fresh(ids), q, n)
    {
      FreshNode(ids, q, n);
    }
  }

  lemma SoundPart(q: Quorums, ids: set<NodeId>, events: seq<Event>, n: nat)
    requires SoundStarts(q, ids, events) && n <= |events|
    ensures SoundStarts(q, ids, events[..n])
    ensures n < |events| ==> SoundStart(Run(q, ids, events[..n]), events[n])
  {
    hide SoundStart, Run;
    forall i | 0 <= i < n
      ensures SoundStart(Run(q, ids, events[..n][..i]), events[..n][i])
    {
      assert events[..n][..i] == events[..i];
    }
  }

  lemma SoundBefore(q: Quorums, ids: set<NodeId>, events: seq<Event>, more: seq<Event>)
    requires SoundStarts(q, ids, events + more)
    ensures SoundStarts(q, ids, events)
  {
    hide SoundStart, Run;
    SoundPart(q, ids, events + more, |events|);
    assert (events + more)[..|events|] == events;
  }

  lemma {:induction false} RunIsSafe(q: Quorums, ids: set<NodeId>, events: seq<Event>)
    requires Intersecting(q) && SoundStarts(q, ids, events)
    ensures Inv(Run(q, ids, events), q)
  {
    hide Inv, Step, Fresh, Intersecting, SoundStart, SoundStarts;
    if events == [] {
      FreshIsSafe(q, ids);
    } else {
      SoundPart(q, ids, events, |events| - 1);
      RunIsSafe(q, ids, events[..|events| - 1]);
      StepIsSafe(Run(q, ids, events[..|events| - 1]), q, events[|events| - 1]);
    }
  }

  // The history grows along a run.

  lemma StepGrows(s: System, q: Quorums, e: Event)
    requires Inv(s, q)
    ensures ReignsGrow(s, Step(q, s, e)) && s.net <= Step(q, s, e).net
  {
    hide Inv, VoteRequested, VoteAnswered, LastId, Restarted, Matched, CommitTried, QuorumMatched, AppendReceived,
      SnapshotReceived, Persisted, MayConfirm, MayApply, MayKeep, AppliedUpto, CommitSaved, Elected, Synced;
    if e.node in s.nodes {
      var n := e.node;
      match e {
        case Initialize(_, payload) => FirstLeaderIsNew(s, q, n);
        case TakeVoteReply(_, from, vote, granted) => WinnerIsNew(s, q, n, from, vote, granted);
        case Propose(_, payload) =>
          if s.nodes[n].leader.Some? {
            LeaderFacts(s, q, n);
          }
        case _ =>
      }
    }
  }

  lemma FirstLeaderIsNew(s: System, q: Quorums, n: NodeId)
    requires Inv(s, q) && n in s.nodes
    ensures s.nodes[n].log == [] && s.nodes[n].vote.leader.term == 0 ==> LeaderId(0, n) !in s.reigns
  {
    hide Inv, LogSound, CommittedBy, StoreSound;
    InvNode(s, q, n);
  }

  lemma WinnerIsNew(s: System, q: Quorums, n: NodeId, from: NodeId, vote: Vote, granted: bool)
    requires Inv(s, q) && n in s.nodes
    ensures var node := VoteAnswered(s.nodes[n], q, from, vote, granted);
            s.nodes[n].leader.None? && node.leader.Some? ==> node.leader.value.leader !in s.reigns
  {
    hide Inv, LogSound, CommitSound, Wins, StoreSound, VoteSaved;
    if s.nodes[n].candidate.Some? {
      CandidateFacts(s, q, n);
      EstablishedIs(s, q, n, s.nodes[n].candidate.value.granted + {from});
    }
  }

  lemma GrowthChains(s: System, t: System, u: System)
    requires ReignsGrow(s, t) && ReignsGrow(t, u) && s.net <= t.net <= u.net
    ensures ReignsGrow(s, u) && s.net <= u.net
  {
  }

  lemma {:induction false} RunGrows(q: Quorums, ids: set<NodeId>, events: seq<Event>, more: seq<Event>)
    requires Intersecting(q) && SoundStarts(q, ids, events + more)
    ensures ReignsGrow(Run(q, ids, events), Run(q, ids, events + more))
    ensures Run(q, ids, events).net <= Run(q, ids, events + more).net
    decreases |more|
  {
    hide Step, Inv, Intersecting, SoundStarts, SoundStart;
    if more == [] {
      assert events + more == events;
    } else {
      var n := |more| - 1;
      SoundPart(q, ids, events + more, |events| + n);
      assert (events + more)[..|events| + n] == events + more[..n];
      RunGrows(q, ids, events, more[..n]);
      var t := Run(q, ids, events + more[..n]);
      RunIsSafe(q, ids, events + more[..n]);
      StepGrows(t, q, more[n]);
      GrowthChains(Run(q, ids, events), t, Run(q, ids, events + more));
    }
  }

  // The theorems.

  /** Two logs of a run that hold an entry of the same leader at one index are the same up to there. */
  lemma LogMatching(q: Quorums, ids: set<NodeId>, events: seq<Event>, m: NodeId, n: NodeId, i: nat)
    requires Intersecting(q) && SoundStarts(q, ids, events)
    requires var s := Run(q, ids, events);
             && m in s.nodes && n in s.nodes && i < |s.nodes[m].log| && i < |s.nodes[n].log|
             && s.nodes[m].log[i].leader == s.nodes[n].log[i].leader
    ensures var s := Run(q, ids, events);
            s.nodes[m].log[..i + 1] == s.nodes[n].log[..i + 1]
  {
    hide Run, Inv, LogSound, Intersecting, CommitSound, AcceptedSound, StoreSound, SoundStarts;
    var s := Run(q, ids, events);
    RunIsSafe(q, ids, events);
    InvNode(s, q, m);
    InvNode(s, q, n);
    LogsMatch(s.reigns, s.nodes[m].log, s.nodes[n].log, i);
  }

  /** Two committed log ids at one index are the same, in whichever leader's log they were committed. */
  lemma CommittedAgree(t: System, q: Quorums, a: LogId, b: LogId, x: LeaderId, y: LeaderId)
    requires Inv(t, q) && Intersecting(q) && CommittedBy(t, q, a, x) && CommittedBy(t, q, b, y) && a.index == b.index
    ensures a == b
  {
    hide Inv;
    var c, j :| Chosen(t, q, c, j) && Upto(c, x) && a.index < j && IdInReign(t, c, a);
    var d, k :| Chosen(t, q, d, k) && Upto(d, y) && b.index < k && IdInReign(t, d, b);
    if c.Less(d) {
      LaterLeadersHave(t, q, c, j, d);
      assert t.reigns[d].log[a.index] == Prefix(t, c, j)[a.index];
    } else if d.Less(c) {
      LaterLeadersHave(t, q, d, k, c);
      assert t.reigns[c].log[a.index] == Prefix(t, d, k)[a.index];
    }
  }

  /** An entry below a node's committed index. */
  lemma CommittedEntry(s: System, q: Quorums, n: NodeId, i: nat)
    requires Inv(s, q) && n in s.nodes && i < NextIndex(s.nodes[n].committed)
    ensures i < |s.nodes[n].log| && CommittedBy(s, q, IdAt(s.nodes[n].log, i), s.nodes[n].vote.leader)
    ensures LogSound(s.reigns, s.nodes[n].log)
  {
    hide Inv, LogSound, CommittedBy, StoreSound;
    InvNode(s, q, n);
    AppliedIsCommitted(s, q, n, i + 1);
  }

  /**
    * State machine safety. In every run, with any loss, repetition and reordering of messages, any elections
    * and any crashes that lose what was not flushed: what one node holds to be committed at an index and what
    * any node at any later time holds to be committed there is the same entry.
    */
  lemma StateMachineSafety(q: Quorums, ids: set<NodeId>, events: seq<Event>, more: seq<Event>, m: NodeId, n: NodeId,
      i: nat)
    requires Intersecting(q) && SoundStarts(q, ids, events + more)
    requires m in Run(q, ids, events).nodes && i < NextIndex(Run(q, ids, events).nodes[m].committed)
    requires n in Run(q, ids, events + more).nodes && i < NextIndex(Run(q, ids, events + more).nodes[n].committed)
    ensures var a, b := Run(q, ids, events).nodes[m].log, Run(q, ids, events + more).nodes[n].log;
            i < |a| && i < |b| && a[i] == b[i]
  {
    hide Run, Inv, LogSound, CommittedBy, Intersecting, SoundStarts;
    var s, t := Run(q, ids, events), Run(q, ids, events + more);
    SoundBefore(q, ids, events, more);
    RunIsSafe(q, ids, events);
    RunIsSafe(q, ids, events + more);
    RunGrows(q, ids, events, more);
    CommittedEntry(s, q, m, i);
    CommittedEntry(t, q, n, i);
    var a, b := s.nodes[m].log, t.nodes[n].log;
    CommittedStays(s, t, q, IdAt(a, i), s.nodes[m].vote.leader, s.nodes[m].vote.leader);
    CommittedAgree(t, q, IdAt(a, i), IdAt(b, i), s.nodes[m].vote.leader, t.nodes[n].vote.leader);
    LogStaysSound(s, t, a);
    LogsMatch(t.reigns, a, b, i);
    assert a[i] == a[..i + 1][i] && b[i] == b[..i + 1][i];
  }

  /** What two state machines applied, at whatever times, one of them applied all of. */
  lemma StateMachinesAgree(q: Quorums, ids: set<NodeId>, events: seq<Event>, more: seq<Event>, m: NodeId, n: NodeId)
    requires Intersecting(q) && SoundStarts(q, ids, events + more)
    requires m in Run(q, ids, events).nodes && n in Run(q, ids, events + more).nodes
    ensures var a, b := Run(q, ids, events).nodes[m].store.applied, Run(q, ids, events + more).nodes[n].store.applied;
            a <= b || b <= a
  {
    hide Run, Inv, Intersecting, SoundStarts;
    var s, t := Run(q, ids, events), Run(q, ids, events + more);
    SoundBefore(q, ids, events, more);
    RunIsSafe(q, ids, events);
    RunIsSafe(q, ids, events + more);
    AppliedWithin(s, q, m);
    AppliedWithin(t, q, n);
    var a, b := s.nodes[m].store.applied, t.nodes[n].store.applied;
    forall i | 0 <= i < |a| && i < |b|
      ensures a[i] == b[i]
    {
      StateMachineSafety(q, ids, events, more, m, n, i);
    }
  }

  /**
    * Leader completeness. An entry that some node held to be committed is in the log of every leader, then or
    * later, that is not older than that node's vote was.
    */
  lemma LeaderCompleteness(q: Quorums, ids: set<NodeId>, events: seq<Event>, more: seq<Event>, m: NodeId, n: NodeId,
      i: nat)
    requires Intersecting(q) && SoundStarts(q, ids, events + more)
    requires m in Run(q, ids, events).nodes && i < NextIndex(Run(q, ids, events).nodes[m].committed)
    requires var t := Run(q, ids, events + more);
             && n in t.nodes && t.nodes[n].leader.Some?
             && Upto(Run(q, ids, events).nodes[m].vote.leader, t.nodes[n].leader.value.leader)
    ensures var a, b := Run(q, ids, events).nodes[m].log, Run(q, ids, events + more).nodes[n].log;
            i < |a| && i < |b| && a[i] == b[i]
  {
    hide Run, Inv, LogSound, CommittedBy, Intersecting, CommitSound, AcceptedSound, StoreSound, SoundStarts;
    var s, t := Run(q, ids, events), Run(q, ids, events + more);
    SoundBefore(q, ids, events, more);
    RunIsSafe(q, ids, events);
    RunIsSafe(q, ids, events + more);
    RunGrows(q, ids, events, more);
    CommittedEntry(s, q, m, i);
    LeaderFacts(t, q, n);
    InvNode(t, q, n);
    var a, b := s.nodes[m].log, t.nodes[n].log;
    var d := t.nodes[n].leader.value.leader;
    CommittedStays(s, t, q, IdAt(a, i), s.nodes[m].vote.leader, d);
    LeaderHasCommitted(t, q, IdAt(a, i), d);
    LogStaysSound(s, t, a);
    LogsMatch(t.reigns, a, b, i);
    assert a[i] == a[..i + 1][i] && b[i] == b[..i + 1][i];
  }

  // Committed entries stay in the log.

  /** Node `n` has `prefix`, and its last entry is committed. */
  ghost predicate HoldsCommitted(s: System, q: Quorums, n: NodeId, prefix: Log) {
    && n in s.nodes && prefix != [] && prefix <= s.nodes[n].log
    && CommittedBy(s, q, IdAt(prefix, |prefix| - 1), s.nodes[n].vote.leader)
  }

  lemma AppendHolds(s: System, q: Quorums, n: NodeId, d: LeaderId, prev: Option<LogId>, entries: Log,
      commit: Option<LogId>, prefix: Log)
    requires Inv(s, q) && Intersecting(q) && n != d.node && AppendRequest(d, prev, entries, commit) in s.net
    requires HoldsCommitted(s, q, n, prefix)
    ensures var node := AppendTaken(s, n, d, prev, entries, commit).nodes[n];
            prefix <= node.log && Upto(s.nodes[n].vote.leader, node.vote.leader)
  {
    hide Inv, LogFollowed, CommittedBy, LogSound, CommitLearned, NodeSound, SegmentReceived;
    InvMessage(s, q, AppendRequest(d, prev, entries, commit));
    var was := s.nodes[n];
    CommitLearnedKeeps(SegmentReceived(was, d, prev, entries).node, CommitMark(d, commit));
    if !was.vote.AtMost(Vote(d, true)) {
      OldSegmentRefused(was, d, prev, entries);
    } else {
      SegmentLog(s, q, n, d, prev, entries);
      var r := SegmentReceived(was, d, prev, entries);
      var id := IdAt(prefix, |prefix| - 1);
      CommittedStays(s, s, q, id, was.vote.leader, d);
      LeaderHasCommitted(s, q, id, d);
      PrefixInLeader(s, q, n, d, prefix);
      CommonStays(s, n, d, NextIndex(prev) + |entries|, r.ok, r.node.log, prefix);
    }
  }

  lemma SnapshotHolds(s: System, q: Quorums, n: NodeId, d: LeaderId, image: Log, prefix: Log)
    requires Inv(s, q) && Intersecting(q) && n != d.node && SnapshotRequest(d, image) in s.net && image != []
    requires HoldsCommitted(s, q, n, prefix)
    ensures var t := SnapshotTaken(s, n, d, image);
            n in t.nodes && prefix <= t.nodes[n].log && Upto(s.nodes[n].vote.leader, t.nodes[n].vote.leader)
  {
    hide Inv, LogFollowed, CommittedBy, NodeSound, SnapshotInstalled, SharedKept, VoteSaved;
    InvMessage(s, q, SnapshotRequest(d, image));
    var was := s.nodes[n];
    if was.vote.AtMost(Vote(d, true)) {
      SnapshotNode(s, q, n, d, image);
      hide SnapshotReceived;
      var id := IdAt(prefix, |prefix| - 1);
      CommittedStays(s, s, q, id, was.vote.leader, d);
      LeaderHasCommitted(s, q, id, d);
      PrefixInLeader(s, q, n, d, prefix);
      CommonStays(s, n, d, |image|, true, SnapshotReceived(was, d, image).node.log, prefix);
    }
  }

  lemma OldSegmentRefused(node: Node, d: LeaderId, prev: Option<LogId>, entries: Log)
    requires !node.vote.AtMost(Vote(d, true))
    ensures SegmentReceived(node, d, prev, entries).node == node
  {
  }

  lemma CommitLearnedKeeps(node: Node, mark: CommitMark)
    ensures CommitLearned(node, mark).log == node.log && CommitLearned(node, mark).vote == node.vote
  {
  }

  lemma PrefixInLeader(s: System, q: Quorums, n: NodeId, d: LeaderId, prefix: Log)
    requires Inv(s, q) && n in s.nodes && prefix != [] && prefix <= s.nodes[n].log
    requires IdInReign(s, d, IdAt(prefix, |prefix| - 1))
    ensures prefix <= s.reigns[d].log
  {
    hide Inv, LogSound, ReignsSound, CommitSound, AcceptedSound, StoreSound;
    InvNode(s, q, n);
    InvReigns(s, q);
    LogOfReignSound(s.reigns, d);
    var i := |prefix| - 1;
    LogsMatch(s.reigns, s.nodes[n].log, s.reigns[d].log, i);
    assert prefix == s.nodes[n].log[..i + 1];
  }

  /** If the event is a crash of node `n`, the entries were on disk or in the state machine. */
  predicate Survives(s: System, e: Event, n: NodeId, prefix: Log) {
    e.Restart? && e.node == n && n in s.nodes && MayKeep(s.nodes[n].store, e.kept)
      && Restarted(s.nodes[n], e.kept).Some? ==>
      prefix <= Kept(s.nodes[n], e.kept).log || prefix <= s.nodes[n].store.applied
  }

  /** A committed entry leaves a node's log exactly in a crash before it was on disk or applied. */
  lemma StepHolds(s: System, q: Quorums, e: Event, n: NodeId, prefix: Log)
    requires Inv(s, q) && Intersecting(q) && HoldsCommitted(s, q, n, prefix) && SoundStart(s, e)
    ensures HoldsCommitted(Step(q, s, e), q, n, prefix) <==> Survives(s, e, n, prefix)
    ensures n in Step(q, s, e).nodes
    ensures HoldsCommitted(Step(q, s, e), q, n, prefix) <==> prefix <= Step(q, s, e).nodes[n].log
  {
    hide Inv, CommittedBy, Intersecting, Kept;
    StepGrows(s, q, e);
    var t := Step(q, s, e);
    if e.Restart? && e.node == n {
      RestartMoves(s, q, e, n, prefix);
    } else {
      NodeMoves(s, q, e, n, prefix);
    }
    CommittedStays(s, t, q, IdAt(prefix, |prefix| - 1), s.nodes[n].vote.leader, t.nodes[n].vote.leader);
  }

  lemma RestartMoves(s: System, q: Quorums, e: Event, n: NodeId, prefix: Log)
    requires Inv(s, q) && Intersecting(q) && HoldsCommitted(s, q, n, prefix) && SoundStart(s, e) && e.Restart?
             && e.node == n
    ensures var t := Step(q, s, e);
            && n in t.nodes && Upto(s.nodes[n].vote.leader, t.nodes[n].vote.leader)
            && (prefix <= t.nodes[n].log <==> Survives(s, e, n, prefix))
  {
    hide Inv, CommittedBy, Intersecting, Kept, Restarted, Agrees, CommittedLog, ImageSound, Written;
    if MayKeep(s.nodes[n].store, e.kept) && Restarted(s.nodes[n], e.kept).Some? {
      var node := Restarted(s.nodes[n], e.kept).value;
      RestartedIs(s, q, n, e.kept, node);
      if node.store.pending != [] {
        HeldIsCommitted(s, q, n, prefix);
        CommittedNest(s, q, prefix, node.store.applied, s.nodes[n].vote.leader, s.nodes[n].vote.leader);
      }
    }
  }

  lemma HeldIsCommitted(s: System, q: Quorums, n: NodeId, prefix: Log)
    requires Inv(s, q) && HoldsCommitted(s, q, n, prefix)
    ensures CommittedLog(s, q, prefix, s.nodes[n].vote.leader)
  {
    hide Inv, CommittedBy, LogSound, StoreSound;
    InvNode(s, q, n);
    PrefixSound(s.reigns, s.nodes[n].log, prefix);
  }

  lemma NodeMoves(s: System, q: Quorums, e: Event, n: NodeId, prefix: Log)
    requires Inv(s, q) && Intersecting(q) && HoldsCommitted(s, q, n, prefix) && !(e.Restart? && e.node == n)
    ensures var t := Step(q, s, e);
            n in t.nodes && prefix <= t.nodes[n].log && Upto(s.nodes[n].vote.leader, t.nodes[n].vote.leader)
  {
    hide Inv, CommittedBy, Intersecting, LastId, QuorumMatched, VoteAnswered, AppendTaken, VoteRequested, CommitTried,
      SnapshotTaken, Persisted, Synced, VoteSaved, MayConfirm, MayApply;
    var t := Step(q, s, e);
    if e.node != n {
      OthersStay(s, q, e, n);
    } else {
      match e {
        case TakeAppend(_, d, prev, entries, commit) =>
          if AppendRequest(d, prev, entries, commit) in s.net && n != d.node {
            AppendHolds(s, q, n, d, prev, entries, commit, prefix);
            TakenKeepsNode(s, n, d, prev, entries, commit);
          }
        case TakeSnapshot(_, d, image) =>
          if SnapshotRequest(d, image) in s.net && n != d.node && image != [] {
            SnapshotHolds(s, q, n, d, image, prefix);
          }
        case TakeVoteReply(_, from, vote, granted) => AnswerMoves(s, q, n, from, vote, granted);
        case TakeVoteRequest(_, vote, last) => RequestMoves(s.nodes[n], vote, last);
        case TryCommit(_, index) =>
          if index < |s.nodes[n].log| {
            TriedMoves(s.nodes[n], IdAt(s.nodes[n].log, index));
          }
        case _ =>
      }
    }
  }

  lemma OthersStay(s: System, q: Quorums, e: Event, n: NodeId)
    requires n in s.nodes && e.node != n
    ensures n in Step(q, s, e).nodes && Step(q, s, e).nodes[n] == s.nodes[n]
  {
    hide VoteRequested, VoteAnswered, AppendReceived, SnapshotReceived, Restarted, Persisted, Elected, LastId,
      CommitTried, Matched, QuorumMatched;
  }

  lemma TakenKeepsNode(s: System, n: NodeId, d: LeaderId, prev: Option<LogId>, entries: Log, commit: Option<LogId>)
    requires n in s.nodes
    ensures n in AppendTaken(s, n, d, prev, entries, commit).nodes
  {
  }

  lemma AnswerMoves(s: System, q: Quorums, n: NodeId, from: NodeId, vote: Vote, granted: bool)
    requires Inv(s, q) && n in s.nodes
    ensures var was := s.nodes[n];
            var node := VoteAnswered(was, q, from, vote, granted);
            was.log <= node.log && Upto(was.vote.leader, node.vote.leader)
  {
    hide Inv, LogSound, CommitSound, Wins, StoreSound, VoteSaved;
    if s.nodes[n].candidate.Some? {
      CandidateFacts(s, q, n);
      EstablishedIs(s, q, n, s.nodes[n].candidate.value.granted + {from});
    }
  }

  lemma RequestMoves(was: Node, vote: Vote, last: Option<LogId>)
    ensures var node := VoteRequested(was, vote, last).node;
            node.log == was.log && Upto(was.vote.leader, node.vote.leader)
  {
  }

  lemma TriedMoves(was: Node, id: LogId)
    ensures CommitTried(was, id).log == was.log && CommitTried(was, id).vote == was.vote
  {
  }

  /** The node has the entries at every moment of `more`. */
  ghost predicate AlwaysHas(q: Quorums, ids: set<NodeId>, events: seq<Event>, more: seq<Event>, n: NodeId,
      prefix: Log) {
    forall j :: 0 <= j <= |more| ==> HasThen(Run(q, ids, events + more[..j]), n, prefix)
  }

  ghost predicate HasThen(s: System, n: NodeId, prefix: Log) {
    n in s.nodes && prefix <= s.nodes[n].log
  }

  ghost predicate SurvivesAll(q: Quorums, ids: set<NodeId>, events: seq<Event>, more: seq<Event>, n: NodeId,
      prefix: Log) {
    forall j :: 0 <= j < |more| ==> Survives(Run(q, ids, events + more[..j]), more[j], n, prefix)
  }

  lemma RunSnoc(q: Quorums, ids: set<NodeId>, events: seq<Event>, e: Event)
    ensures Run(q, ids, events + [e]) == Step(q, Run(q, ids, events), e)
  {
    hide Step;
    assert (events + [e])[..|events|] == events;
  }

  lemma AlwaysSnoc(q: Quorums, ids: set<NodeId>, events: seq<Event>, more: seq<Event>, e: Event, n: NodeId, prefix: Log)
    ensures AlwaysHas(q, ids, events, more + [e], n, prefix)
            <==> AlwaysHas(q, ids, events, more, n, prefix) && HasThen(Run(q, ids, events + (more + [e])), n, prefix)
    ensures SurvivesAll(q, ids, events, more + [e], n, prefix)
            <==> SurvivesAll(q, ids, events, more, n, prefix) && Survives(Run(q, ids, events + more), e, n, prefix)
  {
    hide Run, HasThen, Survives;
    var k := |more|;
    assert forall j :: 0 <= j <= k ==> (more + [e])[..j] == more[..j];
    assert (more + [e])[..k + 1] == more + [e] && more[..k] == more;
    if AlwaysHas(q, ids, events, more + [e], n, prefix) {
      assert HasThen(Run(q, ids, events + (more + [e])[..k + 1]), n, prefix);
      forall j | 0 <= j <= k
        ensures HasThen(Run(q, ids, events + more[..j]), n, prefix)
      {
        assert HasThen(Run(q, ids, events + (more + [e])[..j]), n, prefix);
      }
    }
    if SurvivesAll(q, ids, events, more + [e], n, prefix) {
      assert Survives(Run(q, ids, events + (more + [e])[..k]), (more + [e])[k], n, prefix);
      forall j | 0 <= j < k
        ensures Survives(Run(q, ids, events + more[..j]), more[j], n, prefix)
      {
        assert Survives(Run(q, ids, events + (more + [e])[..j]), (more + [e])[j], n, prefix);
      }
    }
  }

  /** A committed prefix of a node's log is held, and stays, exactly through the crashes it survives. */
  lemma {:induction false} HeldExactly(q: Quorums, ids: set<NodeId>, events: seq<Event>, more: seq<Event>, n: NodeId,
      prefix: Log)
    requires Intersecting(q) && SoundStarts(q, ids, events + more) && HoldsCommitted(Run(q, ids, events), q, n, prefix)
    ensures AlwaysHas(q, ids, events, more, n, prefix) <==> SurvivesAll(q, ids, events, more, n, prefix)
    ensures AlwaysHas(q, ids, events, more, n, prefix) ==> HoldsCommitted(Run(q, ids, events + more), q, n, prefix)
    decreases |more|
  {
    hide Step, Inv, Intersecting, CommittedBy, Run, Survives, SoundStart, SoundStarts;
    if more == [] {
      assert events + more == events && events + more[..0] == events;
    } else {
      var k := |more| - 1;
      var before, e := more[..k], more[k];
      assert more == before + [e] && events + more == events + before + [e];
      SoundPart(q, ids, events + more, |events| + k);
      assert (events + more)[..|events| + k] == events + before && (events + more)[|events| + k] == e;
      HeldExactly(q, ids, events, before, n, prefix);
      AlwaysSnoc(q, ids, events, before, e, n, prefix);
      RunIsSafe(q, ids, events + before);
      RunSnoc(q, ids, events + before, e);
      hide AlwaysHas, SurvivesAll;
      if AlwaysHas(q, ids, events, before, n, prefix) {
        StepHolds(Run(q, ids, events + before), q, e, n, prefix);
      }
    }
  }

  /**
    * Once a node holds an entry to be committed, the entry and all before it stay in its log, through later
    * leaders, conflicting requests, snapshots and crashes: exactly as long as they were on disk or applied
    * whenever the node crashed.
    */
  lemma CommittedStaysInLog(q: Quorums, ids: set<NodeId>, events: seq<Event>, more: seq<Event>, n: NodeId, i: nat)
    requires Intersecting(q) && SoundStarts(q, ids, events + more)
    requires n in Run(q, ids, events).nodes && i < NextIndex(Run(q, ids, events).nodes[n].committed)
    ensures i < |Run(q, ids, events).nodes[n].log|
    ensures var prefix := Run(q, ids, events).nodes[n].log[..i + 1];
            AlwaysHas(q, ids, events, more, n, prefix) <==> SurvivesAll(q, ids, events, more, n, prefix)
  {
    hide Step, Inv, Intersecting, CommittedBy, Run, AlwaysHas, SurvivesAll, SoundStarts;
    SoundBefore(q, ids, events, more);
    RunIsSafe(q, ids, events);
    CommittedEntry(Run(q, ids, events), q, n, i);
    HeldExactly(q, ids, events, more, n, Run(q, ids, events).nodes[n].log[..i + 1]);
  }

  /** An entry that a node confirmed is taken from it by no crash, unless a leader it followed has another there. */
  lemma ConfirmedStaysInLog(q: Quorums, ids: set<NodeId>, events: seq<Event>, n: NodeId, b: LeaderId, id: LogId)
    requires Intersecting(q) && SoundStarts(q, ids, events) && AppendReply(n, b, id) in Run(q, ids, events).net
    requires id.leader == b
    ensures var s := Run(q, ids, events);
            && n in s.nodes && IsOwn(s, b, id.index + 1)
            && StaysOrLost(s, q, n, s.nodes[n], b, id.index + 1)
  {
    hide Run, Inv, Intersecting, SoundStarts, StaysOrLost;
    RunIsSafe(q, ids, events);
    InvReply(Run(q, ids, events), q, n, b, id);
  }

  // Quorums.

  /** A quorum of a joint membership: a majority of each of its configurations. */
  predicate IsQuorum(configs: seq<set<NodeId>>, ids: set<NodeId>) {
    forall i :: 0 <= i < |configs| ==> 2 * |configs[i] * ids| > |configs[i]|
  }

  lemma UnionSize(a: set<NodeId>, b: set<NodeId>, all: set<NodeId>)
    requires a <= all && b <= all && a * b == {}
    ensures |a| + |b| <= |all|
  {
    assert |a + b| == |a| + |b|;
    Within(a + b, all);
  }

  lemma {:induction false} Within(a: set<NodeId>, all: set<NodeId>)
    requires a <= all
    ensures |a| <= |all|
    decreases |a|
  {
    if a != {} {
      var x :| x in a;
      Within(a - {x}, all - {x});
    }
  }

  /** Quorums of two memberships that share a configuration meet in one of its voters. */
  lemma SharedConfigMeets(a: seq<set<NodeId>>, b: seq<set<NodeId>>, config: set<NodeId>, r: set<NodeId>, w: set<NodeId>)
    requires config in a && config in b && IsQuorum(a, r) && IsQuorum(b, w)
    ensures r * w * config != {}
  {
    var left, right := config * r, config * w;
    if left * right == {} {
      UnionSize(left, right, config);
    } else {
      var n :| n in left * right;
      assert n in r * w * config;
    }
  }

  /** The quorums of a membership meet each other exactly when it has a configuration at all. */
  lemma QuorumsMeetExactly(configs: seq<set<NodeId>>)
    ensures (forall r, w :: IsQuorum(configs, r) && IsQuorum(configs, w) ==> r * w != {}) <==> configs != []
  {
    if configs == [] {
      var none: set<NodeId> := {};
      assert IsQuorum(configs, none) && none * none == {};
    } else {
      forall r, w | IsQuorum(configs, r) && IsQuorum(configs, w)
        ensures r * w != {}
      {
        SharedConfigMeets(configs, configs, configs[0], r, w);
      }
    }
  }

  /**
    * Joint majorities satisfy what the safety theorems ask: of one configuration or of several, and also where a
    * change of membership lets elections and commits use different ones that share a configuration.
    */
  lemma MajoritiesIntersect(q: Quorums, read: seq<set<NodeId>>, write: seq<set<NodeId>>)
    requires forall r :: r in q.read ==> IsQuorum(read, r)
    requires forall w :: w in q.write ==> IsQuorum(write, w)
    requires exists config :: config in read && config in write
    ensures Intersecting(q)
  {
    var config :| config in read && config in write;
    forall r, w | r in q.read && w in q.write
      ensures exists n :: n in r && n in w
    {
      SharedConfigMeets(read, write, config, r, w);
      var n :| n in r * w * config;
      assert n in r && n in w;
    }
  }
}
