/**
  * A crash that loses what was not flushed, and a restart, keep the invariant: exactly when the log found on disk
  * ends before what the state machine applied, or has it.
  */
module RaftRestarts {
  import opened RaftTypes
  import opened RaftStorage
  import opened RaftEngine
  import opened RaftCluster
  import opened RaftInvariant
  import opened RaftGrowth
  import opened RaftImages
  import opened RaftSteps
  import opened RaftAppends

  // Committed logs.

  /** A log whose last entry is committed. */
  ghost predicate CommittedLog(s: System, q: Quorums, log: Log, bound: LeaderId) {
    LogSound(s.reigns, log) && (log != [] ==> CommittedBy(s, q, IdAt(log, |log| - 1), bound))
  }

  /** A committed log is the leader's whose quorum confirmed it. */
  lemma InChosen(s: System, q: Quorums, log: Log, bound: LeaderId) returns (b: LeaderId, k: int)
    requires ReignsSound(s.reigns) && CommittedLog(s, q, log, bound) && log != []
    ensures Chosen(s, q, b, k) && Upto(b, bound) && log <= Prefix(s, b, k)
  {
    hide ReignsSound, LogSound, Confirmed;
    var id := IdAt(log, |log| - 1);
    b, k :| Chosen(s, q, b, k) && Upto(b, bound) && id.index < k && IdInReign(s, b, id);
    LogOfReignSound(s.reigns, b);
    LogsMatch(s.reigns, log, s.reigns[b].log, id.index);
    assert log == log[..id.index + 1];
  }

  /** Of two committed logs one is part of the other. */
  lemma CommittedNest(s: System, q: Quorums, a: Log, b: Log, x: LeaderId, y: LeaderId)
    requires Inv(s, q) && Intersecting(q) && CommittedLog(s, q, a, x) && CommittedLog(s, q, b, y)
    ensures a <= b || b <= a
  {
    hide Inv, CommittedLog, ReignsSound;
    if a != [] && b != [] {
      InvReigns(s, q);
      var c, j := InChosen(s, q, a, x);
      var d, k := InChosen(s, q, b, y);
      if c.Less(d) {
        LaterLeadersHave(s, q, c, j, d);
      } else if d.Less(c) {
        LaterLeadersHave(s, q, d, k, c);
      }
    }
  }

  lemma CommittedPart(s: System, q: Quorums, log: Log, id: LogId, bound: LeaderId)
    requires ReignsSound(s.reigns) && LogSound(s.reigns, log) && HasAt(log, id) && CommittedBy(s, q, id, bound)
    ensures CommittedLog(s, q, log[..id.index + 1], bound)
  {
    hide ReignsSound, LogSound, CommittedBy;
    PrefixSound(s.reigns, log, log[..id.index + 1]);
  }

  /** Along a committed log, log ids are ordered as their indexes. */
  lemma NestedOrder(s: System, a: Log, b: Log)
    requires ReignsSound(s.reigns) && LogSound(s.reigns, a) && LogSound(s.reigns, b) && (a <= b || b <= a)
    ensures IdLess(LastId(a), LastId(b)) <==> |a| < |b|
  {
    hide ReignsSound, LogSound;
    if a != [] && b != [] {
      var long := if |a| <= |b| then b else a;
      IdsFollowIndexes(s.reigns, long, |b| - 1, |a| - 1);
      IdsFollowIndexes(s.reigns, long, |a| - 1, |b| - 1);
    }
  }

  // What startup finds.

  /** What is known of the disk and the state machine that a crash leaves. */
  ghost predicate Found(s: System, q: Quorums, disk: Disk, applied: Log, bound: LeaderId) {
    && ReignsSound(s.reigns) && LogSound(s.reigns, disk.log) && CommittedLog(s, q, applied, bound)
    && (disk.mark.Some? ==> HasAt(disk.log, disk.mark.value) && CommittedBy(s, q, disk.mark.value, bound))
  }

  lemma FoundAfterCrash(s: System, q: Quorums, n: NodeId, kept: nat)
    requires Inv(s, q) && n in s.nodes && kept <= |s.nodes[n].store.pending|
    ensures Found(s, q, Kept(s.nodes[n], kept), s.nodes[n].store.applied, s.nodes[n].vote.leader)
    ensures ImageSound(s, q, s.nodes[n], Kept(s.nodes[n], kept))
  {
    hide Inv, LogSound, CommittedBy, ReignsSound, WriteSound, IoBacked, Kept;
    InvNode(s, q, n);
    InvReigns(s, q);
    var node := s.nodes[n];
    PrefixSound(s.reigns, node.log, node.store.applied);
    if node.store.applied != [] {
      AppliedIsCommitted(s, q, n, |node.store.applied|);
    }
  }

  /** The saved committed log id as a log. */
  function Marked(disk: Disk): Log
    requires disk.mark.Some? ==> disk.mark.value.index < |disk.log|
  {
    disk.log[..NextIndex(disk.mark)]
  }

  lemma MarkedFacts(s: System, q: Quorums, disk: Disk, applied: Log, bound: LeaderId)
    requires Inv(s, q) && Intersecting(q) && Found(s, q, disk, applied, bound)
    ensures disk.mark.Some? ==> disk.mark.value.index < |disk.log|
    ensures LastId(Marked(disk)) == disk.mark && |Marked(disk)| == NextIndex(disk.mark)
    ensures CommittedLog(s, q, Marked(disk), bound)
    ensures applied <= Marked(disk) || Marked(disk) <= applied
    ensures IdLess(disk.mark, LastId(applied)) <==> |Marked(disk)| < |applied|
  {
    hide Inv, LogSound, CommittedBy, ReignsSound, Intersecting;
    if disk.mark.Some? {
      CommittedPart(s, q, disk.log, disk.mark.value, bound);
    } else {
      PrefixSound(s.reigns, disk.log, Marked(disk));
    }
    CommittedNest(s, q, applied, Marked(disk), bound, bound);
    NestedOrder(s, Marked(disk), applied);
  }

  /** The state machine reaches the longer of what it applied and what was saved as committed. */
  lemma TargetFacts(s: System, q: Quorums, disk: Disk, applied: Log, bound: LeaderId)
    requires Inv(s, q) && Intersecting(q) && Found(s, q, disk, applied, bound)
    ensures disk.mark.Some? ==> disk.mark.value.index < |disk.log|
    ensures Behind(disk, applied) ==> NextIndex(Target(disk, applied)) <= |disk.log|
    ensures var done := Reapplied(disk, applied);
            && LastId(done) == Target(disk, applied) && |done| == NextIndex(Target(disk, applied))
            && done == (if |Marked(disk)| < |applied| then applied else Marked(disk))
            && applied <= done && Marked(disk) <= done && CommittedLog(s, q, done, bound)
  {
    hide Inv, LogSound, CommittedBy, ReignsSound, Intersecting, CommittedLog;
    MarkedFacts(s, q, disk, applied, bound);
    FoundLogs(s, q, disk, applied, bound);
    NestedOrder(s, applied, Marked(disk));
    if |Marked(disk)| >= |applied| && Behind(disk, applied) {
      assert applied + disk.log[|applied|..NextIndex(disk.mark)] == Marked(disk);
    }
  }

  lemma FoundLogs(s: System, q: Quorums, disk: Disk, applied: Log, bound: LeaderId)
    requires Found(s, q, disk, applied, bound) && CommittedLog(s, q, Marked(disk), bound)
    ensures ReignsSound(s.reigns) && LogSound(s.reigns, applied) && LogSound(s.reigns, Marked(disk))
            && LogSound(s.reigns, disk.log)
  {
  }

  /**
    * A start from a log that agrees with the state machine: the log is the one on disk with everything applied in
    * it, or the one the state machine stands for, which is longer.
    */
  lemma RecoveredIs(s: System, q: Quorums, disk: Disk, applied: Log, bound: LeaderId)
    requires Inv(s, q) && Intersecting(q) && Found(s, q, disk, applied, bound)
    requires Agrees(disk, applied) && Recovered(disk, applied).Some?
    ensures var r := Recovered(disk, applied).value;
            && r.committed == LastId(r.applied) && applied <= r.applied <= r.log && CommittedLog(s, q, r.applied, bound)
            && Marked(disk) <= r.applied
            && if r.pending == [] then r.log == disk.log
               else r.pending == [Purge(applied)] && r.log == r.applied == applied && |disk.log| < |applied|
  {
    hide Inv, LogSound, CommittedBy, ReignsSound, Intersecting, CommittedLog;
    MarkedFacts(s, q, disk, applied, bound);
    FoundLogs(s, q, disk, applied, bound);
    TargetFacts(s, q, disk, applied, bound);
    var done := Reapplied(disk, applied);
    var target := Target(disk, applied);
    if !IdLess(LastId(disk.log), target) {
      if done != [] {
        DoneIsThere(s, q, disk, done, bound);
      }
    } else if |Marked(disk)| >= |applied| {
      MarkIsBelow(s, disk);
    }
  }

  /** The log has the last applied log id, so it has everything applied. */
  lemma DoneIsThere(s: System, q: Quorums, disk: Disk, done: Log, bound: LeaderId)
    requires ReignsSound(s.reigns) && LogSound(s.reigns, disk.log) && CommittedLog(s, q, done, bound) && done != []
    requires HasAt(disk.log, LastId(done).value)
    ensures done <= disk.log
  {
    hide ReignsSound, LogSound, CommittedBy;
    LogsMatch(s.reigns, disk.log, done, |done| - 1);
    assert done[..|done|] == done;
  }

  /** A log that has the saved committed log id does not end below it. */
  lemma MarkIsBelow(s: System, disk: Disk)
    requires ReignsSound(s.reigns) && LogSound(s.reigns, disk.log)
    requires disk.mark.Some? ==> HasAt(disk.log, disk.mark.value)
    ensures !IdLess(LastId(disk.log), disk.mark)
  {
    hide ReignsSound, LogSound;
    if disk.mark.Some? {
      IdsFollowIndexes(s.reigns, disk.log, disk.mark.value.index, |disk.log| - 1);
    }
  }

  /**
    * A start that startup does not refuse finds everything applied in the log exactly if disk and state machine agree.
    */
  lemma HoldsAppliedExactlyWhenAgrees(s: System, q: Quorums, n: NodeId, kept: nat)
    requires Inv(s, q) && Intersecting(q) && n in s.nodes && kept <= |s.nodes[n].store.pending|
    requires Restarted(s.nodes[n], kept).Some?
    ensures var node := Restarted(s.nodes[n], kept).value;
            node.store.applied <= node.log <==> Agrees(Kept(s.nodes[n], kept), s.nodes[n].store.applied)
  {
    hide Inv, Intersecting, Kept, ImageSound, CommittedLog;
    var disk, applied, bound := Kept(s.nodes[n], kept), s.nodes[n].store.applied, s.nodes[n].vote.leader;
    FoundAfterCrash(s, q, n, kept);
    if Agrees(disk, applied) {
      RecoveredIs(s, q, disk, applied, bound);
    } else {
      TargetFacts(s, q, disk, applied, bound);
    }
  }

  // The invariant after a restart.

  /** A start keeps the invariant exactly if disk and state machine agree. */
  lemma RestartIsSafeExactlyWhenAgrees(s: System, q: Quorums, n: NodeId, kept: nat)
    requires Inv(s, q) && Intersecting(q) && n in s.nodes && kept <= |s.nodes[n].store.pending|
    requires Restarted(s.nodes[n], kept).Some?
    ensures Inv(WithNode(s, n, Restarted(s.nodes[n], kept).value), q) <==>
            Agrees(Kept(s.nodes[n], kept), s.nodes[n].store.applied)
  {
    hide Inv, Intersecting, Kept, Restarted, Agrees;
    var node := Restarted(s.nodes[n], kept).value;
    HoldsAppliedExactlyWhenAgrees(s, q, n, kept);
    if Agrees(Kept(s.nodes[n], kept), s.nodes[n].store.applied) {
      RestartKeepsInv(s, q, n, kept, node);
    }
    var t := WithNode(s, n, node);
    if Inv(t, q) {
      AppliedWithin(t, q, n);
    }
  }

  lemma AppliedWithin(s: System, q: Quorums, n: NodeId)
    requires Inv(s, q) && n in s.nodes
    ensures s.nodes[n].store.applied <= s.nodes[n].log && |s.nodes[n].store.applied| <= NextIndex(s.nodes[n].committed)
  {
    hide Inv, ImageSound, WriteSound, IoBacked, Kept, LogSound, CommittedBy;
    InvNode(s, q, n);
  }

  /** Entries that conflict with a longer committed log of the node's are lost to a leader it may have followed. */
  lemma ConflictIsLost(s: System, q: Quorums, n: NodeId, b: LeaderId, id: LogId, j: int, applied: Log)
    requires Inv(s, q) && Intersecting(q) && AppendReply(n, b, id) in s.net && n in s.nodes && !IsStill(s.nodes[n])
    requires IsOwn(s, b, j) && j <= id.index + 1 && j < |applied| && !(Prefix(s, b, j) <= applied)
    requires CommittedLog(s, q, applied, s.nodes[n].vote.leader)
    ensures LostUnder(s, b, j, s.nodes[n].vote, n) || Superseded(s, q, Prefix(s, b, j), s.nodes[n].vote, n)
  {
    hide Inv, CommittedLog, ReignsSound, LogSound, StoreSound, AcceptedSound, CommitSound, Chosen;
    InvReigns(s, q);
    InvNode(s, q, n);
    var vote := s.nodes[n].vote;
    var c, k := InChosen(s, q, applied, vote.leader);
    ChosenFacts(s, q, c, k);
    LeaderAfter(s, q, b, c, k, j, applied);
    if c.Less(vote.leader) || c.node != n {
      assert Followable(vote, n, c);
    } else {
      OwnOffice(s, q, n, b, id, j);
    }
  }

  lemma ChosenFacts(s: System, q: Quorums, c: LeaderId, k: int)
    requires Chosen(s, q, c, k)
    ensures c in s.reigns && c.term > 0 && 0 < k <= |s.reigns[c].log|
  {
  }

  /** A leader whose log conflicts with a committed one came before the leader that committed it. */
  lemma LeaderAfter(s: System, q: Quorums, b: LeaderId, c: LeaderId, k: int, j: int, applied: Log)
    requires Inv(s, q) && Intersecting(q) && Chosen(s, q, c, k) && c in s.reigns && 0 < k <= |s.reigns[c].log|
    requires applied <= Prefix(s, c, k) && IsOwn(s, b, j) && j < |applied| && !(Prefix(s, b, j) <= applied)
    ensures b.Less(c) && !(Prefix(s, b, j) <= s.reigns[c].log)
  {
    hide Inv, Chosen;
    if c.Less(b) {
      LaterLeadersHave(s, q, c, k, b);
    }
    assert applied == s.reigns[c].log[..|applied|];
  }

  /** A leader had what it confirmed before its own election, or an earlier leader lacked it. */
  lemma OwnOffice(s: System, q: Quorums, n: NodeId, b: LeaderId, id: LogId, j: int)
    requires Inv(s, q) && n in s.nodes && AppendReply(n, b, id) in s.net && IsOwn(s, b, j) && j <= id.index + 1
    requires var c := s.nodes[n].vote.leader;
             c in s.reigns && c.term > 0 && c.node == n && b.Less(c) && !(Prefix(s, b, j) <= s.reigns[c].log)
    ensures LostUnder(s, b, j, s.nodes[n].vote, n) || Superseded(s, q, Prefix(s, b, j), s.nodes[n].vote, n)
  {
    hide Inv, ReignsSound;
    var vote := s.nodes[n].vote;
    var c := vote.leader;
    InvOffice(s, q, c);
    InvGrantReply(s, q, n, c, b, id);
    InvReigns(s, q);
    StartWithin(s.reigns, c);
    assert HadOrLost(s, q, s.grants[Grant(n, c)], b, j, c);
    if LostBefore(s, b, j, c) {
      var d :| d in s.reigns && b.Less(d) && d.Less(c) && !(Prefix(s, b, j) <= s.reigns[d].log);
      assert Followable(vote, n, d);
    } else {
      var d, k :| Chosen(s, q, d, k) && d.Less(c) && |Prefix(s, b, j)| < k && Prefix(s, b, j) <= Prefix(s, d, k);
      assert Followable(vote, n, d);
    }
  }

  /** The node that a sound restart of node `n` makes. */
  ghost predicate Restarts(s: System, q: Quorums, n: NodeId, kept: nat, node: Node) {
    && n in s.nodes && kept <= |s.nodes[n].store.pending| && Restarted(s.nodes[n], kept) == Some(node)
    && Agrees(Kept(s.nodes[n], kept), s.nodes[n].store.applied)
  }

  /** Its fields, and why its log is what it should be. */
  lemma RestartedIs(s: System, q: Quorums, n: NodeId, kept: nat, node: Node)
    requires Inv(s, q) && Intersecting(q) && Restarts(s, q, n, kept, node)
    ensures var was, disk := s.nodes[n], Kept(s.nodes[n], kept);
            && node.id == was.id == n && node.vote.leader == was.vote.leader && VoteFollows(was.vote, node.vote, n)
            && disk.vote.leader == was.vote.leader && (was.vote.leader.node != n ==> node.vote == disk.vote == was.vote)
            && (was.vote.leader.node == n ==> !node.vote.committed)
            && node.candidate.None? && node.leader.None? && node.cluster.None?
            && node.accepted == node.store.flushed == IoId(disk.vote, None)
            && node.store.disk == disk && was.store.applied <= node.store.applied <= node.log
            && node.committed == LastId(node.store.applied)
            && CommittedLog(s, q, node.store.applied, was.vote.leader)
            && (disk.mark.Some? ==> NextIndex(disk.mark) <= |node.store.applied| && HasAt(node.log, disk.mark.value))
            && ImageSound(s, q, was, disk)
    ensures var was, disk := s.nodes[n], Kept(s.nodes[n], kept);
            if node.store.pending == [] then node.log == disk.log
            else
              && node.store.pending == [Purge(node.log)] && node.log == node.store.applied == was.store.applied
              && |disk.log| < |node.log| && Written(disk, Purge(node.log)) == disk.(log := node.log)
  {
    hide Inv, Intersecting, Kept, ImageSound, CommittedLog, Recovered, LogSound, CommittedBy, ReignsSound, WriteSound,
      IoBacked, AcceptedSound, CommitSound, CandidateSound, LeaderSound, OwnVoteSound, LogUnderVote, Agrees;
    var was, disk := s.nodes[n], Kept(s.nodes[n], kept);
    InvNode(s, q, n);
    NoVotePending(s, q, was, kept);
    FoundAfterCrash(s, q, n, kept);
    RecoveredIs(s, q, disk, was.store.applied, was.vote.leader);
    MarkStays(s, q, disk, was.store.applied, was.vote.leader, node.store.applied, node.log);
  }

  lemma MarkStays(s: System, q: Quorums, disk: Disk, applied: Log, bound: LeaderId, done: Log, log: Log)
    requires Inv(s, q) && Intersecting(q) && Found(s, q, disk, applied, bound)
    requires (disk.mark.Some? ==> disk.mark.value.index < |disk.log|) && Marked(disk) <= done <= log
    ensures disk.mark.Some? ==> NextIndex(disk.mark) <= |done| && HasAt(log, disk.mark.value)
  {
    hide Inv, CommittedLog;
    if disk.mark.Some? {
      assert log[disk.mark.value.index] == Marked(disk)[disk.mark.value.index];
    }
  }

  /** No crash can take from the restarted node what none could take before, or a leader lacks it. */
  lemma RestartedKeeps(s: System, q: Quorums, n: NodeId, kept: nat, node: Node, b: LeaderId, id: LogId, j: int)
    requires Inv(s, q) && Intersecting(q) && Restarts(s, q, n, kept, node)
    requires AppendReply(n, b, id) in s.net && IsOwn(s, b, j) && j <= id.index + 1
    requires Stays(s.nodes[n], 0, Prefix(s, b, j))
    ensures StaysOrLost(s, q, n, node, b, j)
  {
    hide Inv, Intersecting, Kept, Restarts, ImageSound, CommittedLog, Written, LostUnder, Superseded;
    KeptWithin(s, q, n, kept, node);
    var was, p := s.nodes[n], Prefix(s, b, j);
    RestartedIs(s, q, n, kept, node);
    if node.store.pending == [] || p <= node.log {
      assert p <= Kept(was, kept).log || p <= was.store.applied;
      RestartStays(node, p);
    } else {
      StillHasNoHole(s, q, n, kept, node);
      ConflictIsLost(s, q, n, b, id, j, was.store.applied);
      FollowsOn(s, q, b, j, p, was.vote, node.vote, n);
    }
  }

  lemma KeptWithin(s: System, q: Quorums, n: NodeId, kept: nat, node: Node)
    requires Restarts(s, q, n, kept, node)
    ensures n in s.nodes && kept <= |s.nodes[n].store.pending|
  {
  }

  lemma RestartStays(node: Node, p: Log)
    requires if node.store.pending == [] then node.log == node.store.disk.log
             else node.store.pending == [Purge(node.log)] && node.log == node.store.applied
    requires p <= node.log || p <= node.store.applied
    ensures Stays(node, 0, p)
  {
  }

  lemma FollowsOn(s: System, q: Quorums, b: LeaderId, j: int, p: Log, vote: Vote, later: Vote, n: NodeId)
    requires LostUnder(s, b, j, vote, n) || Superseded(s, q, p, vote, n)
    requires VoteFollows(vote, later, n)
    ensures LostUnder(s, b, j, later, n) || Superseded(s, q, p, later, n)
  {
    if LostUnder(s, b, j, vote, n) {
      var d :| d in s.reigns && b.Less(d) && Followable(vote, n, d) && !(Prefix(s, b, j) <= s.reigns[d].log);
      assert Followable(later, n, d);
    } else {
      SupersededStays(s, s, q, p, vote, later, n);
    }
  }

  /** A node that follows no leader loses nothing. */
  lemma StillHasNoHole(s: System, q: Quorums, n: NodeId, kept: nat, node: Node)
    requires Inv(s, q) && Intersecting(q) && Restarts(s, q, n, kept, node) && node.store.pending != []
    ensures !IsStill(s.nodes[n])
  {
    hide Inv, Intersecting, Kept, ImageSound, CommittedLog, Written, Restarts;
    KeptWithin(s, q, n, kept, node);
    RestartedIs(s, q, n, kept, node);
    StillImage(s, q, n, kept);
  }

  lemma StillImage(s: System, q: Quorums, n: NodeId, kept: nat)
    requires Inv(s, q) && n in s.nodes && kept <= |s.nodes[n].store.pending|
    ensures s.nodes[n].store.applied <= s.nodes[n].log
    ensures IsStill(s.nodes[n]) ==> Kept(s.nodes[n], kept).log == s.nodes[n].log
  {
    hide Inv, Kept, ImageSound, WriteSound, IoBacked;
    InvNode(s, q, n);
  }

  lemma RestartedReplies(s: System, t: System, q: Quorums, n: NodeId, kept: nat, node: Node)
    requires Inv(s, q) && Intersecting(q) && Restarts(s, q, n, kept, node) && t == WithNode(s, n, node)
    ensures RepliesOfKept(t, q, n)
  {
    hide Inv, Intersecting, Stays, Restarts, LostUnder, Superseded, ImageSound, CommittedLog, Kept, Written;
    KeptWithin(s, q, n, kept, node);
    RestartedIs(s, q, n, kept, node);
    forall b, id | AppendReply(n, b, id) in t.net
      ensures ReplySound(t, n, b, id) && KeepsConfirmed(t, q, n, b, id)
    {
      InvReply(s, q, n, b, id);
      forall j | j <= id.index + 1 && IsOwn(t, b, j)
        ensures StaysOrLost(t, q, n, node, b, j)
      {
        assert IsOwn(s, b, j) && StaysOrLost(s, q, n, s.nodes[n], b, j);
        if Stays(s.nodes[n], 0, Prefix(s, b, j)) {
          RestartedKeeps(s, q, n, kept, node, b, id, j);
        } else {
          FollowsOn(s, q, b, j, Prefix(s, b, j), s.nodes[n].vote, node.vote, n);
        }
        SameHistoryLost(s, t, q, n, node, b, j);
      }
    }
  }

  lemma SameHistoryLost(s: System, t: System, q: Quorums, n: NodeId, node: Node, b: LeaderId, j: int)
    requires t.reigns == s.reigns && t.net == s.net && IsOwn(s, b, j) && StaysOrLost(s, q, n, node, b, j)
    ensures IsOwn(t, b, j) && StaysOrLost(t, q, n, node, b, j)
  {
    hide Stays;
    var p := Prefix(s, b, j);
    assert Prefix(t, b, j) == p;
    if LostUnder(s, b, j, node.vote, n) {
      var d :| d in s.reigns && b.Less(d) && Followable(node.vote, n, d) && !(p <= s.reigns[d].log);
      assert !(Prefix(t, b, j) <= t.reigns[d].log);
    } else if Superseded(s, q, p, node.vote, n) {
      SupersededStays(s, t, q, p, node.vote, node.vote, n);
    }
  }

  lemma RestartedStore(s: System, q: Quorums, n: NodeId, kept: nat, node: Node)
    requires Inv(s, q) && Intersecting(q) && Restarts(s, q, n, kept, node)
    ensures StoreSound(s, q, node) && LogSound(s.reigns, node.log) && LogUnderVote(node.log, node.vote, n)
  {
    hide Inv, Intersecting, Restarts, LogSound, CommittedBy, Kept;
    KeptWithin(s, q, n, kept, node);
    RestartedIs(s, q, n, kept, node);
    var was, disk := s.nodes[n], node.store.disk;
    RestartImages(node);
    ImageRestarted(s, q, was, node, disk);
    if node.store.pending != [] {
      StillHasNoHole(s, q, n, kept, node);
      HoleSound(s, q, n, kept, node);
    }
  }

  lemma RestartImages(node: Node)
    requires node.store.pending == [] || node.store.pending == [Purge(node.log)]
    ensures Kept(node, 0) == node.store.disk
    ensures node.store.pending != [] ==> Kept(node, 1) == Written(node.store.disk, Purge(node.log))
  {
    assert node.store.pending[..0] == [];
    if node.store.pending != [] {
      assert node.store.pending[..1] == [] + [Purge(node.log)];
      ReplayedSnoc(node.store.disk, [], Purge(node.log));
    }
  }

  lemma ImageRestarted(s: System, q: Quorums, was: Node, node: Node, disk: Disk)
    requires ImageSound(s, q, was, disk) && node.id == was.id && node.vote.leader == was.vote.leader
    requires disk.mark.Some? ==> disk.mark.value.index < NextIndex(node.committed)
    ensures ImageSound(s, q, node, disk)
  {
  }

  /** The log that the state machine stands for. */
  lemma HoleSound(s: System, q: Quorums, n: NodeId, kept: nat, node: Node)
    requires Inv(s, q) && Intersecting(q) && Restarts(s, q, n, kept, node) && node.store.pending != []
    ensures ImageSound(s, q, node, node.store.disk.(log := node.log))
    ensures LogSound(s.reigns, node.log) && LogUnderVote(node.log, node.vote, n)
  {
    hide Inv, Intersecting, Restarts, LogSound, CommittedBy, Kept, StoreSound, AcceptedSound, CommitSound;
    KeptWithin(s, q, n, kept, node);
    RestartedIs(s, q, n, kept, node);
    InvNode(s, q, n);
    var was := s.nodes[n];
    PrefixSound(s.reigns, was.log, node.log) by { LastImage(s, q, was); }
    LastImage(s, q, was);
  }

  /** A crash and a start that finds the applied entries keep the invariant. */
  lemma RestartKeepsInv(s: System, q: Quorums, n: NodeId, kept: nat, node: Node)
    requires Inv(s, q) && Intersecting(q) && Restarts(s, q, n, kept, node)
    ensures Inv(WithNode(s, n, node), q)
  {
    hide Inv, Intersecting, Restarts, ReignsSound, RepliesOfKept, NewGrantsKept, NodeSound;
    KeptWithin(s, q, n, kept, node);
    var t := WithNode(s, n, node);
    RestartedReplies(s, t, q, n, kept, node);
    RestartedNode(s, t, q, n, kept, node);
    NoNewGrants(s, t, q, n);
    InvReigns(s, q);
    StepKeepsInv(s, t, q, n);
  }

  lemma RestartedNode(s: System, t: System, q: Quorums, n: NodeId, kept: nat, node: Node)
    requires Inv(s, q) && Intersecting(q) && Restarts(s, q, n, kept, node) && t == WithNode(s, n, node)
    ensures NodeSound(t, q, n) && OnlyNode(s, t, n)
  {
    hide Inv, Intersecting, Restarts, LogSound, CommittedBy, StoreSound, Kept, ImageSound, Written;
    KeptWithin(s, q, n, kept, node);
    RestartedIs(s, q, n, kept, node);
    RestartedStore(s, q, n, kept, node);
    InvNode(s, q, n);
    RestartedFirst(s, q, n, kept, node);
    SameHistory(s, t, q, node);
  }

  /** A node before its first vote keeps its first entry. */
  lemma RestartedFirst(s: System, q: Quorums, n: NodeId, kept: nat, node: Node)
    requires Inv(s, q) && Intersecting(q) && Restarts(s, q, n, kept, node)
    ensures IsStill(s.nodes[n]) ==> node.log == s.nodes[n].log
  {
    hide Inv, Intersecting, Restarts, LogSound, CommittedBy, ImageSound, Written, Kept;
    KeptWithin(s, q, n, kept, node);
    RestartedIs(s, q, n, kept, node);
    StillImage(s, q, n, kept);
    if node.store.pending != [] {
      StillHasNoHole(s, q, n, kept, node);
    }
  }
}
