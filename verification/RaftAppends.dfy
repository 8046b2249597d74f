/** Following a leader and learning of commits keep the invariant. */
module RaftAppends {
  import opened RaftTypes
  import opened RaftStorage
  import opened RaftEngine
  import opened RaftCluster
  import opened RaftInvariant
  import opened RaftGrowth
  import opened RaftImages
  import opened RaftSteps
  import opened RaftElections

  /** What node `n` may assume of a request of leader `d` that it does not refuse. */
  ghost predicate Follows(s: System, n: NodeId, d: LeaderId, prev: Option<LogId>, entries: Log) {
    && n in s.nodes && d in s.reigns && d.term > 0 && n != d.node
    && s.nodes[n].vote.AtMost(Vote(d, true))
    && (prev.Some? ==> IdInReign(s, d, prev.value))
    && NextIndex(prev) + |entries| <= |s.reigns[d].log|
    && entries == s.reigns[d].log[NextIndex(prev)..NextIndex(prev) + |entries|]
  }

  /** The node has a log id of the leader's log exactly as `HasLogId` says, and everything before it. */
  lemma HasIsTrue(s: System, q: Quorums, n: NodeId, d: LeaderId, id: LogId)
    requires Inv(s, q) && Intersecting(q) && n in s.nodes && d in s.reigns && Upto(s.nodes[n].vote.leader, d)
    requires IdInReign(s, d, id) && HasLogId(s.nodes[n], id)
    ensures id.index < |s.nodes[n].log| && s.nodes[n].log[..id.index + 1] == s.reigns[d].log[..id.index + 1]
  {
    hide Inv, ReignsSound, LogSound, CommittedBy, StoreSound;
    var node := s.nodes[n];
    InvNode(s, q, n);
    InvReigns(s, q);
    LogOfReignSound(s.reigns, d);
    if id.index < NextIndex(node.committed) {
      var c := node.committed.value;
      CommittedStays(s, s, q, c, node.vote.leader, d);
      LeaderHasCommitted(s, q, c, d);
      LogsMatch(s.reigns, node.log, s.reigns[d].log, c.index);
      assert node.log[..id.index + 1] == node.log[..c.index + 1][..id.index + 1];
      assert s.reigns[d].log[..id.index + 1] == s.reigns[d].log[..c.index + 1][..id.index + 1];
    } else {
      LogsMatch(s.reigns, node.log, s.reigns[d].log, id.index);
    }
  }

  lemma {:induction false} FirstConflictIs(s: System, q: Quorums, n: NodeId, d: LeaderId, node: Node, first: nat,
      entries: Log)
    requires Inv(s, q) && Intersecting(q) && n in s.nodes && d in s.reigns && Upto(s.nodes[n].vote.leader, d)
    requires node.log == s.nodes[n].log && node.committed == s.nodes[n].committed
    requires first + |entries| <= |s.reigns[d].log| && entries == s.reigns[d].log[first..first + |entries|]
    requires first <= |node.log| && node.log[..first] == s.reigns[d].log[..first]
    ensures var f := first + FirstConflict(node, first, entries);
            && f <= |node.log| && node.log[..f] == s.reigns[d].log[..f]
            && (f < first + |entries| ==> f == |node.log| || node.log[f] != s.reigns[d].log[f])
    decreases |entries|
  {
    hide Inv;
    if entries != [] {
      var id := LogId(entries[0].leader, first);
      if HasLogId(node, id) {
        assert HasLogId(s.nodes[n], id);
        HasIsTrue(s, q, n, d, id);
        assert entries[1..] == s.reigns[d].log[first + 1..first + 1 + |entries[1..]|];
        FirstConflictIs(s, q, n, d, node, first + 1, entries[1..]);
      }
    }
  }

  /** The log after a request that was not refused by vote: cut where it differs, or the leader's. */
  ghost predicate LogFollowed(s: System, n: NodeId, d: LeaderId, end: nat, ok: bool, log: Log)
    requires n in s.nodes && d in s.reigns
  {
    var was := s.nodes[n].log;
    if ok then
      && end <= |s.reigns[d].log| && s.reigns[d].log[..end] <= log
      && (log == was || (log == s.reigns[d].log[..end] && !(log <= was)))
    else
      && log <= was
      && (log == was || (|log| < |s.reigns[d].log| && was[|log|] != s.reigns[d].log[|log|]))
  }

  lemma ConsecutiveStart(s: System, q: Quorums, n: NodeId, d: LeaderId, prev: Option<LogId>, entries: Log)
    requires Inv(s, q) && Intersecting(q) && Follows(s, n, d, prev, entries)
    requires prev.Some? ==> HasLogId(s.nodes[n], prev.value)
    ensures var i := NextIndex(prev);
            i <= |s.nodes[n].log| && s.nodes[n].log[..i] == s.reigns[d].log[..i]
  {
    hide Inv;
    if prev.Some? {
      HasIsTrue(s, q, n, d, prev.value);
    }
  }

  lemma AppendedLog(node: Node, d: LeaderId, prev: Option<LogId>, entries: Log)
    ensures var i := NextIndex(prev);
            var f := FirstConflict(node, i, entries);
            i + f <= |node.log| ==>
              EntriesAppended(node, d, prev, entries).log ==
                if f < |entries| then node.log[..i + f] + entries[f..] else node.log
  {
    hide FirstConflict;
    var cut := NextIndex(prev) + FirstConflict(node, NextIndex(prev), entries);
    assert cut == |node.log| ==> node.log[..cut] == node.log;
  }

  lemma ConsecutiveLog(s: System, q: Quorums, n: NodeId, d: LeaderId, prev: Option<LogId>, entries: Log, node: Node)
    requires Inv(s, q) && Intersecting(q) && Follows(s, n, d, prev, entries)
    requires node.log == s.nodes[n].log && node.committed == s.nodes[n].committed
    requires prev.Some? ==> HasLogId(node, prev.value)
    ensures LogFollowed(s, n, d, NextIndex(prev) + |entries|, true, EntriesAppended(node, d, prev, entries).log)
  {
    hide Inv, FirstConflict, EntriesAppended, HasLogId, Intersecting;
    var i := NextIndex(prev);
    if prev.Some? {
      SameHas(node, s.nodes[n], prev.value);
    }
    ConsecutiveStart(s, q, n, d, prev, entries);
    FirstConflictIs(s, q, n, d, node, i, entries);
    AppendedLog(node, d, prev, entries);
    ReplacedLog(s.nodes[n].log, s.reigns[d].log, i, FirstConflict(node, i, entries), entries);
  }

  lemma SameHas(node: Node, other: Node, id: LogId)
    requires node.log == other.log && node.committed == other.committed
    ensures HasLogId(node, id) == HasLogId(other, id)
  {
  }

  lemma ReplacedLog(was: Log, lead: Log, i: nat, f: nat, entries: Log)
    requires i + |entries| <= |lead| && entries == lead[i..i + |entries|] && f <= |entries|
    requires i + f <= |was| && was[..i + f] == lead[..i + f]
    requires f < |entries| ==> i + f == |was| || was[i + f] != lead[i + f]
    ensures var end := i + |entries|;
            var log := if f < |entries| then was[..i + f] + entries[f..] else was;
            lead[..end] <= log && (log == was || (log == lead[..end] && !(log <= was)))
  {
    if f < |entries| {
      Spliced(was, lead, i, f, entries);
    } else {
      assert lead[..i + f] == was[..i + f];
    }
  }

  /** Up to a first difference the log is the leader's; from there the leader's entries replace it. */
  lemma Spliced(was: Log, lead: Log, i: nat, f: nat, entries: Log)
    requires i + |entries| <= |lead| && entries == lead[i..i + |entries|] && f < |entries|
    requires i + f <= |was| && was[..i + f] == lead[..i + f]
    requires i + f == |was| || was[i + f] != lead[i + f]
    ensures var end := i + |entries|;
            was[..i + f] + entries[f..] == lead[..end] && !(lead[..end] <= was)
  {
    assert entries[f..] == lead[i + f..i + |entries|];
    assert lead[..i + |entries|][i + f] == lead[i + f];
  }

  lemma ConflictingLog(s: System, q: Quorums, n: NodeId, d: LeaderId, prev: Option<LogId>, entries: Log, node: Node)
    requires Inv(s, q) && Follows(s, n, d, prev, entries)
    requires node.log == s.nodes[n].log && node.committed == s.nodes[n].committed
    requires prev.Some? && !HasLogId(node, prev.value)
    ensures LogFollowed(s, n, d, NextIndex(prev) + |entries|, false, Truncated(node, prev.value.index).log)
  {
    hide Inv;
  }

  /** What node and leader have in common stays. */
  lemma CommonStays(s: System, n: NodeId, d: LeaderId, end: nat, ok: bool, log: Log, common: Log)
    requires n in s.nodes && d in s.reigns && LogFollowed(s, n, d, end, ok, log)
    requires common <= s.nodes[n].log && common <= s.reigns[d].log
    ensures common <= log
  {
  }

  /** The log after the request is sound, and under the vote for the leader. */
  lemma FollowedLogSound(s: System, q: Quorums, n: NodeId, d: LeaderId, end: nat, ok: bool, log: Log)
    requires Inv(s, q) && n in s.nodes && d in s.reigns && Upto(s.nodes[n].vote.leader, d)
    requires LogFollowed(s, n, d, end, ok, log)
    ensures LogSound(s.reigns, log) && forall i :: 0 <= i < |log| ==> Upto(log[i].leader, d)
  {
    hide Inv, ReignsSound, StoreSound;
    InvNode(s, q, n);
    InvReigns(s, q);
    LogOfReignSound(s.reigns, d);
    var was := s.nodes[n].log;
    var whole := if log <= was then was else s.reigns[d].log;
    assert log <= whole && LogSound(s.reigns, whole);
    PrefixSound(s.reigns, whole, log);
    forall i | 0 <= i < |log|
      ensures Upto(log[i].leader, d)
    {
      if log <= was {
        assert log[i] == was[i];
        UptoTransitive(was[i].leader, s.nodes[n].vote.leader, d);
      } else {
        ReignUnder(s.reigns, d, i);
      }
    }
  }

  lemma ReignUnder(reigns: map<LeaderId, Reign>, d: LeaderId, i: nat)
    requires ReignsSound(reigns) && d in reigns && i < |reigns[d].log|
    ensures Upto(reigns[d].log[i].leader, d)
  {
    assert ReignSound(reigns, d);
  }

  lemma PrefixSound(reigns: map<LeaderId, Reign>, whole: Log, log: Log)
    requires LogSound(reigns, whole) && log <= whole
    ensures LogSound(reigns, log)
  {
    forall i | 0 <= i < |log|
      ensures EntrySound(reigns, log, i)
    {
      assert EntrySound(reigns, whole, i);
      assert log[..i + 1] == whole[..i + 1];
    }
  }

  /** The node once it adopted the leader's vote. */
  lemma VotedFacts(s: System, q: Quorums, n: NodeId, d: LeaderId)
    requires Inv(s, q) && n in s.nodes && d.term > 0 && n != d.node && s.nodes[n].vote.AtMost(Vote(d, true))
    ensures var was := s.nodes[n];
            var r := VoteUpdated(was, Vote(d, true));
            && r.Some?
            && r.value == was.(vote := Vote(d, true), accepted := r.value.accepted, candidate := None, leader := None,
                               store := r.value.store)
            && r.value.accepted.vote == Vote(d, true)
            && (r.value.accepted.last.Some? ==> r.value.accepted == was.accepted)
            && AcceptedSound(s, r.value)
    ensures Upto(s.nodes[n].vote.leader, d)
  {
    hide Inv, LogSound, CommitSound, StoreSound, VoteSaved;
    InvNode(s, q, n);
  }

  lemma VotedStore(s: System, q: Quorums, n: NodeId, d: LeaderId)
    requires Inv(s, q) && n in s.nodes && d.term > 0 && n != d.node && s.nodes[n].vote.AtMost(Vote(d, true))
    ensures var was := s.nodes[n];
            var r := VoteUpdated(was, Vote(d, true));
            && r.Some? && StoreSound(s, q, r.value) && StoreKeeps(was, r.value)
  {
    hide Inv, LogSound, CommitSound, AcceptedSound, StoreSound, StoreKeeps, VoteSaved;
    InvNode(s, q, n);
    VotedFacts(s, q, n, d);
    var was := s.nodes[n];
    var voted := VoteUpdated(was, Vote(d, true)).value;
    if was.vote.Less(Vote(d, true)) {
      FlushedUnder(s, q, was, d);
      VoteStored(s, q, was, voted, Vote(d, true));
    } else {
      StoreRaised(s, q, was, voted);
    }
  }

  /** A node that voted for a leader before its office confirmed nothing to it. */
  lemma FlushedUnder(s: System, q: Quorums, was: Node, d: LeaderId)
    requires StoreSound(s, q, was) && was.vote.Less(Vote(d, true)) && was.id != d.node
    ensures was.store.flushed.last.Some? ==> was.vote.leader.Less(d)
  {
    hide ImageSound, WriteSound, Kept, Stays;
  }

  // The node after a segment.

  lemma SegmentLog(s: System, q: Quorums, n: NodeId, d: LeaderId, prev: Option<LogId>, entries: Log)
    requires Inv(s, q) && Intersecting(q) && Follows(s, n, d, prev, entries)
    ensures var was := s.nodes[n];
            var r := SegmentReceived(was, d, prev, entries);
            && r.node == was.(vote := Vote(d, true), candidate := None, leader := None,
                              log := r.node.log, accepted := r.node.accepted, store := r.node.store)
            && LogFollowed(s, n, d, NextIndex(prev) + |entries|, r.ok, r.node.log)
  {
    hide Inv, FirstConflict, LogFollowed, AcceptedSound, LastOf;
    VotedFacts(s, q, n, d);
    var voted := VoteUpdated(s.nodes[n], Vote(d, true)).value;
    hide VoteUpdated;
    if prev.Some? && !HasLogId(voted, prev.value) {
      ConflictingLog(s, q, n, d, prev, entries, voted);
    } else {
      ConsecutiveLog(s, q, n, d, prev, entries, voted);
    }
  }

  // The storage after a segment.

  /**
    * Nothing that node and leader have in common can be lost in a crash that could not be lost before, unless it
    * is part of a longer committed log.
    */
  ghost predicate SharedKept(s: System, q: Quorums, d: LeaderId, was: Node, node: Node)
    requires d in s.reigns
  {
    forall p :: p <= s.reigns[d].log && Stays(was, 0, p) ==>
      Stays(node, 0, p) || Superseded(s, q, p, node.vote, node.id)
  }

  /** A follower of leader `d` whose committed entries the leader has. */
  ghost predicate Following(s: System, q: Quorums, node: Node, d: LeaderId) {
    && d in s.reigns && d.term > 0 && ReignsSound(s.reigns) && node.vote == Vote(d, true) && StoreSound(s, q, node)
    && NextIndex(node.committed) <= |node.log| && node.log[..NextIndex(node.committed)] <= s.reigns[d].log
    && LogSound(s.reigns, node.log)
  }

  lemma UnderLeader(s: System, log: Log, d: LeaderId, n: NodeId)
    requires forall i :: 0 <= i < |log| ==> Upto(log[i].leader, d)
    ensures LogUnderVote(log, Vote(d, true), n)
  {
  }

  /** One write of a follower that keeps what it shares with its leader. */
  lemma FollowerSubmits(s: System, q: Quorums, was: Node, node: Node, w: Write, d: LeaderId)
    requires Following(s, q, was, d) && d.node != was.id && Submits(s, q, was, node, w)
    ensures StoreSound(s, q, node) && SharedKept(s, q, d, was, node)
  {
    hide StoreSound, LogSound, ReignsSound, CommittedBy, Stays, KeepsShared, Kept, Written, Superseded;
    SubmitSound(s, q, was, node, w);
    forall p | p <= s.reigns[d].log && Stays(was, 0, p)
      ensures Stays(node, 0, p) || Superseded(s, q, p, node.vote, node.id)
    {
      StaysInLog(s, q, was, 0, p);
      SharedStays(s, q, was, s.reigns[d].log, node.log, p);
      if p <= node.log {
        StaysSubmitted(was, node, w, 0, p);
      }
    }
  }

  lemma CutStored(s: System, q: Quorums, was: Node, d: LeaderId, since: nat)
    requires Following(s, q, was, d) && d.node != was.id && NextIndex(was.committed) <= since < |was.log|
    requires KeepsShared(s, q, was, s.reigns[d].log, was.log[..since])
    ensures Following(s, q, Truncated(was, since), d) && SharedKept(s, q, d, was, Truncated(was, since))
  {
    hide StoreSound, LogSound, ReignsSound, CommittedBy, Stays, KeepsShared, SharedKept, Kept;
    var node := Truncated(was, since);
    var c := was.log[..NextIndex(was.committed)];
    LastImage(s, q, was);
    SavedImage(s, q, was);
    StoredVote(s, q, was);
    PrefixSound(s.reigns, was.log, node.log);
    assert node.log[..NextIndex(was.committed)] == c;
    FollowerSubmits(s, q, was, node, Truncate(since), d);
  }

  lemma ExtendedStored(s: System, q: Quorums, was: Node, node: Node, d: LeaderId, entries: Log, io: IoId)
    requires Following(s, q, was, d) && d.node != was.id && was.log + entries <= s.reigns[d].log && entries != []
    requires node == was.(log := was.log + entries, store := Submitted(was.store, Append(entries, io)))
    requires io == IoId(Vote(d, true), Some(IdAt(s.reigns[d].log, |node.log| - 1)))
    ensures StoreSound(s, q, node) && SharedKept(s, q, d, was, node)
  {
    hide StoreSound, LogSound, ReignsSound, CommittedBy, Stays, SharedKept, Kept;
    LastImage(s, q, was);
    StoredVote(s, q, was);
    LogOfReignSound(s.reigns, d);
    PrefixSound(s.reigns, s.reigns[d].log, node.log);
    forall i | 0 <= i < |node.log|
      ensures Upto(node.log[i].leader, d)
    {
      ReignUnder(s.reigns, d, i);
    }
    UnderLeader(s, node.log, d, was.id);
    assert Prefix(s, d, |node.log|) == node.log;
    AllShared(s, q, was, s.reigns[d].log, node.log);
    hide KeepsShared;
    FollowerSubmits(s, q, was, node, Append(entries, io), d);
  }

  lemma NotedStored(s: System, q: Quorums, was: Node, node: Node, d: LeaderId, io: IoId)
    requires Following(s, q, was, d) && d.node != was.id && node == was.(store := Submitted(was.store, Progress(io)))
    requires io.vote == Vote(d, true)
    requires io.last.Some? ==> IdInReign(s, d, io.last.value) && Prefix(s, d, io.last.value.index + 1) <= was.log
    ensures StoreSound(s, q, node) && SharedKept(s, q, d, was, node)
  {
    hide StoreSound, LogSound, ReignsSound, CommittedBy, Stays, SharedKept, Kept;
    LastImage(s, q, was);
    SavedImage(s, q, was);
    AllShared(s, q, was, s.reigns[d].log, node.log);
    hide KeepsShared;
    FollowerSubmits(s, q, was, node, Progress(io), d);
  }

  /** The node that adopted the leader's vote follows it. */
  lemma VotedFollows(s: System, q: Quorums, n: NodeId, d: LeaderId)
    requires Inv(s, q) && Intersecting(q) && n in s.nodes && d in s.reigns && d.term > 0 && n != d.node
    requires s.nodes[n].vote.AtMost(Vote(d, true))
    ensures var voted := VoteUpdated(s.nodes[n], Vote(d, true)).value;
            Following(s, q, voted, d) && StoreKeeps(s.nodes[n], voted)
  {
    hide Inv, LogSound, ReignsSound, CommittedBy, StoreSound, StoreKeeps, VoteUpdated, AcceptedSound;
    VotedFacts(s, q, n, d);
    VotedStore(s, q, n, d);
    InvNode(s, q, n);
    InvReigns(s, q);
    CommittedInLeader(s, q, n, d);
  }

  /** The leader has what the node knows to be committed. */
  lemma CommittedInLeader(s: System, q: Quorums, n: NodeId, d: LeaderId)
    requires Inv(s, q) && Intersecting(q) && n in s.nodes && d in s.reigns && Upto(s.nodes[n].vote.leader, d)
    ensures var c := NextIndex(s.nodes[n].committed);
            c <= |s.nodes[n].log| && s.nodes[n].log[..c] <= s.reigns[d].log
  {
    hide Inv, LogSound, ReignsSound, CommittedBy, StoreSound, AcceptedSound;
    InvNode(s, q, n);
    if s.nodes[n].committed.Some? {
      var c := s.nodes[n].committed.value;
      CommittedStays(s, s, q, c, s.nodes[n].vote.leader, d);
      LeaderHasCommitted(s, q, c, d);
      HasIsTrue(s, q, n, d, c);
    }
  }

  lemma ConflictStored(s: System, q: Quorums, n: NodeId, d: LeaderId, prev: Option<LogId>, entries: Log, voted: Node)
    requires Inv(s, q) && Follows(s, n, d, prev, entries) && Following(s, q, voted, d) && voted.id == n
    requires voted.log == s.nodes[n].log && voted.committed == s.nodes[n].committed
    requires prev.Some? && !HasLogId(voted, prev.value)
    ensures var node := Truncated(voted, prev.value.index);
            StoreSound(s, q, node) && SharedKept(s, q, d, voted, node)
  {
    hide Inv, StoreSound, LogSound, ReignsSound, Stays, SharedKept;
    var since := prev.value.index;
    if since < |voted.log| {
      CutShares(s, q, voted, s.reigns[d].log, since);
      CutStored(s, q, voted, d, since);
    } else {
      SharedSame(s, q, d, voted, Truncated(voted, since));
    }
  }

  lemma SharedSame(s: System, q: Quorums, d: LeaderId, was: Node, node: Node)
    requires d in s.reigns && node.store == was.store
    ensures SharedKept(s, q, d, was, node)
  {
    hide Superseded;
    SameImages(was, node);
  }

  /** A log cut where it differs from the leader's, or beyond the leader's end, keeps what they share. */
  lemma CutShares(s: System, q: Quorums, was: Node, lead: Log, since: nat)
    requires since < |was.log| && (since >= |lead| || was.log[since] != lead[since])
    ensures KeepsShared(s, q, was, lead, was.log[..since])
    ensures forall c :: 0 <= c <= |was.log| && was.log[..c] <= lead ==> c <= since
  {
    hide Superseded;
    forall k | 0 <= k <= |was.log| && k <= |lead| && was.log[..k] == lead[..k]
      ensures k <= since && was.log[..since][..k] == was.log[..k]
    {
      if since < k {
        SameUpto(was.log, lead, k, since);
      }
    }
    assert forall c :: 0 <= c <= |was.log| && was.log[..c] <= lead ==> c <= since;
  }

  lemma SameUpto(a: Log, b: Log, k: nat, i: nat)
    requires i < k <= |a| && k <= |b| && a[..k] == b[..k]
    ensures a[i] == b[i]
  {
    assert a[..k][i] == b[..k][i];
  }

  lemma AppendStored(s: System, q: Quorums, n: NodeId, d: LeaderId, prev: Option<LogId>, entries: Log, voted: Node)
    requires Inv(s, q) && Intersecting(q) && Follows(s, n, d, prev, entries) && Following(s, q, voted, d)
             && voted.id == n
    requires voted.log == s.nodes[n].log && voted.committed == s.nodes[n].committed
    requires prev.Some? ==> HasLogId(voted, prev.value)
    ensures var node := EntriesAppended(voted, d, prev, entries);
            StoreSound(s, q, node) && SharedKept(s, q, d, voted, node)
  {
    hide Inv, StoreSound, LogSound, ReignsSound, Stays, SharedKept, FirstConflict, LastOf, HasLogId, Intersecting;
    var i := NextIndex(prev);
    if prev.Some? {
      SameHas(voted, s.nodes[n], prev.value);
    }
    ConsecutiveStart(s, q, n, d, prev, entries);
    FirstConflictIs(s, q, n, d, voted, i, entries);
    var f := FirstConflict(voted, i, entries);
    var io := IoId(Vote(d, true), if IdLess(LastOf(prev, entries), prev) then prev else LastOf(prev, entries));
    var noted := voted.(accepted := Accepted(voted.accepted, io));
    NotedFollows(s, q, d, voted, noted);
    if f < |entries| {
      ReplacedStored(s, q, n, d, prev, entries, noted, f);
      SharedChain(s, q, d, voted, noted, EntriesAppended(voted, d, prev, entries));
    } else {
      GreatestOfRequest(s, n, d, prev, entries);
      ReachedStored(s, q, d, i + |entries|, io, voted, noted);
      SharedSame(s, q, d, voted, noted);
    }
  }

  lemma NotedFollows(s: System, q: Quorums, d: LeaderId, voted: Node, noted: Node)
    requires Following(s, q, voted, d) && noted == voted.(accepted := noted.accepted)
    ensures Following(s, q, noted, d) && SharedKept(s, q, d, voted, noted)
  {
    hide StoreSound, LogSound, ReignsSound, StoreKeeps;
    StoreRaised(s, q, voted, noted);
    SharedSame(s, q, d, voted, noted);
  }

  lemma SharedChain(s: System, q: Quorums, d: LeaderId, a: Node, b: Node, c: Node)
    requires d in s.reigns && SharedKept(s, q, d, a, b) && SharedKept(s, q, d, b, c) && c.vote == b.vote && c.id == b.id
    ensures SharedKept(s, q, d, a, c)
  {
    hide Stays, Superseded;
  }

  /** The greatest log id of a request is the leader's, within the request. */
  lemma GreatestOfRequest(s: System, n: NodeId, d: LeaderId, prev: Option<LogId>, entries: Log)
    requires Follows(s, n, d, prev, entries)
    ensures var last := LastOf(prev, entries);
            var greatest := if IdLess(last, prev) then prev else last;
            greatest.Some? ==>
              IdInReign(s, d, greatest.value) && greatest.value.index + 1 <= NextIndex(prev) + |entries|
  {
    var last := LastOf(prev, entries);
    if last.Some? {
      LastOfRequest(s, n, d, prev, entries);
    }
    hide LastOf;
  }

  /** Nothing to write: the log has the entries up to `end` already. */
  lemma ReachedStored(s: System, q: Quorums, d: LeaderId, end: nat, io: IoId, voted: Node, noted: Node)
    requires Following(s, q, voted, d) && Following(s, q, noted, d) && d.node != voted.id
    requires noted == voted.(accepted := noted.accepted)
    requires io.vote == Vote(d, true)
             && (io.last.Some? ==> IdInReign(s, d, io.last.value) && io.last.value.index + 1 <= end)
    requires end <= |voted.log| && end <= |s.reigns[d].log| && voted.log[..end] == s.reigns[d].log[..end]
    ensures var node := if noted.accepted == voted.accepted then noted
            else noted.(store := Submitted(voted.store, Progress(io)));
            StoreSound(s, q, node) && SharedKept(s, q, d, voted, node)
  {
    hide StoreSound, LogSound, ReignsSound, Stays, SharedKept;
    SharedSame(s, q, d, voted, noted);
    if noted.accepted != voted.accepted {
      var node := noted.(store := Submitted(noted.store, Progress(io)));
      if io.last.Some? {
        assert Prefix(s, d, io.last.value.index + 1) == voted.log[..end][..io.last.value.index + 1];
      }
      NotedStored(s, q, noted, node, d, io);
      SharedChain(s, q, d, voted, noted, node);
    }
  }

  lemma CutAtConflict(s: System, q: Quorums, d: LeaderId, noted: Node, c: nat)
    requires Following(s, q, noted, d) && d.node != noted.id && c <= |noted.log| && c <= |s.reigns[d].log|
    requires noted.log[..c] == s.reigns[d].log[..c]
    requires c == |noted.log| || c == |s.reigns[d].log| || noted.log[c] != s.reigns[d].log[c]
    ensures var cut := Truncated(noted, c);
            Following(s, q, cut, d) && SharedKept(s, q, d, noted, cut) && cut.log == s.reigns[d].log[..c]
  {
    hide StoreSound, LogSound, ReignsSound, Stays, SharedKept, KeepsShared;
    if c < |noted.log| {
      CutShares(s, q, noted, s.reigns[d].log, c);
      CutStored(s, q, noted, d, c);
    } else {
      SharedSame(s, q, d, noted, Truncated(noted, c));
    }
  }

  lemma CutFields(node: Node, c: nat)
    ensures var cut := Truncated(node, c); cut.id == node.id && cut.vote == node.vote
  {
  }

  lemma RestOfRequest(s: System, n: NodeId, d: LeaderId, prev: Option<LogId>, entries: Log, f: nat)
    requires Follows(s, n, d, prev, entries) && f < |entries|
    ensures var i, end, lead := NextIndex(prev), NextIndex(prev) + |entries|, s.reigns[d].log;
            && end <= |lead| && lead[..i + f] + entries[f..] == lead[..end]
            && LastOf(prev, entries) == Some(IdAt(lead, end - 1))
  {
    assert entries[f..] == s.reigns[d].log[NextIndex(prev) + f..NextIndex(prev) + |entries|];
  }

  /** The leader's entries replace the log from the first that differs. */
  lemma ReplacedStored(s: System, q: Quorums, n: NodeId, d: LeaderId, prev: Option<LogId>, entries: Log, noted: Node,
      f: nat)
    requires Follows(s, n, d, prev, entries) && Following(s, q, noted, d) && noted.id == n && f < |entries|
    requires var c := NextIndex(prev) + f;
             && c <= |noted.log| && noted.log[..c] == s.reigns[d].log[..c]
             && (c == |noted.log| || noted.log[c] != s.reigns[d].log[c])
    ensures var cut := Truncated(noted, NextIndex(prev) + f);
            var node := cut.(log := cut.log + entries[f..],
                             store := Submitted(cut.store,
                               Append(entries[f..], IoId(Vote(d, true), LastOf(prev, entries)))));
            StoreSound(s, q, node) && SharedKept(s, q, d, noted, node)
  {
    hide StoreSound, LogSound, ReignsSound, Stays, SharedKept, Following, Truncated, LastOf;
    var c := NextIndex(prev) + f;
    var cut := Truncated(noted, c);
    CutAtConflict(s, q, d, noted, c);
    CutFields(noted, c);
    RestOfRequest(s, n, d, prev, entries, f);
    var io := IoId(Vote(d, true), LastOf(prev, entries));
    var node := cut.(log := cut.log + entries[f..], store := Submitted(cut.store, Append(entries[f..], io)));
    ExtendedStored(s, q, cut, node, d, entries[f..], io);
    SharedChain(s, q, d, noted, cut, node);
  }

  lemma SegmentStored(s: System, q: Quorums, n: NodeId, d: LeaderId, prev: Option<LogId>, entries: Log)
    requires Inv(s, q) && Intersecting(q) && Follows(s, n, d, prev, entries)
    ensures var node := SegmentReceived(s.nodes[n], d, prev, entries).node;
            StoreSound(s, q, node) && SharedKept(s, q, d, s.nodes[n], node)
  {
    hide Inv, StoreSound, LogSound, ReignsSound, Stays, SharedKept, EntriesAppended, Truncated, Intersecting, HasLogId;
    InvNode(s, q, n);
    VotedFacts(s, q, n, d);
    VotedFollows(s, q, n, d);
    var was := s.nodes[n];
    var voted := VoteUpdated(was, Vote(d, true)).value;
    hide VoteUpdated;
    KeptIsShared(s, q, d, was, voted);
    SegmentLog(s, q, n, d, prev, entries);
    if prev.Some? && !HasLogId(voted, prev.value) {
      ConflictStored(s, q, n, d, prev, entries, voted);
    } else {
      AppendStored(s, q, n, d, prev, entries, voted);
    }
    SharedChain(s, q, d, was, voted, SegmentReceived(was, d, prev, entries).node);
  }

  lemma KeptIsShared(s: System, q: Quorums, d: LeaderId, was: Node, node: Node)
    requires d in s.reigns && StoreKeeps(was, node)
    ensures SharedKept(s, q, d, was, node)
  {
    hide Stays, Superseded;
  }

  /** The last log id of the request is the leader's. */
  lemma LastOfRequest(s: System, n: NodeId, d: LeaderId, prev: Option<LogId>, entries: Log)
    requires Follows(s, n, d, prev, entries) && LastOf(prev, entries).Some?
    ensures var id := LastOf(prev, entries).value;
            IdInReign(s, d, id) && id.index + 1 == NextIndex(prev) + |entries|
  {
  }

  /** What a node accepted from a leader its log has, also after the next request. */
  lemma AcceptedStaysFollowed(s: System, n: NodeId, d: LeaderId, end: nat, ok: bool, was: Node, node: Node)
    requires n in s.nodes && d in s.reigns && AcceptedSound(s, was) && was.log == s.nodes[n].log
    requires LogFollowed(s, n, d, end, ok, node.log) && node.vote == was.vote == Vote(d, true)
             && node.accepted == was.accepted
    requires was.accepted.vote == Vote(d, true) && node.id == was.id
    ensures AcceptedSound(s, node)
  {
    if was.accepted.last.Some? {
      var id := was.accepted.last.value;
      CommonStays(s, n, d, end, ok, node.log, Prefix(s, d, id.index + 1));
    }
  }

  lemma SegmentAccepted(s: System, q: Quorums, n: NodeId, d: LeaderId, prev: Option<LogId>, entries: Log)
    requires Inv(s, q) && Intersecting(q) && Follows(s, n, d, prev, entries)
    ensures AcceptedSound(s, SegmentReceived(s.nodes[n], d, prev, entries).node)
  {
    hide Inv, FirstConflict, LogFollowed, AcceptedSound, LastOf, HasLogId, LogSound;
    InvNode(s, q, n);
    VotedFacts(s, q, n, d);
    SegmentLog(s, q, n, d, prev, entries);
    var was := s.nodes[n];
    var voted := VoteUpdated(was, Vote(d, true)).value;
    hide VoteUpdated;
    var r := SegmentReceived(was, d, prev, entries);
    var end := NextIndex(prev) + |entries|;
    var kept := r.node.(accepted := voted.accepted);
    AcceptedStaysFollowed(s, n, d, end, r.ok, voted, kept);
    if r.ok {
      RequestAccepted(s, n, d, prev, entries, kept, r.node);
    } else {
      assert r.node == kept;
    }
  }

  lemma RequestAccepted(s: System, n: NodeId, d: LeaderId, prev: Option<LogId>, entries: Log, kept: Node, node: Node)
    requires Follows(s, n, d, prev, entries) && AcceptedSound(s, kept) && kept.vote == Vote(d, true)
    requires LogFollowed(s, n, d, NextIndex(prev) + |entries|, true, kept.log)
    requires var last := LastOf(prev, entries);
             var greatest := if IdLess(last, prev) then prev else last;
             node == kept.(accepted := Accepted(kept.accepted, IoId(Vote(d, true), greatest)))
    ensures AcceptedSound(s, node)
  {
    var last := LastOf(prev, entries);
    var greatest := if IdLess(last, prev) then prev else last;
    if last.Some? {
      LastOfRequest(s, n, d, prev, entries);
    }
    hide LastOf;
    if greatest.Some? {
      var id := greatest.value;
      assert IdInReign(s, d, id) && id.index + 1 <= NextIndex(prev) + |entries|;
      assert Prefix(s, d, id.index + 1) <= kept.log;
    }
  }

  /** Committed entries survive the request: the leader has them. */
  lemma SegmentCommit(s: System, q: Quorums, n: NodeId, d: LeaderId, prev: Option<LogId>, entries: Log)
    requires Inv(s, q) && Intersecting(q) && Follows(s, n, d, prev, entries)
    ensures CommitSound(s, q, SegmentReceived(s.nodes[n], d, prev, entries).node)
  {
    hide Inv, SegmentReceived, LogFollowed, CommittedBy, LogSound, AcceptedSound;
    InvNode(s, q, n);
    SegmentLog(s, q, n, d, prev, entries);
    var was := s.nodes[n];
    var r := SegmentReceived(was, d, prev, entries);
    assert Upto(was.vote.leader, d);
    if was.committed.Some? {
      var c := was.committed.value;
      CommittedStays(s, s, q, c, was.vote.leader, d);
      LeaderHasCommitted(s, q, c, d);
      HasIsTrue(s, q, n, d, c);
      CommonStays(s, n, d, NextIndex(prev) + |entries|, r.ok, r.node.log, was.log[..c.index + 1]);
      assert r.node.log[c.index] == was.log[..c.index + 1][c.index];
    }
    if was.cluster.Some? {
      UptoTransitive(was.cluster.value.leader, was.vote.leader, d);
    }
  }

  // Learning of commits.

  /** A committed log id that the leader followed has is committed, and so is any before it. */
  lemma EarlierIsCommitted(s: System, q: Quorums, d: LeaderId, id: LogId, bound: LeaderId, earlier: LogId)
    requires Inv(s, q) && Intersecting(q) && d in s.reigns && CommittedBy(s, q, id, bound) && Upto(bound, d)
    requires IdInReign(s, d, earlier) && earlier.index <= id.index
    ensures CommittedBy(s, q, earlier, d)
  {
    hide Inv, ReignsSound, LogSound;
    var b, k :| Chosen(s, q, b, k) && Upto(b, bound) && id.index < k && IdInReign(s, b, id);
    UptoTransitive(b, bound, d);
    if b != d {
      LaterLeadersHave(s, q, b, k, d);
      assert s.reigns[d].log[earlier.index] == Prefix(s, b, k)[earlier.index] == s.reigns[b].log[earlier.index];
    }
    assert IdInReign(s, b, earlier);
  }

  /** What a node may apply it has, and it is committed. */
  lemma LocalCommitSound(s: System, q: Quorums, node: Node, cluster: CommitMark)
    requires Inv(s, q) && Intersecting(q) && AcceptedSound(s, node) && LogSound(s.reigns, node.log)
    requires cluster.id.Some? ==> CommittedBy(s, q, cluster.id.value, cluster.leader)
    ensures var local := LocalCommit(node.accepted, cluster);
            local.Some? ==>
              && local.value.index < |node.log| && IdAt(node.log, local.value.index) == local.value
              && CommittedBy(s, q, local.value, node.vote.leader)
  {
    hide Inv, ReignsSound, LogSound, CommittedBy;
    var local := LocalCommit(node.accepted, cluster);
    if local.Some? {
      var d := node.accepted.vote.leader;
      var a, c := node.accepted.last.value, cluster.id.value;
      assert d == node.vote.leader && Upto(cluster.leader, d);
      CommittedStays(s, s, q, c, cluster.leader, d);
      LeaderHasCommitted(s, q, c, d);
      InvReigns(s, q);
      LogOfReignSound(s.reigns, d);
      IdsFollowIndexes(s.reigns, s.reigns[d].log, a.index, c.index);
      IdsFollowIndexes(s.reigns, s.reigns[d].log, c.index, a.index);
      assert local.value.index <= a.index && local.value.index <= c.index;
      EarlierIsCommitted(s, q, d, c, cluster.leader, local.value);
      assert node.log[local.value.index] == Prefix(s, d, a.index + 1)[local.value.index];
    }
  }

  /** Of two log ids of a log the greater has the greater index. */
  lemma GreaterIsLater(s: System, log: Log, a: LogId, b: LogId)
    requires ReignsSound(s.reigns) && LogSound(s.reigns, log) && HasAt(log, a) && HasAt(log, b) && a.Less(b)
    ensures a.index < b.index
  {
    hide ReignsSound, LogSound;
    IdsFollowIndexes(s.reigns, log, b.index, a.index);
  }

  lemma LearnedCommit(s: System, q: Quorums, node: Node, mark: CommitMark)
    requires Inv(s, q) && Intersecting(q) && AcceptedSound(s, node) && LogSound(s.reigns, node.log)
             && CommitSound(s, q, node)
    requires Upto(mark.leader, node.vote.leader)
    requires mark.id.Some? ==> CommittedBy(s, q, mark.id.value, mark.leader)
    ensures CommitSound(s, q, CommitLearned(node, mark))
    ensures AcceptedSound(s, CommitLearned(node, mark))
    ensures CommitLearned(node, mark) ==
            node.(cluster := CommitLearned(node, mark).cluster, committed := CommitLearned(node, mark).committed)
    ensures NextIndex(node.committed) <= NextIndex(CommitLearned(node, mark).committed)
  {
    hide Inv, LogSound, LocalCommit, CommittedBy, ReignsSound;
    var cluster := ClusterCommitted(node.cluster, mark);
    LocalCommitSound(s, q, node, cluster);
    var local := LocalCommit(node.accepted, cluster);
    if node.committed.Some? && IdLess(node.committed, local) {
      InvReigns(s, q);
      GreaterIsLater(s, node.log, node.committed.value, local.value);
    }
  }

  // The step.

  /** The node keeps what it confirmed, or its new leader lacks it. */
  lemma FollowerReplies(s: System, t: System, q: Quorums, n: NodeId, d: LeaderId, b: LeaderId, id: LogId)
    requires Inv(s, q) && n in s.nodes && d in s.reigns && d.node != n && s.nodes[n].vote.AtMost(Vote(d, true))
    requires Grows(s, t) && t.reigns == s.reigns && t.nodes[n].vote == Vote(d, true) && t.nodes[n].id == n
    requires SharedKept(s, q, d, s.nodes[n], t.nodes[n])
    requires AppendReply(n, b, id) in s.net
    ensures ReplySound(t, n, b, id) && KeepsConfirmed(t, q, n, b, id)
  {
    hide Inv, ReignsSound, Stays, Superseded;
    InvReply(s, q, n, b, id);
    InvReigns(s, q);
    ReplyStaysSound(s, t, n, b, id);
    forall j | j <= id.index + 1 && IsOwn(t, b, j)
      ensures StaysOrLost(t, q, n, t.nodes[n], b, j)
    {
      assert StaysOrLost(s, q, n, s.nodes[n], b, j);
      var p := Prefix(s, b, j);
      assert Prefix(t, b, j) == p;
      if LostUnder(s, b, j, s.nodes[n].vote, n) {
        LostUnderStays(s, t, b, j, s.nodes[n].vote, Vote(d, true), n);
      } else if Superseded(s, q, p, s.nodes[n].vote, n) {
        SupersededStays(s, t, q, p, s.nodes[n].vote, Vote(d, true), n);
      } else if Superseded(s, q, p, Vote(d, true), n) {
        SupersededStays(s, t, q, p, Vote(d, true), Vote(d, true), n);
      } else if !(Prefix(s, b, j) <= s.reigns[d].log) {
        assert b.Less(d) by {
          UptoTransitive(b, s.nodes[n].vote.leader, d);
        }
        assert Followable(Vote(d, true), n, d) && !(Prefix(t, b, j) <= t.reigns[d].log);
      }
    }
  }

  lemma FollowerNode(s: System, t: System, q: Quorums, n: NodeId, d: LeaderId, prev: Option<LogId>, entries: Log,
      commit: Option<LogId>)
    requires Inv(s, q) && Intersecting(q) && Follows(s, n, d, prev, entries)
             && AppendRequest(d, prev, entries, commit) in s.net
    requires t == WithNode(s, n, AppendReceived(s.nodes[n], d, prev, entries, commit).node)
    ensures NodeSound(t, q, n)
    ensures t.nodes[n].vote == Vote(d, true) && SharedKept(s, q, d, s.nodes[n], t.nodes[n])
    ensures var r := SegmentReceived(s.nodes[n], d, prev, entries);
            t.nodes[n].log == r.node.log && LogFollowed(s, n, d, NextIndex(prev) + |entries|, r.ok, r.node.log)
  {
    hide Inv, SegmentReceived, LogSound, LogFollowed, AcceptedSound, CommitSound, CommitLearned, CommittedBy,
      StoreSound, SharedKept, StoreKeeps;
    InvMessage(s, q, AppendRequest(d, prev, entries, commit));
    InvNode(s, q, n);
    InvOffice(s, q, d);
    SegmentLog(s, q, n, d, prev, entries);
    SegmentAccepted(s, q, n, d, prev, entries);
    SegmentCommit(s, q, n, d, prev, entries);
    SegmentStored(s, q, n, d, prev, entries);
    var r := SegmentReceived(s.nodes[n], d, prev, entries);
    FollowedLogSound(s, q, n, d, NextIndex(prev) + |entries|, r.ok, r.node.log);
    LearnedCommit(s, q, r.node, CommitMark(d, commit));
    StoreRaised(s, q, r.node, t.nodes[n]);
    SharedSame(s, q, d, r.node, t.nodes[n]);
    SharedChain(s, q, d, s.nodes[n], r.node, t.nodes[n]);
    SameHistory(s, t, q, t.nodes[n]);
  }

  /** The request of an older leader changes nothing but what is known to be committed. */
  lemma StaleAppendKeepsInv(s: System, q: Quorums, n: NodeId, d: LeaderId, prev: Option<LogId>, entries: Log,
      commit: Option<LogId>)
    requires Inv(s, q) && Intersecting(q) && n in s.nodes && n != d.node
             && AppendRequest(d, prev, entries, commit) in s.net
    requires !s.nodes[n].vote.AtMost(Vote(d, true))
    ensures Inv(AppendTaken(s, n, d, prev, entries, commit), q)
  {
    hide Inv, LogSound, AcceptedSound, CommitSound, CommitLearned, CommittedBy, StoreSound, StoreKeeps;
    InvMessage(s, q, AppendRequest(d, prev, entries, commit));
    InvNode(s, q, n);
    var was := s.nodes[n];
    LearnedCommit(s, q, was, CommitMark(d, commit));
    var node := CommitLearned(was, CommitMark(d, commit));
    var t := WithNode(s, n, node);
    assert AppendTaken(s, n, d, prev, entries, commit) == t;
    StoreRaised(s, q, was, node);
    NodeBecomesSound(s, t, q, n, node);
    hide NodeSound;
    LocalKeepsInv(s, t, q, n);
  }

  lemma AppendKeepsInv(s: System, q: Quorums, n: NodeId, d: LeaderId, prev: Option<LogId>, entries: Log,
      commit: Option<LogId>)
    requires Inv(s, q) && Intersecting(q) && n in s.nodes && n != d.node
             && AppendRequest(d, prev, entries, commit) in s.net
    ensures Inv(AppendTaken(s, n, d, prev, entries, commit), q)
  {
    hide Inv, AppendTaken, CommittedBy;
    InvMessage(s, q, AppendRequest(d, prev, entries, commit));
    if !s.nodes[n].vote.AtMost(Vote(d, true)) {
      StaleAppendKeepsInv(s, q, n, d, prev, entries, commit);
    } else {
      FreshAppendKeepsInv(s, q, n, d, prev, entries, commit);
    }
  }

  /** Node `n` followed leader `d`, and may have sent `news`, none of it a confirmation. */
  ghost predicate Followed(s: System, t: System, q: Quorums, n: NodeId, d: LeaderId, news: set<Message>) {
    && n in s.nodes && d in s.reigns && d.node != n && s.nodes[n].vote.AtMost(Vote(d, true))
    && n in t.nodes && t.nodes[n].vote == Vote(d, true) && t.nodes[n].id == n
    && SharedKept(s, q, d, s.nodes[n], t.nodes[n])
    && t == WithNode(s, n, t.nodes[n]).(net := s.net + news)
    && forall m :: m in news ==> !m.AppendReply? && MessageSound(t, q, m)
  }

  lemma FollowedGrows(s: System, t: System, q: Quorums, n: NodeId, d: LeaderId, news: set<Message>)
    requires Followed(s, t, q, n, d, news)
    ensures Grows(s, t) && OnlyNode(s, t, n)
    ensures forall b, id :: AppendReply(n, b, id) in t.net ==> AppendReply(n, b, id) in s.net
  {
    hide SharedKept, MessageSound;
  }

  lemma FollowedReplies(s: System, t: System, q: Quorums, n: NodeId, d: LeaderId, news: set<Message>)
    requires Inv(s, q) && Followed(s, t, q, n, d, news)
    ensures RepliesOfKept(t, q, n) && NewGrantsKept(s, t, q, n)
  {
    hide Inv, SharedKept, ReplySound, KeepsConfirmed, MessageSound;
    FollowedGrows(s, t, q, n, d, news);
    forall b, id | AppendReply(n, b, id) in t.net
      ensures ReplySound(t, n, b, id) && KeepsConfirmed(t, q, n, b, id)
    {
      FollowerReplies(s, t, q, n, d, b, id);
    }
    NoNewGrants(s, t, q, n);
  }

  lemma FollowedKeepsInv(s: System, t: System, q: Quorums, n: NodeId, d: LeaderId, news: set<Message>)
    requires Inv(s, q) && Followed(s, t, q, n, d, news) && NodeSound(WithNode(s, n, t.nodes[n]), q, n)
    ensures Inv(t, q)
  {
    hide Inv, SharedKept, NodeSound, ReignsSound, RepliesOfKept, NewGrantsKept, MessageSound;
    FollowedReplies(s, t, q, n, d, news);
    FollowedGrows(s, t, q, n, d, news);
    InvReigns(s, q);
    NodeStaysSound(WithNode(s, n, t.nodes[n]), t, q, n);
    StepKeepsInv(s, t, q, n);
  }

  lemma FreshAppendKeepsInv(s: System, q: Quorums, n: NodeId, d: LeaderId, prev: Option<LogId>, entries: Log,
      commit: Option<LogId>)
    requires Inv(s, q) && Intersecting(q) && Follows(s, n, d, prev, entries)
             && AppendRequest(d, prev, entries, commit) in s.net
    ensures Inv(AppendTaken(s, n, d, prev, entries, commit), q)
  {
    hide Inv, AppendReceived, LogFollowed, NodeSound, SharedKept, SegmentReceived;
    var t := AppendTaken(s, n, d, prev, entries, commit);
    FollowerNode(s, t, q, n, d, prev, entries, commit);
    assert s.net + {} == s.net && WithNode(s, n, t.nodes[n]) == t;
    NodeNamed(s, q, n, t.nodes[n]);
    FollowedKeepsInv(s, t, q, n, d, {});
  }

  // Snapshots.

  /** What node `n` may assume of a snapshot of leader `d` that it does not refuse. */
  ghost predicate Offers(s: System, q: Quorums, n: NodeId, d: LeaderId, image: Log) {
    && n in s.nodes && d in s.reigns && d.term > 0 && n != d.node
    && s.nodes[n].vote.AtMost(Vote(d, true))
    && image != [] && image <= s.reigns[d].log
    && CommittedBy(s, q, IdAt(image, |image| - 1), d)
  }

  /** Of two committed log ids the greater has the greater index: the installer's consistency check cannot fail. */
  lemma SnapshotIsAhead(s: System, q: Quorums, n: NodeId, d: LeaderId, image: Log)
    requires Inv(s, q) && Intersecting(q) && Offers(s, q, n, d, image)
    ensures IdAtMost(LastId(image), s.nodes[n].committed) <==> |image| <= NextIndex(s.nodes[n].committed)
    ensures s.nodes[n].committed.Some? ==>
              var c := s.nodes[n].committed.value.index + 1;
              c <= |s.reigns[d].log| && c <= |s.nodes[n].log| && s.nodes[n].log[..c] == s.reigns[d].log[..c]
  {
    hide Inv, LogSound, ReignsSound, CommittedBy, AcceptedSound, StoreSound;
    InvNode(s, q, n);
    InvReigns(s, q);
    if s.nodes[n].committed.Some? {
      var c := s.nodes[n].committed.value;
      CommittedStays(s, s, q, c, s.nodes[n].vote.leader, d);
      LeaderHasCommitted(s, q, c, d);
      HasIsTrue(s, q, n, d, c);
      LogOfReignSound(s.reigns, d);
      assert LastId(image).value == IdAt(s.reigns[d].log, |image| - 1);
      assert c == IdAt(s.reigns[d].log, c.index);
      IdsFollowIndexes(s.reigns, s.reigns[d].log, |image| - 1, c.index);
    }
  }

  lemma InstalledLog(s: System, q: Quorums, n: NodeId, d: LeaderId, image: Log, voted: Node)
    requires Inv(s, q) && Intersecting(q) && Offers(s, q, n, d, image)
    requires voted.log == s.nodes[n].log && voted.committed == s.nodes[n].committed
    requires !IdAtMost(LastId(image), voted.committed)
    ensures LogFollowed(s, n, d, |image|, true, SnapshotInstalled(voted, d, image).log)
  {
    hide Inv, LogSound, ReignsSound, CommittedBy, AcceptedSound, StoreSound;
    SnapshotIsAhead(s, q, n, d, image);
    InvNode(s, q, n);
    InvReigns(s, q);
    LogOfReignSound(s.reigns, d);
    var was := s.nodes[n].log;
    var k := |image|;
    assert image == s.reigns[d].log[..k];
    if k <= |was| && was[k - 1].leader == image[k - 1].leader {
      LogsMatch(s.reigns, was, s.reigns[d].log, k - 1);
      assert was[..k] == image;
      assert image + (if k < |was| then was[k..] else []) == was;
    } else {
      assert SnapshotInstalled(voted, d, image).log == image;
      assert k <= |was| ==> was[k - 1] != image[k - 1];
    }
  }

  lemma SnapshotNode(s: System, q: Quorums, n: NodeId, d: LeaderId, image: Log)
    requires Inv(s, q) && Intersecting(q) && Offers(s, q, n, d, image)
    ensures var r := SnapshotReceived(s.nodes[n], d, image);
            && r.ok && r.node.vote == Vote(d, true)
            && LogFollowed(s, n, d, |image|, true, r.node.log)
            && NodeSound(WithNode(s, n, r.node), q, n) && SharedKept(s, q, d, s.nodes[n], r.node)
  {
    hide Inv, LogSound, ReignsSound, CommittedBy, LogFollowed, StoreSound, SharedKept, StoreKeeps;
    VotedFacts(s, q, n, d);
    VotedFollows(s, q, n, d);
    InvNode(s, q, n);
    InvOffice(s, q, d);
    SnapshotIsAhead(s, q, n, d, image);
    var was := s.nodes[n];
    var voted := VoteUpdated(was, Vote(d, true)).value;
    hide VoteUpdated;
    KeptIsShared(s, q, d, was, voted);
    var node := SnapshotReceived(was, d, image).node;
    if IdAtMost(LastId(image), was.committed) {
      KnownImage(s, n, d, image);
      CommitLater(s, q, was, voted);
    } else {
      InstalledLog(s, q, n, d, image, voted);
      InstalledNode(s, q, n, d, image, voted);
      InstalledStored(s, q, n, d, image, voted);
      SharedChain(s, q, d, was, voted, node);
    }
    FollowedLogSound(s, q, n, d, |image|, true, node.log);
    hide AcceptedSound, CommitSound;
    SameHistory(s, WithNode(s, n, node), q, node);
  }

  /** The storage after a snapshot: conflicting entries cut, the log purged up to the snapshot. */
  lemma InstalledStored(s: System, q: Quorums, n: NodeId, d: LeaderId, image: Log, voted: Node)
    requires Inv(s, q) && Intersecting(q) && Offers(s, q, n, d, image) && Following(s, q, voted, d) && voted.id == n
    requires voted.log == s.nodes[n].log && voted.committed == s.nodes[n].committed
    requires !IdAtMost(LastId(image), voted.committed)
    ensures var node := SnapshotInstalled(voted, d, image);
            StoreSound(s, q, node) && SharedKept(s, q, d, voted, node)
  {
    hide Inv, LogSound, ReignsSound, CommittedBy, StoreSound, SharedKept, LogFollowed;
    SnapshotIsAhead(s, q, n, d, image);
    InstalledLog(s, q, n, d, image, voted);
    FollowedLogSound(s, q, n, d, |image|, true, SnapshotInstalled(voted, d, image).log);
    var k, c := |image|, NextIndex(voted.committed);
    var conflict := k <= |voted.log| && IdAt(voted.log, k - 1) != IdAt(image, k - 1);
    var kept := if conflict then Truncated(voted, c) else voted;
    if conflict {
      CommittedCutShares(s, q, d, image, voted);
      CutStored(s, q, voted, d, c);
    } else {
      SharedSame(s, q, d, voted, kept);
    }
    PurgedStored(s, q, d, image, kept, SnapshotInstalled(voted, d, image));
    SharedChain(s, q, d, voted, kept, SnapshotInstalled(voted, d, image));
  }

  /** Cutting everything not known to be committed loses only what the snapshot, which is committed, covers. */
  lemma CommittedCutShares(s: System, q: Quorums, d: LeaderId, image: Log, voted: Node)
    requires Following(s, q, voted, d) && d.node != voted.id && image != [] && image <= s.reigns[d].log
    requires CommittedBy(s, q, IdAt(image, |image| - 1), d)
    requires |image| <= |voted.log| && voted.log[|image| - 1] != image[|image| - 1]
    ensures KeepsShared(s, q, voted, s.reigns[d].log, voted.log[..NextIndex(voted.committed)])
  {
    hide StoreSound, LogSound, ReignsSound;
    var lead, c := s.reigns[d].log, NextIndex(voted.committed);
    forall k | c < k <= |voted.log| && k <= |lead| && voted.log[..k] == lead[..k]
      ensures Superseded(s, q, voted.log[..k], voted.vote, voted.id)
    {
      var last := |image| - 1;
      if last < k {
        SameUpto(voted.log, lead, k, last);
      }
      assert k <= last && voted.log[..k] == image[..k];
      ImageSupersedes(s, q, d, image, voted.log[..k], voted.id);
    }
    hide Superseded;
  }

  /** A proper part of a snapshot is part of a longer committed log. */
  lemma ImageSupersedes(s: System, q: Quorums, d: LeaderId, image: Log, p: Log, n: NodeId)
    requires d in s.reigns && ReignsSound(s.reigns) && d.node != n && image != [] && image <= s.reigns[d].log
    requires CommittedBy(s, q, IdAt(image, |image| - 1), d) && p <= image && |p| < |image|
    ensures Superseded(s, q, p, Vote(d, true), n)
  {
    hide ReignsSound, LogSound;
    var id := IdAt(image, |image| - 1);
    var b, k :| Chosen(s, q, b, k) && Upto(b, d) && id.index < k && IdInReign(s, b, id);
    LogOfReignSound(s.reigns, b);
    LogOfReignSound(s.reigns, d);
    LogsMatch(s.reigns, s.reigns[d].log, s.reigns[b].log, id.index);
    assert image == s.reigns[d].log[..id.index + 1];
    assert p <= Prefix(s, b, k);
  }

  lemma PurgedStored(s: System, q: Quorums, d: LeaderId, image: Log, kept: Node, node: Node)
    requires Following(s, q, kept, d) && d.node != kept.id && image != [] && image <= s.reigns[d].log
    requires NextIndex(kept.committed) <= |image|
    requires node.log == image + (if |image| < |kept.log| then kept.log[|image|..] else [])
    requires node.store == Submitted(kept.store, Purge(image)) && node.id == kept.id && node.vote == kept.vote
    requires node.committed == LastId(image)
    requires LogSound(s.reigns, node.log) && forall i :: 0 <= i < |node.log| ==> Upto(node.log[i].leader, d)
    ensures StoreSound(s, q, node) && SharedKept(s, q, d, kept, node)
  {
    hide StoreSound, LogSound, ReignsSound, CommittedBy, Stays, SharedKept, Kept;
    LastImage(s, q, kept);
    StoredVote(s, q, kept);
    UnderLeader(s, node.log, d, kept.id);
    PurgeShares(s, q, kept, s.reigns[d].log, image, node.log);
    hide KeepsShared;
    FollowerSubmits(s, q, kept, node, Purge(image), d);
  }

  lemma PurgeShares(s: System, q: Quorums, was: Node, lead: Log, image: Log, log: Log)
    requires image <= lead && log == image + (if |image| < |was.log| then was.log[|image|..] else [])
    ensures KeepsShared(s, q, was, lead, log)
  {
    hide Superseded;
    forall k | 0 <= k <= |was.log| && k <= |lead| && was.log[..k] == lead[..k]
      ensures k <= |log| && log[..k] == was.log[..k]
    {
      forall i | 0 <= i < k
        ensures i < |log| && log[i] == was.log[i]
      {
        assert was.log[i] == was.log[..k][i] == lead[..k][i] == lead[i];
      }
    }
  }

  /** A snapshot of known entries: the log has them. */
  lemma KnownImage(s: System, n: NodeId, d: LeaderId, image: Log)
    requires n in s.nodes && d in s.reigns && image <= s.reigns[d].log && s.nodes[n].committed.Some?
    requires var c := s.nodes[n].committed.value.index + 1;
             && |image| <= c <= |s.reigns[d].log| && c <= |s.nodes[n].log|
             && s.nodes[n].log[..c] == s.reigns[d].log[..c]
    ensures LogFollowed(s, n, d, |image|, true, s.nodes[n].log)
  {
    var c := s.nodes[n].committed.value.index + 1;
    assert s.reigns[d].log[..|image|] == s.reigns[d].log[..c][..|image|] == s.nodes[n].log[..c][..|image|];
  }

  lemma InstalledNode(s: System, q: Quorums, n: NodeId, d: LeaderId, image: Log, voted: Node)
    requires Inv(s, q) && Offers(s, q, n, d, image) && AcceptedSound(s, voted) && CommitSound(s, q, s.nodes[n])
    requires voted == s.nodes[n].(vote := Vote(d, true), accepted := voted.accepted, candidate := None, leader := None,
                                  store := voted.store)
    requires voted.accepted.vote == Vote(d, true)
    requires LogFollowed(s, n, d, |image|, true, SnapshotInstalled(voted, d, image).log)
    ensures AcceptedSound(s, SnapshotInstalled(voted, d, image))
            && CommitSound(s, q, SnapshotInstalled(voted, d, image))
  {
    hide Inv, CommittedBy, LogFollowed;
    var node := SnapshotInstalled(voted, d, image);
    var k := |image|;
    assert image <= node.log && Prefix(s, d, k) == image;
    if voted.accepted.last.Some? {
      CommonStays(s, n, d, k, true, node.log, Prefix(s, d, voted.accepted.last.value.index + 1));
    }
    if s.nodes[n].cluster.Some? {
      UptoTransitive(s.nodes[n].cluster.value.leader, s.nodes[n].vote.leader, d);
    }
  }

  lemma SnapshotKeepsInv(s: System, q: Quorums, n: NodeId, d: LeaderId, image: Log)
    requires Inv(s, q) && Intersecting(q) && n in s.nodes && n != d.node && SnapshotRequest(d, image) in s.net
             && image != []
    ensures Inv(SnapshotTaken(s, n, d, image), q)
  {
    hide Inv, LogFollowed, NodeSound, SnapshotInstalled, CommittedBy, SharedKept;
    InvMessage(s, q, SnapshotRequest(d, image));
    var t := SnapshotTaken(s, n, d, image);
    if s.nodes[n].vote.AtMost(Vote(d, true)) {
      SnapshotNode(s, q, n, d, image);
      var news := {SnapshotReply(n, d, LastId(image).value)};
      CommittedStays(s, t, q, LastId(image).value, d, d);
      InvNode(s, q, n);
      NodeNamed(s, q, n, t.nodes[n]);
      FollowedKeepsInv(s, t, q, n, d, news);
    } else {
      assert WithNode(s, n, s.nodes[n]) == s;
    }
  }

  lemma NodeNamed(s: System, q: Quorums, n: NodeId, node: Node)
    requires NodeSound(WithNode(s, n, node), q, n)
    ensures node.id == n
  {
  }

  lemma SendSnapshotKeepsInv(s: System, q: Quorums, n: NodeId, count: nat)
    requires Inv(s, q) && n in s.nodes && s.nodes[n].leader.Some?
    requires 0 < count <= NextIndex(s.nodes[n].committed) && count <= |s.nodes[n].log|
    ensures Inv(s.(net := s.net + {SnapshotRequest(s.nodes[n].leader.value.leader, s.nodes[n].log[..count])}), q)
  {
    hide Inv, CommittedBy, AcceptedSound, CommitSound, StoreSound;
    var b := s.nodes[n].leader.value.leader;
    var image := s.nodes[n].log[..count];
    var t := s.(net := s.net + {SnapshotRequest(b, image)});
    LeaderFacts(s, q, n);
    AppliedIsCommitted(s, q, n, count);
    CommittedStays(s, t, q, IdAt(image, count - 1), b, b);
    assert MessageSound(t, q, SnapshotRequest(b, image));
    hide MessageSound;
    SendKeepsInv(s, t, q, n);
  }
}
