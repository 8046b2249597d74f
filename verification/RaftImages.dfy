/** What a crash may leave of a node stays sound as writes are submitted, reach the disk and are applied. */
module RaftImages {
  import opened RaftTypes
  import opened RaftStorage
  import opened RaftEngine
  import opened RaftCluster
  import opened RaftInvariant
  import opened RaftGrowth

  // Images.

  lemma SameImages(was: Node, node: Node)
    requires node.store.disk == was.store.disk && node.store.pending == was.store.pending
    requires was.store.applied <= node.store.applied
    ensures StoreKeeps(was, node)
    ensures forall from, p :: Stays(was, from, p) ==> Stays(node, from, p)
  {
    assert forall k :: 0 <= k <= |was.store.pending| ==> Kept(node, k) == Kept(was, k);
  }

  lemma LastImage(s: System, q: Quorums, node: Node)
    requires StoreSound(s, q, node)
    ensures Kept(node, |node.store.pending|).log == node.log && node.store.applied <= node.log
  {
    hide ImageSound, WriteSound, IoBacked, Kept;
  }

  /** What no crash can take is in the log. */
  lemma StaysInLog(s: System, q: Quorums, node: Node, from: nat, p: Log)
    requires StoreSound(s, q, node) && from <= |node.store.pending| && Stays(node, from, p)
    ensures p <= node.log
  {
    hide StoreSound;
    LastImage(s, q, node);
  }

  lemma OlderImages(was: Node, node: Node, w: Write)
    requires node.store == Submitted(was.store, w)
    ensures var n := |was.store.pending|;
            && |node.store.pending| == n + 1
            && (forall k :: 0 <= k <= n ==> Kept(node, k) == Kept(was, k))
            && Kept(node, n + 1) == Written(Kept(was, n), w)
  {
    hide Written;
    var n := |was.store.pending|;
    assert forall k :: 0 <= k <= n ==> node.store.pending[..k] == was.store.pending[..k];
    assert was.store.pending[..n] == was.store.pending && node.store.pending[..n + 1] == was.store.pending + [w];
    ReplayedSnoc(was.store.disk, was.store.pending, w);
  }

  lemma StaysSubmitted(was: Node, node: Node, w: Write, from: nat, p: Log)
    requires node.store == Submitted(was.store, w) && Stays(was, from, p)
    requires p <= Written(Kept(was, |was.store.pending|), w).log
    ensures Stays(node, from, p)
  {
    hide Kept, Written;
    OlderImages(was, node, w);
  }

  // Submitting.

  /** What the node has in common with the leader's log, `log` has too, or it is part of a longer committed log. */
  ghost predicate KeepsShared(s: System, q: Quorums, was: Node, lead: Log, log: Log) {
    forall k :: 0 <= k <= |was.log| && k <= |lead| && was.log[..k] == lead[..k] ==>
      (k <= |log| && log[..k] == was.log[..k]) || Superseded(s, q, was.log[..k], was.vote, was.id)
  }

  lemma SharedStays(s: System, q: Quorums, was: Node, lead: Log, log: Log, p: Log)
    requires KeepsShared(s, q, was, lead, log) && p <= was.log && p <= lead
    ensures p <= log || Superseded(s, q, p, was.vote, was.id)
  {
    hide Superseded;
    assert was.log[..|p|] == p == lead[..|p|];
  }

  lemma AllShared(s: System, q: Quorums, was: Node, lead: Log, log: Log)
    requires was.log <= log
    ensures KeepsShared(s, q, was, lead, log)
  {
    hide Superseded;
  }

  /** The new write and the log that results are sound. */
  ghost predicate Submits(s: System, q: Quorums, was: Node, node: Node, w: Write) {
    var d := was.vote.leader;
    && node.store == Submitted(was.store, w) && node.id == was.id && node.vote == was.vote
    && Written(Kept(was, |was.store.pending|), w).log == node.log
    && LogSound(s.reigns, node.log) && LogUnderVote(node.log, was.store.disk.vote, was.id)
    && NextIndex(was.committed) <= NextIndex(node.committed)
    && NextIndex(was.committed) <= |was.log| && was.log[..NextIndex(was.committed)] <= node.log
    && (d in s.reigns ==> KeepsShared(s, q, was, s.reigns[d].log, node.log))
    && (IoOf(w).Some? && IoOf(w).value.last.Some? ==>
         var io := IoOf(w).value;
         && io.vote == Vote(d, true) && (was.vote.committed || d.node == was.id)
         && IdInReign(s, d, io.last.value) && Prefix(s, d, io.last.value.index + 1) <= node.log)
    && (w.Purge? ==> w.image <= node.log && |w.image| <= NextIndex(node.committed))
    && (w.SaveCommitted? ==>
          w.id.index < NextIndex(node.committed) && HasAt(node.log, w.id) && CommittedBy(s, q, w.id, d))
    && !w.SaveVote? && (IsStill(was) ==> node.log == was.log)
  }

  lemma SubmitIo(s: System, q: Quorums, was: Node, node: Node, w: Write, io: IoId, from: nat)
    requires StoreSound(s, q, was) && Submits(s, q, was, node, w)
    requires from <= |was.store.pending| && IoBacked(s, q, was, io, from)
    ensures IoBacked(s, q, node, io, from)
  {
    hide StoreSound, Kept, Written, LogSound, CommittedBy, Stays, KeepsShared, Superseded;
    if io.last.Some? {
      var d := was.vote.leader;
      var p := Prefix(s, d, io.last.value.index + 1);
      if Stays(was, from, p) {
        StaysInLog(s, q, was, from, p);
        SharedStays(s, q, was, s.reigns[d].log, node.log, p);
        if p <= node.log {
          StaysSubmitted(was, node, w, from, p);
        }
      }
    }
  }

  lemma NewestImage(s: System, q: Quorums, was: Node, node: Node, w: Write)
    requires StoreSound(s, q, was) && Submits(s, q, was, node, w)
    ensures ImageSound(s, q, node, Written(Kept(was, |was.store.pending|), w))
  {
    hide LogSound, CommittedBy, Kept, IoBacked, WriteSound, Replayed, KeepsShared;
    var last := Kept(was, |was.store.pending|);
    assert ImageSound(s, q, was, last);
    var now := Written(last, w);
    NoVotePending(s, q, was, |was.store.pending|);
    if now.mark.Some? && !w.SaveCommitted? {
      var m := now.mark.value;
      assert was.log[..NextIndex(was.committed)][m.index] == was.log[m.index];
    }
  }

  lemma NoVotePending(s: System, q: Quorums, node: Node, k: nat)
    requires StoreSound(s, q, node) && k <= |node.store.pending|
    ensures Kept(node, k).vote == node.store.disk.vote
  {
    hide ImageSound, IoBacked;
    forall w | w in node.store.pending[..k]
      ensures !w.SaveVote?
    {
      var i :| 0 <= i < k && node.store.pending[i] == w;
      assert WriteSound(s, q, node, i);
    }
    VoteStays(node.store.disk, node.store.pending[..k]);
  }

  lemma SubmitWrite(s: System, q: Quorums, was: Node, node: Node, w: Write, i: nat)
    requires StoreSound(s, q, was) && Submits(s, q, was, node, w) && i <= |was.store.pending|
    ensures WriteSound(s, q, node, i)
  {
    hide Kept, Written, LogSound, CommittedBy, IoBacked, ImageSound, KeepsShared;
    var n := |was.store.pending|;
    if i < n {
      assert WriteSound(s, q, was, i);
      var v := was.store.pending[i];
      assert node.store.pending[i] == v;
      if IoOf(v).Some? {
        SubmitIo(s, q, was, node, w, IoOf(v).value, i + 1);
      }
      if v.Purge? {
        assert v.image <= was.log[..NextIndex(was.committed)];
      }
    } else if IoOf(w).Some? {
      NewIo(s, q, was, node, w);
    }
  }

  lemma NewIo(s: System, q: Quorums, was: Node, node: Node, w: Write)
    requires node.store == Submitted(was.store, w) && node.vote == was.vote && node.id == was.id && IoOf(w).Some?
    requires Written(Kept(was, |was.store.pending|), w).log == node.log
    requires IoOf(w).value.last.Some? ==>
               var d, io := was.vote.leader, IoOf(w).value;
               && io.vote == Vote(d, true) && (was.vote.committed || d.node == was.id)
               && IdInReign(s, d, io.last.value) && Prefix(s, d, io.last.value.index + 1) <= node.log
    ensures IoBacked(s, q, node, IoOf(w).value, |was.store.pending| + 1)
  {
    hide Kept, Written;
    OlderImages(was, node, w);
  }

  lemma SubmitSound(s: System, q: Quorums, was: Node, node: Node, w: Write)
    requires StoreSound(s, q, was) && Submits(s, q, was, node, w)
    ensures StoreSound(s, q, node)
  {
    hide Kept, Written, LogSound, CommittedBy, IoBacked, ImageSound, WriteSound, KeepsShared;
    var n := |was.store.pending|;
    OlderImages(was, node, w);
    NewestImage(s, q, was, node, w);
    forall k | 0 <= k <= n + 1
      ensures ImageSound(s, q, node, Kept(node, k))
    {
      if k <= n {
        ImageLater(s, q, was, node, Kept(was, k));
      }
    }
    forall i | 0 <= i < n + 1
      ensures WriteSound(s, q, node, i)
    {
      SubmitWrite(s, q, was, node, w, i);
    }
    SubmitIo(s, q, was, node, w, was.store.flushed, 0);
    assert was.store.applied <= was.log[..NextIndex(was.committed)];
  }

  /** An image stays sound as more is known to be committed, under a vote no smaller. */
  lemma ImageLater(s: System, q: Quorums, was: Node, node: Node, disk: Disk)
    requires ImageSound(s, q, was, disk) && node.id == was.id && Upto(was.vote.leader, node.vote.leader)
    requires NextIndex(was.committed) <= NextIndex(node.committed)
    ensures ImageSound(s, q, node, disk)
  {
    hide LogSound, CommittedBy;
    if disk.mark.Some? {
      CommittedStays(s, s, q, disk.mark.value, was.vote.leader, node.vote.leader);
    }
  }

  /** Only what is known to be committed moved, and volatile state. */
  lemma StoreRaised(s: System, q: Quorums, was: Node, node: Node)
    requires StoreSound(s, q, was) && node.store == was.store && node.id == was.id && node.vote == was.vote
    requires node.log == was.log && NextIndex(was.committed) <= NextIndex(node.committed)
    ensures StoreSound(s, q, node) && StoreKeeps(was, node)
  {
    hide ImageSound;
    SameImages(was, node);
    assert forall k :: 0 <= k <= |node.store.pending| ==> Kept(node, k) == Kept(was, k);
    forall k | 0 <= k <= |node.store.pending|
      ensures ImageSound(s, q, node, Kept(node, k))
    {
      assert Kept(node, k) == Kept(was, k);
      ImageLater(s, q, was, node, Kept(was, k));
    }
    forall i | 0 <= i < |node.store.pending|
      ensures WriteSound(s, q, node, i)
    {
      assert WriteSound(s, q, was, i);
    }
  }

  // Waiting for the disk.

  lemma {:induction false} InstalledWithin(applied: Log, writes: seq<Write>, log: Log, bound: nat)
    requires applied <= log && |applied| <= bound
    requires forall w :: w in writes && w.Purge? ==> w.image <= log && |w.image| <= bound
    ensures Installed(applied, writes) <= log && |Installed(applied, writes)| <= bound
    ensures applied <= Installed(applied, writes)
  {
    if writes != [] {
      InstalledWithin(applied, writes[..|writes| - 1], log, bound);
    }
  }

  lemma InstalledSound(s: System, q: Quorums, node: Node)
    requires StoreSound(s, q, node)
    ensures var done := Installed(node.store.applied, node.store.pending);
            done <= node.log && |done| <= NextIndex(node.committed) && node.store.applied <= done
  {
    hide ImageSound, IoBacked, Kept;
    forall w | w in node.store.pending && w.Purge?
      ensures w.image <= node.log && |w.image| <= NextIndex(node.committed)
    {
      var i :| 0 <= i < |node.store.pending| && node.store.pending[i] == w;
      assert WriteSound(s, q, node, i);
    }
    InstalledWithin(node.store.applied, node.store.pending, node.log, NextIndex(node.committed));
  }

  lemma SyncedDisk(was: Node, w: Write)
    ensures Synced(was.store, w).disk == Written(Kept(was, |was.store.pending|), w)
  {
    hide Written;
    assert was.store.pending[..|was.store.pending|] == was.store.pending;
    ReplayedSnoc(was.store.disk, was.store.pending, w);
  }

  /** With nothing pending, everything in the log stays. */
  lemma NothingPending(node: Node, p: Log)
    requires node.store.pending == [] && p <= node.store.disk.log
    ensures Stays(node, 0, p) && Kept(node, 0) == node.store.disk
  {
    assert node.store.pending[..0] == [];
  }

  /** The node saved a greater vote. */
  lemma VoteSavedSound(s: System, q: Quorums, was: Node, node: Node, vote: Vote)
    requires StoreSound(s, q, was) && node.store == VoteSaved(was.store, vote) && node.vote == vote
    requires node.id == was.id && node.log == was.log && node.committed == was.committed
    requires was.vote.Less(vote) && LogUnderVote(was.log, vote, was.id)
    requires was.store.flushed.last.Some? ==> was.vote.leader.Less(vote.leader)
    ensures StoreSound(s, q, node)
    ensures forall p :: p <= was.log ==> Stays(node, 0, p)
  {
    hide Kept, Synced, LogSound, CommittedBy, Installed, WriteSound;
    SyncedDisk(was, SaveVote(vote));
    InstalledSound(s, q, was);
    LastImage(s, q, was);
    VoteSavedFields(was.store, vote);
    var last := Kept(was, |was.store.pending|);
    assert node.store.disk == last.(vote := vote);
    NothingPending(node, node.log);
    assert ImageSound(s, q, was, last);
    ImageVoted(s, q, was, node, last, vote);
    forall p | p <= was.log
      ensures Stays(node, 0, p)
    {
      NothingPending(node, p);
    }
  }

  lemma VoteSavedFields(st: Store, vote: Vote)
    ensures var r := VoteSaved(st, vote);
            r == Store(Synced(st, SaveVote(vote)).disk, [], Accepted(st.flushed, IoId(vote, None)),
              Installed(st.applied, st.pending))
  {
  }

  lemma ImageVoted(s: System, q: Quorums, was: Node, node: Node, disk: Disk, vote: Vote)
    requires ImageSound(s, q, was, disk) && node.id == was.id && node.vote == vote && was.vote.Less(vote)
    requires node.committed == was.committed && LogUnderVote(disk.log, vote, was.id)
    ensures ImageSound(s, q, node, disk.(vote := vote))
  {
    hide LogSound, CommittedBy;
    if disk.mark.Some? {
      CommittedStays(s, s, q, disk.mark.value, was.vote.leader, vote.leader);
    }
  }

  // Reaching the disk.

  lemma ShiftedImages(was: Node, node: Node)
    requires was.store.pending != [] && node.store == Persisted(was.store)
    ensures |node.store.pending| + 1 == |was.store.pending|
    ensures forall k :: 0 <= k <= |node.store.pending| ==> Kept(node, k) == Kept(was, k + 1)
  {
    hide Written;
    forall k | 0 <= k <= |node.store.pending|
      ensures Kept(node, k) == Kept(was, k + 1)
    {
      if k < |was.store.pending| {
        ReplayedShift(was.store.disk, was.store.pending, k);
      }
    }
  }

  lemma StaysPersisted(was: Node, node: Node, from: nat, p: Log)
    requires was.store.pending != [] && node.store == Persisted(was.store) && Stays(was, from, p)
    ensures Stays(node, if from == 0 then 0 else from - 1, p)
  {
    hide Kept;
    ShiftedImages(was, node);
    forall k | (if from == 0 then 0 else from - 1) <= k <= |node.store.pending|
      ensures p <= Kept(node, k).log || p <= node.store.applied
    {
      assert Kept(node, k) == Kept(was, k + 1);
    }
  }

  lemma PersistedIo(s: System, q: Quorums, was: Node, node: Node, io: IoId, from: nat)
    requires was.store.pending != [] && node == was.(store := Persisted(was.store)) && IoBacked(s, q, was, io, from)
    ensures IoBacked(s, q, node, io, if from == 0 then 0 else from - 1)
  {
    hide Stays, Superseded;
    if io.last.Some? {
      var p := Prefix(s, was.vote.leader, io.last.value.index + 1);
      if Stays(was, from, p) {
        StaysPersisted(was, node, from, p);
      }
    }
  }

  lemma PersistedVote(s: System, q: Quorums, was: Node)
    requires was.store.pending != [] && WriteSound(s, q, was, 0)
    ensures Persisted(was.store).disk.vote == was.store.disk.vote
  {
  }

  lemma PersistedSound(s: System, q: Quorums, was: Node, node: Node)
    requires StoreSound(s, q, was) && was.store.pending != [] && node == was.(store := Persisted(was.store))
    ensures StoreSound(s, q, node) && StoreKeeps(was, node)
  {
    hide Kept, IoBacked, ImageSound, Stays, Written;
    ShiftedImages(was, node);
    assert WriteSound(s, q, was, 0);
    PersistedVote(s, q, was);
    forall k | 0 <= k <= |node.store.pending|
      ensures ImageSound(s, q, node, Kept(node, k))
    {
      ImageLater(s, q, was, node, Kept(was, k + 1));
    }
    forall i | 0 <= i < |node.store.pending|
      ensures WriteSound(s, q, node, i)
    {
      assert WriteSound(s, q, was, i + 1);
      var w := node.store.pending[i];
      if IoOf(w).Some? {
        PersistedIo(s, q, was, node, IoOf(w).value, i + 2);
      }
    }
    PersistedIo(s, q, was, node, was.store.flushed, 0);
    if IoOf(was.store.pending[0]).Some? {
      PersistedIo(s, q, was, node, IoOf(was.store.pending[0]).value, 1);
    }
    forall p | Stays(was, 0, p)
      ensures Stays(node, 0, p)
    {
      StaysPersisted(was, node, 0, p);
    }
  }

  // Applying.

  lemma AppliedSound(s: System, q: Quorums, was: Node, count: nat)
    requires StoreSound(s, q, was) && MayApply(was, count)
    ensures StoreSound(s, q, AppliedUpto(was, count)) && StoreKeeps(was, AppliedUpto(was, count))
  {
    hide ImageSound, Stays;
    var node := AppliedUpto(was, count);
    SameImages(was, node);
    assert forall k :: 0 <= k <= |node.store.pending| ==> Kept(node, k) == Kept(was, k);
    forall k | 0 <= k <= |node.store.pending|
      ensures ImageSound(s, q, node, Kept(node, k))
    {
      assert Kept(node, k) == Kept(was, k);
      ImageLater(s, q, was, node, Kept(was, k));
    }
    forall i | 0 <= i < |node.store.pending|
      ensures WriteSound(s, q, node, i)
    {
      assert WriteSound(s, q, was, i);
    }
  }
}
