/**
  * Runs of two nodes of which node 0 alone is a quorum. It commits; node 1 learns of it, crashes before its disk
  * has the entry, and starts without it. If it had applied the entry, its log now has another in its place.
  */
module RaftWitness {
  import opened RaftTypes
  import opened RaftStorage
  import opened RaftEngine
  import opened RaftCluster
  import opened RaftSafety

  const SOLE := Quorums({{0}}, {{0}})
  const LEAD := LeaderId(1, 0)
  const BALLOT := Vote(LEAD, false)
  const OFFICE := Vote(LEAD, true)

  /** The first entries of the two nodes, and the leader's. */
  const X := Entry(LeaderId(0, 0), 7)
  const Y := Entry(LeaderId(0, 1), 8)
  const B := Entry(LEAD, BLANK)
  const XID := LogId(LeaderId(0, 0), 0)
  const BID := LogId(LEAD, 1)

  /** A node that initialised its cluster. */
  function First(n: NodeId, e: Entry): Node {
    var io := IoId(Vote(LeaderId(0, n), true), Some(LogId(LeaderId(0, n), 0)));
    NewNode(n).(vote := Vote(LeaderId(0, n), true), log := [e],
                store := Store(Disk(Vote(LeaderId(0, n), false), [e], None), [], io, []))
  }

  function Candidacy(): Node {
    First(0, X).(vote := BALLOT, accepted := IoId(BALLOT, None), candidate := Some(Candidate(BALLOT, Some(XID), {})),
                 store := Store(Disk(BALLOT, [X], None), [], IoId(BALLOT, None), []))
  }

  function Leading(): Node {
    Node(0, OFFICE, [X, B], IoId(OFFICE, Some(BID)), None, None, None, Some(Leader(LEAD, map[])),
         Store(Disk(OFFICE, [X], None), [Append([B], IoId(OFFICE, Some(BID)))], IoId(OFFICE, None), []))
  }

  function OnDisk(): Node {
    Leading().(store := Store(Disk(OFFICE, [X, B], None), [], IoId(OFFICE, Some(BID)), []))
  }

  function Confirming(): Node {
    OnDisk().(leader := Some(Leader(LEAD, map[0 := BID])))
  }

  function Committing(): Node {
    Confirming().(cluster := Some(CommitMark(LEAD, Some(BID))), committed := Some(BID))
  }

  /** Node 1 has the entry in memory and knows it to be committed; its disk still has its own. */
  function Following(): Node {
    Node(1, OFFICE, [X], IoId(OFFICE, Some(XID)), Some(CommitMark(LEAD, Some(BID))), Some(XID), None, None,
         Store(Disk(OFFICE, [Y], None), [Truncate(0), Append([X], IoId(OFFICE, Some(XID)))], IoId(OFFICE, None), []))
  }

  function Applying(): Node {
    Following().(store := Following().store.(applied := [X]))
  }

  /** Node 1 after the crash. */
  function Back(applied: Log): Node {
    Node(1, OFFICE, [Y], IoId(OFFICE, None), None, LastId(applied), None, None,
         Store(Disk(OFFICE, [Y], None), [], IoId(OFFICE, None), applied))
  }

  function Pair(a: Node, b: Node, net: set<Message>, reigns: map<LeaderId, Reign>, grants: map<Grant, Log>): System {
    System(map[0 := a, 1 := b], net, reigns, grants)
  }

  function Asked(): set<Message> {
    {VoteRequest(BALLOT, Some(XID)), VoteReply(0, BALLOT, true)}
  }

  function Told(): set<Message> {
    Asked() + {AppendReply(0, LEAD, BID)}
  }

  function Sent(): set<Message> {
    Told() + {AppendRequest(LEAD, None, [X], Some(BID))}
  }

  function Began(): map<LeaderId, Reign> {
    map[LeaderId(0, 0) := Reign([], [X])][LeaderId(0, 1) := Reign([], [Y])]
  }

  function Led(): map<LeaderId, Reign> {
    Began()[LEAD := Reign([X], [X, B])]
  }

  function Granted(): map<Grant, Log> {
    map[Grant(0, LEAD) := [X]]
  }

  function Moves(): seq<Event> {
    [Initialize(0, 7), Initialize(1, 8), Elect(0, false), TakeVoteReply(0, 0, BALLOT, true), Persist(0), Confirm(0, 1),
     TakeAppendReply(0, 0, LEAD, BID), TryCommit(0, 1), Replicate(0, 0, 1), TakeAppend(1, LEAD, None, [X], Some(BID))]
  }

  // The steps.

  lemma FirstIs(n: NodeId, payload: nat)
    ensures Initialized(NewNode(n), payload) == Some(First(n, Entry(LeaderId(0, n), payload)))
  {
    var st := NewNode(n).store;
    var e := Entry(LeaderId(0, n), payload);
    var w := Append([e], IoId(Vote(LeaderId(0, n), true), Some(LogId(LeaderId(0, n), 0))));
    assert st.pending + [w] == [] + [w];
    ReplayedSnoc(st.disk, [], w);
    assert [] + [e] == [e];
  }

  lemma BothBegin()
    ensures Step(SOLE, Fresh({0, 1}), Initialize(0, 7))
            == Pair(First(0, X), NewNode(1), {}, map[LeaderId(0, 0) := Reign([], [X])], map[])
    ensures Step(SOLE, Pair(First(0, X), NewNode(1), {}, map[LeaderId(0, 0) := Reign([], [X])], map[]),
            Initialize(1, 8))
            == Pair(First(0, X), First(1, Y), {}, Began(), map[])
  {
    FirstIs(0, 7);
    FirstIs(1, 8);
    hide Initialized, First;
    assert Fresh({0, 1}).nodes == map[0 := NewNode(0), 1 := NewNode(1)];
    LogsOf(0, X);
    LogsOf(1, Y);
    assert map[0 := NewNode(0), 1 := NewNode(1)][0 := First(0, X)] == map[0 := First(0, X), 1 := NewNode(1)];
    assert map[0 := First(0, X), 1 := NewNode(1)][1 := First(1, Y)] == map[0 := First(0, X), 1 := First(1, Y)];
    assert map[][LeaderId(0, 0) := Reign([], [X])] == map[LeaderId(0, 0) := Reign([], [X])];
  }

  lemma LogsOf(n: NodeId, e: Entry)
    ensures First(n, e).log == [e]
  {
  }

  lemma Saving(disk: Disk, vote: Vote)
    ensures Replayed(disk, [] + [SaveVote(vote)]) == disk.(vote := vote)
  {
    ReplayedSnoc(disk, [], SaveVote(vote));
  }

  lemma Electing()
    ensures Step(SOLE, Pair(First(0, X), First(1, Y), {}, Began(), map[]), Elect(0, false))
            == Pair(Candidacy(), First(1, Y), Asked(), Began(), Granted())
  {
    var s := Pair(First(0, X), First(1, Y), {}, Began(), map[]);
    Saving(First(0, X).store.disk, BALLOT);
    assert Elected(First(0, X)) == Candidacy();
    hide First, Candidacy, Elected;
    assert s.nodes[0 := Candidacy()] == map[0 := Candidacy(), 1 := First(1, Y)];
    CandidacyIs();
    assert map[][Grant(0, LEAD) := [X]] == Granted();
  }

  lemma CandidacyIs()
    ensures Candidacy().vote == BALLOT && Candidacy().log == [X] && LastId([X]) == Some(XID)
    ensures Candidacy().leader == None && First(0, X).leader == None
  {
  }

  lemma Winning()
    ensures VoteAnswered(Candidacy(), SOLE, 0, BALLOT, true) == Leading()
  {
    var c := Candidacy();
    assert {} + {0} == {0} && {0} in SOLE.read;
    assert Wins(SOLE, {0});
    var counted := c.(candidate := Some(c.candidate.value.(granted := {0})));
    var leading := c.(candidate := None, leader := Some(Leader(LEAD, map[])));
    Saving(c.store.disk, OFFICE);
    var voted := leading.(vote := OFFICE, accepted := IoId(OFFICE, None),
                          store := Store(Disk(OFFICE, [X], None), [], IoId(OFFICE, None), []));
    assert VoteUpdated(leading, OFFICE) == Some(voted);
    assert [X] + [B] == [X, B] && [] + [Append([B], IoId(OFFICE, Some(BID)))] == [Append([B], IoId(OFFICE, Some(BID)))];
    assert Established(counted) == Leading();
  }

  lemma Winner()
    ensures Step(SOLE, Pair(Candidacy(), First(1, Y), Asked(), Began(), Granted()), TakeVoteReply(0, 0, BALLOT, true))
            == Pair(Leading(), First(1, Y), Asked(), Led(), Granted())
  {
    Winning();
    CandidacyIs();
    LeadingIs();
    hide Candidacy, Leading, First, VoteAnswered;
    var s := Pair(Candidacy(), First(1, Y), Asked(), Began(), Granted());
    assert s.nodes[0 := Leading()] == map[0 := Leading(), 1 := First(1, Y)];
  }

  lemma LeadingIs()
    ensures Leading().leader == Some(Leader(LEAD, map[])) && Leading().log == [X, B]
    ensures OnDisk().leader == Leading().leader && OnDisk().log == [X, B] && IdAt([X, B], 1) == BID
    ensures Confirming().leader == Some(Leader(LEAD, map[0 := BID])) && Confirming().log == [X, B]
  {
  }

  lemma Flushing()
    ensures Step(SOLE, Pair(Leading(), First(1, Y), Asked(), Led(), Granted()), Persist(0))
            == Pair(OnDisk(), First(1, Y), Asked(), Led(), Granted())
    ensures Step(SOLE, Pair(OnDisk(), First(1, Y), Asked(), Led(), Granted()), Confirm(0, 1))
            == Pair(OnDisk(), First(1, Y), Told(), Led(), Granted())
  {
    var w := Append([B], IoId(OFFICE, Some(BID)));
    assert [w][1..] == [] && [X] + [B] == [X, B];
    assert Leading().(store := Persisted(Leading().store)) == OnDisk();
    assert MayConfirm(OnDisk(), 1) && OnDisk().store.flushed.vote.leader == LEAD;
    assert Leading().store.pending == [w] && Ready(w, []);
    LeadingIs();
    hide First, Persisted, MayConfirm, OnDisk, Leading;
    var s := Pair(Leading(), First(1, Y), Asked(), Led(), Granted());
    assert s.nodes[0 := OnDisk()] == map[0 := OnDisk(), 1 := First(1, Y)];
  }

  lemma Agreeing()
    ensures Step(SOLE, Pair(OnDisk(), First(1, Y), Told(), Led(), Granted()), TakeAppendReply(0, 0, LEAD, BID))
            == Pair(Confirming(), First(1, Y), Told(), Led(), Granted())
    ensures Step(SOLE, Pair(Confirming(), First(1, Y), Told(), Led(), Granted()), TryCommit(0, 1))
            == Pair(Committing(), First(1, Y), Told(), Led(), Granted())
  {
    assert Matched(OnDisk(), 0, BID) == Confirming();
    assert MatchedBy(Confirming().leader.value, BID, {0}) && {0} in SOLE.write;
    assert QuorumMatched(SOLE, Confirming().leader.value, BID);
    assert CommitTried(Confirming(), BID) == Committing();
    LeadingIs();
    hide First, Matched, CommitTried, QuorumMatched, OnDisk, Confirming, Committing;
    var s := Pair(OnDisk(), First(1, Y), Told(), Led(), Granted());
    assert s.nodes[0 := Confirming()] == map[0 := Confirming(), 1 := First(1, Y)];
    assert map[0 := Confirming(), 1 := First(1, Y)][0 := Committing()] == map[0 := Committing(), 1 := First(1, Y)];
  }

  /** Node 1 takes the first entry only, with news of the commit. */
  lemma Received()
    ensures AppendReceived(First(1, Y), LEAD, None, [X], Some(BID)).node == Following()
  {
    var was := First(1, Y);
    Saving(was.store.disk, OFFICE);
    var voted := was.(vote := OFFICE, accepted := IoId(OFFICE, None),
                      store := Store(Disk(OFFICE, [Y], None), [], IoId(OFFICE, None), []));
    assert VoteUpdated(was, OFFICE) == Some(voted);
    assert FirstConflict(voted, 0, [X]) == 0;
    var io := IoId(OFFICE, Some(XID));
    assert LastOf(None, [X]) == Some(XID);
    var noted := voted.(accepted := io);
    var cut := noted.(log := [], store := noted.store.(pending := [Truncate(0)]));
    assert [Y][..0] == [] && [] + [Truncate(0)] == [Truncate(0)];
    assert Truncated(noted, 0) == cut;
    var taken := cut.(log := [X], store := cut.store.(pending := [Truncate(0), Append([X], io)]));
    assert [] + [X] == [X] && [X][0..] == [X] && [Truncate(0)] + [Append([X], io)] == [Truncate(0), Append([X], io)];
    assert EntriesAppended(voted, LEAD, None, [X]) == taken;
    assert SegmentReceived(was, LEAD, None, [X]).node == taken;
    hide SegmentReceived;
    assert LocalCommit(io, CommitMark(LEAD, Some(BID))) == Some(XID);
    assert CommitLearned(taken, CommitMark(LEAD, Some(BID))) == Following();
  }

  lemma CommittingIs()
    ensures var c := Committing();
            && c.leader == Some(Leader(LEAD, map[0 := BID])) && c.log == [X, B]
            && c.cluster == Some(CommitMark(LEAD, Some(BID)))
            && NextIndex(c.committed) == 2
  {
  }

  lemma Asking()
    ensures Step(SOLE, Pair(Committing(), First(1, Y), Told(), Led(), Granted()), Replicate(0, 0, 1))
            == Pair(Committing(), First(1, Y), Sent(), Led(), Granted())
  {
    hide First, Committing, Asked, Led, Granted;
    CommittingIs();
    assert [X, B][0..1] == [X];
  }

  lemma Learning()
    ensures Step(SOLE, Pair(Committing(), First(1, Y), Sent(), Led(), Granted()),
            TakeAppend(1, LEAD, None, [X], Some(BID)))
            == Pair(Committing(), Following(), Sent(), Led(), Granted())
  {
    hide First, Committing, Following, AppendReceived, Told, Led, Granted;
    Received();
    var s := Pair(Committing(), First(1, Y), Sent(), Led(), Granted());
    assert s.nodes[1 := Following()] == map[0 := Committing(), 1 := Following()];
  }

  /** One more event of the run. */
  lemma Then(k: nat, s: System, e: Event, t: System)
    requires k < |Moves()| && Moves()[k] == e && Run(SOLE, {0, 1}, Moves()[..k]) == s && Step(SOLE, s, e) == t
    ensures Run(SOLE, {0, 1}, Moves()[..k + 1]) == t
  {
    hide Run, Step, Moves;
    assert Moves()[..k] + [e] == Moves()[..k + 1];
    RunSnoc(SOLE, {0, 1}, Moves()[..k], e);
  }

  lemma MovesAre()
    ensures var m := Moves();
            && |m| == 10 && m[0] == Initialize(0, 7) && m[1] == Initialize(1, 8) && m[2] == Elect(0, false)
            && m[3] == TakeVoteReply(0, 0, BALLOT, true) && m[4] == Persist(0) && m[5] == Confirm(0, 1)
            && m[6] == TakeAppendReply(0, 0, LEAD, BID) && m[7] == TryCommit(0, 1) && m[8] == Replicate(0, 0, 1)
            && m[9] == TakeAppend(1, LEAD, None, [X], Some(BID)) && forall i :: 0 <= i < |m| ==> !m[i].Restart?
  {
  }

  lemma RunStarts()
    ensures Run(SOLE, {0, 1}, Moves()[..0]) == Fresh({0, 1})
  {
    hide Fresh, Step;
    assert Moves()[..0] == [];
  }

  lemma ElectionRun()
    ensures Run(SOLE, {0, 1}, Moves()[..4]) == Pair(Leading(), First(1, Y), Asked(), Led(), Granted())
  {
    var s0 := Pair(First(0, X), NewNode(1), {}, map[LeaderId(0, 0) := Reign([], [X])], map[]);
    var s1 := Pair(First(0, X), First(1, Y), {}, Began(), map[]);
    var s2 := Pair(Candidacy(), First(1, Y), Asked(), Began(), Granted());
    var s3 := Pair(Leading(), First(1, Y), Asked(), Led(), Granted());
    hide *;
    MovesAre();
    RunStarts();
    BothBegin();
    Electing();
    Winner();
    Then(0, Fresh({0, 1}), Initialize(0, 7), s0);
    Then(1, s0, Initialize(1, 8), s1);
    Then(2, s1, Elect(0, false), s2);
    Then(3, s2, TakeVoteReply(0, 0, BALLOT, true), s3);
  }

  lemma CommitRun()
    ensures Run(SOLE, {0, 1}, Moves()[..8]) == Pair(Committing(), First(1, Y), Told(), Led(), Granted())
  {
    var s3 := Pair(Leading(), First(1, Y), Asked(), Led(), Granted());
    var s4 := Pair(OnDisk(), First(1, Y), Asked(), Led(), Granted());
    var s5 := Pair(OnDisk(), First(1, Y), Told(), Led(), Granted());
    var s6 := Pair(Confirming(), First(1, Y), Told(), Led(), Granted());
    var s7 := Pair(Committing(), First(1, Y), Told(), Led(), Granted());
    hide *;
    MovesAre();
    ElectionRun();
    Flushing();
    Agreeing();
    Then(4, s3, Persist(0), s4);
    Then(5, s4, Confirm(0, 1), s5);
    Then(6, s5, TakeAppendReply(0, 0, LEAD, BID), s6);
    Then(7, s6, TryCommit(0, 1), s7);
  }

  lemma LearnRun()
    ensures Run(SOLE, {0, 1}, Moves()) == Pair(Committing(), Following(), Sent(), Led(), Granted())
  {
    var s7 := Pair(Committing(), First(1, Y), Told(), Led(), Granted());
    var s8 := Pair(Committing(), First(1, Y), Sent(), Led(), Granted());
    hide *;
    MovesAre();
    CommitRun();
    Asking();
    Learning();
    Then(8, s7, Replicate(0, 0, 1), s8);
    Then(9, s8, TakeAppend(1, LEAD, None, [X], Some(BID)), Pair(Committing(), Following(), Sent(), Led(), Granted()));
    assert Moves()[..10] == Moves();
  }

  // What the runs show.

  lemma NoRestarts(n: nat)
    requires n <= |Moves()|
    ensures SoundStarts(SOLE, {0, 1}, Moves()[..n])
  {
    hide Run, Moves;
    MovesAre();
  }

  /** The theorems speak of something: a node initialises, wins its election and commits. */
  lemma SomeRunCommits()
    ensures SoundStarts(SOLE, {0, 1}, Moves()[..8])
    ensures var s := Run(SOLE, {0, 1}, Moves()[..8]); 0 in s.nodes && NextIndex(s.nodes[0].committed) == 2
  {
    hide Run, SoundStarts, Committing, First, Moves;
    MovesAre();
    CommitRun();
    NoRestarts(8);
    CommittingIs();
  }

  lemma BackIs(applied: Log)
    requires applied == [] || applied == [X]
    ensures Restarted(Following().(store := Following().store.(applied := applied)), 0) == Some(Back(applied))
    ensures Agrees(Kept(Following().(store := Following().store.(applied := applied)), 0), applied) <==> applied == []
  {
    var node := Following().(store := Following().store.(applied := applied));
    assert node.store.pending[..0] == [];
    assert Kept(node, 0) == Disk(OFFICE, [Y], None);
    assert LastId([Y]) == Some(LogId(LeaderId(0, 1), 0));
  }

  lemma Crashing(node: Node, applied: Log)
    requires applied == [] || applied == [X]
    requires node == Following().(store := Following().store.(applied := applied))
    ensures Step(SOLE, Pair(Committing(), node, Sent(), Led(), Granted()), Restart(1, 0))
            == Pair(Committing(), Back(applied), Sent(), Led(), Granted())
  {
    hide Restarted, Committing, Following, Back, Sent, Led, Granted, Kept, Agrees;
    BackIs(applied);
    var s := Pair(Committing(), node, Sent(), Led(), Granted());
    assert s.nodes[1 := Back(applied)] == map[0 := Committing(), 1 := Back(applied)];
  }

  lemma FollowingIs()
    ensures Following().(store := Following().store.(applied := [])) == Following()
    ensures NextIndex(Following().committed) == 1 && Following().log == [X]
    ensures Back([]).log == Back([X]).log == [Y] && Back([]).committed == None && NextIndex(Back([X]).committed) == 1
  {
  }

  lemma NodesOf(a: Node, b: Node)
    ensures var s := Pair(a, b, Sent(), Led(), Granted()); s.nodes == map[0 := a, 1 := b]
  {
  }

  /** The run goes on with these events of node 1. */
  lemma AndThen(before: seq<Event>, s: System, e: Event, t: System)
    requires Run(SOLE, {0, 1}, before) == s && Step(SOLE, s, e) == t
    ensures Run(SOLE, {0, 1}, before + [e]) == t
  {
    hide Run, Step;
    RunSnoc(SOLE, {0, 1}, before, e);
  }

  /**
    * A node may hold an entry to be committed, crash before its disk has it and before applying it, and start
    * without it.
    */
  lemma CommittedEntryLost()
    ensures SoundStarts(SOLE, {0, 1}, Moves() + [Restart(1, 0)])
    ensures var s, t := Run(SOLE, {0, 1}, Moves()), Run(SOLE, {0, 1}, Moves() + [Restart(1, 0)]);
            && 1 in s.nodes && NextIndex(s.nodes[1].committed) == 1 && s.nodes[1].log == [X]
            && 1 in t.nodes && t.nodes[1].committed == None && t.nodes[1].log == [Y]
  {
    var s := Pair(Committing(), Following(), Sent(), Led(), Granted());
    var t := Pair(Committing(), Back([]), Sent(), Led(), Granted());
    hide *;
    LearnRun();
    FollowingIs();
    Crashing(Following(), []);
    AndThen(Moves(), s, Restart(1, 0), t);
    NodesOf(Committing(), Following());
    NodesOf(Committing(), Back([]));
    LostStartIsSound();
  }

  lemma LostStartIsSound()
    ensures SoundStarts(SOLE, {0, 1}, Moves() + [Restart(1, 0)])
  {
    hide Run, Moves, Pair, SoundStart, Following, Committing, Sent, Led, Granted;
    LearnRun();
    MovesAre();
    StartIsSound();
    var all := Moves() + [Restart(1, 0)];
    forall i | 0 <= i < |all|
      ensures SoundStart(Run(SOLE, {0, 1}, all[..i]), all[i])
    {
      if i == 10 {
        assert all[..10] == Moves();
      } else {
        OthersSound(Run(SOLE, {0, 1}, all[..i]), Moves()[i]);
      }
    }
  }

  lemma OthersSound(s: System, e: Event)
    requires !e.Restart?
    ensures SoundStart(s, e)
  {
  }

  lemma StartIsSound()
    ensures SoundStart(Pair(Committing(), Following(), Sent(), Led(), Granted()), Restart(1, 0))
  {
    hide Agrees, Kept, Following, Committing, Sent, Led, Granted;
    FollowingIs();
    BackIs([]);
  }

  /**
    * Without agreement of disk and state machine safety fails. Startup keeps a log that has another entry where
    * the state machine applied one, and holds it to be committed: the two nodes differ on a committed entry.
    */
  lemma DisagreeingStartIsUnsafe()
    ensures var s := Run(SOLE, {0, 1}, Moves() + [Apply(1, 1)] + [Restart(1, 0)]);
            && 0 in s.nodes && 1 in s.nodes
            && NextIndex(s.nodes[0].committed) == 2 && s.nodes[0].log == [X, B]
            && NextIndex(s.nodes[1].committed) == 1 && s.nodes[1].log == [Y] && s.nodes[1].store.applied == [X]
  {
    var s := Pair(Committing(), Following(), Sent(), Led(), Granted());
    var t := Pair(Committing(), Applying(), Sent(), Led(), Granted());
    var u := Pair(Committing(), Back([X]), Sent(), Led(), Granted());
    hide *;
    LearnRun();
    FollowingIs();
    CommittingIs();
    Applies();
    ApplyingIs();
    Crashing(Applying(), [X]);
    AndThen(Moves(), s, Apply(1, 1), t);
    AndThen(Moves() + [Apply(1, 1)], t, Restart(1, 0), u);
    NodesOf(Committing(), Back([X]));
  }

  lemma ApplyingIs()
    ensures Applying() == Following().(store := Following().store.(applied := [X])) && Back([X]).store.applied == [X]
  {
  }

  lemma Applies()
    ensures Step(SOLE, Pair(Committing(), Following(), Sent(), Led(), Granted()), Apply(1, 1))
            == Pair(Committing(), Applying(), Sent(), Led(), Granted())
  {
    assert [X][..1] == [X];
    assert MayApply(Following(), 1) && AppliedUpto(Following(), 1) == Applying();
    hide Following, Applying, Committing, Sent, Led, Granted, MayApply, AppliedUpto;
    var s := Pair(Committing(), Following(), Sent(), Led(), Granted());
    assert s.nodes[1 := Applying()] == map[0 := Committing(), 1 := Applying()];
  }
}
