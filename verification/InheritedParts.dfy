/** A run in which an acceptor is asked to vote for the part of someone it no
    longer lists, and stops.

    Participant 1 decrees the part of 11, with the votes of 2 to 7, and
    commits it; only 3 has heard of the commit when 2 prepares.  Everyone who
    promises has voted, so 2 completes with the part still open, and decrees it
    again.  But 3 has learned the part and removed 11, and looks it up before it
    looks at the instance. */
module InheritedParts {
  import opened Types
  import opened Quorums
  import opened Voting
  import opened Node
  import opened Protocol
  import opened Listing
  import opened StaleLabels
  import Sync = SyncModel
  import SyncInvariant
  import SyncSafety
  import Truncation
  import Soundness

  const Loss := Value(DecPart, ReqId(1, 2), 11)

  const VotedOut: Log := Bare[2 := Entry(Low, Loss, false, false, false, 0)]
  const Parted: Log := Bare[2 := Entry(Low, Loss, true, true, true, 0)]
  const Again: Log := Bare[2 := Entry(Mid, Loss, false, false, false, 1)]

  const Voters: set<NodeId> := {2, 3, 4, 5, 6, 7}

  lemma Lengths()
    ensures VotedOut != map[] && Types.Last(VotedOut) == 2 && Parted != map[] && Types.Last(Parted) == 2
    ensures Again != map[] && Types.Last(Again) == 2
    ensures |{2, 4, 5, 6}| == 4 && |{4, 5, 6, 7}| == 4
  {
    assert 2 in VotedOut && 2 in Parted && 2 in Again;
  }

  /** `a` has voted for the part, or has also learned it. */
  function Voter(a: NodeId, b: Ballot, learned: bool): Node {
    Node(a, true, b, b.gen, b.id, None, if learned then Parted else VotedOut, if learned then 3 else 2, 0,
         if learned then [Loss] else [])
  }

  ghost predicate AllVoters(s: State, group: set<NodeId>, b: Ballot, learned: bool) {
    forall a :: a in group ==> a in s.nodes && s.nodes[a] == Voter(a, b, learned)
  }

  lemma PartEntered()
    ensures var n, o := Under(1, Low, Bare), EnterDecree(Under(1, Low, Bare), Loss, Everyone);
      && n.alive && Established(n)
      && o.node == Under(1, Low, Bare[2 := Entry(Low, Loss, false, false, false, 1)])
      && forall a :: a in Voters ==> Decree(a, Low, 2, Loss) in o.sent
  {
    LogFacts();
  }

  /** Participant 1 decrees the part. */
  lemma Asks() returns (t: State)
    ensures Reached(t) && t.nodes.Keys == Everyone && AllUnder(t, Voters, Low, Bare)
    ensures t.nodes[1] == Under(1, Low, Bare[2 := Entry(Low, Loss, false, false, false, 1)])
    ensures forall a :: a in Voters ==> Decree(a, Low, 2, Loss) in t.net
  {
    hide Reached, Kept, EnterDecree, Majority, NextInstance, Under, Left, Established;
    assert Majority(|Everyone|) > 1 by { Sizes(); }
    var s := Begins();
    assert s.nodes[1] == Under(1, Low, Bare);
    SubgroupUnder(s, Everyone, Voters, Low, Bare);
    hide AllUnder, Stage0;
    PartEntered();
    t := Requests(s, 1, Loss);
    KeptKeys(s, t, {1}, {});
    KeptLeft(s, t, {1}, {}, {1});
    UnderLeft(s, t, {1}, Voters, Low, Bare);
  }

  /** Participant 1 decrees the part, and 2 to 7 vote for it. */
  lemma Decrees() returns (t: State)
    ensures Reached(t) && t.nodes.Keys == Everyone && AllVoters(t, Voters, Low, false)
    ensures t.nodes[1] == Under(1, Low, Bare[2 := Entry(Low, Loss, false, false, false, 1)])
    ensures forall a :: a in Voters ==> Accept(a, Low, 2) in t.net
  {
    hide Reached, Kept, AckDecree, DecreesTo;
    var s := Asks();
    forall a | a in Voters ensures CanVote(s, a, Low, 2, Loss) { VotesForPart(a); }
    t := VotesAll(s, Voters, Low, 2, Loss);
    KeptKeys(s, t, Voters, DecreesTo(Voters, Low, 2, Loss));
    KeptNode(s, t, Voters, DecreesTo(Voters, Low, 2, Loss), 1);
    forall a | a in Voters ensures t.nodes[a] == Voter(a, Low, false) && Accept(a, Low, 2) in t.net {
      VotesForPart(a);
      assert HasVoted(s, t, a, Low, 2, Loss);
    }
  }

  lemma VotesForPart(a: NodeId)
    requires a != 1
    ensures AckDecree(Under(a, Low, Bare), Low, 2, Loss) == Outcome(Voter(a, Low, false), {Accept(a, Low, 2)})
  {
  }

  lemma NotAmong(from: set<NodeId>, a: NodeId)
    requires a !in from
    ensures Accept(a, Low, 2) !in AcceptsOf(from, Low, 2)
  {
  }

  lemma PartLearned(x: Node)
    requires x.log == Bare[2 := Entry(Low, Loss, true, true, false, 0)] && x.ihole == 2 && x.learns == []
    ensures LearnRun(x) == x.(log := Parted, ihole := 3, learns := [Loss])
  {
    assert Ready(x.log, 2) && !Ready(x.log, 3);
    assert HoleAfter(x.log, 3) == 3;
    assert HoleAfter(x.log, 2) == 3;
    assert Values(x.log, 2, 3) == [Loss];
    assert LearnRun(x).log == Parted;
  }

  lemma CommitLearned(a: NodeId)
    requires a != 1
    ensures AckCommit(Voter(a, Low, false), Low, 2, Loss, true) == Outcome(Voter(a, Low, true), {})
  {
    hide LearnRun;
    var n := Voter(a, Low, false);
    var e := Entry(Low, Loss, false, false, false, 0);
    assert n.log[2 := e][2 := e.(committed := true, cached := true)] == Bare[2 := Entry(Low, Loss, true, true, false, 0)];
    PartLearned(n.(log := Bare[2 := Entry(Low, Loss, true, true, false, 0)]));
  }

  lemma VotersKept(s: State, t: State, movers: set<NodeId>, taken: set<Message>, group: set<NodeId>, b: Ballot, learned: bool)
    requires Kept(s, t, movers, taken) && AllVoters(s, group, b, learned) && movers !! group
    ensures AllVoters(t, group, b, learned) && t.nodes.Keys == s.nodes.Keys
  {
    hide Voter;
  }

  lemma SomeVoters(s: State, group: set<NodeId>, some: set<NodeId>, b: Ballot, learned: bool)
    requires AllVoters(s, group, b, learned) && some <= group
    ensures AllVoters(s, some, b, learned)
  {
    hide Voter;
  }

  /** Participant 1 commits the part. */
  lemma CommitsPart() returns (t: State)
    ensures Reached(t) && t.nodes.Keys == Everyone && AllVoters(t, Voters, Low, false)
    ensures Commit(3, Low, 2, Loss) in t.net
  {
    hide Reached, Kept, Types.Last, AcceptsOf, AllVoters;
    assert |Everyone| == 11 && Majority(|Everyone|) == 6 by { Sizes(); }
    var s := Decrees();
    var four: set<NodeId> := {2, 4, 5, 6};
    assert |four| == 4 by { Lengths(); }
    var u := CountsAll(s, 1, 2, four);
    VotersKept(s, u, {1}, AcceptsOf(four, Low, 2), Voters, Low, false);
    NotAmong(four, 3);
    KeptMessage(s, u, {1}, AcceptsOf(four, Low, 2), Accept(3, Low, 2));
    t := Commits(u, 1, 2, 3);
    VotersKept(u, t, {1}, {Accept(3, Low, 2)}, Voters, Low, false);
  }

  /** Participant 3 learns of the commit. */
  lemma Learns() returns (t: State)
    ensures Reached(t) && t.nodes.Keys == Everyone
    ensures AllVoters(t, {2}, Low, false) && AllVoters(t, {4, 5, 6, 7}, Low, false) && AllVoters(t, {3}, Low, true)
  {
    hide Reached, Kept, AckCommit, Types.Last;
    assert VotedOut != map[] by { Lengths(); }
    var s := CommitsPart();
    CommitLearned(3);
    t := Receives(s, 3, Commit(3, Low, 2, Loss), Voter(3, Low, true), {});
    SomeVoters(s, Voters, {2}, Low, false);
    SomeVoters(s, Voters, {4, 5, 6, 7}, Low, false);
    VotersKept(s, t, {3}, {Commit(3, Low, 2, Loss)}, {2}, Low, false);
    VotersKept(s, t, {3}, {Commit(3, Low, 2, Loss)}, {4, 5, 6, 7}, Low, false);
  }

  // ---- Participant 2 takes over.

  /** Participant 2, preparing. */
  function Preparer(acks: nat): Node {
    Node(2, true, Low, 2, 2, Some(Prep(Mid, acks, 2)), VotedOut, 2, 0, [])
  }

  lemma PrepareAsks(n: Node)
    requires n == Voter(2, Low, false)
    ensures StartPrepare(n, Everyone).node == Preparer(1)
    ensures forall a :: a in Everyone - {2} ==> Prepare(a, Mid, 2) in StartPrepare(n, Everyone).sent
  {
    Lengths();
  }

  /** Participant 2 prepares, and 3 to 7 promise. */
  lemma Promised() returns (t: State)
    ensures Reached(t) && t.nodes.Keys == Everyone && t.nodes[2] == Preparer(1)
    ensures AllVoters(t, {4, 5, 6, 7}, Mid, false) && AllVoters(t, {3}, Mid, true)
    ensures forall a :: a in {4, 5, 6, 7} ==> Promise(a, Mid, 2, Report(VotedOut, 2)) in t.net
    ensures Promise(3, Mid, 2, Report(Parted, 2)) in t.net
  {
    hide Reached, Kept, StartPrepare, Report, Types.Last;
    var s := Learns();
    PrepareAsks(s.nodes[2]);
    var u := Prepares(s, 2);
    VotersKept(s, u, {2}, {}, {4, 5, 6, 7}, Low, false);
    VotersKept(s, u, {2}, {}, {3}, Low, true);
    var promisers: set<NodeId> := {3, 4, 5, 6, 7};
    t := PromisesAll(u, promisers, Mid, 2);
    KeptKeys(u, t, promisers, PreparesTo(promisers, Mid, 2));
    KeptNode(u, t, promisers, PreparesTo(promisers, Mid, 2), 2);
    assert forall a :: a in promisers ==> HasPromised(u, t, a, Mid, 2);
  }

  lemma SameLabels(log: Log)
    requires log == VotedOut || log == Parted
    ensures Merge(VotedOut, Report(log, 2)) == VotedOut && forall i :: i in Report(log, 2) ==> 2 <= i
  {
    assert 2 in log;
    assert forall i :: i in Report(log, 2) ==> i == 2 && Report(log, 2)[i].ballot == Low;
  }

  lemma NothingNew(acks: nat)
    ensures AddsNothing(Preparer(acks), Report(VotedOut, 2)) && AddsNothing(Preparer(acks), Report(Parted, 2))
  {
    SameLabels(VotedOut);
    SameLabels(Parted);
    hide Merge, Report;
  }

  lemma PartAgain(n: Node)
    requires n == Preparer(6)
    ensures n.log != map[]
    ensures CompletePrepare(n, Mid, Everyone).node == Node(2, true, Mid, 2, 2, None, Again, 2, 0, [])
    ensures forall a :: a in Everyone - {2} ==> Decree(a, Mid, 2, Loss) in CompletePrepare(n, Mid, Everyone).sent
  {
    Lengths();
    hide Types.Last;
    assert HolesBelow(n.log, 2, 2) == {};
    assert RedecreeLog(n, Mid) == Again;
    assert Redecreed(n, 2);
  }

  /** What is reached: 2 is established and asks 3 to 7 again for the part that 3 has learned. */
  ghost predicate AskedAnew(t: State) {
    && Reached(t) && t.nodes.Keys == Everyone && t.nodes[2] == Node(2, true, Mid, 2, 2, None, Again, 2, 0, [])
    && AllVoters(t, {4, 5, 6, 7}, Mid, false) && AllVoters(t, {3}, Mid, true)
    && forall a :: a in {3, 4, 5, 6, 7} ==> Decree(a, Mid, 2, Loss) in t.net
  }

  /** Participant 2 counts four promises that tell it nothing new. */
  lemma Collects(s: State) returns (t: State)
    requires Reached(s) && s.nodes.Keys == Everyone && s.nodes[2] == Preparer(1)
    requires AllVoters(s, {4, 5, 6, 7}, Mid, false) && AllVoters(s, {3}, Mid, true)
    requires forall a :: a in {4, 5, 6, 7} ==> Promise(a, Mid, 2, Report(VotedOut, 2)) in s.net
    requires Promise(3, Mid, 2, Report(Parted, 2)) in s.net
    ensures Reached(t) && t.nodes.Keys == Everyone && t.nodes[2] == Preparer(5)
    ensures AllVoters(t, {4, 5, 6, 7}, Mid, false) && AllVoters(t, {3}, Mid, true)
    ensures Promise(3, Mid, 2, Report(Parted, 2)) in t.net
  {
    hide Reached, Kept, Report, AddsNothing, AllVoters;
    assert |Everyone| == 11 && Majority(|Everyone|) == 6 by { Sizes(); }
    var four: set<NodeId> := {4, 5, 6, 7};
    assert |four| == 4 by { Lengths(); }
    var reports := map a | a in four :: Report(VotedOut, 2);
    NothingNew(1);
    t := CollectsAll(s, 2, four, 2, reports);
    var taken := set a | a in four && a in reports :: Promise(a, Mid, 2, reports[a]);
    VotersKept(s, t, {2}, taken, four, Mid, false);
    VotersKept(s, t, {2}, taken, {3}, Mid, true);
    KeptMessage(s, t, {2}, taken, Promise(3, Mid, 2, Report(Parted, 2)));
  }

  /** The fifth promise completes the prepare. */
  lemma FifthPromise(s: State) returns (t: State)
    requires Reached(s) && s.nodes.Keys == Everyone && s.nodes[2] == Preparer(5)
    requires Promise(3, Mid, 2, Report(Parted, 2)) in s.net
    ensures Preparer(6).log != map[]
    ensures var o := CompletePrepare(Preparer(6), Mid, Everyone);
      && Reached(t) && Kept(s, t, {2}, {Promise(3, Mid, 2, Report(Parted, 2))})
      && 2 in t.nodes && t.nodes[2] == o.node && forall m :: m in o.sent ==> m in t.net
  {
    hide Reached, Kept, Report, AddsNothing, CompletePrepare, Majority;
    assert Majority(|Everyone|) == 6 by { Sizes(); }
    assert VotedOut != map[] by { Lengths(); }
    NothingNew(5);
    t := Completes(s, 2, 3, 2, Report(Parted, 2));
    KeptKeys(s, t, {2}, {Promise(3, Mid, 2, Report(Parted, 2))});
    assert WithAcks(s.nodes[2], 1) == Preparer(6);
  }

  lemma TakesOver() returns (t: State)
    ensures AskedAnew(t)
  {
    hide Reached, Kept, Report, CompletePrepare, AllVoters, Preparer;
    var u := Promised();
    var s := Collects(u);
    t := FifthPromise(s);
    PartAgain(Preparer(6));
    var taken := {Promise(3, Mid, 2, Report(Parted, 2))};
    VotersKept(s, t, {2}, taken, {4, 5, 6, 7}, Mid, false);
    VotersKept(s, t, {2}, taken, {3}, Mid, true);
  }

  // ---- What 3 does when it is asked.

  /** Everyone, connected to all others but 1 and 11, whom they have lost. */
  function Linked(a: NodeId): map<NodeId, bool> {
    map c | c in Everyone :: c !in {1, 11, a}
  }

  /** Participant `a` with its channel from 2, listing everyone but those it has seen parted. */
  function AskedPeer(a: NodeId, n: Node): Sync.Peer {
    Sync.Peer(n, 1, [Sync.Down.Decree(2, Loss)], [], 1, 0, ListAfter(Linked(a), n.learns, 2), false)
  }

  /** Participant 2 with those whom it has asked. */
  function Followers(t: State): Sync.State
    requires {2, 3, 4, 5, 6, 7} <= t.nodes.Keys
  {
    Sync.State(t.nodes[2], 1, Sync.Syncing(0, 0, None),
               map a | a in {3, 4, 5, 6, 7} :: AskedPeer(a, t.nodes[a]),
               1, map[1 := Founding, 2 := Loss], Linked(2), false)
  }

  const View := SyncInvariant.View(Mid, 1, 2, 0, map[1 := Founding, 2 := Loss])

  lemma LogsAreWhole()
    ensures Soundness.HoleOK(VotedOut, 1, 2) && Soundness.HoleOK(Again, 1, 2) && Soundness.HoleOK(Parted, 1, 3)
  {
    assert Ready(Parted, 2) && !Ready(Parted, 3) && !Ready(VotedOut, 2) && !Ready(Again, 2);
  }

  lemma FollowerJoins(a: NodeId, learned: bool)
    requires a in {3, 4, 5, 6, 7}
    ensures Truncation.Joined(View, AskedPeer(a, Voter(a, Mid, learned)))
  {
    hide Soundness.HoleOK, ListAfter, Linked;
    LogsAreWhole();
  }

  lemma FollowersLead(t: State)
    requires {2, 3, 4, 5, 6, 7} <= t.nodes.Keys && t.nodes[2] == Node(2, true, Mid, 2, 2, None, Again, 2, 0, [])
    ensures var s := Followers(t);
      SyncInvariant.ProposerOK(s.p, s.ibase, s.floor, s.decided) && s.p.log != map[] && SyncInvariant.ViewOf(s) == View
  {
    hide Soundness.HoleOK, Types.Last, AskedPeer;
    LogsAreWhole();
    Lengths();
  }

  lemma FollowersJoin(t: State)
    requires AskedAnew(t)
    ensures Truncation.Init(Followers(t))
  {
    hide Reached, SyncInvariant.ProposerOK, SyncInvariant.ViewOf, Truncation.Joined, Types.Last, Voter, AskedPeer;
    FollowersLead(t);
    var s := Followers(t);
    forall a | a in s.peers ensures Truncation.Joined(View, s.peers[a]) && !s.peers[a].failed {
      FollowerJoins(a, a == 3);
      NotFailed(a, t.nodes[a]);
    }
  }

  lemma NotFailed(a: NodeId, n: Node)
    ensures !AskedPeer(a, n).failed
  {
  }

  /** Participant 3 stops on the decree: it lists everyone but 11. */
  lemma StopsOnPart(q: Sync.Peer)
    requires q == AskedPeer(3, Voter(3, Mid, true))
    ensures q.listed.Keys == Everyone - {11}
    ensures var r := Sync.TakeDown(q, Mid, true); r.failed && !r.node.alive
  {
    assert ListAfter(Linked(3), [], 2) == Linked(3);
    assert [Loss][..0] == [];
    assert ListAfter(Linked(3), [Loss], 2) == Linked(3) - {11};
  }

  /** Acceptors do fail: a run of the protocol leads to a first state of
      synchronization in which one, asked to vote for a part that it has
      already learned, looks up someone it no longer lists. */
  lemma MissingAcceptorIsReached() returns (run: seq<State>, s: Sync.State)
    ensures IsRun(run, Founder, Founding)
    ensures var t := run[|run| - 1];
      && t.nodes.Keys == Everyone && s == Followers(t)
      && forall a :: a in s.peers ==> Decree(a, s.p.ballot, 2, Loss) in t.net
    ensures Truncation.Init(s) && Sync.Enabled(s, Sync.Take(3, true))
    ensures s.peers[3].listed.Keys == Everyone - {11}
    ensures var r := Sync.Apply(s, Sync.Take(3, true)).peers[3]; r.failed && !r.node.alive
  {
    hide Truncation.Init, Sync.TakeDown, AskedPeer, Voter;
    var t := TakesOver();
    s := Followers(t);
    FollowersJoin(t);
    StopsOnPart(s.peers[3]);
    FollowerTakes(3, t.nodes[3]);
    run :| IsRun(run, Founder, Founding) && run[|run| - 1] == t;
  }

  lemma FollowerTakes(a: NodeId, n: Node)
    ensures AskedPeer(a, n).down != [] && AskedPeer(a, n).node == n
    ensures Voter(a, Mid, true).alive && Voter(a, Mid, true).ihole > 0
  {
  }
}
