/** Truncation is safe: over every run of the sync protocol each log keeps the
    instance at its base, nobody is told to drop what anyone has not learned,
    and no late message names an instance that is gone.  Only the list of
    acceptors can make a member stop. */
module SyncSafety {
  import opened Types
  import opened Quorums
  import opened Node
  import opened InstanceList
  import opened Loops
  import opened Soundness
  import opened Listing
  import opened SyncModel
  import opened SyncInvariant
  import opened SyncPreservation

  // ---- What the proposer sends.

  lemma DecreeGoesOut(w: View, w': View, q: Peer, v: Value)
    requires PeerOK(w, q) && w' == w.(last := w.last + 1, decided := w.decided[w.last + 1 := v])
    ensures PeerOK(w', q.(down := q.down + [Down.Decree(w.last + 1, v)]))
  {
    ViewKept(w, w', q);
    var i, d := w.last + 1, Down.Decree(w.last + 1, v);
    CommittedBelow(q.node.log, q.ibase, q.node.ihole, q.node.ihole - 1);
    forall k | 0 <= k < |q.up| ensures Across(q.up[k], d) {
      assert UpAt(w, q.node.ihole, q.seen, q.got, q.up[k]);
    }
    forall k | 0 <= k < |q.down| ensures DownAfter(q.node.log, q.down[k], d) {
      assert DownAt(w, q.ibase, q.seen, q.got, q.down[k]);
      assert !CommittedIn(q.node.log, i);
    }
    hide PeerOK;
    AppendDown(w', q, d);
  }

  /** A commit, first or repeated, of an instance past the floor. */
  lemma CommitGoesOut(w: View, q: Peer, i: nat, v: Value, d: Down)
    requires PeerOK(w, q) && w.floor < i && Decided(w, i, v)
    requires d.Commit? || d.Recommit?
    requires d.inum == i && d.value == v
    ensures PeerOK(w, q.(down := q.down + [d]))
  {
    forall k | 0 <= k < |q.down| ensures DownAfter(q.node.log, q.down[k], d) {
      assert DownAt(w, q.ibase, q.seen, q.got, q.down[k]);
    }
    assert DownAt(w, q.ibase, q.seen, q.got, d);
    hide PeerOK;
    AppendDown(w, q, d);
  }

  lemma SyncGoesOut(w: View, w': View, q: Peer)
    requires PeerOK(w, q) && w' == w.(syncId := w.syncId + 1)
    ensures PeerOK(w', q.(down := q.down + [Sync(w.syncId + 1)]))
  {
    ViewKept(w, w', q);
    var d := Sync(w.syncId + 1);
    forall k | 0 <= k < |q.up| ensures Across(q.up[k], d) {
      assert UpAt(w, q.node.ihole, q.seen, q.got, q.up[k]);
    }
    forall k | 0 <= k < |q.down| ensures DownAfter(q.node.log, q.down[k], d) {
      assert DownAt(w, q.ibase, q.seen, q.got, q.down[k]);
    }
    assert DownAt(w', q.ibase, q.seen, q.got, d);
    hide PeerOK;
    AppendDown(w', q, d);
  }

  lemma TruncateGoesOut(w: View, w': View, q: Peer)
    requires PeerOK(w, q) && w.floor <= w'.floor <= q.seen && w' == w.(floor := w'.floor)
    ensures PeerOK(w', q.(down := q.down + [Truncate(w'.floor)]))
  {
    ViewKept(w, w', q);
    var d := Truncate(w'.floor);
    forall k | 0 <= k < |q.down| ensures DownAfter(q.node.log, q.down[k], d) {
      assert DownAt(w, q.ibase, q.seen, q.got, q.down[k]);
    }
    assert DownAt(w', q.ibase, q.seen, q.got, d);
    hide PeerOK;
    AppendDown(w', q, d);
  }

  // ---- What the proposer's handlers do to its own log.

  lemma LastKept(log: Log, log': Log)
    requires log != map[] && log'.Keys == log.Keys
    ensures log' != map[] && Last(log') == Last(log)
  {
    assert Last(log) in log';
  }

  /** `m` is the proposer with some instance committed further. */
  ghost predicate SameDecrees(p: Node, m: Node) {
    && m.log.Keys == p.log.Keys && m.ballot == p.ballot && m.id == p.id && m.proposer == p.proposer
    && m.prep == p.prep && m.alive == p.alive && p.ihole <= m.ihole
    && forall i :: i in p.log ==> m.log[i].value == p.log[i].value
  }

  lemma SameDecreesOK(p: Node, m: Node, ibase: nat, floor: nat, decided: map<nat, Value>)
    requires ProposerOK(p, ibase, floor, decided) && SameDecrees(p, m) && HoleOK(m.log, ibase, m.ihole)
    ensures ProposerOK(m, ibase, floor, decided) && Last(m.log) == Last(p.log)
  {
    LastKept(p.log, m.log);
    hide Last;
  }

  lemma CountKeepsHole(p: Node, i: nat, ibase: nat)
    requires HoleOK(p.log, ibase, p.ihole) && i in p.log
    ensures HoleOK(CountVote(p, i).log, ibase, p.ihole)
    ensures p.ihole <= i || CommittedIn(p.log, i)
  {
    var m := CountVote(p, i).log;
    forall j | ibase <= j < p.ihole ensures Ready(m, j) { assert Ready(p.log, j); }
    assert i < p.ihole ==> Ready(p.log, i);
  }

  /** A vote for a listed instance is never fatal. */
  lemma AcceptProposer(p: Node, i: nat, have: bool, members: set<NodeId>, ibase: nat, floor: nat, decided: map<nat, Value>)
    requires ProposerOK(p, ibase, floor, decided) && i in p.log
    ensures var m := AckAccept(p, p.ballot, i, have, members).node;
      && ProposerOK(m, ibase, floor, decided) && Last(m.log) == Last(p.log) && m.ballot == p.ballot && m.id == p.id
      && m.alive == p.alive && (!p.log[i].committed ==> floor < i)
  {
    hide HoleOK, CommitInstance, Last, CountVote, SameDecrees;
    var c := CountVote(p, i);
    var m := AckAccept(p, p.ballot, i, have, members).node;
    CountKeepsHole(p, i, ibase);
    CountKeepsDecrees(p, i);
    if !c.log[i].committed && c.log[i].votes >= Majority(|members|) { CommitKeepsDecrees(p, c, i, have, ibase); }
    SameDecreesOK(p, m, ibase, floor, decided);
    SameDecreesMean(p, m);
  }

  lemma CountKeepsDecrees(p: Node, i: nat)
    requires i in p.log
    ensures SameDecrees(p, CountVote(p, i)) && i in CountVote(p, i).log
    ensures CountVote(p, i).log[i].committed == p.log[i].committed && CountVote(p, i).ihole == p.ihole
  {
  }

  lemma CommitKeepsDecrees(p: Node, c: Node, i: nat, have: bool, ibase: nat)
    requires SameDecrees(p, c) && i in c.log && HoleOK(c.log, ibase, c.ihole) && !c.log[i].committed
    ensures var m := CommitInstance(c, i, have).node; SameDecrees(p, m) && HoleOK(m.log, ibase, m.ihole)
  {
    hide HoleOK, CommitInstance;
    CommitFollows(c, i, have, ibase);
  }

  lemma SameDecreesMean(p: Node, m: Node)
    requires SameDecrees(p, m)
    ensures m.ballot == p.ballot && m.id == p.id && m.alive == p.alive
  {
  }

  lemma ResendProposer(p: Node, i: nat, ibase: nat, floor: nat, decided: map<nat, Value>)
    requires ProposerOK(p, ibase, floor, decided) && CommittedIn(p.log, i)
    ensures var m := AckResend(p, i).node;
      && ProposerOK(m, ibase, floor, decided) && Last(m.log) == Last(p.log) && m.ballot == p.ballot && m.id == p.id
      && m.alive == p.alive
  {
    ResendFollows(p, ibase, i);
    var m := AckResend(p, i).node;
    hide HoleOK, AckResend;
    SameDecreesOK(p, m, ibase, floor, decided);
  }

  lemma EnterProposer(p: Node, v: Value, members: set<NodeId>, ibase: nat, floor: nat, decided: map<nat, Value>)
    requires ProposerOK(p, ibase, floor, decided)
    ensures var m, i := EnterDecree(p, v, members).node, Last(p.log) + 1;
      && NextInstance(p.log) == i && i in m.log && !Ready(m.log, i)
      && ProposerOK(m, ibase, floor, decided[i := v]) && Last(m.log) == i && m.ballot == p.ballot && m.id == p.id
      && m.alive == p.alive
  {
    var i := Last(p.log) + 1;
    WriteFollows(p, i, Entry(p.ballot, v, false, false, false, 1), ibase);
    hide HoleOK;
  }

  lemma NewDecreeProposer(p: Node, v: Value, have: bool, members: set<NodeId>, ibase: nat, floor: nat, decided: map<nat, Value>)
    requires ProposerOK(p, ibase, floor, decided)
    ensures var m, i := NewDecree(p, v, have, members).node, Last(p.log) + 1;
      && NextInstance(p.log) == i
      && ProposerOK(m, ibase, floor, decided[i := v]) && Last(m.log) == i && m.ballot == p.ballot && m.id == p.id
      && m.alive == p.alive
  {
    EnterProposer(p, v, members, ibase, floor, decided);
    var e, i := EnterDecree(p, v, members).node, Last(p.log) + 1;
    if 1 >= Majority(|members|) {
      CommitFollows(e, i, have, ibase);
      hide HoleOK, CommitInstance, EnterDecree, Last, NextInstance;
      var m := CommitInstance(e, i, have).node;
      assert SameDecrees(e, m);
      SameDecreesOK(e, m, ibase, floor, decided[i := v]);
    }
  }

  lemma TruncateProposer(p: Node, ibase: nat, floor: nat, decided: map<nat, Value>, base: nat)
    requires ProposerOK(p, ibase, floor, decided) && floor <= base < p.ihole
    ensures var m := p.(log := From(p.log, base));
      ProposerOK(m, base, base, decided) && Last(m.log) == Last(p.log)
  {
    TruncatedHole(p.log, ibase, p.ihole, base);
    CommittedBelow(p.log, ibase, p.ihole, p.ihole - 1);
    assert Last(p.log) in From(p.log, base);
  }

  // ---- The sync round.

  lemma RoundFramed(y: Syncing, peers: map<NodeId, Peer>, peers': map<NodeId, Peer>, floor: nat)
    requires RoundOK(y, peers, floor) && peers'.Keys == peers.Keys
    requires forall a :: a in peers ==> peers'[a].got == peers[a].got && peers'[a].seen == peers[a].seen
    ensures RoundOK(y, peers', floor)
  {
    assert Replied(peers', y.id) == Replied(peers, y.id);
    assert |peers'| == |peers| by { SameSize(peers, peers'); }
  }

  lemma SameSize<T, U>(m: map<T, U>, m': map<T, U>)
    requires m.Keys == m'.Keys
    ensures |m| == |m'|
  {
    assert |m| == |m.Keys| && |m'| == |m'.Keys|;
  }

  lemma WholeSet<T>(x: set<T>, y: set<T>)
    requires x <= y && |x| == |y|
    ensures x == y
  {
    assert x + (y - x) == y;
    assert |y| == |x| + |y - x|;
    assert y - x == {};
  }

  /** The members heard from in this round, once `a` has replied. */
  lemma RepliedNext(peers: map<NodeId, Peer>, a: NodeId, y: Syncing, id: nat, last: nat)
    requires a in peers && peers[a].got < id <= y.id
    ensures var peers' := peers[a := peers[a].(seen := last, got := id)];
      && |peers'| == |peers| && peers'.Keys == peers.Keys
      && a !in Replied(peers, y.id)
      && Replied(peers', y.id) == Replied(peers, y.id) + if id == y.id then {a} else {}
  {
    var peers' := peers[a := peers[a].(seen := last, got := id)];
    assert peers'.Keys == peers.Keys;
    SameSize(peers, peers');
  }

  /** When everyone has replied, everyone has been heard from. */
  lemma AllReplied(peers: map<NodeId, Peer>, id: nat)
    requires |Replied(peers, id)| == |peers|
    ensures Replied(peers, id) == peers.Keys
  {
    assert |peers.Keys| == |peers|;
    WholeSet(Replied(peers, id), peers.Keys);
  }

  /** A LAST taken off a channel: it is a member's first reply of its round, and
      the round is still on if the reply is of the current one. */
  lemma RoundHears(y: Syncing, peers: map<NodeId, Peer>, floor: nat, a: NodeId, id: nat, last: nat, ihole: nat)
    requires RoundOK(y, peers, floor) && a in peers && 0 < floor <= peers[a].seen <= last && peers[a].got < id <= y.id
    requires floor < ihole
    ensures y.round.Some?
    ensures var (y', base) := TakeLast(y, id, last, ihole);
      var peers' := peers[a := peers[a].(seen := last, got := id)];
      && y'.id == y.id
      && (base.None? ==> RoundOK(y', peers', floor))
      && (base.Some? ==>
            && RoundOK(y', peers', base.value)
            && floor <= base.value < ihole
            && forall c :: c in peers' ==> base.value <= peers'[c].seen)
  {
    hide Replied, HeardLeast;
    var peers' := peers[a := peers[a].(seen := last, got := id)];
    RepliedNext(peers, a, y, id, last);
    if id == y.id {
      LeastBounds(y, peers, floor, a, last, peers');
      if y.round.value.acks + 1 == y.round.value.total {
        AllReplied(peers', y.id);
        LeastOfAll(peers', floor, Least(last, y.round.value.last));
        RepliedAre(peers', y.id);
      }
    } else {
      HeardAlike(peers, peers', Replied(peers, y.id), floor, y.id);
    }
  }

  lemma HeardAlike(peers: map<NodeId, Peer>, peers': map<NodeId, Peer>, heard: set<NodeId>, floor: nat, id: nat)
    requires peers'.Keys == peers.Keys && heard == Replied(peers, id) && heard == Replied(peers', id)
    requires forall a :: a in peers && peers'[a] != peers[a] ==> a !in heard
    ensures forall m :: HeardLeast(peers, heard, floor, m) ==> HeardLeast(peers', heard, floor, m)
  {
    hide Replied;
  }

  lemma LeastOfAll(peers: map<NodeId, Peer>, floor: nat, m: nat)
    requires HeardLeast(peers, peers.Keys, floor, m)
    ensures floor <= m && forall c :: c in peers ==> m <= peers[c].seen
  {
  }

  /** The least last learn, once `a` has replied too. */
  lemma LeastBounds(y: Syncing, peers: map<NodeId, Peer>, floor: nat, a: NodeId, last: nat, peers': map<NodeId, Peer>)
    requires RoundOK(y, peers, floor) && y.round.Some? && a in peers && 0 < floor <= last
    requires peers' == peers[a := peers[a].(seen := last, got := y.id)] && peers[a].got != y.id
    ensures var m := Least(last, y.round.value.last);
      m > 0 && a in Replied(peers', y.id) && HeardLeast(peers', Replied(peers', y.id), floor, m)
  {
    var before, after, m := Replied(peers, y.id), Replied(peers', y.id), Least(last, y.round.value.last);
    assert after == before + {a} && a !in before;
    hide Replied;
    if before == {} || last < y.round.value.last {
      assert peers'[a].seen == m;
    } else {
      var c :| c in before && c in peers && peers[c].seen == y.round.value.last;
      assert peers'[c].seen == m;
    }
  }

  lemma RepliedAre(peers: map<NodeId, Peer>, id: nat)
    ensures forall c :: c in Replied(peers, id) <==> c in peers && peers[c].got == id
  {
  }

  lemma RoundBegins(y: Syncing, peers: map<NodeId, Peer>, floor: nat, ihole: nat, members: set<NodeId>)
    requires RoundOK(y, peers, floor) && |members| == |peers| + 1
    requires forall a :: a in peers ==> peers[a].got <= y.id
    ensures var y' := BeginRound(y, ihole, |members|);
      RoundOK(y', peers, floor) && (y'.id == y.id || y'.id == y.id + 1)
  {
    var y' := BeginRound(y, ihole, |members|);
    if y'.id != y.id { assert Replied(peers, y'.id) == {}; }
  }

  // ---- Every step.

  lemma PeerSet(w: View, peers: map<NodeId, Peer>, a: NodeId, q: Peer)
    requires PeersOK(w, peers) && PeerOK(w, q)
    ensures PeersOK(w, peers[a := q])
  {
    hide PeerOK;
  }

  lemma FloorIsPositive(p: Node, ibase: nat, floor: nat, decided: map<nat, Value>)
    requires ProposerOK(p, ibase, floor, decided)
    ensures 0 < floor < p.ihole && p.log != map[]
  {
  }

  /** The system once peer `a`'s message has been taken off its channel. */
  function Taken(s: State, a: NodeId): State
    requires a in s.peers && s.peers[a].up != []
  {
    s.(peers := s.peers[a := Heard(s.peers[a])])
  }

  lemma FromPeers(w: View, peers: map<NodeId, Peer>, a: NodeId)
    requires PeersOK(w, peers) && a in peers
    ensures PeerOK(w, peers[a])
  {
    hide PeerOK;
  }

  lemma FromMember(w: View, q: Peer)
    requires PeerOK(w, q)
    ensures w.floor <= q.seen && q.got <= w.syncId && q.node.ihole > 0
  {
  }

  lemma HeardKeeps(q: Peer)
    requires q.up != [] && !q.up[0].LastLearn?
    ensures Heard(q).got == q.got && Heard(q).seen == q.seen
  {
  }

  lemma TakenFacts(s: State, a: NodeId)
    requires Inv(s) && a in s.peers && s.peers[a].up != []
    ensures s.p.log != map[] && PeersOK(ViewOf(s), Taken(s, a).peers)
    ensures var q := s.peers[a]; UpAt(ViewOf(s), q.node.ihole, q.seen, q.got, q.up[0]) && s.floor <= q.seen
    ensures !s.peers[a].up[0].LastLearn? ==> RoundOK(s.syncing, Taken(s, a).peers, s.floor)
  {
    hide PeerOK, PeersOK, ProposerOK, RoundOK, Heard, UpAt, Last;
    FloorIsPositive(s.p, s.ibase, s.floor, s.decided);
    var q := s.peers[a];
    FromPeers(ViewOf(s), s.peers, a);
    FromMember(ViewOf(s), q);
    HeardOK(ViewOf(s), q);
    PeerSet(ViewOf(s), s.peers, a, Heard(q));
    if !q.up[0].LastLearn? {
      HeardKeeps(q);
      RoundFramed(s.syncing, s.peers, Taken(s, a).peers, s.floor);
    }
  }

  /** What the proposer has released cannot be asked for: an instance above the
      floor and not past the end is listed. */
  lemma AboveFloorIsListed(p: Node, ibase: nat, floor: nat, decided: map<nat, Value>, i: nat)
    requires ProposerOK(p, ibase, floor, decided) && floor < i <= Last(p.log)
    ensures i in p.log && i in decided && decided[i] == p.log[i].value
  {
  }

  lemma CommitBroadcast(w: View, peers: map<NodeId, Peer>, i: nat, v: Value, d: Down)
    requires PeersOK(w, peers) && w.floor < i && Decided(w, i, v) && (d.Commit? || d.Recommit?) && d.inum == i && d.value == v
    ensures PeersOK(w, SendAll(peers, d))
  {
    hide PeerOK;
    forall a | a in peers ensures PeerOK(w, SendAll(peers, d)[a]) { CommitGoesOut(w, peers[a], i, v, d); }
  }

  lemma HearAcceptOK(s: State, a: NodeId, i: nat, have: bool)
    requires Inv(s) && a in s.peers && s.peers[a].up != [] && s.peers[a].up[0] == Up.Accept(i)
    ensures Inv(HearAccept(Taken(s, a), i, have)) && HearAccept(Taken(s, a), i, have).p.alive == s.p.alive
  {
    hide PeerOK, PeersOK, ProposerOK, RoundOK, Heard, Last, AckAccept;
    TakenFacts(s, a);
    var p, s1 := s.p, Taken(s, a);
    AboveFloorIsListed(p, s.ibase, s.floor, s.decided, i);
    AcceptProposer(p, i, have, Members(s1), s.ibase, s.floor, s.decided);
    var t, m := HearAccept(s1, i, have), AckAccept(p, p.ballot, i, have, Members(s1)).node;
    FloorIsPositive(m, s.ibase, s.floor, s.decided);
    if i in m.log && !p.log[i].committed && m.log[i].committed {
      AboveFloorIsListed(m, s.ibase, s.floor, s.decided, i);
      CommitBroadcast(ViewOf(s), s1.peers, i, m.log[i].value, Down.Commit(i, m.log[i].value));
      RoundFramed(s.syncing, s1.peers, t.peers, s.floor);
    }
    assert ViewOf(t) == ViewOf(s);
  }

  lemma HearRetryOK(s: State, a: NodeId, b: Ballot, i: nat)
    requires Inv(s) && a in s.peers && s.peers[a].up != [] && s.peers[a].up[0] == Retry(b, i)
    ensures Inv(HearRetry(Taken(s, a), b, i)) && HearRetry(Taken(s, a), b, i).p.alive == s.p.alive
  {
    hide PeerOK, PeersOK, ProposerOK, RoundOK, Heard, Last;
    TakenFacts(s, a);
    AboveFloorIsListed(s.p, s.ibase, s.floor, s.decided, i);
    var t, s1 := HearRetry(Taken(s, a), b, i), Taken(s, a);
    if s.p.log[i].committed {
      CommitBroadcast(ViewOf(s), s1.peers, i, s.p.log[i].value, Recommit(b, i, s.p.log[i].value));
      RoundFramed(s.syncing, s1.peers, t.peers, s.floor);
    }
    assert ViewOf(t) == ViewOf(s);
  }

  lemma TruncateBroadcast(w: View, w': View, peers: map<NodeId, Peer>)
    requires PeersOK(w, peers) && w.floor <= w'.floor && w' == w.(floor := w'.floor)
    requires forall a :: a in peers ==> w'.floor <= peers[a].seen
    ensures PeersOK(w', SendAll(peers, Truncate(w'.floor)))
  {
    hide PeerOK;
    var d := Truncate(w'.floor);
    forall a | a in peers ensures PeerOK(w', SendAll(peers, d)[a]) { TruncateGoesOut(w, w', peers[a]); }
  }

  lemma BaseUnderFloor(p: Node, ibase: nat, floor: nat, decided: map<nat, Value>)
    requires ProposerOK(p, ibase, floor, decided)
    ensures ibase <= floor
  {
  }

  lemma HearLastOK(s: State, a: NodeId, id: nat, last: nat)
    requires Inv(s) && s.p.ihole > 0 && a in s.peers && s.peers[a].up != [] && s.peers[a].up[0] == LastLearn(id, last)
    ensures s.syncing.round.Some?
    ensures Inv(HearLast(Taken(s, a), id, last)) && HearLast(Taken(s, a), id, last).p.alive == s.p.alive
  {
    hide PeerOK, PeersOK, ProposerOK, RoundOK, Last, TakeLast, From;
    TakenFacts(s, a);
    FloorIsPositive(s.p, s.ibase, s.floor, s.decided);
    BaseUnderFloor(s.p, s.ibase, s.floor, s.decided);
    var s1, w, q := Taken(s, a), ViewOf(s), s.peers[a];
    RoundHears(s.syncing, s.peers, s.floor, a, id, last, s.p.ihole);
    var (y, base) := TakeLast(s.syncing, id, last, s.p.ihole);
    var t := HearLast(s1, id, last);
    if base.None? {
      RoundFramed(y, s.peers[a := q.(seen := last, got := id)], s1.peers, s.floor);
    } else {
      TruncateProposer(s.p, s.ibase, s.floor, s.decided, base.value);
      FloorIsPositive(t.p, base.value, base.value, s.decided);
      assert forall c :: c in s1.peers ==> s1.peers[c].seen == s.peers[a := q.(seen := last, got := id)][c].seen;
      TruncateBroadcast(w, w.(floor := base.value), s1.peers);
      RoundFramed(y, s.peers[a := q.(seen := last, got := id)], t.peers, base.value);
    }
    assert ViewOf(t) == if base.None? then w else w.(floor := base.value);
  }

  lemma ProposeOK(s: State, v: Value, have: bool)
    requires Inv(s)
    ensures Inv(ProposeNext(s, v, have)) && ProposeNext(s, v, have).p.alive == s.p.alive
  {
    hide PeerOK, ProposerOK, RoundOK, Last, NewDecree, NextInstance;
    FloorIsPositive(s.p, s.ibase, s.floor, s.decided);
    var w, t := ViewOf(s), ProposeNext(s, v, have);
    NewDecreeProposer(s.p, v, have, Members(s), s.ibase, s.floor, s.decided);
    FloorIsPositive(t.p, s.ibase, s.floor, t.decided);
    assert ViewOf(t) == w.(last := w.last + 1, decided := w.decided[w.last + 1 := v]);
    forall a | a in t.peers ensures PeerOK(ViewOf(t), t.peers[a]) { DecreeGoesOut(w, ViewOf(t), s.peers[a], v); }
    RoundFramed(s.syncing, s.peers, t.peers, s.floor);
  }

  lemma MemberCount(s: State)
    requires s.p.id !in s.peers
    ensures |Members(s)| == |s.peers| + 1
  {
    assert |s.peers.Keys| == |s.peers|;
  }

  lemma BeginOK(s: State)
    requires Inv(s)
    ensures Inv(BeginSyncing(s))
  {
    hide PeerOK, ProposerOK, RoundOK, Last, BeginRound;
    FloorIsPositive(s.p, s.ibase, s.floor, s.decided);
    MemberCount(s);
    var w, t := ViewOf(s), BeginSyncing(s);
    forall a | a in s.peers ensures s.peers[a].got <= s.syncing.id { FromMember(w, s.peers[a]); }
    RoundBegins(s.syncing, s.peers, s.floor, s.p.ihole, Members(s));
    if t.syncing.id != s.syncing.id {
      forall a | a in t.peers ensures PeerOK(ViewOf(t), t.peers[a]) { SyncGoesOut(w, ViewOf(t), s.peers[a]); }
      RoundFramed(t.syncing, s.peers, t.peers, s.floor);
    } else {
      assert ViewOf(t) == w;
    }
  }

  /** A step of peer `a` alone. */
  lemma PeerStepOK(s: State, a: NodeId, q: Peer)
    requires Inv(s) && a in s.peers && s.p.log != map[] && PeerOK(ViewOf(s), q)
    requires q.seen == s.peers[a].seen && q.got == s.peers[a].got
    ensures Inv(s.(peers := s.peers[a := q]))
  {
    hide ProposerOK, RoundOK, PeersOK, PeerOK, Last;
    var t := s.(peers := s.peers[a := q]);
    PeerSet(ViewOf(s), s.peers, a, q);
    RoundFramed(s.syncing, s.peers, t.peers, s.floor);
    assert ViewOf(t) == ViewOf(s);
  }

  /** A decree that takes `a` by surprise: the part, in its ballot, of someone it does not list. */
  predicate Misses(s: State, step: Step, a: NodeId)
    requires Enabled(s, step) && a in s.peers
  {
    step.Take? && step.peer == a && MissesAcceptor(s.peers[a], s.p.ballot)
  }

  /** The values that `a` learns in a step. */
  function PeerLearns(s: State, step: Step, a: NodeId): seq<Value>
    requires Enabled(s, step) && a in s.peers
  {
    if (step.Take? || step.PeerResend?) && step.peer == a
    then Learned(s.peers[a].node, Handle(s, step).peers[a].node)
    else []
  }

  /** The values that the proposer learns in a step. */
  function ProposerLearns(s: State, step: Step): seq<Value>
    requires Enabled(s, step)
  {
    if step.Relink? || step.Crash? then [] else Learned(s.p, Handle(s, step).p)
  }

  function PeerFate(s: State, step: Step, a: NodeId): Fate
    requires Enabled(s, step) && a in s.peers
  {
    var q := s.peers[a];
    FateAfter(q.listed, q.node.id, q.node.proposer, PeerLearns(s, step, a), q.node.ihole)
  }

  function ProposerFate(s: State, step: Step): Fate
    requires Enabled(s, step)
  {
    FateAfter(s.listed, s.p.id, s.p.proposer, ProposerLearns(s, step), s.p.ihole)
  }

  /** What a step other than a crash does to the members: whom it stops, and who fails in it. */
  ghost predicate StopsAsListed(s: State, step: Step, t: State)
    requires Enabled(s, step)
  {
    && t.peers.Keys == s.peers.Keys
    && (forall a :: a in s.peers ==>
          && (t.peers[a].node.alive <==> s.peers[a].node.alive && !Misses(s, step, a) && PeerFate(s, step, a) == Stays)
          && (t.peers[a].failed <==> s.peers[a].failed || Misses(s, step, a) || PeerFate(s, step, a) == Fails))
    && (t.p.alive <==> s.p.alive && ProposerFate(s, step) == Stays)
    && (t.failed <==> s.failed || ProposerFate(s, step) == Fails)
  }

  lemma CrashOK(w: View, q: Peer)
    requires PeerOK(w, q)
    ensures PeerOK(w, q.(node := q.node.(alive := false)))
  {
    hide HoleOK, LogAgrees, UpAt, UpAfter, DownAt, DownAfter, Across;
  }

  lemma NothingLearned(listed: map<NodeId, bool>, n: Node)
    ensures Learned(n, n) == [] && FateAfter(listed, n.id, n.proposer, [], n.ihole) == Stays
  {
  }

  /** Those who take no part in a step learn nothing in it. */
  lemma OthersStay(s: State, step: Step)
    requires Enabled(s, step) && (step.Take? || step.PeerResend? || step.Relink?)
    ensures ProposerFate(s, step) == Stays
    ensures forall c :: c in s.peers && c != step.peer ==> PeerFate(s, step, c) == Stays && !Misses(s, step, c)
  {
    hide FateAfter, Learned, Handled, AckResend, Asks, MissesAcceptor;
    NothingLearned(s.listed, s.p);
    forall c | c in s.peers && c != step.peer ensures PeerFate(s, step, c) == Stays {
      NothingLearned(s.peers[c].listed, s.peers[c].node);
    }
  }

  lemma OnePeerStops(s: State, step: Step, q: Peer)
    requires Enabled(s, step) && (step.Take? || step.PeerResend? || step.Relink?) && step.peer in s.peers
    requires var a, p := step.peer, s.peers[step.peer];
      && (q.node.alive <==> p.node.alive && !Misses(s, step, a) && PeerFate(s, step, a) == Stays)
      && (q.failed <==> p.failed || Misses(s, step, a) || PeerFate(s, step, a) == Fails)
    ensures StopsAsListed(s, step, s.(peers := s.peers[step.peer := q]))
  {
    hide PeerFate, ProposerFate, Misses;
    OthersStay(s, step);
  }

  lemma TakeStepOK(s: State, a: NodeId, have: bool)
    requires Inv(s) && Enabled(s, Take(a, have))
    ensures var t := Apply(s, Take(a, have)); Inv(t) && StopsAsListed(s, Take(a, have), t)
  {
    hide ProposerOK, RoundOK, PeersOK, PeerOK, Last, TakeDown, Handled, MissesAcceptor, Learned, FateAfter, StopsAsListed;
    FloorIsPositive(s.p, s.ibase, s.floor, s.decided);
    var q := s.peers[a];
    FromPeers(ViewOf(s), s.peers, a);
    TakeOK(ViewOf(s), q, have);
    TakeFrame(q, s.p.ballot, have);
    PeerStepOK(s, a, TakeDown(q, s.p.ballot, have));
    hide Inv;
    OnePeerStops(s, Take(a, have), TakeDown(q, s.p.ballot, have));
  }

  lemma TakeFrame(q: Peer, b: Ballot, have: bool)
    requires q.down != [] && q.node.ihole > 0
    ensures TakeDown(q, b, have).seen == q.seen && TakeDown(q, b, have).got == q.got
  {
    hide Handled, FateOn, ListAfter, Learned;
    HandledFrame(q, b, have);
  }

  lemma PeerResendStepOK(s: State, a: NodeId, i: nat)
    requires Inv(s) && Enabled(s, PeerResend(a, i))
    ensures var t := Apply(s, PeerResend(a, i)); Inv(t) && StopsAsListed(s, PeerResend(a, i), t)
  {
    hide ProposerOK, RoundOK, PeersOK, PeerOK, Last, AckResend, Asks, Learned, FateAfter, StopsAsListed, Heeds;
    FloorIsPositive(s.p, s.ibase, s.floor, s.decided);
    FromPeers(ViewOf(s), s.peers, a);
    PeerResendOK(ViewOf(s), s.peers[a], i);
    var q := Heeds(s.peers[a], Committed(s.peers[a], i, AckResend(s.peers[a].node, i).node));
    PeerStepOK(s, a, q);
    hide Inv;
    OnePeerStops(s, PeerResend(a, i), q);
  }

  lemma ProposerResendOK(s: State, i: nat)
    requires Inv(s) && CommittedIn(s.p.log, i)
    ensures Inv(s.(p := AckResend(s.p, i).node)) && AckResend(s.p, i).node.alive == s.p.alive
  {
    hide ProposerOK, RoundOK, PeersOK, Last, AckResend;
    FloorIsPositive(s.p, s.ibase, s.floor, s.decided);
    ResendProposer(s.p, i, s.ibase, s.floor, s.decided);
    FloorIsPositive(AckResend(s.p, i).node, s.ibase, s.floor, s.decided);
    assert ViewOf(s.(p := AckResend(s.p, i).node)) == ViewOf(s);
  }

  lemma CrashStepOK(s: State, a: NodeId)
    requires Inv(s) && a in s.peers
    ensures Inv(s.(peers := s.peers[a := s.peers[a].(node := s.peers[a].node.(alive := false))]))
  {
    hide ProposerOK, RoundOK, PeersOK, PeerOK, Last;
    FloorIsPositive(s.p, s.ibase, s.floor, s.decided);
    FromPeers(ViewOf(s), s.peers, a);
    CrashOK(ViewOf(s), s.peers[a]);
    PeerStepOK(s, a, s.peers[a].(node := s.peers[a].node.(alive := false)));
  }

  lemma HearStepOK(s: State, a: NodeId, have: bool)
    requires Inv(s) && Enabled(s, Hear(a, have))
    ensures Inv(HearUp(s, a, have)) && HearUp(s, a, have).p.alive == s.p.alive
  {
    hide Inv, HearAccept, HearRetry, HearLast;
    match s.peers[a].up[0]
    case Accept(i) => HearAcceptOK(s, a, i, have);
    case Retry(b, i) => HearRetryOK(s, a, b, i);
    case LastLearn(id, last) => HearLastOK(s, a, id, last);
  }

  lemma RelinkStepOK(s: State, a: NodeId, c: NodeId, connected: bool)
    requires Inv(s) && Enabled(s, Relink(a, c, connected))
    ensures var t := Apply(s, Relink(a, c, connected)); Inv(t) && StopsAsListed(s, Relink(a, c, connected), t)
  {
    hide ProposerOK, RoundOK, PeersOK, PeerOK, Last, StopsAsListed;
    FloorIsPositive(s.p, s.ibase, s.floor, s.decided);
    FromPeers(ViewOf(s), s.peers, a);
    var q := s.peers[a].(listed := s.peers[a].listed[c := connected]);
    ListedElsewhere(ViewOf(s), s.peers[a], q);
    PeerStepOK(s, a, q);
    hide Inv;
    NothingLearned(s.peers[a].listed, s.peers[a].node);
    OnePeerStops(s, Relink(a, c, connected), q);
  }

  /** What the proposer has learned changes only its list and whether it goes on. */
  lemma HeedingOK(s: State, t: State)
    requires Inv(t)
    ensures Inv(ProposerHeeds(s, t))
  {
    hide RoundOK, PeersOK, Last, HoleOK, FateOn, ListAfter;
    var u := ProposerHeeds(s, t);
    FloorIsPositive(t.p, t.ibase, t.floor, t.decided);
    assert ViewOf(u) == ViewOf(t);
  }

  predicate ByProposer(step: Step) {
    step.Hear? || step.ProposerResend? || step.Propose? || step.BeginSync?
  }

  /** A step of the proposer, whose handlers on their own do not stop it. */
  lemma ProposerStepOK(s: State, step: Step)
    requires Inv(s) && Enabled(s, step) && ByProposer(step)
    requires Inv(Handle(s, step)) && Handle(s, step).p.alive == s.p.alive
    ensures Inv(Apply(s, step)) && StopsAsListed(s, step, Apply(s, step))
  {
    hide Inv, Handle, Learned, FateAfter, ListAfter, Misses, PeerFate, Untouched, StopsAsListed;
    HeedingOK(s, Handle(s, step));
    HandleTouches(s, step);
    PeersStay(s, step);
    ProposerStopsOnly(s, step, Handle(s, step));
  }

  lemma ProposerStopsOnly(s: State, step: Step, t: State)
    requires Enabled(s, step) && ByProposer(step) && t == Handle(s, step) && Untouched(s, t) && t.p.alive == s.p.alive
    requires forall a :: a in s.peers ==> PeerFate(s, step, a) == Stays && !Misses(s, step, a)
    ensures StopsAsListed(s, step, ProposerHeeds(s, t))
  {
    hide Handle, Learned, FateAfter, ListAfter, Misses, PeerFate;
  }

  lemma PeersStay(s: State, step: Step)
    requires Enabled(s, step) && ByProposer(step)
    ensures forall a :: a in s.peers ==> PeerFate(s, step, a) == Stays && !Misses(s, step, a)
  {
    hide FateAfter;
    forall a | a in s.peers ensures PeerFate(s, step, a) == Stays {
      NothingLearned(s.peers[a].listed, s.peers[a].node);
    }
  }

  /** A step of the proposer leaves the participants behind the channels alone. */
  predicate Untouched(s: State, t: State) {
    && t.peers.Keys == s.peers.Keys && t.failed == s.failed
    && forall a :: a in s.peers ==> t.peers[a].node == s.peers[a].node && t.peers[a].failed == s.peers[a].failed
  }

  lemma HandleTouches(s: State, step: Step)
    requires Enabled(s, step) && ByProposer(step)
    ensures Untouched(s, Handle(s, step))
  {
    hide HearUp, ProposeNext, BeginSyncing, AckResend, Untouched;
    match step
    case Hear(a, have) => HearTouches(s, a, have);
    case ProposerResend(i) => SelfTouches(s, AckResend(s.p, i).node);
    case Propose(v, have) => ProposeTouches(s, v, have);
    case BeginSync => SyncingTouches(s);
  }

  lemma SelfTouches(s: State, p: Node)
    ensures Untouched(s, s.(p := p))
  {
  }

  lemma ProposeTouches(s: State, v: Value, have: bool)
    ensures Untouched(s, ProposeNext(s, v, have))
  {
    hide NewDecree, NextInstance;
  }

  lemma SyncingTouches(s: State)
    ensures Untouched(s, BeginSyncing(s))
  {
    hide BeginRound;
  }

  /** Every step keeps the invariant.  No handler fails on its log or on a
      message; who stops is told by the lists of acceptors alone. */
  lemma StepKeepsInv(s: State, step: Step)
    requires Inv(s) && Enabled(s, step)
    ensures Inv(Apply(s, step))
    ensures !step.Crash? ==> StopsAsListed(s, step, Apply(s, step))
  {
    hide Inv, TakeDown, HearUp, AckResend, NewDecree, NextInstance, BeginRound, ProposerHeeds, Heeds, StopsAsListed;
    match step
    case Take(a, have) => TakeStepOK(s, a, have);
    case PeerResend(a, i) => PeerResendStepOK(s, a, i);
    case Hear(a, have) =>
      HearStepOK(s, a, have);
      ProposerStepOK(s, step);
    case ProposerResend(i) =>
      ProposerResendOK(s, i);
      ProposerStepOK(s, step);
    case Propose(v, have) =>
      ProposeOK(s, v, have);
      ProposerStepOK(s, step);
    case BeginSync =>
      BeginOK(s);
      ProposerStepOK(s, step);
    case Relink(a, c, connected) => RelinkStepOK(s, a, c, connected);
    case Crash(a) => CrashStepOK(s, a);
  }

  lemma HearTouches(s: State, a: NodeId, have: bool)
    requires a in s.peers && s.peers[a].up != [] && s.p.ihole > 0
    ensures Untouched(s, HearUp(s, a, have))
  {
    hide HearAccept, HearRetry, HearLast, Untouched;
    var t := Taken(s, a);
    assert Untouched(s, t) by { TakenTouches(s, a); }
    match s.peers[a].up[0]
    case Accept(i) => AcceptTouches(t, i, have); UntouchedChain(s, t, HearAccept(t, i, have));
    case Retry(b, i) => RetryTouches(t, b, i); UntouchedChain(s, t, HearRetry(t, b, i));
    case LastLearn(id, last) => LastTouches(t, id, last); UntouchedChain(s, t, HearLast(t, id, last));
  }

  lemma UntouchedChain(s: State, t: State, u: State)
    requires Untouched(s, t) && Untouched(t, u)
    ensures Untouched(s, u)
  {
  }

  lemma TakenTouches(s: State, a: NodeId)
    requires a in s.peers && s.peers[a].up != []
    ensures Untouched(s, Taken(s, a))
  {
  }

  lemma AcceptTouches(s: State, i: nat, have: bool)
    ensures Untouched(s, HearAccept(s, i, have))
  {
    hide AckAccept;
  }

  lemma RetryTouches(s: State, b: Ballot, i: nat)
    ensures Untouched(s, HearRetry(s, b, i))
  {
  }

  lemma LastTouches(s: State, id: nat, last: nat)
    requires s.p.ihole > 0
    ensures Untouched(s, HearLast(s, id, last))
  {
    hide TakeLast;
  }
}
