/** A new decree by an established proposer keeps the invariant. */
module PreservationDecree {
  import opened Types
  import opened Quorums
  import opened Voting
  import opened Node
  import opened Protocol
  import opened Invariant
  import opened Preservation
  import opened PreservationCommit
  import opened PreservationVote

  function DecreedHistory(h: History, x: Vote): History {
    Cast(h, {x}, {x}).(decreed := h.decreed[(x.ballot, x.inum) := x.value])
  }

  function OwnEntry(b: Ballot, v: Value): Entry {
    Entry(b, v, false, false, false, 1)
  }

  /** Nobody in the quorum that prepared us voted past the end of our log. */
  lemma NewDecreeLawful(h: History, counted: map<(Ballot, nat), set<NodeId>>, n: Node, x: Vote)
    requires Lawful(h) && NodeOK(h, n) && EstablishedOK(h, counted, n) && Established(n)
    requires x.voter == n.id && x.ballot == n.ballot && x.inum !in n.log
    requires (x.ballot, x.inum) !in h.decreed
    ensures Lawful(DecreedHistory(h, x)) && GrowsBy(h, DecreedHistory(h, x), n.id)
  {
    hide LearnsOK, DecreesSafe, LogOK;
    var h', b, i := DecreedHistory(h, x), x.ballot, x.inum;
    var q := h.prepared[b];
    assert NeverVoted(h, q, i, b);
    assert h'.prepared == h.prepared[b := q];
    assert Prepared(h, h', q, b);
    DecreeingKeepsLawful(h, h', q, b);
  }

  lemma DecreerOK(h: History, counted: map<(Ballot, nat), set<NodeId>>, n: Node, x: Vote)
    requires NodeOK(h, n) && EstablishedOK(h, counted, n) && Established(n)
    requires x.voter == n.id && x.ballot == n.ballot && x.inum !in n.log && x.inum > 0
    requires (x.ballot, x.inum) !in h.decreed && VotesLawful(h) && PreparesLawful(h)
    requires GrowsBy(h, DecreedHistory(h, x), n.id)
    ensures var h' := DecreedHistory(h, x);
      var n' := n.(log := n.log[x.inum := OwnEntry(x.ballot, x.value)]);
      && NodeOK(h', n') && Evolves(n, n')
      && EstablishedOK(h', counted[(x.ballot, x.inum) := {n.id}], n')
  {
    hide VotesLawful, LogOK, LearnsOK;
    assert LogOK(h, n.id, n.log) && LearnsOK(n.log, n.ihole, n.learns);
    DecreedLogOK(h, n, x);
    DecreedLearnsOK(n.log, n.ihole, n.learns, x.inum, OwnEntry(x.ballot, x.value));
  }

  lemma DecreedLearnsOK(log: Log, ihole: nat, learns: seq<Value>, i: nat, e: Entry)
    requires LearnsOK(log, ihole, learns) && i !in log
    ensures LearnsOK(log[i := e], ihole, learns)
  {
    var log' := log[i := e];
    forall j | 1 <= j < ihole ensures Ready(log', j) { assert Ready(log, j); }
  }

  lemma DecreedLogOK(h: History, n: Node, x: Vote)
    requires LogOK(h, n.id, n.log)
    requires x.voter == n.id && x.ballot == n.ballot && x.inum !in n.log && x.inum > 0
    requires (x.ballot, x.inum) !in h.decreed && VotesLawful(h)
    requires GrowsBy(h, DecreedHistory(h, x), n.id)
    ensures LogOK(DecreedHistory(h, x), n.id, n.log[x.inum := OwnEntry(x.ballot, x.value)])
  {
    var h' := DecreedHistory(h, x);
    var n' := n.(log := n.log[x.inum := OwnEntry(x.ballot, x.value)]);
    forall j | j in n'.log ensures Backed(h', j, n'.log[j].ballot, n'.log[j].value) {
      if j != x.inum { BackedStays(h, h', j, n.log[j].ballot, n.log[j].value); }
    }
    forall j | j in n'.log && n'.log[j].committed ensures Chosen(h', j, n'.log[j].value) {
      ChosenStays(h, h', j, n.log[j].value);
    }
  }

  /** The state once a value has been entered and its decree broadcast. */
  function Entered(s: State, a: NodeId, v: Value): State
    requires a in s.nodes
  {
    var n := s.nodes[a];
    var i := NextInstance(n.log);
    var o := EnterDecree(n, v, s.nodes.Keys);
    s.(nodes := s.nodes[a := o.node],
       net := s.net + multiset(o.sent),
       hist := DecreedHistory(s.hist, Vote(a, i, n.ballot, v)),
       counted := s.counted[(n.ballot, i) := {a}])
  }

  lemma NextIsFree(n: Node)
    requires 1 in n.log
    ensures NextInstance(n.log) !in n.log && NextInstance(n.log) > 0
  {
  }

  lemma FreeIsUndecreed(s: State, a: NodeId, i: nat)
    requires RecordsOK(s) && a in s.nodes && i !in s.nodes[a].log && s.nodes[a].ballot.id == a
    ensures (s.nodes[a].ballot, i) !in s.hist.decreed && (s.nodes[a].ballot, i) !in s.counted
  {
    hide AllVoted, OwnerOK;
    var b := s.nodes[a].ballot;
    assert (b, i) in s.hist.decreed ==> DecreedOK(s.hist, s.nodes, s.counted, b, i);
  }

  lemma EnteredRecords(s: State, a: NodeId, v: Value)
    requires RecordsOK(s) && a in s.nodes && s.nodes[a].ballot.id == a
    requires Established(s.nodes[a]) && NextInstance(s.nodes[a].log) !in s.nodes[a].log
    ensures RecordsOK(Entered(s, a, v))
  {
    var s', b, i := Entered(s, a, v), s.nodes[a].ballot, NextInstance(s.nodes[a].log);
    FreeIsUndecreed(s, a, i);
    forall c | c in s'.hist.prepared ensures OwnerOK(s'.nodes, c) { assert OwnerOK(s.nodes, c); }
    forall c, j | (c, j) in s'.hist.decreed ensures DecreedOK(s'.hist, s'.nodes, s'.counted, c, j) {
      if (c, j) != (b, i) { assert DecreedOK(s.hist, s.nodes, s.counted, c, j); }
    }
  }

  lemma EnteredOnce(s: State, a: NodeId, v: Value)
    requires NetOK(s) && VotesLawful(s.hist) && a in s.nodes && s.nodes[a].ballot.id == a == s.nodes[a].id
    requires var k := (s.nodes[a].ballot, NextInstance(s.nodes[a].log)); k !in s.hist.decreed && k !in s.counted
    ensures var s' := Entered(s, a, v);
      forall m :: m in s'.net ==> PromiseOnce(s', m) && VoteOnce(s', m)
  {
    hide Genuine, AnyChosen, NextInstance, MessageOK, PromiseOnce, VoteOnce;
    var s', b, i := Entered(s, a, v), s.nodes[a].ballot, NextInstance(s.nodes[a].log);
    var sent := EnterDecree(s.nodes[a], v, s.nodes.Keys).sent;
    GenuineIsDecreed(s.hist, b, i);
    forall m | m in s.net ensures m !in sent {
      assert MessageOK(s.hist, s.nodes, m);
      DecreeIsGenuine(s.hist, s.nodes, m);
    }
    forall m | m in s.net ensures PromiseOnce(s', m) && VoteOnce(s', m) {
      assert MessageOK(s.hist, s.nodes, m) && PromiseOnce(s, m) && VoteOnce(s, m);
      OldStaysOnce(s, a, v, m);
    }
    forall m | m in sent ensures PromiseOnce(s', m) && VoteOnce(s', m) {
      assert m == Decree(m.dst, b, i, v) && m.dst != a;
      assert Vote(m.dst, i, b, v) in s.hist.votes ==> Genuine(s.hist, i, b, v);
      NewOnce(s, a, v, m);
    }
  }

  lemma DecreeIsGenuine(h: History, nodes: map<NodeId, Node>, m: Message)
    requires MessageOK(h, nodes, m)
    ensures m.Decree? ==> Genuine(h, m.inum, m.ballot, m.value)
    ensures m.Accept? ==> (m.ballot, m.inum) in h.decreed
  {
  }

  lemma OldStaysOnce(s: State, a: NodeId, v: Value, m: Message)
    requires a in s.nodes && s.nodes[a].ballot.id == a == s.nodes[a].id && m in s.net
    requires MessageOK(s.hist, s.nodes, m) && PromiseOnce(s, m) && VoteOnce(s, m)
    requires (s.nodes[a].ballot, NextInstance(s.nodes[a].log)) !in s.hist.decreed
    requires m !in EnterDecree(s.nodes[a], v, s.nodes.Keys).sent
    ensures PromiseOnce(Entered(s, a, v), m) && VoteOnce(Entered(s, a, v), m)
  {
    hide NextInstance, MessageOK, Genuine;
    DecreeIsGenuine(s.hist, s.nodes, m);
    if m.Decree? { GenuineIsDecreed(s.hist, m.ballot, m.inum); }
  }

  lemma NewOnce(s: State, a: NodeId, v: Value, m: Message)
    requires a in s.nodes && m in EnterDecree(s.nodes[a], v, s.nodes.Keys).sent && m !in s.net && m.dst != a
    requires m.Decree? && Vote(m.dst, m.inum, m.ballot, m.value) !in s.hist.votes
    ensures PromiseOnce(Entered(s, a, v), m) && VoteOnce(Entered(s, a, v), m)
  {
    hide NextInstance;
  }

  lemma GenuineIsDecreed(h: History, b: Ballot, i: nat)
    ensures forall v :: Genuine(h, i, b, v) ==> (b, i) in h.decreed
  {
  }

  lemma EnterKeepsInv(s: State, a: NodeId, v: Value)
    requires Inv(s) && a in s.nodes && Established(s.nodes[a])
    ensures Inv(Entered(s, a, v))
  {
    hide NodeOK, PrepOK, EstablishedOK, RecordsOK, PromiseOnce, VoteOnce, NodesOK, GrowsBy, Last,
      DecreesSafe, VotesLawful, PreparesLawful, Evolves;
    var n, s' := s.nodes[a], Entered(s, a, v);
    var i := NextInstance(n.log);
    var x := Vote(a, i, n.ballot, v);
    assert ParticipantOK(s, a) by { IsParticipant(s, a); }
    PositiveLog(s.hist, n);
    OwnsBallot(s.hist, s.counted, n);
    NextIsFree(n);
    hide NextInstance;
    FreeIsUndecreed(s, a, i);
    NewDecreeLawful(s.hist, s.counted, n, x);
    DecreerOK(s.hist, s.counted, n, x);
    Unprepared(s'.hist, s.acked[a], s'.nodes[a]);
    EnteredRecords(s, a, v);
    EnteredOnce(s, a, v);
    hide Lawful;
    EnteredMoves(s, a, v);
    Finish(s, s', a);
  }

  lemma EnteredMoves(s: State, a: NodeId, v: Value)
    requires a in s.nodes && a in s.acked && s.nodes[a].ballot.id == a
    requires Evolves(s.nodes[a], Entered(s, a, v).nodes[a])
    requires GrowsBy(s.hist, Entered(s, a, v).hist, a)
    ensures Moves(s, Entered(s, a, v), a)
  {
    hide GrowsBy, Evolves, NextInstance;
  }

  lemma OwnsBallot(h: History, counted: map<(Ballot, nat), set<NodeId>>, n: Node)
    requires EstablishedOK(h, counted, n) && Established(n)
    ensures n.ballot.id == n.id && n.ballot in h.prepared
  {
  }

  lemma CommitSends(n: Node, i: nat, have: bool, acceptors: set<NodeId>)
    requires i in n.log
    ensures forall m :: m in ProposerCommit(n, i, have, acceptors).sent ==> m.Commit? || m.Resend?
  {
  }

  lemma SendBoth(net: multiset<Message>, first: set<Message>, second: set<Message>)
    requires forall m :: m in first ==> m !in second
    ensures net + multiset(first) - multiset{} + multiset(second) == net - multiset{} + multiset(first + second)
  {
    assert multiset(first + second) == multiset(first) + multiset(second);
  }

  lemma LoneDecree(n: Node, v: Value, have: bool, acceptors: set<NodeId>)
    requires 1 >= Majority(|acceptors|)
    ensures var o := EnterDecree(n, v, acceptors);
      var i := NextInstance(n.log);
      && i in o.node.log && o.node.ballot == n.ballot
      && var c := ProposerCommit(o.node, i, have, acceptors);
      && c.node.ballot == n.ballot
      && NewDecree(n, v, have, acceptors) == c.(sent := o.sent + c.sent)
      && forall m :: m in o.sent ==> m !in c.sent
  {
    hide NextInstance, CommitInstance;
    var o, i := EnterDecree(n, v, acceptors), NextInstance(n.log);
    CommitSends(o.node, i, have, acceptors);
    CommitKeepsBallot(o.node, i, have, acceptors);
  }

  /** A lone participant's request is a decree followed at once by its commit. */
  lemma AloneCommits(s: State, a: NodeId, v: Value, have: bool)
    requires a in s.nodes && a in s.hist.promised && s.hist.promised[a] == s.nodes[a].ballot
    requires 1 >= Majority(|s.nodes.Keys|)
    ensures var n, s1 := s.nodes[a], Entered(s, a, v);
      && NextInstance(n.log) in s1.nodes[a].log
      && ApplyRequest(s, a, v, have) ==
         Install(s1, a, ProposerCommit(s1.nodes[a], NextInstance(n.log), have, s.nodes.Keys), multiset{})
  {
    hide NextInstance, ProposerCommit, EnterDecree, NewDecree;
    var n, s1 := s.nodes[a], Entered(s, a, v);
    LoneDecree(n, v, have, s.nodes.Keys);
    var i := NextInstance(n.log);
    var o, c := EnterDecree(n, v, s.nodes.Keys), ProposerCommit(s1.nodes[a], i, have, s.nodes.Keys);
    SendBoth(s.net, o.sent, c.sent);
    SamePromise(s.hist, a);
    var x, y := ApplyRequest(s, a, v, have), Install(s1, a, c, multiset{});
    assert s1.nodes[a := c.node] == s.nodes[a := c.node];
    assert x.hist.promised == y.hist.promised == s.hist.promised;
    assert x.nodes == y.nodes && x.net == y.net && x.hist == y.hist && x.counted == y.counted && x.acked == y.acked;
  }

  lemma RequestKeepsInv(s: State, a: NodeId, v: Value, have: bool)
    requires Inv(s) && a in s.nodes && Established(s.nodes[a])
    ensures Inv(ApplyRequest(s, a, v, have))
  {
    hide Inv, ProposerCommit, Last, NextInstance;
    EnterKeepsInv(s, a, v);
    PromisedInState(s, a);
    SamePromise(s.hist, a);
    var n, s1 := s.nodes[a], Entered(s, a, v);
    assert s1.nodes.Keys == s.nodes.Keys;
    if 1 >= Majority(|s.nodes.Keys|) {
      AloneCommits(s, a, v, have);
      OwnCommitKeepsInv(s1, a, NextInstance(n.log), have);
    } else {
      assert ApplyRequest(s, a, v, have) == s1;
    }
  }
}
