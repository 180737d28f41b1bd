/** Committing and counting votes keep the invariant. */
module PreservationCommit {
  import opened Types
  import opened Quorums
  import opened Voting
  import opened Node
  import opened Protocol
  import opened Invariant
  import opened Preservation

  /** Committing a chosen value in place. */
  lemma CommitterOK(h: History, acked: set<NodeId>, counted: map<(Ballot, nat), set<NodeId>>, n: Node, i: nat, have: bool)
    requires NodeOK(h, n) && PrepOK(h, acked, n) && EstablishedOK(h, counted, n)
    requires i in n.log && !Ready(n.log, i) && i > 0 && Chosen(h, i, n.log[i].value)
    ensures var o := CommitInstance(n, i, have);
      && NodeOK(h, o.node) && PrepOK(h, acked, o.node) && EstablishedOK(h, counted, o.node)
      && Evolves(n, o.node) && o.sent <= {Resend(n.id, i)}
      && i in o.node.log && o.node.log[i].committed && SameRole(n, o.node) && CommitsOnly(n.log, o.node.log, i)
  {
    hide Chosen, Backed;
    CommitEffect(n, i, have);
    CommitKeepsLog(h, n.id, n.log, CommitInstance(n, i, have).node.log, i);
    hide CommitInstance;
  }

  /** Replacing an uncommitted value by a chosen one, or entering it. */
  lemma OverwriterOK(h: History, n: Node, b: Ballot, i: nat, v: Value)
    requires NodeOK(h, n) && !IsProposer(n) && i > 0 && Chosen(h, i, v)
    requires i in n.log ==> !n.log[i].committed
    ensures var e := if i in n.log then n.log[i].(value := v) else Entry(b, v, false, false, false, 0);
      var n' := n.(log := n.log[i := e]);
      NodeOK(h, n') && Evolves(n, n') && !Ready(n'.log, i)
  {
    var e := if i in n.log then n.log[i].(value := v) else Entry(b, v, false, false, false, 0);
    var log := n.log[i := e];
    assert i < n.ihole ==> Ready(n.log, i);
    assert LogOK(h, n.id, log) by {
      forall j | j in log ensures Backed(h, j, log[j].ballot, log[j].value) {
        if j != i { assert Backed(h, j, n.log[j].ballot, n.log[j].value); }
      }
    }
    assert LearnsOK(log, n.ihole, n.learns) by {
      forall j | 1 <= j < n.ihole ensures Ready(log, j) { assert Ready(n.log, j); }
    }
  }

  lemma Idle(h: History, acked: set<NodeId>, counted: map<(Ballot, nat), set<NodeId>>, n: Node)
    requires NodeOK(h, n) && !IsProposer(n)
    ensures PrepOK(h, acked, n) && EstablishedOK(h, counted, n)
  {
  }

  lemma AckCommitKeepsInv(s: State, a: NodeId, b: Ballot, i: nat, v: Value, have: bool)
    requires Inv(s) && Commit(a, b, i, v) in s.net && a in s.nodes
    ensures Inv(Install(s, a, AckCommit(s.nodes[a], b, i, v, have), multiset{Commit(a, b, i, v)}))
  {
    hide Lawful, RecordsOK, NodeOK, PrepOK, EstablishedOK, PromiseOnce, VoteOnce, Evolves, CommitInstance, CommitsOnly;
    var n, m := s.nodes[a], Commit(a, b, i, v);
    var o := AckCommit(n, b, i, v, have);
    var s' := Install(s, a, o, multiset{m});
    assert ParticipantOK(s, a) && MessageOK(s.hist, s.nodes, m);
    PromisedIs(s.hist, n);
    if IsProposer(n) || (i in n.log && n.log[i].committed) {
      SamePromise(s.hist, a);
      DropKeepsInv(s, s', a, n, multiset{m});
    } else {
      var e := if i in n.log then n.log[i].(value := v) else Entry(b, v, false, false, false, 0);
      var n1 := n.(log := n.log[i := e]);
      OverwriterOK(s.hist, n, b, i, v);
      Idle(s.hist, s.acked[a], s.counted, n1);
      CommitterOK(s.hist, s.acked[a], s.counted, n1, i, have);
      EvolvesChain(n, n1, o.node);
      QuietInstall(s, a, o, multiset{m});
    }
  }

  lemma EvolvesChain(n: Node, n1: Node, n2: Node)
    requires Evolves(n, n1) && Evolves(n1, n2)
    ensures Evolves(n, n2)
  {
  }

  lemma AckResendKeepsInv(s: State, a: NodeId, i: nat)
    requires Inv(s) && Resend(a, i) in s.net && a in s.nodes
    ensures Inv(Install(s, a, AckResend(s.nodes[a], i), multiset{Resend(a, i)}))
  {
    hide Lawful, RecordsOK, NodeOK, PrepOK, EstablishedOK, PromiseOnce, VoteOnce, Evolves, CommitInstance, CommitsOnly;
    var n, m := s.nodes[a], Resend(a, i);
    var o := AckResend(n, i);
    var s' := Install(s, a, o, multiset{m});
    assert ParticipantOK(s, a) && MessageOK(s.hist, s.nodes, m);
    PromisedIs(s.hist, n);
    if i !in n.log || n.log[i].cached {
      SamePromise(s.hist, a);
      DropKeepsInv(s, s', a, n, multiset{m});
    } else {
      assert i > 0 && Chosen(s.hist, i, n.log[i].value) by { CommittedIsChosen(s.hist, n, i); }
      CommitterOK(s.hist, s.acked[a], s.counted, n, i, true);
      QuietInstall(s, a, o, multiset{m});
    }
  }

  lemma CommittedIsChosen(h: History, n: Node, i: nat)
    requires NodeOK(h, n) && i in n.log && n.log[i].committed
    ensures i > 0 && Chosen(h, i, n.log[i].value)
  {
  }

  // ---- The proposer counts votes.

  lemma OpenDecree(h: History, counted: map<(Ballot, nat), set<NodeId>>, n: Node, i: nat)
    requires NodeOK(h, n) && EstablishedOK(h, counted, n) && Established(n)
    requires i in n.log && !n.log[i].committed
    ensures i > 0 && Genuine(h, i, n.ballot, n.log[i].value)
    ensures (n.ballot, i) in counted && n.log[i].votes == |counted[(n.ballot, i)]|
  {
    hide LearnsOK;
  }

  lemma CountedQuorum(h: History, nodes: map<NodeId, Node>, counted: map<(Ballot, nat), set<NodeId>>, b: Ballot, i: nat, v: Value)
    requires Lawful(h) && Genuine(h, i, b, v) && DecreedOK(h, nodes, counted, b, i)
    requires h.promised.Keys == nodes.Keys && |counted[(b, i)]| >= Majority(|nodes.Keys|)
    ensures Chosen(h, i, v)
  {
    hide DecreesSafe, VotesLawful, PreparesLawful;
    var q := counted[(b, i)];
    assert IsQuorum(h.promised.Keys, q) && AllVoted(h.votes, q, i, b, v);
    MajorityChooses(h, i, b, v);
  }

  /** A vote counter that has reached a majority stands for a real quorum. */
  lemma CountedIsChosen(s: State, a: NodeId, i: nat)
    requires Inv(s) && a in s.nodes && Established(s.nodes[a])
    requires i in s.nodes[a].log && !s.nodes[a].log[i].committed
    requires s.nodes[a].log[i].votes >= Majority(|s.nodes.Keys|)
    ensures i > 0 && Chosen(s.hist, i, s.nodes[a].log[i].value)
  {
    hide DecreesSafe, VotesLawful, PreparesLawful, NetOK, LearnsOK;
    var n := s.nodes[a];
    assert ParticipantOK(s, a);
    OpenDecree(s.hist, s.counted, n, i);
    assert DecreedOK(s.hist, s.nodes, s.counted, n.ballot, i);
    hide ParticipantOK, Lawful;
    CountedQuorum(s.hist, s.nodes, s.counted, n.ballot, i, n.log[i].value);
  }

  lemma OwnCommitKeepsInv(s: State, a: NodeId, i: nat, have: bool)
    requires Inv(s) && a in s.nodes && Established(s.nodes[a])
    requires i in s.nodes[a].log && !s.nodes[a].log[i].committed
    requires s.nodes[a].log[i].votes >= Majority(|s.nodes.Keys|)
    ensures Inv(Install(s, a, ProposerCommit(s.nodes[a], i, have, s.nodes.Keys), multiset{}))
  {
    hide Lawful, RecordsOK, NodeOK, PrepOK, EstablishedOK, PromiseOnce, VoteOnce, Evolves, CommitInstance, CommitsOnly;
    var n := s.nodes[a];
    var o := ProposerCommit(n, i, have, s.nodes.Keys);
    assert ParticipantOK(s, a);
    CountedIsChosen(s, a, i);
    CommitterOK(s.hist, s.acked[a], s.counted, n, i, have);
    QuietInstall(s, a, o, multiset{});
  }

  /** An accept always finds its proposer established in the ballot it names,
      and the instance in the proposer's log: neither the ballot assertion nor
      the lookup can fail. */
  lemma AcceptFindsDecree(s: State, src: NodeId, b: Ballot, i: nat)
    requires Inv(s) && Accept(src, b, i) in s.net
    ensures b.id in s.nodes && OwnerOK(s.nodes, b) && i in s.nodes[b.id].log
    ensures (b, i) in s.counted && src !in s.counted[(b, i)] && src in s.nodes
    ensures s.net[Accept(src, b, i)] == 1
    ensures Genuine(s.hist, i, b, s.hist.decreed[(b, i)]) && Vote(src, i, b, s.hist.decreed[(b, i)]) in s.hist.votes
  {
    hide NodesOK, DecreesSafe, OwnerOK;
    var m := Accept(src, b, i);
    assert MessageOK(s.hist, s.nodes, m) && VoteOnce(s, m);
    assert DecreedOK(s.hist, s.nodes, s.counted, b, i);
  }

  predicate CanCount(s: State, b: Ballot, i: nat) {
    b.id in s.nodes && i in s.nodes[b.id].log && (b, i) in s.counted
  }

  /** The state once the accept has been counted, before any commit. */
  function Counting(s: State, src: NodeId, b: Ballot, i: nat): State
    requires CanCount(s, b, i)
  {
    s.(nodes := s.nodes[b.id := CountVote(s.nodes[b.id], i)],
       net := s.net - multiset{Accept(src, b, i)},
       counted := s.counted[(b, i) := s.counted[(b, i)] + {src}])
  }

  lemma CounterNodeOK(h: History, n: Node, i: nat)
    requires NodeOK(h, n) && i in n.log
    ensures NodeOK(h, CountVote(n, i))
  {
    hide Backed, Chosen;
    var n' := CountVote(n, i);
    forall j | j in n'.log ensures Backed(h, j, n'.log[j].ballot, n'.log[j].value) {
      assert Backed(h, j, n.log[j].ballot, n.log[j].value);
    }
    forall j | 1 <= j < n.ihole ensures Ready(n'.log, j) { assert Ready(n.log, j); }
  }

  lemma CounterOK(h: History, counted: map<(Ballot, nat), set<NodeId>>, n: Node, i: nat, src: NodeId)
    requires NodeOK(h, n) && EstablishedOK(h, counted, n) && Established(n) && i in n.log
    requires (n.ballot, i) in counted && src !in counted[(n.ballot, i)]
    ensures var counted' := counted[(n.ballot, i) := counted[(n.ballot, i)] + {src}];
      var n' := CountVote(n, i);
      NodeOK(h, n') && EstablishedOK(h, counted', n') && Evolves(n, n')
  {
    CounterNodeOK(h, n, i);
    CounterEstablished(h, counted, n, i, src);
    hide NodeOK, EstablishedOK;
  }

  lemma CounterEstablished(h: History, counted: map<(Ballot, nat), set<NodeId>>, n: Node, i: nat, src: NodeId)
    requires EstablishedOK(h, counted, n) && Established(n) && i in n.log
    requires (n.ballot, i) in counted && src !in counted[(n.ballot, i)]
    ensures EstablishedOK(h, counted[(n.ballot, i) := counted[(n.ballot, i)] + {src}], CountVote(n, i))
  {
    hide Genuine;
  }

  lemma CountRecords(s: State, s': State, b: Ballot, i: nat, src: NodeId)
    requires RecordsOK(s) && OwnerOK(s.nodes, b) && i in s.nodes[b.id].log
    requires (b, i) in s.counted && src in s.nodes && (b, i) in s.hist.decreed
    requires Vote(src, i, b, s.hist.decreed[(b, i)]) in s.hist.votes
    requires s'.hist == s.hist && s'.nodes == s.nodes[b.id := CountVote(s.nodes[b.id], i)]
    requires s'.counted == s.counted[(b, i) := s.counted[(b, i)] + {src}]
    ensures RecordsOK(s')
  {
    forall c | c in s'.hist.prepared ensures OwnerOK(s'.nodes, c) { assert OwnerOK(s.nodes, c); }
    forall c, j | (c, j) in s'.hist.decreed ensures DecreedOK(s'.hist, s'.nodes, s'.counted, c, j) {
      assert DecreedOK(s.hist, s.nodes, s.counted, c, j);
    }
  }

  lemma CountOnce(s: State, s': State, src: NodeId, b: Ballot, i: nat)
    requires forall m :: m in s.net ==> PromiseOnce(s, m) && VoteOnce(s, m)
    requires Accept(src, b, i) in s.net && CanCount(s, b, i)
    requires s' == Counting(s, src, b, i)
    ensures forall m :: m in s'.net ==> PromiseOnce(s', m) && VoteOnce(s', m)
  {
    forall m | m in s'.net ensures PromiseOnce(s', m) && VoteOnce(s', m) {
      assert PromiseOnce(s, m) && VoteOnce(s, m);
      assert VoteOnce(s, Accept(src, b, i));
    }
  }

  lemma CountKeepsInv(s: State, src: NodeId, b: Ballot, i: nat)
    requires Inv(s) && Accept(src, b, i) in s.net && CanCount(s, b, i)
    ensures Inv(Counting(s, src, b, i))
  {
    hide Lawful, NodeOK, PrepOK, EstablishedOK, MessageOK, RecordsOK, PromiseOnce, VoteOnce, Evolves, NodesOK;
    var a, n := b.id, s.nodes[b.id];
    var s' := Counting(s, src, b, i);
    AcceptFindsDecree(s, src, b, i);
    assert ParticipantOK(s, a) by { assert NodesOK(s); IsParticipant(s, a); }
    CounterOK(s.hist, s.counted, n, i, src);
    Unprepared(s.hist, s.acked[a], s'.nodes[a]);
    CountRecords(s, s', b, i, src);
    CountOnce(s, s', src, b, i);
    QuietGrows(s.hist, a);
    hide GrowsBy, CountVote;
    Finish(s, s', a);
  }

  lemma IsParticipant(s: State, a: NodeId)
    requires NodesOK(s) && a in s.nodes
    ensures ParticipantOK(s, a)
  {
  }

  lemma Unprepared(h: History, acked: set<NodeId>, n: Node)
    requires n.prep.None?
    ensures PrepOK(h, acked, n)
  {
  }

  lemma AckAcceptKeepsInv(s: State, src: NodeId, b: Ballot, i: nat, have: bool)
    requires Inv(s) && Accept(src, b, i) in s.net && b.id in s.nodes
    ensures Inv(ApplyAccept(s, Accept(src, b, i), have))
  {
    hide Inv, Genuine, ProposerCommit, ApplyAccept, Counting;
    AcceptFindsDecree(s, src, b, i);
    CountKeepsInv(s, src, b, i);
    PromisedInState(s, b.id);
    AppliedAccept(s, src, b, i, have);
    var n1, s1 := CountVote(s.nodes[b.id], i), Counting(s, src, b, i);
    if !n1.log[i].committed && n1.log[i].votes >= Majority(|s.nodes.Keys|) {
      OwnCommitKeepsInv(s1, b.id, i, have);
    }
  }

  /** Counting a vote and then, with a majority, committing: the two parts of the handler. */
  lemma AppliedAccept(s: State, src: NodeId, b: Ballot, i: nat, have: bool)
    requires CanCount(s, b, i) && s.nodes[b.id].id == b.id && IsProposer(s.nodes[b.id]) && s.nodes[b.id].ballot == b
    requires b.id in s.hist.promised && s.hist.promised[b.id] == b
    ensures var n1, s1 := CountVote(s.nodes[b.id], i), Counting(s, src, b, i);
      && s1.nodes.Keys == s.nodes.Keys && s1.nodes[b.id] == n1
      && ApplyAccept(s, Accept(src, b, i), have) ==
         if n1.log[i].committed || n1.log[i].votes < Majority(|s.nodes.Keys|) then s1
         else Install(s1, b.id, ProposerCommit(n1, i, have, s.nodes.Keys), multiset{})
  {
    hide ProposerCommit, CountVote;
    var a, n1, s1 := b.id, CountVote(s.nodes[b.id], i), Counting(s, src, b, i);
    SamePromise(s.hist, a);
    var o := AckAccept(s.nodes[a], b, i, have, s.nodes.Keys);
    AcceptOutcome(s.nodes[a], b, i, have, s.nodes.Keys);
    CommitKeepsBallot(n1, i, have, s.nodes.Keys);
    hide AckAccept;
    var s' := ApplyAccept(s, Accept(src, b, i), have);
    assert s1.nodes.Keys == s.nodes.Keys;
    assert s'.nodes == s1.nodes[a := o.node];
    assert s'.net == s1.net + multiset(o.sent);
    assert s'.counted == s1.counted && s'.acked == s1.acked && s'.hist == s1.hist;
  }

  lemma AcceptOutcome(n: Node, b: Ballot, i: nat, have: bool, acceptors: set<NodeId>)
    requires IsProposer(n) && n.ballot == b && i in n.log
    ensures var n1 := CountVote(n, i);
      && n1.ballot == n.ballot && i in n1.log
      && AckAccept(n, b, i, have, acceptors) ==
         if n1.log[i].committed || n1.log[i].votes < Majority(|acceptors|) then Outcome(n1, {})
         else ProposerCommit(n1, i, have, acceptors)
  {
    hide ProposerCommit;
  }

  lemma CommitKeepsBallot(n: Node, i: nat, have: bool, acceptors: set<NodeId>)
    requires i in n.log
    ensures ProposerCommit(n, i, have, acceptors).node.ballot == n.ballot
  {
  }

  lemma PromisedInState(s: State, a: NodeId)
    requires Inv(s) && a in s.nodes
    ensures a in s.hist.promised && s.hist.promised[a] == s.nodes[a].ballot && s.nodes[a].id == a && a in s.acked
  {
    hide Lawful, NetOK, RecordsOK, PrepOK, EstablishedOK;
    assert ParticipantOK(s, a);
    PromisedIs(s.hist, s.nodes[a]);
  }
}
