/** Voting for a decree, and decreeing a new value, keep the invariant. */
module PreservationVote {
  import opened Types
  import opened Quorums
  import opened Voting
  import opened Node
  import opened Protocol
  import opened Invariant
  import opened Preservation
  import opened PreservationCommit

  // ---- An acceptor votes.

  /** The log after voting for `v` at `i` in `b`: relabelled, unless committed. */
  function VotedLog(log: Log, b: Ballot, i: nat, v: Value): Log {
    if i !in log then log[i := Entry(b, v, false, false, false, 0)]
    else if log[i].committed then log
    else log[i := log[i].(ballot := b, value := v)]
  }

  function VotedHistory(h: History, log: Log, x: Vote): History {
    Cast(h, {x}, if CommittedIn(log, x.inum) then {} else {x})
  }

  lemma CommittedWasChosen(h: History, n: Node, i: nat)
    requires NodeOK(h, n) && CommittedIn(n.log, i)
    ensures AnyChosen(h, i)
  {
    hide LearnsOK, BallotsOK, Chosen, Backed;
    assert Chosen(h, i, n.log[i].value);
  }

  lemma VoteGrows(h: History, log: Log, x: Vote)
    requires x.voter in h.promised && h.promised[x.voter] == x.ballot
    ensures GrowsBy(h, VotedHistory(h, log, x), x.voter)
  {
  }

  lemma VoteIsLawful(h: History, n: Node, x: Vote)
    requires Lawful(h) && NodeOK(h, n) && x.voter == n.id && x.ballot == n.ballot
    requires Genuine(h, x.inum, x.ballot, x.value)
    ensures Lawful(VotedHistory(h, n.log, x)) && GrowsBy(h, VotedHistory(h, n.log, x), n.id)
  {
    hide LogOK, LearnsOK, AnyChosen, DecreesSafe, PreparesLawful, Genuine;
    var h' := VotedHistory(h, n.log, x);
    assert h.strong <= h.votes && BallotsOK(h, n);
    VoteGrows(h, n.log, x);
    if CommittedIn(n.log, x.inum) { CommittedWasChosen(h, n, x.inum); }
    hide NodeOK, Lawful, Backed;
    VotingKeepsLawful(h, h');
  }

  /** The voter's log accounts for the new vote. */
  lemma VotedLogOK(h: History, n: Node, x: Vote)
    requires Lawful(h) && NodeOK(h, n) && x.voter == n.id && x.ballot == n.ballot && x.inum > 0
    requires Genuine(h, x.inum, x.ballot, x.value)
    requires GrowsBy(h, VotedHistory(h, n.log, x), n.id)
    ensures LogOK(VotedHistory(h, n.log, x), n.id, VotedLog(n.log, x.ballot, x.inum, x.value))
  {
    hide LearnsOK, DecreesSafe, PreparesLawful;
    var h', log' := VotedHistory(h, n.log, x), VotedLog(n.log, x.ballot, x.inum, x.value);
    assert LogOK(h, n.id, n.log);
    assert VotesLawful(h);
    forall j | j in log' ensures Backed(h', j, log'[j].ballot, log'[j].value) {
      if j in n.log && log'[j].ballot == n.log[j].ballot && log'[j].value == n.log[j].value {
        BackedStays(h, h', j, n.log[j].ballot, n.log[j].value);
      } else {
        assert Genuine(h', j, x.ballot, x.value);
      }
    }
    forall j | j in log' && log'[j].committed ensures Chosen(h', j, log'[j].value) {
      ChosenStays(h, h', j, n.log[j].value);
    }
    forall y | y in h'.strong && y.voter == n.id
      ensures y.inum in log' && AtMost(y.ballot, log'[y.inum].ballot)
    {
      if y != x { assert y in h.strong && y in h.votes; }
    }
  }

  lemma VoterOK(h: History, n: Node, x: Vote)
    requires Lawful(h) && NodeOK(h, n) && x.voter == n.id && x.ballot == n.ballot && x.inum > 0
    requires Genuine(h, x.inum, x.ballot, x.value)
    requires GrowsBy(h, VotedHistory(h, n.log, x), n.id)
    ensures var n' := n.(log := VotedLog(n.log, x.ballot, x.inum, x.value));
      NodeOK(VotedHistory(h, n.log, x), n') && (!IsProposer(n) ==> Evolves(n, n'))
  {
    hide Lawful, LogOK;
    VotedLogOK(h, n, x);
    VotedPrefix(n.log, n.ihole, n.learns, x.ballot, x.inum, x.value);
    VotedFrame(h, n.log, x);
    VotedEvolves(n, x.ballot, x.inum, x.value);
    hide LearnsOK, VotedLog, VotedHistory, Evolves;
  }

  lemma VotedPrefix(log: Log, ihole: nat, learns: seq<Value>, b: Ballot, i: nat, v: Value)
    requires LearnsOK(log, ihole, learns)
    ensures LearnsOK(VotedLog(log, b, i, v), ihole, learns)
  {
    var log' := VotedLog(log, b, i, v);
    forall j | 1 <= j < ihole ensures Ready(log', j) && log'[j] == log[j] { assert Ready(log, j); }
  }

  lemma VotedEvolves(n: Node, b: Ballot, i: nat, v: Value)
    ensures !IsProposer(n) ==> Evolves(n, n.(log := VotedLog(n.log, b, i, v)))
  {
  }

  /** The state once an acceptor has voted and answered. */
  function Voted(s: State, a: NodeId, b: Ballot, i: nat, v: Value): State
    requires a in s.nodes
  {
    var n := s.nodes[a];
    s.(nodes := s.nodes[a := n.(log := VotedLog(n.log, b, i, v))],
       net := s.net - multiset{Decree(a, b, i, v)} + multiset{Accept(a, b, i)},
       hist := VotedHistory(s.hist, n.log, Vote(a, i, b, v)))
  }

  lemma VotedNotCounted(s: State, a: NodeId, b: Ballot, i: nat, v: Value)
    requires NetOK(s) && RecordsOK(s) && Decree(a, b, i, v) in s.net
    ensures Accept(a, b, i) !in s.net && ((b, i) in s.counted ==> a !in s.counted[(b, i)])
    ensures s.net[Decree(a, b, i, v)] == 1 && (b, i) in s.hist.decreed && s.hist.decreed[(b, i)] == v
  {
    hide OwnerOK, PromiseOnce;
    var d, r := Decree(a, b, i, v), Accept(a, b, i);
    assert MessageOK(s.hist, s.nodes, d) && VoteOnce(s, d);
    assert r in s.net ==> MessageOK(s.hist, s.nodes, r);
    if (b, i) in s.counted { assert DecreedOK(s.hist, s.nodes, s.counted, b, i); }
  }

  lemma VoteOnceKept(s: State, s': State, a: NodeId, b: Ballot, i: nat, v: Value)
    requires NetOK(s) && RecordsOK(s) && a in s.nodes && Decree(a, b, i, v) in s.net
    requires s' == Voted(s, a, b, i, v)
    ensures forall m :: m in s'.net ==> PromiseOnce(s', m) && VoteOnce(s', m)
  {
    hide RecordsOK, MessageOK;
    VotedNotCounted(s, a, b, i, v);
    forall m | m in s'.net ensures PromiseOnce(s', m) && VoteOnce(s', m) {
      if m in s.net {
        assert MessageOK(s.hist, s.nodes, m) && PromiseOnce(s, m) && VoteOnce(s, m);
        StillOnce(s, s', a, b, i, v, m);
      }
    }
  }

  lemma StillOnce(s: State, s': State, a: NodeId, b: Ballot, i: nat, v: Value, m: Message)
    requires a in s.nodes && Decree(a, b, i, v) in s.net && s.net[Decree(a, b, i, v)] == 1
    requires s' == Voted(s, a, b, i, v) && m in s.net && m in s'.net
    requires Accept(a, b, i) !in s.net && (b, i) in s.hist.decreed && s.hist.decreed[(b, i)] == v
    requires MessageOK(s.hist, s.nodes, m) && PromiseOnce(s, m) && VoteOnce(s, m)
    ensures PromiseOnce(s', m) && VoteOnce(s', m)
  {
    hide VotedLog, Chosen, Backed, ReportCovers;
    assert m != Decree(a, b, i, v);
    assert m.Decree? && m.inum == i && m.ballot == b ==> m.value == v && m.dst != a;
  }

  lemma VoteKeepsInv(s: State, a: NodeId, b: Ballot, i: nat, v: Value)
    requires Inv(s) && Decree(a, b, i, v) in s.net && a in s.nodes
    requires !IsProposer(s.nodes[a]) && b == s.nodes[a].ballot
    ensures Inv(Voted(s, a, b, i, v))
  {
    hide Lawful, NodeOK, PrepOK, EstablishedOK, RecordsOK, PromiseOnce, VoteOnce, NodesOK, GrowsBy, VotedLog, VotedHistory;
    var n, s', x := s.nodes[a], Voted(s, a, b, i, v), Vote(a, i, b, v);
    assert ParticipantOK(s, a) by { IsParticipant(s, a); }
    assert MessageOK(s.hist, s.nodes, Decree(a, b, i, v));
    DecreeIsPositive(s, b, i, v);
    VoteIsLawful(s.hist, n, x);
    VoterOK(s.hist, n, x);
    Idle(s'.hist, s.acked[a], s.counted, s'.nodes[a]);
    VotedFrame(s.hist, n.log, x);
    VoteOnceKept(s, s', a, b, i, v);
    RecordsKept(s, s', a);
    Finish(s, s', a);
  }

  lemma VotedFrame(h: History, log: Log, x: Vote)
    ensures var h' := VotedHistory(h, log, x);
      h'.decreed == h.decreed && h'.prepared == h.prepared && h'.promised == h.promised && x in h'.votes
  {
  }

  lemma PositiveLog(h: History, n: Node)
    requires NodeOK(h, n)
    ensures 1 in n.log && 0 !in n.log
  {
  }

  lemma DecreeIsPositive(s: State, b: Ballot, i: nat, v: Value)
    requires Inv(s) && Genuine(s.hist, i, b, v)
    ensures i > 0
  {
    hide Lawful, NetOK, NodeOK, PrepOK, EstablishedOK, OwnerOK, AllVoted;
    assert DecreedOK(s.hist, s.nodes, s.counted, b, i);
    assert ParticipantOK(s, b.id);
    PositiveLog(s.hist, s.nodes[b.id]);
  }

  lemma AckDecreeKeepsInv(s: State, a: NodeId, b: Ballot, i: nat, v: Value)
    requires Inv(s) && Decree(a, b, i, v) in s.net && a in s.nodes
    ensures Inv(ApplyDecree(s, Decree(a, b, i, v)))
  {
    hide Inv, AckDecree, VotedLog, ApplyDecree;
    var n, m := s.nodes[a], Decree(a, b, i, v);
    var o := AckDecree(n, b, i, v);
    PromisedInState(s, a);
    AckDecreeVotes(n, b, i, v);
    AppliedDecree(s, a, b, i, v);
    if o.sent == {} {
      DropKeepsInv(s, ApplyDecree(s, m), a, o.node, multiset{m});
    } else {
      VoteKeepsInv(s, a, b, i, v);
    }
  }

  lemma AppliedDecree(s: State, a: NodeId, b: Ballot, i: nat, v: Value)
    requires a in s.nodes && s.nodes[a].id == a && a in s.hist.promised && s.hist.promised[a] == s.nodes[a].ballot
    ensures var m, o := Decree(a, b, i, v), AckDecree(s.nodes[a], b, i, v);
      ApplyDecree(s, m) ==
      if o.sent == {} then s.(nodes := s.nodes[a := o.node], net := s.net - multiset{m}) else Voted(s, a, b, i, v)
  {
    hide AckDecree, VotedLog;
    AckDecreeVotes(s.nodes[a], b, i, v);
    SamePromise(s.hist, a);
    assert multiset({Accept(a, b, i)}) == multiset{Accept(a, b, i)};
    assert s.net - multiset{Decree(a, b, i, v)} + multiset({}) == s.net - multiset{Decree(a, b, i, v)};
  }

  /** An acceptor either votes or is left as it was, or stops. */
  lemma AckDecreeVotes(n: Node, b: Ballot, i: nat, v: Value)
    ensures var o := AckDecree(n, b, i, v);
      if o.sent == {} then o.node == n || o.node == n.(alive := false)
      else
        && !IsProposer(n) && b == n.ballot && o.sent == {Accept(n.id, b, i)}
        && o.node == n.(log := VotedLog(n.log, b, i, v))
  {
  }
}
