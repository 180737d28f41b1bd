/** Completing a prepare keeps the invariant: every open instance is decreed
    again under the new ballot, and every such decree is licensed by the
    promises that were counted. */
module PreservationComplete {
  import opened Types
  import opened Quorums
  import opened Voting
  import opened Node
  import opened Protocol
  import opened Invariant
  import opened Preservation
  import opened PreservationCommit
  import opened PreservationVote
  import opened PreservationDecree
  import opened PreservationPromise

  /** Which entries a completing prepare rewrites, and how. */
  ghost predicate Rewrites(n: Node, b: Ballot, log: Log)
    requires n.log != map[]
  {
    && (forall i :: i in n.log ==> i in log)
    && (forall i :: Redecreed(n, i) ==>
          i in log && log[i].ballot == b && !log[i].committed && log[i].votes == 1
          && (i in n.log ==> log[i].value == n.log[i].value))
    && (forall i :: i in log && !Redecreed(n, i) ==> i in n.log && log[i] == n.log[i])
  }

  /** How the history grows when `n` completes: `n` takes `b` as prepared by
      `q`, and decrees and votes for exactly the rewritten entries of `log`. */
  ghost predicate Completes(h: History, h': History, n: Node, b: Ballot, q: set<NodeId>, log: Log)
    requires n.log != map[]
  {
    && h'.promised == h.promised[n.id := b]
    && h'.prepared == h.prepared[b := q]
    && h.votes <= h'.votes && h.strong <= h'.strong
    && (forall x :: x in h'.votes && x !in h.votes ==>
          x in h'.strong && x.voter == n.id && x.ballot == b && Redecreed(n, x.inum) && x.inum in log && x.value == log[x.inum].value)
    && (forall x :: x in h'.strong && x !in h.strong ==> x in h'.votes && x.voter == n.id && x.ballot == b)
    && (forall i :: Redecreed(n, i) && i in log ==> Vote(n.id, i, b, log[i].value) in h'.votes)
    && (forall k :: k in h.decreed && k.0 != b ==> k in h'.decreed && h'.decreed[k] == h.decreed[k])
    && (forall c, i :: (c, i) in h'.decreed && (c, i) !in h.decreed ==> c == b && Redecreed(n, i))
    && (forall i :: Redecreed(n, i) && i in log ==> Genuine(h', i, b, log[i].value))
  }

  lemma RedecreeRewrites(n: Node, b: Ballot)
    requires n.log != map[]
    ensures Rewrites(n, b, RedecreeLog(n, b))
  {
  }

  lemma OwnVotesAre(n: Node, b: Ballot)
    requires n.log != map[]
    ensures var log := RedecreeLog(n, b);
      && (forall x: Vote :: x in OwnVotes(n, b) ==>
            x.voter == n.id && x.ballot == b && x.inum in log && Redecreed(n, x.inum) && x.value == log[x.inum].value)
      && (forall i :: i in log && Redecreed(n, i) ==> Vote(n.id, i, b, log[i].value) in OwnVotes(n, b))
  {
    hide RedecreeLog, Redecreed, Last;
  }

  lemma OwnDecreesAre(n: Node, b: Ballot)
    requires n.log != map[]
    ensures var log := RedecreeLog(n, b);
      && (forall c, i :: (c, i) in OwnDecrees(n, b) ==> c == b && i in log && Redecreed(n, i))
      && (forall i :: i in log && Redecreed(n, i) ==> (b, i) in OwnDecrees(n, b) && OwnDecrees(n, b)[(b, i)] == log[i].value)
  {
    hide RedecreeLog, Redecreed, Last;
  }

  lemma GrowthCompletes(h: History, n: Node, b: Ballot, q: set<NodeId>, log: Log,
                        votes: set<Vote>, decrees: map<(Ballot, nat), Value>)
    requires n.log != map[] && h.strong <= h.votes
    requires forall x :: x in votes ==>
               x.voter == n.id && x.ballot == b && x.inum in log && Redecreed(n, x.inum) && x.value == log[x.inum].value
    requires forall i :: i in log && Redecreed(n, i) ==> Vote(n.id, i, b, log[i].value) in votes
    requires forall k :: k in decrees ==> k.0 == b && k.1 in log && Redecreed(n, k.1)
    requires forall i :: i in log && Redecreed(n, i) ==> (b, i) in decrees && decrees[(b, i)] == log[i].value
    ensures Completes(h,
              Cast(h.(promised := h.promised[n.id := b]), votes, votes).(
                prepared := h.prepared[b := q], decreed := h.decreed + decrees),
              n, b, q, log)
  {
    hide Redecreed, Last;
  }

  lemma CompletionGrows(h: History, n: Node, b: Ballot, q: set<NodeId>)
    requires n.log != map[] && h.strong <= h.votes
    ensures Completes(h, CompletedHistory(h, n, b, q), n, b, q, RedecreeLog(n, b))
  {
    OwnVotesAre(n, b);
    OwnDecreesAre(n, b);
    hide RedecreeLog, Redecreed, Last, OwnVotes, OwnDecrees, Completes;
    assert forall k :: k in OwnDecrees(n, b) ==> (k.0, k.1) == k;
    GrowthCompletes(h, n, b, q, RedecreeLog(n, b), OwnVotes(n, b), OwnDecrees(n, b));
  }

  /** Open instances at or past the hole are exactly those rewritten. */
  lemma OpenIsRewritten(n: Node)
    requires n.log != map[]
    ensures forall i :: Redecreed(n, i) ==> n.ihole <= i && (i in n.log ==> !n.log[i].committed)
    ensures forall i :: i in n.log && n.ihole <= i && !n.log[i].committed ==> Redecreed(n, i)
  {
  }

  /** The counted promises license every decree of the completing prepare. */
  lemma CompletionLicensed(h: History, acked: set<NodeId>, n: Node, b: Ballot, log: Log, i: nat)
    requires NodeOK(h, n) && PrepOK(h, acked, n) && n.prep.Some? && n.prep.value.ballot == b
    requires h.strong <= h.votes && Rewrites(n, b, log) && Redecreed(n, i)
    ensures Licensed(h, acked + {n.id}, i, b, log[i].value)
  {
    hide LearnsOK, Chosen, Genuine, Last;
    var q := acked + {n.id};
    if i in n.log {
      var m := n.log[i].ballot;
      assert Backed(h, i, m, n.log[i].value);
      assert LabelCovers(h, q, i, b, m);
    } else {
      assert NeverVoted(h, q, i, b);
    }
  }

  lemma CompletionQuorum(h: History, acked: set<NodeId>, n: Node, b: Ballot)
    requires BallotsOK(h, n) && PrepOK(h, acked, n) && n.prep.Some? && n.prep.value.ballot == b
    requires n.prep.value.acks >= Majority(|h.promised.Keys|)
    ensures IsQuorum(h.promised.Keys, acked + {n.id})
    ensures n.id in h.promised && Below(h.promised[n.id], b)
    ensures forall a :: a in acked ==> a in h.promised && AtMost(b, h.promised[a])
  {
    hide Covers;
    assert |acked + {n.id}| == |acked| + 1;
  }

  lemma CompletionGrowsBy(h: History, h': History, n: Node, b: Ballot, q: set<NodeId>, log: Log)
    requires n.log != map[] && Completes(h, h', n, b, q, log)
    requires n.id in h.promised && Below(h.promised[n.id], b)
    requires b !in h.prepared && forall k :: k in h.decreed ==> k.0 != b
    ensures GrowsBy(h, h', n.id)
  {
    hide Redecreed, Genuine, Last;
  }

  lemma CompletionVotesIn(h: History, h': History, n: Node, b: Ballot, q: set<NodeId>, log: Log)
    requires n.log != map[] && Completes(h, h', n, b, q, log)
    ensures forall x :: x in h'.votes && x !in h.votes ==> x.ballot == b
    ensures h'.promised == h.promised[n.id := b]
  {
    hide Redecreed, Genuine, Last;
  }

  lemma FreshDecrees(h: History, b: Ballot)
    requires PreparesLawful(h) && b !in h.prepared
    ensures forall k :: k in h.decreed ==> k.0 != b
    ensures forall i :: (b, i) !in h.decreed
  {
    assert forall k :: k in h.decreed ==> (k.0, k.1) == k;
  }

  lemma CompletionPrepared(h: History, h': History, acked: set<NodeId>, n: Node, b: Ballot, log: Log)
    requires n.log != map[] && Completes(h, h', n, b, acked + {n.id}, log)
    requires PreparesLawful(h) && BallotsOK(h, n) && PrepOK(h, acked, n) && n.prep.Some? && n.prep.value.ballot == b
    requires n.prep.value.acks >= Majority(|h.promised.Keys|)
    requires b !in h.prepared
    ensures Prepared(h, h', acked + {n.id}, b) && GrowsBy(h, h', n.id)
    ensures forall i :: (b, i) !in h.decreed
  {
    hide PreparesLawful, BallotsOK, PrepOK, Completes, Grows, IsQuorum;
    CompletionQuorum(h, acked, n, b);
    FreshDecrees(h, b);
    CompletionGrowsBy(h, h', n, b, acked + {n.id}, log);
    CompletionVotesIn(h, h', n, b, acked + {n.id}, log);
  }

  lemma CompletionLawful(h: History, h': History, acked: set<NodeId>, n: Node, b: Ballot, log: Log)
    requires n.log != map[] && Completes(h, h', n, b, acked + {n.id}, log) && Rewrites(n, b, log)
    requires Lawful(h) && NodeOK(h, n) && PrepOK(h, acked, n) && n.prep.Some? && n.prep.value.ballot == b
    requires n.prep.value.acks >= Majority(|h.promised.Keys|)
    requires b !in h.prepared && h'.strong <= h'.votes
    ensures Lawful(h') && GrowsBy(h, h', n.id)
  {
    var q := acked + {n.id};
    assert h.strong <= h.votes;
    assert BallotsOK(h, n) && PreparesLawful(h);
    CompletionPrepared(h, h', acked, n, b, log);
    forall i | Redecreed(n, i) ensures Licensed(h, q, i, b, log[i].value) && Genuine(h', i, b, log[i].value) {
      CompletionLicensed(h, acked, n, b, log, i);
    }
    assert n.id in h.promised;
    hide NodeOK, PrepOK, Prepared, GrowsBy, Licensed, Lawful, Redecreed, IsQuorum, Rewrites, BallotsOK, PreparesLawful;
    DecreeingKeepsLawful(h, h', q, b);
  }

  lemma CompletedLogOK(h: History, h': History, n: Node, b: Ballot, q: set<NodeId>, log: Log)
    requires n.log != map[] && Completes(h, h', n, b, q, log) && Rewrites(n, b, log)
    requires LogOK(h, n.id, n.log) && VotesLawful(h) && GrowsBy(h, h', n.id)
    requires n.id in h.promised && Below(h.promised[n.id], b) && n.ihole > 0
    ensures LogOK(h', n.id, log)
  {
    hide Last, Redecreed, Genuine, AnyChosen, Chosen;
    OpenIsRewritten(n);
    assert 1 in log && 0 !in log;
    CompletedVotes(h, h', n, b, q, log);
    forall i | i in log ensures Backed(h', i, log[i].ballot, log[i].value) {
      if !Redecreed(n, i) { BackedStays(h, h', i, n.log[i].ballot, n.log[i].value); }
    }
    forall i | i in log && log[i].committed ensures Chosen(h', i, log[i].value) {
      ChosenStays(h, h', i, n.log[i].value);
    }
  }

  lemma CompletedPromised(h: History, h': History, n: Node, b: Ballot, q: set<NodeId>, log: Log)
    requires n.log != map[] && Completes(h, h', n, b, q, log)
    ensures h'.promised == h.promised[n.id := b]
  {
    hide Last, Redecreed, Genuine;
  }

  lemma CompletedVotes(h: History, h': History, n: Node, b: Ballot, q: set<NodeId>, log: Log)
    requires n.log != map[] && Completes(h, h', n, b, q, log) && Rewrites(n, b, log)
    requires LogOK(h, n.id, n.log) && VotesLawful(h)
    requires n.id in h.promised && Below(h.promised[n.id], b)
    ensures forall x :: x in h'.votes && x.voter == n.id ==> x.inum in log
    ensures forall x :: x in h'.strong && x.voter == n.id ==> x.inum in log && AtMost(x.ballot, log[x.inum].ballot)
  {
    hide Last, Redecreed, Genuine, AnyChosen, Chosen, Backed;
    forall x | x in h'.strong && x.voter == n.id ensures x.inum in log && AtMost(x.ballot, log[x.inum].ballot) {
      if x in h.strong { assert x in h.votes && x.inum in n.log; }
    }
  }

  lemma CompletedNodeOK(h: History, h': History, n: Node, b: Ballot, q: set<NodeId>, log: Log, reqId: nat)
    requires n.log != map[] && Completes(h, h', n, b, q, log) && Rewrites(n, b, log)
    requires NodeOK(h, n) && VotesLawful(h) && GrowsBy(h, h', n.id)
    requires n.prep.Some? && n.prep.value.ballot == b
    ensures var n' := n.(ballot := b, prep := None, log := log, reqId := reqId);
      NodeOK(h', n') && Evolves(n, n')
  {
    hide VotesLawful, GrowsBy, LogOK, Redecreed, Last, Completes;
    CompletedPromised(h, h', n, b, q, log);
    CompletedLogOK(h, h', n, b, q, log);
    OpenIsRewritten(n);
    forall i | 1 <= i < n.ihole ensures Ready(log, i) && log[i] == n.log[i] { assert Ready(n.log, i); }
  }

  /** What completing does to the counts, in terms of the rewritten entries. */
  ghost predicate CountsOwn(counted: map<(Ballot, nat), set<NodeId>>, counted': map<(Ballot, nat), set<NodeId>>, n: Node, b: Ballot)
    requires n.log != map[]
  {
    && (forall k :: k in counted && k.0 != b ==> k in counted' && counted'[k] == counted[k])
    && (forall k :: k in counted' ==> k in counted || (k.0 == b && Redecreed(n, k.1)))
    && (forall i: nat :: Redecreed(n, i) ==> (b, i) in counted' && counted'[(b, i)] == {n.id})
  }

  lemma CompletedCovers(h: History, h': History, acked: set<NodeId>, n: Node, b: Ballot, log: Log)
    requires n.log != map[] && Completes(h, h', n, b, acked + {n.id}, log) && Rewrites(n, b, log)
    requires NodeOK(h, n) && PrepOK(h, acked, n) && n.prep.Some? && n.prep.value.ballot == b
    ensures forall x :: x in h'.votes && x.voter in acked + {n.id} && Below(x.ballot, b) ==> x.inum in log
  {
    hide Redecreed, Last, Chosen, Backed, LearnsOK;
  }

  lemma LearnedIsCommitted(h: History, n: Node)
    requires NodeOK(h, n)
    ensures forall i :: i in n.log && i < n.ihole ==> n.log[i].committed
  {
    hide Chosen, Backed, BallotsOK;
    forall i | i in n.log && i < n.ihole ensures n.log[i].committed { assert Ready(n.log, i); }
  }

  /** What is open in the completed log has just been decreed and counted. */
  lemma CompletedCounts(h: History, h': History, before: map<(Ballot, nat), set<NodeId>>,
                        counted: map<(Ballot, nat), set<NodeId>>, n: Node, b: Ballot, q: set<NodeId>, log: Log)
    requires n.log != map[] && Completes(h, h', n, b, q, log) && Rewrites(n, b, log)
    requires NodeOK(h, n) && CountsOwn(before, counted, n, b)
    ensures forall i :: i in log && !log[i].committed ==>
              && log[i].ballot == b && Genuine(h', i, b, log[i].value)
              && (b, i) in counted && log[i].votes == |counted[(b, i)]|
  {
    OpenIsRewritten(n);
    LearnedIsCommitted(h, n);
    hide NodeOK, Completes, Rewrites, CountsOwn, Redecreed, Last, Genuine;
    forall i | i in log && !log[i].committed
      ensures Redecreed(n, i) && log[i].ballot == b && log[i].votes == 1
      ensures Genuine(h', i, b, log[i].value) && (b, i) in counted && counted[(b, i)] == {n.id}
    {
      OpenInLog(n, b, log, i);
      OpenCounted(h, h', before, counted, n, b, q, log, i);
    }
  }

  lemma OpenInLog(n: Node, b: Ballot, log: Log, i: nat)
    requires n.log != map[] && Rewrites(n, b, log) && i in log && !log[i].committed
    requires forall j :: j in n.log && j < n.ihole ==> n.log[j].committed
    requires forall j :: j in n.log && n.ihole <= j && !n.log[j].committed ==> Redecreed(n, j)
    ensures Redecreed(n, i) && log[i].ballot == b && log[i].votes == 1
  {
    hide Redecreed, Last;
  }

  lemma OpenCounted(h: History, h': History, before: map<(Ballot, nat), set<NodeId>>,
                    counted: map<(Ballot, nat), set<NodeId>>, n: Node, b: Ballot, q: set<NodeId>, log: Log, i: nat)
    requires n.log != map[] && Completes(h, h', n, b, q, log) && CountsOwn(before, counted, n, b)
    requires Redecreed(n, i) && i in log
    ensures Genuine(h', i, b, log[i].value) && (b, i) in counted && counted[(b, i)] == {n.id}
  {
    hide Redecreed, Last, Genuine;
  }

  lemma CompletedEstablished(h: History, h': History, acked: set<NodeId>, before: map<(Ballot, nat), set<NodeId>>,
                             counted: map<(Ballot, nat), set<NodeId>>, n: Node, b: Ballot, log: Log, reqId: nat)
    requires n.log != map[] && Completes(h, h', n, b, acked + {n.id}, log) && Rewrites(n, b, log)
    requires NodeOK(h, n) && PrepOK(h, acked, n) && n.prep.Some? && n.prep.value.ballot == b
    requires CountsOwn(before, counted, n, b)
    ensures EstablishedOK(h', counted, n.(ballot := b, prep := None, log := log, reqId := reqId))
  {
    CompletedCovers(h, h', acked, n, b, log);
    CompletedCounts(h, h', before, counted, n, b, acked + {n.id}, log);
    PreparerBallot(h, n);
    hide NodeOK, PrepOK, CountsOwn, Rewrites, Redecreed, Last, Genuine;
  }

  // ---- The step.

  predicate CanComplete(s: State, a: NodeId) {
    a in s.nodes && a in s.acked && s.nodes[a].prep.Some? && s.nodes[a].log != map[]
  }

  /** The state once participant `a`, holding a majority of promises, has completed its prepare. */
  function Completing(s: State, a: NodeId): State
    requires CanComplete(s, a)
  {
    var n := s.nodes[a];
    var b := n.prep.value.ballot;
    var o := CompletePrepare(n, b, s.nodes.Keys);
    s.(nodes := s.nodes[a := o.node],
       net := s.net + multiset(o.sent),
       hist := CompletedHistory(s.hist, n, b, s.acked[a] + {a}),
       counted := s.counted + map k | k in OwnDecrees(n, b) :: {a})
  }

  lemma CompletionSends(n: Node, b: Ballot, acceptors: set<NodeId>)
    requires n.log != map[]
    ensures forall m :: m in CompletePrepare(n, b, acceptors).sent ==>
              m.Decree? && m.ballot == b && m.dst in acceptors && m.dst != n.id
              && Redecreed(n, m.inum) && m.inum in RedecreeLog(n, b) && m.value == RedecreeLog(n, b)[m.inum].value
  {
    hide RedecreeLog, Redecreed, Last;
  }

  lemma CountsFrom(counted: map<(Ballot, nat), set<NodeId>>, n: Node, b: Ballot, log: Log, decrees: map<(Ballot, nat), Value>)
    requires n.log != map[]
    requires forall k :: k in decrees ==> k.0 == b && Redecreed(n, k.1)
    requires forall i: nat :: Redecreed(n, i) ==> (b, i) in decrees
    ensures CountsOwn(counted, counted + map k | k in decrees :: {n.id}, n, b)
  {
    hide Redecreed, Last;
  }

  lemma CompletingCounts(s: State, a: NodeId)
    requires CanComplete(s, a) && s.nodes[a].id == a
    ensures CountsOwn(s.counted, Completing(s, a).counted, s.nodes[a], s.nodes[a].prep.value.ballot)
  {
    var n, b := s.nodes[a], s.nodes[a].prep.value.ballot;
    OwnDecreesAre(n, b);
    RedecreeRewrites(n, b);
    var log := RedecreeLog(n, b);
    hide RedecreeLog, Redecreed, Last, OwnDecrees, CompletePrepare, CompletedHistory, CountsOwn;
    assert forall k :: k in OwnDecrees(n, b) ==> (k.0, k.1) == k;
    CountsFrom(s.counted, n, b, log, OwnDecrees(n, b));
  }

  /** The decrees a completion makes are voted for by ourselves, and counted so. */
  lemma OwnDecreeOK(h: History, h': History, nodes: map<NodeId, Node>, before: map<(Ballot, nat), set<NodeId>>,
                    counted: map<(Ballot, nat), set<NodeId>>, n: Node, b: Ballot, q: set<NodeId>, log: Log, j: nat)
    requires n.log != map[] && Completes(h, h', n, b, q, log) && Rewrites(n, b, log) && CountsOwn(before, counted, n, b)
    requires b.id == n.id && n.id in nodes && nodes[n.id].log == log && Redecreed(n, j)
    ensures (b, j) in h'.decreed && DecreedOK(h', nodes, counted, b, j)
  {
    hide Redecreed, Last;
    assert Genuine(h', j, b, log[j].value);
  }

  lemma OldDecreeOK(h: History, h': History, nodes: map<NodeId, Node>, nodes': map<NodeId, Node>,
                    before: map<(Ballot, nat), set<NodeId>>, counted: map<(Ballot, nat), set<NodeId>>,
                    n: Node, b: Ballot, q: set<NodeId>, log: Log, c: Ballot, j: nat)
    requires n.log != map[] && Completes(h, h', n, b, q, log) && Rewrites(n, b, log) && CountsOwn(before, counted, n, b)
    requires (c, j) in h.decreed && c != b && DecreedOK(h, nodes, before, c, j)
    requires n.id in nodes && nodes[n.id] == n && nodes'.Keys == nodes.Keys && nodes'[n.id].log == log
    requires forall d :: d in nodes && d != n.id ==> nodes'[d] == nodes[d]
    ensures (c, j) in h'.decreed && DecreedOK(h', nodes', counted, c, j)
  {
    hide Redecreed, Last, Genuine;
    assert c.id in nodes;
  }

  lemma CompletedOwners(s: State, s': State, a: NodeId, b: Ballot)
    requires a in s.nodes && !Established(s.nodes[a]) && b.id == a
    requires forall c :: c in s.hist.prepared ==> OwnerOK(s.nodes, c)
    requires forall c :: c in s'.hist.prepared ==> c in s.hist.prepared || c == b
    requires s'.nodes.Keys == s.nodes.Keys && forall c :: c in s.nodes && c != a ==> s'.nodes[c] == s.nodes[c]
    requires s'.nodes[a].ballot == b && Established(s'.nodes[a])
    ensures forall c :: c in s'.hist.prepared ==> OwnerOK(s'.nodes, c)
  {
    forall c | c in s'.hist.prepared ensures OwnerOK(s'.nodes, c) {
      if c != b { assert OwnerOK(s.nodes, c); }
    }
  }

  /** Which decrees there are once a completion has happened. */
  lemma CompletedDecrees(h: History, h': History, n: Node, b: Ballot, q: set<NodeId>, log: Log)
    requires n.log != map[] && Completes(h, h', n, b, q, log)
    ensures forall c, i :: (c, i) in h'.decreed && (c, i) !in h.decreed ==> c == b && Redecreed(n, i)
    ensures forall c :: c in h'.prepared ==> c in h.prepared || c == b
  {
    hide Redecreed, Last, Genuine;
  }

  lemma CompletedRecords(s: State, s': State, a: NodeId, q: set<NodeId>, log: Log)
    requires RecordsOK(s) && CanComplete(s, a) && s.nodes[a].id == a
    requires var n := s.nodes[a]; var b := n.prep.value.ballot;
      && b.id == a && b !in s.hist.prepared && (forall i: nat :: (b, i) !in s.hist.decreed)
      && Completes(s.hist, s'.hist, n, b, q, log) && Rewrites(n, b, log)
      && CountsOwn(s.counted, s'.counted, n, b)
      && s'.nodes.Keys == s.nodes.Keys && (forall c :: c in s.nodes && c != a ==> s'.nodes[c] == s.nodes[c])
      && s'.nodes[a].log == log && s'.nodes[a].ballot == b && Established(s'.nodes[a])
    ensures RecordsOK(s')
  {
    hide Redecreed, Last, Completes, Rewrites, DecreedOK, OwnerOK;
    var n, b := s.nodes[a], s.nodes[a].prep.value.ballot;
    CompletedDecrees(s.hist, s'.hist, n, b, q, log);
    CompletedOwners(s, s', a, b);
    forall c, j | (c, j) in s'.hist.decreed ensures DecreedOK(s'.hist, s'.nodes, s'.counted, c, j) {
      if (c, j) in s.hist.decreed {
        OldDecreeOK(s.hist, s'.hist, s.nodes, s'.nodes, s.counted, s'.counted, n, b, q, log, c, j);
      } else {
        OwnDecreeOK(s.hist, s'.hist, s'.nodes, s.counted, s'.counted, n, b, q, log, j);
      }
    }
    forall k | k in s'.counted ensures k in s'.hist.decreed {
      assert k == (k.0, k.1);
      if k in s.counted {
        OldDecreeOK(s.hist, s'.hist, s.nodes, s'.nodes, s.counted, s'.counted, n, b, q, log, k.0, k.1);
      } else {
        OwnDecreeOK(s.hist, s'.hist, s'.nodes, s.counted, s'.counted, n, b, q, log, k.1);
      }
    }
  }

  lemma CompletedOnce(s: State, s': State, a: NodeId, q: set<NodeId>, log: Log, sent: set<Message>)
    requires NetOK(s) && VotesLawful(s.hist) && CanComplete(s, a) && s.nodes[a].id == a
    requires var n := s.nodes[a]; var b := n.prep.value.ballot;
      && b.id == a && (forall i: nat :: (b, i) !in s.hist.decreed)
      && Completes(s.hist, s'.hist, n, b, q, log)
      && CountsOwn(s.counted, s'.counted, n, b)
      && s'.nodes.Keys == s.nodes.Keys && (forall c :: c in s.nodes && c != a ==> s'.nodes[c] == s.nodes[c])
      && s'.nodes[a].prep.None? && s'.acked == s.acked
      && s'.net == s.net + multiset(sent)
      && forall m :: m in sent ==> m.Decree? && m.ballot == b && m.dst != a
    ensures forall m :: m in s'.net ==> PromiseOnce(s', m) && VoteOnce(s', m)
  {
    hide Redecreed, Last, AnyChosen, Rewrites, Chosen, Backed, ReportCovers, Completes, CountsOwn;
    var n, b := s.nodes[a], s.nodes[a].prep.value.ballot;
    CompletedVoters(s.hist, s'.hist, n, b, q, log);
    CompletedCounters(s.counted, s'.counted, n, b);
    forall m | m in s.net ensures MessageOK(s.hist, s.nodes, m) && PromiseOnce(s, m) && VoteOnce(s, m) { }
    forall m | m in s.net ensures m !in sent && PromiseOnce(s', m) && VoteOnce(s', m) {
      if m.Decree? { assert Genuine(s.hist, m.inum, m.ballot, m.value); }
      if m.Accept? { assert (m.ballot, m.inum) in s.hist.decreed; }
      hide MessageOK;
    }
    forall m | m in sent ensures PromiseOnce(s', m) && VoteOnce(s', m) {
      assert m in s.net ==> MessageOK(s.hist, s.nodes, m);
      assert Vote(m.dst, m.inum, b, m.value) in s.hist.votes ==> Genuine(s.hist, m.inum, b, m.value);
    }
  }

  lemma CompletedVoters(h: History, h': History, n: Node, b: Ballot, q: set<NodeId>, log: Log)
    requires n.log != map[] && Completes(h, h', n, b, q, log)
    ensures forall x :: x in h'.votes && x !in h.votes ==> x.voter == n.id && x.ballot == b
  {
    hide Redecreed, Last, Genuine;
  }

  lemma CompletedCounters(counted: map<(Ballot, nat), set<NodeId>>, counted': map<(Ballot, nat), set<NodeId>>, n: Node, b: Ballot)
    requires n.log != map[] && CountsOwn(counted, counted', n, b)
    ensures forall k :: k in counted' && k.0 != b ==> k in counted && counted'[k] == counted[k]
  {
    hide Redecreed, Last;
  }

  lemma NotYetPrepared(s: State, a: NodeId)
    requires RecordsOK(s) && PreparesLawful(s.hist) && a in s.nodes && s.nodes[a].prep.Some? && s.nodes[a].prep.value.ballot.id == a
    ensures var b := s.nodes[a].prep.value.ballot;
      b !in s.hist.prepared && forall i: nat :: (b, i) !in s.hist.decreed
  {
    var b := s.nodes[a].prep.value.ballot;
    assert b in s.hist.prepared ==> OwnerOK(s.nodes, b);
  }

  lemma PreparerBallot(h: History, n: Node)
    requires NodeOK(h, n) && n.prep.Some?
    ensures n.prep.value.ballot.id == n.id && IsProposer(n)
  {
  }

  lemma CompleteKeepsInv(s: State, a: NodeId)
    requires Inv(s) && CanComplete(s, a) && s.nodes[a].prep.value.acks >= Majority(|s.nodes.Keys|)
    ensures Inv(Completing(s, a))
  {
    hide NodeOK, PrepOK, EstablishedOK, RecordsOK, PromiseOnce, VoteOnce, NodesOK, GrowsBy, Last, DecreesSafe, VotesLawful,
      PreparesLawful, Evolves, RedecreeLog, Redecreed, OwnDecrees, OwnVotes, Completes, Rewrites, CountsOwn;
    var n, b, s' := s.nodes[a], s.nodes[a].prep.value.ballot, Completing(s, a);
    var q, log, sent := s.acked[a] + {a}, RedecreeLog(n, b), CompletePrepare(n, b, s.nodes.Keys).sent;
    assert ParticipantOK(s, a) by { IsParticipant(s, a); }
    assert s.hist.strong <= s.hist.votes && s'.hist.strong <= s'.hist.votes by { SentinelFree(s); }
    PreparerBallot(s.hist, n);
    NotYetPrepared(s, a);
    CompletionGrows(s.hist, n, b, q);
    RedecreeRewrites(n, b);
    CompletingCounts(s, a);
    CompletionSends(n, b, s.nodes.Keys);
    hide CompletedHistory;
    CompletionLawful(s.hist, s'.hist, s.acked[a], n, b, log);
    CompletedNodeOK(s.hist, s'.hist, n, b, q, log, s'.nodes[a].reqId);
    CompletedEstablished(s.hist, s'.hist, s.acked[a], s.counted, s'.counted, n, b, log, s'.nodes[a].reqId);
    Unprepared(s'.hist, s.acked[a], s'.nodes[a]);
    hide CompletePrepare;
    CompletedRecords(s, s', a, q, log);
    CompletedOnce(s, s', a, q, log, sent);
    assert s'.hist.promised.Keys == s'.nodes.Keys by { assert Completes(s.hist, s'.hist, n, b, q, log); CompletionPromised(s.hist, s'.hist, n, b, q, log); }
    CompletedFinish(s, s', a, q, log, sent);
  }

  lemma CompletionPromised(h: History, h': History, n: Node, b: Ballot, q: set<NodeId>, log: Log)
    requires n.log != map[] && Completes(h, h', n, b, q, log) && n.id in h.promised
    ensures h'.promised.Keys == h.promised.Keys
  {
  }

  lemma CompletedMoves(s: State, s': State, a: NodeId, q: set<NodeId>, log: Log)
    requires CanComplete(s, a) && s.nodes[a].id == a && s.nodes[a].prep.value.ballot.id == a
    requires CountsOwn(s.counted, s'.counted, s.nodes[a], s.nodes[a].prep.value.ballot)
    requires s'.nodes.Keys == s.nodes.Keys && forall c :: c in s.nodes && c != a ==> s'.nodes[c] == s.nodes[c]
    requires GrowsBy(s.hist, s'.hist, a) && Evolves(s.nodes[a], s'.nodes[a])
    requires s'.acked == s.acked
    ensures Moves(s, s', a)
  {
    hide GrowsBy, Evolves, Redecreed, Last;
  }

  lemma CompletedMessages(h: History, h': History, nodes: map<NodeId, Node>, n: Node, b: Ballot, q: set<NodeId>, log: Log, m: Message)
    requires n.log != map[] && Completes(h, h', n, b, q, log) && b.id == n.id
    requires m.Decree? && m.dst in nodes && m.dst != n.id && m.ballot == b
    requires Redecreed(n, m.inum) && m.inum in log && m.value == log[m.inum].value
    ensures MessageOK(h', nodes, m)
  {
    hide Redecreed, Last;
  }

  lemma CompletedFinish(s: State, s': State, a: NodeId, q: set<NodeId>, log: Log, sent: set<Message>)
    requires Inv(s) && CanComplete(s, a) && s.nodes[a].id == a && s.nodes[a].prep.value.ballot.id == a
    requires Completes(s.hist, s'.hist, s.nodes[a], s.nodes[a].prep.value.ballot, q, log)
    requires CountsOwn(s.counted, s'.counted, s.nodes[a], s.nodes[a].prep.value.ballot)
    requires s'.nodes.Keys == s.nodes.Keys && forall c :: c in s.nodes && c != a ==> s'.nodes[c] == s.nodes[c]
    requires GrowsBy(s.hist, s'.hist, a) && Evolves(s.nodes[a], s'.nodes[a])
    requires s'.hist.promised.Keys == s'.nodes.Keys
    requires s'.acked == s.acked && s'.net == s.net + multiset(sent)
    requires forall m :: m in sent ==>
               m.Decree? && m.dst in s.nodes && m.dst != a && m.ballot == s.nodes[a].prep.value.ballot
               && Redecreed(s.nodes[a], m.inum) && m.inum in log && m.value == log[m.inum].value
    requires Lawful(s'.hist) && ParticipantOK(s', a) && RecordsOK(s')
    requires forall m :: m in s'.net ==> PromiseOnce(s', m) && VoteOnce(s', m)
    ensures Inv(s')
  {
    hide Inv, Lawful, ParticipantOK, RecordsOK, Redecreed, Last, PromiseOnce, VoteOnce, Evolves, GrowsBy, MessageOK,
      Completes, CountsOwn, Moves;
    CompletedMoves(s, s', a, q, log);
    forall m | m in s'.net && m !in s.net ensures MessageOK(s'.hist, s'.nodes, m) {
      assert m in sent;
      CompletedMessages(s.hist, s'.hist, s'.nodes, s.nodes[a], s.nodes[a].prep.value.ballot, q, log, m);
    }
    Finish(s, s', a);
  }

  lemma AckPromiseCompletes(n: Node, b: Ballot, report: Log, acceptors: set<NodeId>)
    requires n.log != map[] && IsProposer(n) && n.prep.Some? && n.prep.value.ballot == b && n.alive
    requires forall i :: i in report ==> i >= n.prep.value.istart
    requires n.prep.value.acks + 1 >= Majority(|acceptors|)
    ensures Merged(n, report).log != map[]
    ensures var o := AckPromise(n, b, report, acceptors);
      && o == CompletePrepare(Merged(n, report), b, acceptors)
      && o.node.prep.None? && o.node.alive && o.node.ballot == b
  {
    assert Last(n.log) in Merge(n.log, report);
  }

  /** A promise that reaches a majority is a merge followed by a completion. */
  lemma PromiseCompletes(s: State, m: Message)
    requires CanMerge(s, m) && IsProposer(s.nodes[m.ballot.id]) && s.nodes[m.ballot.id].id == m.ballot.id
    requires s.nodes[m.ballot.id].log != map[] && s.nodes[m.ballot.id].alive
    requires forall i :: i in m.report ==> i >= s.nodes[m.ballot.id].prep.value.istart
    requires CanComplete(Merging(s, m), m.ballot.id)
    requires s.nodes[m.ballot.id].prep.value.acks + 1 >= Majority(|s.nodes.Keys|)
    ensures ApplyPromise(s, m) == Completing(Merging(s, m), m.ballot.id)
  {
    hide Last, OwnDecrees, CompletePrepare, CompletedHistory, RedecreeLog, Redecreed;
    var a, s1 := m.ballot.id, Merging(s, m);
    var n := s.nodes[a];
    var n1, work := Merged(n, m.report), n.(log := Merge(n.log, m.report));
    AckPromiseCompletes(n, m.ballot, m.report, s.nodes.Keys);
    SameWork(n1, work, m.ballot);
    hide Merge, AckPromise, CanComplete, CanMerge;
    assert s1.nodes[a] == n1 && s1.nodes.Keys == s.nodes.Keys;
    var s2, s' := Completing(s1, a), ApplyPromise(s, m);
    assert s'.nodes == s2.nodes;
    assert s'.net == s2.net;
    assert s'.hist == s2.hist;
    assert s'.counted == s2.counted;
    assert s'.acked == s2.acked;
  }

  /** What a completion rewrites does not depend on the prepare counters. */
  lemma SameWork(n: Node, n': Node, b: Ballot)
    requires n.log != map[] && n == n'.(prep := n.prep)
    ensures OwnDecrees(n', b) == OwnDecrees(n, b)
    ensures forall h, q :: CompletedHistory(h, n', b, q) == CompletedHistory(h, n, b, q)
  {
    hide RedecreeLog, Redecreed, Last;
    SameRedecree(n, n', b);
    assert OwnVotes(n', b) == OwnVotes(n, b);
    assert OwnDecrees(n', b) == OwnDecrees(n, b);
  }

  lemma SameRedecree(n: Node, n': Node, b: Ballot)
    requires n.log != map[] && n == n'.(prep := n.prep)
    ensures RedecreeLog(n', b) == RedecreeLog(n, b)
    ensures forall i :: Redecreed(n', i) == Redecreed(n, i)
  {
    hide Last, HolesBelow;
    assert forall i :: Redecreed(n', i) == Redecreed(n, i);
    assert forall i :: RedecreeEntry(n', b, i) == RedecreeEntry(n, b, i);
  }

  lemma PromiseMerges(s: State, m: Message)
    requires CanMerge(s, m) && IsProposer(s.nodes[m.ballot.id]) && s.nodes[m.ballot.id].id == m.ballot.id
    requires m.ballot.id in s.hist.promised && s.hist.promised[m.ballot.id] == s.nodes[m.ballot.id].ballot
    requires s.nodes[m.ballot.id].log != map[] && s.nodes[m.ballot.id].alive
    requires forall i :: i in m.report ==> i >= s.nodes[m.ballot.id].prep.value.istart
    requires s.nodes[m.ballot.id].prep.value.acks + 1 < Majority(|s.nodes.Keys|)
    ensures ApplyPromise(s, m) == Merging(s, m)
  {
    SamePromise(s.hist, m.ballot.id);
    assert multiset{} == multiset(AckPromise(s.nodes[m.ballot.id], m.ballot, m.report, s.nodes.Keys).sent);
    hide Merge, Last, CompletePrepare;
  }

  lemma MergingFrame(s: State, m: Message)
    requires CanMerge(s, m) && s.nodes[m.ballot.id].log != map[]
    ensures Merging(s, m).nodes.Keys == s.nodes.Keys
    ensures CanComplete(Merging(s, m), m.ballot.id)
    ensures Merging(s, m).nodes[m.ballot.id].prep.value.acks == s.nodes[m.ballot.id].prep.value.acks + 1
  {
    var n := s.nodes[m.ballot.id];
    assert Last(n.log) in Merge(n.log, m.report);
  }

  lemma AckPromiseKeepsInv(s: State, m: Message)
    requires Inv(s) && m.Promise? && m in s.net && m.ballot.id in s.nodes && m.ballot.id in s.acked
    requires s.nodes[m.ballot.id].log != map[] && s.nodes[m.ballot.id].alive
    ensures Inv(ApplyPromise(s, m))
  {
    hide Inv, CompletePrepare, Merge, Last, Merging, Completing, CanComplete;
    var a, n := m.ballot.id, s.nodes[m.ballot.id];
    PromisedInState(s, a);
    SamePromise(s.hist, a);
    if !IsProposer(n) || n.prep.None? || n.prep.value.ballot != m.ballot {
      DropKeepsInv(s, ApplyPromise(s, m), a, n, multiset{m});
    } else if exists i :: i in m.report && i < n.prep.value.istart {
      DropKeepsInv(s, ApplyPromise(s, m), a, n.(alive := false), multiset{m});
    } else {
      hide ApplyPromise;
      MergeKeepsInv(s, m);
      MergingFrame(s, m);
      if n.prep.value.acks + 1 < Majority(|s.nodes.Keys|) {
        PromiseMerges(s, m);
      } else {
        CompleteKeepsInv(Merging(s, m), a);
        PromiseCompletes(s, m);
      }
    }
  }
}
