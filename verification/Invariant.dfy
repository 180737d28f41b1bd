/** What every reachable state satisfies, and how it is carried over a step. */
module Invariant {
  import opened Types
  import opened Quorums
  import opened Voting
  import opened Node
  import opened Protocol

  /** A log remembers every vote its owner cast; a strong one under a ballot no
      lower than the vote's.  What it holds is backed, and what it has
      committed has been chosen. */
  ghost predicate LogOK(h: History, a: NodeId, log: Log) {
    && 1 in log && 0 !in log
    && (forall x :: x in h.votes && x.voter == a ==> x.inum in log)
    && (forall x :: x in h.strong && x.voter == a ==> x.inum in log && AtMost(x.ballot, log[x.inum].ballot))
    && (forall i :: i in log ==> Backed(h, i, log[i].ballot, log[i].value))
    && (forall i :: i in log && log[i].committed ==> Chosen(h, i, log[i].value))
  }

  /** Everything below the hole is learned, once each and in order. */
  ghost predicate LearnsOK(log: Log, ihole: nat, learns: seq<Value>) {
    && ihole >= 2
    && |learns| == ihole - 2
    && (forall i :: 1 <= i < ihole ==> Ready(log, i))
    && (forall i :: 2 <= i < ihole ==> i in log && learns[i - 2] == log[i].value)
  }

  ghost predicate BallotsOK(h: History, n: Node) {
    && n.id in h.promised && h.promised[n.id] == n.ballot
    && n.ballot.gen <= n.genHigh
    && (n.prep.Some? ==>
          && IsProposer(n)
          && n.prep.value.ballot.id == n.id
          && n.ballot.gen < n.prep.value.ballot.gen <= n.genHigh)
  }

  ghost predicate NodeOK(h: History, n: Node) {
    LogOK(h, n.id, n.log) && LearnsOK(n.log, n.ihole, n.learns) && BallotsOK(h, n)
  }

  /** Votes of `q` below `b` are all accounted for in `log`. */
  ghost predicate Covers(h: History, q: set<NodeId>, b: Ballot, log: Log) {
    && (forall x :: x in h.votes && x.voter in q && Below(x.ballot, b) ==> x.inum in log)
    && (forall x :: x in h.strong && x.voter in q && Below(x.ballot, b) ==>
          x.inum in log && (log[x.inum].committed || AtMost(x.ballot, log[x.inum].ballot)))
  }

  /** The promise counter is the size of the set of promisers, plus ourselves. */
  ghost predicate PrepOK(h: History, acked: set<NodeId>, n: Node) {
    n.prep.Some? ==>
      && acked <= h.promised.Keys && n.id !in acked
      && n.prep.value.acks == |acked| + 1
      && (forall a :: a in acked ==> AtMost(n.prep.value.ballot, h.promised[a]))
      && Covers(h, acked, n.prep.value.ballot, n.log)
  }

  /** The vote counter of an open decree is the size of the set of its voters. */
  ghost predicate EstablishedOK(h: History, counted: map<(Ballot, nat), set<NodeId>>, n: Node) {
    Established(n) ==>
      && n.ballot.id == n.id && n.ballot in h.prepared
      && (forall x :: x in h.votes && x.voter in h.prepared[n.ballot] && Below(x.ballot, n.ballot) ==> x.inum in n.log)
      && (forall i :: i in n.log && !n.log[i].committed ==>
            && n.log[i].ballot == n.ballot
            && Genuine(h, i, n.ballot, n.log[i].value)
            && (n.ballot, i) in counted
            && n.log[i].votes == |counted[(n.ballot, i)]|)
  }

  ghost predicate OwnerOK(nodes: map<NodeId, Node>, b: Ballot) {
    b.id in nodes && Established(nodes[b.id]) && nodes[b.id].ballot == b
  }

  ghost predicate DecreedOK(h: History, nodes: map<NodeId, Node>, counted: map<(Ballot, nat), set<NodeId>>, b: Ballot, i: nat)
    requires (b, i) in h.decreed
  {
    && b.id in nodes && i in nodes[b.id].log
    && (b, i) in counted && counted[(b, i)] <= nodes.Keys
    && AllVoted(h.votes, counted[(b, i)], i, b, h.decreed[(b, i)])
  }

  ghost predicate MessageOK(h: History, nodes: map<NodeId, Node>, m: Message) {
    match m
    case Prepare(dst, b, start) =>
      dst in nodes && b.id in nodes && dst != b.id && start <= nodes[b.id].ihole
    case Promise(src, b, start, report) =>
      && src in nodes && b.id in nodes && src != b.id
      && src in h.promised && AtMost(b, h.promised[src])
      && start <= nodes[b.id].ihole
      && (forall i :: i in report ==> Backed(h, i, report[i].ballot, report[i].value))
      && ReportCovers(h, src, b, start, report)
    case Decree(dst, b, i, v) => dst in nodes && dst != b.id && Genuine(h, i, b, v)
    case Accept(src, b, i) => (b, i) in h.decreed && Vote(src, i, b, h.decreed[(b, i)]) in h.votes
    case Commit(dst, b, i, v) => dst in nodes && i > 0 && Chosen(h, i, v)
    case Resend(dst, i) => dst in nodes && i in nodes[dst].log && nodes[dst].log[i].committed
  }

  ghost predicate ReportCovers(h: History, src: NodeId, b: Ballot, start: nat, report: Log)
  {
    && (forall x :: x in h.votes && x.voter == src && Below(x.ballot, b) && start <= x.inum ==> x.inum in report)
    && (forall x :: x in h.strong && x.voter == src && Below(x.ballot, b) && start <= x.inum ==>
          x.inum in report && AtMost(x.ballot, report[x.inum].ballot))
  }

  predicate Preparing(s: State, b: Ballot) {
    && b.id in s.nodes && b.id in s.acked
    && s.nodes[b.id].prep.Some? && s.nodes[b.id].prep.value.ballot == b
  }

  /** A promise is counted at most once: it is in flight or counted, not both. */
  ghost predicate PromiseOnce(s: State, m: Message) {
    m.Promise? ==>
      && s.net[m] == 1
      && (forall k :: k in s.net && k.Promise? && k.src == m.src && k.ballot == m.ballot ==> k == m)
      && (Preparing(s, m.ballot) ==> m.src !in s.acked[m.ballot.id])
  }

  /** A vote is counted at most once: a decree in flight has not been voted on
      by its receiver, and an accept in flight has not been counted. */
  ghost predicate VoteOnce(s: State, m: Message) {
    && (m.Decree? ==>
          s.net[m] == 1 && Vote(m.dst, m.inum, m.ballot, m.value) !in s.hist.votes)
    && (m.Accept? ==>
          && s.net[m] == 1
          && ((m.ballot, m.inum) in s.counted ==> m.src !in s.counted[(m.ballot, m.inum)]))
  }

  ghost predicate ParticipantOK(s: State, a: NodeId) {
    && a in s.nodes && a in s.acked && s.nodes[a].id == a
    && NodeOK(s.hist, s.nodes[a])
    && PrepOK(s.hist, s.acked[a], s.nodes[a])
    && EstablishedOK(s.hist, s.counted, s.nodes[a])
  }

  ghost predicate NodesOK(s: State) {
    forall a :: a in s.nodes ==> ParticipantOK(s, a)
  }

  ghost predicate RecordsOK(s: State) {
    && (forall b :: b in s.hist.prepared ==> OwnerOK(s.nodes, b))
    && (forall b, i :: (b, i) in s.hist.decreed ==> DecreedOK(s.hist, s.nodes, s.counted, b, i))
    && (forall k :: k in s.counted ==> k in s.hist.decreed)
  }

  ghost predicate NetOK(s: State) {
    forall m :: m in s.net ==> MessageOK(s.hist, s.nodes, m) && PromiseOnce(s, m) && VoteOnce(s, m)
  }

  ghost predicate Inv(s: State) {
    s.nodes.Keys != {} && s.hist.promised.Keys == s.nodes.Keys
    && Lawful(s.hist) && NodesOK(s) && RecordsOK(s) && NetOK(s)
  }

  // ---- Framing: one participant moves, the rest only see the history grow.

  /** How a participant's state may change in any step. */
  ghost predicate Evolves(n: Node, n': Node) {
    && n'.id == n.id
    && n.ihole <= n'.ihole
    && (forall i :: i in n.log ==> i in n'.log)
    && (forall i :: i in n.log && n.log[i].committed ==> n'.log[i].committed)
    && (Established(n) ==> Established(n') && n'.ballot == n.ballot)
  }

  /** `h'` grows from `h` by steps of `a` alone. */
  ghost predicate GrowsBy(h: History, h': History, a: NodeId) {
    && Grows(h, h')
    && (forall c :: c in h.promised && c != a ==> h'.promised[c] == h.promised[c])
    && (forall x :: x in h'.votes && x !in h.votes ==> x.voter == a)
    && (forall x :: x in h'.strong && x !in h.strong ==> x.voter == a)
  }

  lemma LogKept(h: History, h': History, a: NodeId, c: NodeId, log: Log)
    requires GrowsBy(h, h', a) && c != a && LogOK(h, c, log)
    ensures LogOK(h', c, log)
  {
    forall i | i in log ensures Backed(h', i, log[i].ballot, log[i].value) {
      BackedStays(h, h', i, log[i].ballot, log[i].value);
    }
    forall i | i in log && log[i].committed ensures Chosen(h', i, log[i].value) {
      ChosenStays(h, h', i, log[i].value);
    }
  }

  lemma CoverKept(h: History, h': History, q: set<NodeId>, b: Ballot, log: Log)
    requires Grows(h, h') && Covers(h, q, b, log)
    requires forall a :: a in q ==> a in h.promised && AtMost(b, h.promised[a])
    ensures Covers(h', q, b, log)
  {
  }

  lemma EstablishedKept(h: History, h': History, counted: map<(Ballot, nat), set<NodeId>>, counted': map<(Ballot, nat), set<NodeId>>, n: Node)
    requires Grows(h, h') && EstablishedOK(h, counted, n)
    requires PreparesLawful(h)
    requires forall k :: k in counted && k.0.id == n.id ==> k in counted' && counted'[k] == counted[k]
    ensures EstablishedOK(h', counted', n)
  {
  }

  lemma PromiseKept(h: History, h': History, src: NodeId, b: Ballot, start: nat, report: Log)
    requires Grows(h, h') && src in h.promised && AtMost(b, h.promised[src])
    requires ReportCovers(h, src, b, start, report)
    requires forall i :: i in report ==> Backed(h, i, report[i].ballot, report[i].value)
    ensures ReportCovers(h', src, b, start, report)
    ensures forall i :: i in report ==> Backed(h', i, report[i].ballot, report[i].value)
  {
    forall i | i in report ensures Backed(h', i, report[i].ballot, report[i].value) {
      BackedStays(h, h', i, report[i].ballot, report[i].value);
    }
  }

  lemma MessageKept(h: History, h': History, nodes: map<NodeId, Node>, nodes': map<NodeId, Node>, m: Message)
    requires Grows(h, h') && nodes'.Keys == nodes.Keys
    requires forall c :: c in nodes ==> Evolves(nodes[c], nodes'[c])
    requires MessageOK(h, nodes, m)
    ensures MessageOK(h', nodes', m)
  {
    match m
    case Promise(src, b, start, report) =>
      assert Evolves(nodes[b.id], nodes'[b.id]);
      PromiseKept(h, h', src, b, start, report);
    case Commit(_, _, i, v) => ChosenStays(h, h', i, v);
    case Prepare(_, b, _) => assert Evolves(nodes[b.id], nodes'[b.id]);
    case Decree(_, _, _, _) =>
    case Accept(_, _, _) =>
    case Resend(dst, _) => assert Evolves(nodes[dst], nodes'[dst]);
  }

  lemma OtherKept(h: History, h': History, a: NodeId, n: Node, acked: set<NodeId>,
                  counted: map<(Ballot, nat), set<NodeId>>, counted': map<(Ballot, nat), set<NodeId>>)
    requires GrowsBy(h, h', a) && PreparesLawful(h) && n.id != a
    requires NodeOK(h, n) && PrepOK(h, acked, n) && EstablishedOK(h, counted, n)
    requires forall k :: k in counted && k.0.id != a ==> k in counted' && counted'[k] == counted[k]
    ensures NodeOK(h', n) && PrepOK(h', acked, n) && EstablishedOK(h', counted', n)
  {
    LogKept(h, h', a, n.id, n.log);
    if n.prep.Some? { CoverKept(h, h', acked, n.prep.value.ballot, n.log); }
    EstablishedKept(h, h', counted, counted', n);
  }

  /** Participant `a` took a step from `s` to `s'`. */
  ghost predicate Moves(s: State, s': State, a: NodeId) {
    && a in s.nodes && s'.nodes.Keys == s.nodes.Keys
    && (forall c :: c in s.nodes && c != a ==> s'.nodes[c] == s.nodes[c])
    && Evolves(s.nodes[a], s'.nodes[a])
    && GrowsBy(s.hist, s'.hist, a)
    && s'.acked.Keys == s.acked.Keys
    && (forall c :: c in s.acked && c != a ==> s'.acked[c] == s.acked[c])
    && (forall k :: k in s.counted && k.0.id != a ==> k in s'.counted && s'.counted[k] == s.counted[k])
  }

  lemma NodesKept(s: State, s': State, a: NodeId)
    requires NodesOK(s) && PreparesLawful(s.hist) && Moves(s, s', a) && ParticipantOK(s', a)
    ensures NodesOK(s')
  {
    forall c | c in s'.nodes ensures ParticipantOK(s', c) {
      if c != a {
        assert ParticipantOK(s, c);
        OtherKept(s.hist, s'.hist, a, s.nodes[c], s.acked[c], s.counted, s'.counted);
      }
    }
  }

  lemma MessagesKept(s: State, s': State, a: NodeId)
    requires Moves(s, s', a)
    requires forall m :: m in s.net ==> MessageOK(s.hist, s.nodes, m)
    ensures forall m :: m in s.net ==> MessageOK(s'.hist, s'.nodes, m)
  {
    forall c | c in s.nodes ensures Evolves(s.nodes[c], s'.nodes[c]) { }
    forall m | m in s.net ensures MessageOK(s'.hist, s'.nodes, m) {
      MessageKept(s.hist, s'.hist, s.nodes, s'.nodes, m);
    }
  }
}
