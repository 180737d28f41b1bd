/** Each step keeps the invariant. */
module Preservation {
  import opened Types
  import opened Quorums
  import opened Voting
  import opened Node
  import opened Protocol
  import opened Invariant

  // ---- Effects of committing.

  /** `log'` differs from `log` in flags only, and `i` is the one new commit. */
  ghost predicate CommitsOnly(log: Log, log': Log, i: nat) {
    && log'.Keys == log.Keys
    && forall j :: j in log ==>
         && log'[j].ballot == log[j].ballot && log'[j].value == log[j].value && log'[j].votes == log[j].votes
         && (log'[j].committed <==> log[j].committed || j == i)
  }

  ghost predicate SameRole(n: Node, n': Node) {
    && n'.id == n.id && n'.ballot == n.ballot && n'.genHigh == n.genHigh
    && n'.proposer == n.proposer && n'.prep == n.prep
  }

  lemma LearnRunOK(n: Node)
    requires LearnsOK(n.log, n.ihole, n.learns)
    ensures var m := LearnRun(n); LearnsOK(m.log, m.ihole, m.learns) && n.ihole <= m.ihole
  {
    var m := LearnRun(n);
    forall i | 1 <= i < m.ihole ensures Ready(m.log, i) {
      assert Ready(n.log, i);
    }
    forall i | 2 <= i < m.ihole ensures i in m.log && m.learns[i - 2] == m.log[i].value {
      assert Ready(m.log, i);
      if i < n.ihole {
        assert m.learns[i - 2] == n.learns[i - 2];
      } else {
        assert m.learns[i - 2] == Values(n.log, n.ihole, m.ihole)[i - n.ihole];
      }
    }
  }

  /** Marking an instance committed leaves the learned prefix as it was. */
  lemma MarkedPrefix(log: Log, ihole: nat, learns: seq<Value>, i: nat, cached: bool)
    requires LearnsOK(log, ihole, learns) && i in log && (log[i].cached ==> cached)
    ensures LearnsOK(log[i := log[i].(committed := true, cached := cached)], ihole, learns)
  {
    var log' := log[i := log[i].(committed := true, cached := cached)];
    forall j | 1 <= j < ihole ensures Ready(log', j) && (j >= 2 ==> log'[j].value == log[j].value) { assert Ready(log, j); }
  }

  lemma LearnRunEffect(n: Node, log: Log, i: nat)
    requires CommitsOnly(log, n.log, i)
    ensures var m := LearnRun(n);
      SameRole(n, m) && m.alive == n.alive && m.reqId == n.reqId && CommitsOnly(log, m.log, i)
  {
    hide HoleAfter, Values;
  }

  lemma MarkedOnly(log: Log, i: nat, cached: bool)
    requires i in log
    ensures CommitsOnly(log, log[i := log[i].(committed := true, cached := cached)], i)
  {
  }

  lemma CommitEffect(n: Node, i: nat, have: bool)
    requires LearnsOK(n.log, n.ihole, n.learns) && i in n.log && !Ready(n.log, i) && i > 0
    ensures var n' := CommitInstance(n, i, have).node;
      && SameRole(n, n') && n'.alive == n.alive && n'.reqId == n.reqId
      && CommitsOnly(n.log, n'.log, i) && LearnsOK(n'.log, n'.ihole, n'.learns) && n.ihole <= n'.ihole
    ensures CommitInstance(n, i, have).sent <= {Resend(n.id, i)}
  {
    assert n.ihole <= i;
    hide LearnsOK, CommitsOnly, LearnRun;
    var cached := n.log[i].cached || !NeedsCached(n.log[i].value.kind) || have;
    var e := n.log[i].(committed := true, cached := cached);
    var m := n.(log := n.log[i := e]);
    MarkedPrefix(n.log, n.ihole, n.learns, i, cached);
    MarkedOnly(n.log, i, cached);
    if NeedsCached(n.log[i].value.kind) && !have {
      assert n.log[i].(committed := true) == e;
    } else if i == n.ihole {
      LearnRunOK(m);
      LearnRunEffect(m, n.log, i);
    }
  }

  lemma CommitKeepsLog(h: History, a: NodeId, log: Log, log': Log, i: nat)
    requires LogOK(h, a, log) && CommitsOnly(log, log', i)
    requires i in log ==> Chosen(h, i, log[i].value)
    ensures LogOK(h, a, log')
  {
    forall j | j in log' ensures Backed(h, j, log'[j].ballot, log'[j].value) {
      assert Backed(h, j, log[j].ballot, log[j].value);
    }
  }

  // ---- Steps that add nothing to the history.

  lemma QuietGrows(h: History, a: NodeId)
    ensures GrowsBy(h, h, a)
  {
  }

  lemma SamePromise(h: History, a: NodeId)
    requires a in h.promised
    ensures h.(promised := h.promised[a := h.promised[a]]) == h
  {
    assert h.promised[a := h.promised[a]] == h.promised;
  }

  lemma RecordsKept(s: State, s': State, a: NodeId)
    requires RecordsOK(s) && Moves(s, s', a)
    requires s'.hist.prepared == s.hist.prepared && s'.hist.decreed == s.hist.decreed && s'.counted == s.counted
    ensures RecordsOK(s')
  {
    forall b | b in s'.hist.prepared ensures OwnerOK(s'.nodes, b) {
      assert OwnerOK(s.nodes, b);
      assert Evolves(s.nodes[b.id], s'.nodes[b.id]);
    }
    forall b, i | (b, i) in s'.hist.decreed ensures DecreedOK(s'.hist, s'.nodes, s'.counted, b, i) {
      assert DecreedOK(s.hist, s.nodes, s.counted, b, i);
      assert Evolves(s.nodes[b.id], s'.nodes[b.id]);
    }
  }

  predicate Tracked(m: Message) {
    m.Promise? || m.Decree? || m.Accept?
  }

  /** It is enough to check the participant that moved, the records, the new
      messages, and that nothing is counted twice. */
  lemma Finish(s: State, s': State, a: NodeId)
    requires Inv(s) && Moves(s, s', a)
    requires s'.hist.promised.Keys == s'.nodes.Keys == s.nodes.Keys
    requires Lawful(s'.hist) && ParticipantOK(s', a) && RecordsOK(s')
    requires forall m :: m in s'.net && m !in s.net ==> MessageOK(s'.hist, s'.nodes, m)
    requires forall m :: m in s'.net ==> PromiseOnce(s', m) && VoteOnce(s', m)
    ensures Inv(s')
  {
    hide Moves, ParticipantOK, RecordsOK, MessageOK, PromiseOnce, VoteOnce, VotesLawful, DecreesSafe, PreparesLawful;
    assert forall m :: m in s.net ==> MessageOK(s.hist, s.nodes, m);
    NodesKept(s, s', a);
    MessagesKept(s, s', a);
  }

  /** What a step that leaves the history alone may do to the state. */
  ghost predicate QuietMove(s: State, s': State, a: NodeId) {
    && s'.hist == s.hist && s'.counted == s.counted
    && a in s.nodes && s'.nodes.Keys == s.nodes.Keys
    && (forall c :: c in s.nodes && c != a ==> s'.nodes[c] == s.nodes[c])
    && Evolves(s.nodes[a], s'.nodes[a])
    && s'.acked.Keys == s.acked.Keys
    && (forall c :: c in s.acked && c != a ==> s'.acked[c] == s.acked[c])
  }

  lemma QuietMoves(s: State, s': State, a: NodeId)
    requires QuietMove(s, s', a)
    ensures Moves(s, s', a)
  {
    QuietGrows(s.hist, a);
  }

  /** No tracked message is added, and nothing new is being prepared or counted. */
  ghost predicate Untracked(s: State, s': State) {
    && (forall m :: m in s'.net && Tracked(m) ==> m in s.net && s'.net[m] <= s.net[m])
    && (forall b :: Preparing(s', b) ==> (Preparing(s, b) && s'.acked[b.id] <= s.acked[b.id]) || s'.acked[b.id] == {})
  }

  /** A step that sends nothing tracked, casts no vote and counts nothing. */
  lemma OnceKept(s: State, s': State)
    requires forall m :: m in s.net ==> PromiseOnce(s, m) && VoteOnce(s, m)
    requires Untracked(s, s')
    requires s'.hist.votes == s.hist.votes && s'.counted == s.counted
    ensures forall m :: m in s'.net ==> PromiseOnce(s', m) && VoteOnce(s', m)
  {
  }

  lemma QuietStep(s: State, s': State, a: NodeId)
    requires Inv(s) && QuietMove(s, s', a) && Untracked(s, s') && ParticipantOK(s', a)
    requires forall m :: m in s'.net && m !in s.net ==> MessageOK(s'.hist, s'.nodes, m)
    ensures Inv(s')
  {
    hide Lawful, ParticipantOK, MessageOK;
    QuietMoves(s, s', a);
    RecordsKept(s, s', a);
    OnceKept(s, s');
    Finish(s, s', a);
  }

  /** Installing an outcome that leaves the history and the role alone. */
  lemma QuietInstall(s: State, a: NodeId, o: Outcome, taken: multiset<Message>)
    requires Inv(s) && a in s.nodes && a in s.acked
    requires o.node.id == a && o.node.ballot == s.nodes[a].ballot && o.node.prep == s.nodes[a].prep
    requires NodeOK(s.hist, o.node) && PrepOK(s.hist, s.acked[a], o.node) && EstablishedOK(s.hist, s.counted, o.node)
    requires Evolves(s.nodes[a], o.node)
    requires forall m :: m in o.sent ==> !Tracked(m) && MessageOK(s.hist, s.nodes[a := o.node], m)
    ensures Inv(Install(s, a, o, taken))
  {
    hide Lawful, RecordsOK, LogOK, LearnsOK, PrepOK, EstablishedOK, Evolves, MessageOK, PromiseOnce, VoteOnce;
    var s' := Install(s, a, o, taken);
    SamePromise(s.hist, a);
    hide NodeOK;
    QuietStep(s, s', a);
  }

  lemma SameParticipant(s: State, s': State, a: NodeId)
    requires ParticipantOK(s, a) && s'.hist == s.hist
    requires a in s'.nodes && a in s'.acked && s'.acked[a] == s.acked[a] && s'.counted == s.counted
    requires s'.nodes[a] == s.nodes[a] || s'.nodes[a] == s.nodes[a].(alive := false)
    ensures ParticipantOK(s', a)
  {
  }

  /** A message is consumed without effect, or its receiver stops. */
  lemma DropKeepsInv(s: State, s': State, a: NodeId, n': Node, taken: multiset<Message>)
    requires Inv(s) && a in s.nodes
    requires s' == s.(nodes := s.nodes[a := n'], net := s.net - taken)
    requires n' == s.nodes[a] || n' == s.nodes[a].(alive := false)
    ensures Inv(s')
  {
    hide Lawful, NodeOK, PrepOK, EstablishedOK, MessageOK, RecordsOK;
    assert ParticipantOK(s, a);
    SameParticipant(s, s', a);
    QuietStep(s, s', a);
  }

  lemma LoseKeepsInv(s: State, m: Message)
    requires Inv(s) && m in s.net
    ensures Inv(s.(net := s.net - multiset{m}))
  {
    hide Lawful, ParticipantOK, RecordsOK, PromiseOnce, VoteOnce;
    var s' := s.(net := s.net - multiset{m});
    var a :| a in s.nodes.Keys;
    assert s'.nodes == s.nodes[a := s.nodes[a]];
    hide NetOK, Inv;
    DropKeepsInv(s, s', a, s.nodes[a], multiset{m});
  }

  lemma DeferrerOK(h: History, acked: set<NodeId>, counted: map<(Ballot, nat), set<NodeId>>, n: Node, to: NodeId)
    requires NodeOK(h, n) && !Established(n) && to != n.id
    ensures var n' := Defer(n, to);
      NodeOK(h, n') && PrepOK(h, acked, n') && EstablishedOK(h, counted, n') && Evolves(n, n')
  {
    hide LogOK, LearnsOK;
  }

  lemma ElectKeepsInv(s: State, a: NodeId, to: NodeId)
    requires Inv(s) && a in s.nodes && !Established(s.nodes[a]) && to != a
    ensures Inv(s.(nodes := s.nodes[a := Defer(s.nodes[a], to)]))
  {
    hide Lawful, MessageOK, RecordsOK, LogOK, LearnsOK, PromiseOnce, VoteOnce;
    var s' := s.(nodes := s.nodes[a := Defer(s.nodes[a], to)]);
    assert ParticipantOK(s, a);
    DeferrerOK(s.hist, s.acked[a], s.counted, s.nodes[a], to);
    hide NodeOK, PrepOK, EstablishedOK;
    assert ParticipantOK(s', a);
    QuietStep(s, s', a);
  }

  lemma PreparerOK(h: History, counted: map<(Ballot, nat), set<NodeId>>, n: Node, acceptors: set<NodeId>)
    requires NodeOK(h, n) && !Established(n)
    ensures var n' := StartPrepare(n, acceptors).node;
      NodeOK(h, n') && PrepOK(h, {}, n') && EstablishedOK(h, counted, n') && Evolves(n, n')
  {
    hide LogOK, LearnsOK;
  }

  lemma PreparesAreOK(h: History, nodes: map<NodeId, Node>, n: Node)
    requires n.id in nodes && n.ihole > 0
    ensures var o := StartPrepare(n, nodes.Keys);
      && o.node.id == n.id && o.node.ballot == n.ballot
      && forall m :: m in o.sent ==> !Tracked(m) && MessageOK(h, nodes[n.id := o.node], m)
  {
  }

  /** Installing an outcome that leaves the history alone and forgets the promises counted so far. */
  lemma AskingInstall(s: State, a: NodeId, o: Outcome)
    requires a in s.nodes && a in s.acked && a in s.hist.promised && s.hist.promised[a] == o.node.ballot
    requires Evolves(s.nodes[a], o.node) && forall m :: m in o.sent ==> !Tracked(m)
    ensures var s' := Install(s, a, o, multiset{}).(acked := s.acked[a := {}]);
      QuietMove(s, s', a) && Untracked(s, s')
  {
    hide Evolves;
    SamePromise(s.hist, a);
  }

  lemma BeginPrepareKeepsInv(s: State, a: NodeId)
    requires Inv(s) && a in s.nodes && a in s.acked && !Established(s.nodes[a]) && s.nodes[a].ihole > 0
    ensures Inv(Install(s, a, StartPrepare(s.nodes[a], s.nodes.Keys), multiset{}).(acked := s.acked[a := {}]))
  {
    hide Lawful, RecordsOK, NodeOK, PrepOK, EstablishedOK, PromiseOnce, VoteOnce, Evolves, StartPrepare, MessageOK, Untracked;
    var o := StartPrepare(s.nodes[a], s.nodes.Keys);
    var s' := Install(s, a, o, multiset{}).(acked := s.acked[a := {}]);
    assert ParticipantOK(s, a);
    PreparerOK(s.hist, s.counted, s.nodes[a], s.nodes.Keys);
    PromisedIs(s.hist, s.nodes[a]);
    PreparesAreOK(s.hist, s.nodes, s.nodes[a]);
    AskingInstall(s, a, o);
    hide NetOK, Inv, QuietMove;
    QuietStep(s, s', a);
  }

  lemma PromisedIs(h: History, n: Node)
    requires NodeOK(h, n)
    ensures n.id in h.promised && h.promised[n.id] == n.ballot
  {
  }

  // ---- Promising.

  lemma ReportOK(h: History, a: NodeId, log: Log, b: Ballot, start: nat)
    requires LogOK(h, a, log)
    ensures ReportCovers(h, a, b, start, Report(log, start))
    ensures forall i :: i in Report(log, start) ==>
              Backed(h, i, Report(log, start)[i].ballot, Report(log, start)[i].value)
  {
    forall i | i in Report(log, start)
      ensures Backed(h, i, Report(log, start)[i].ballot, Report(log, start)[i].value)
    {
      assert i in log && Backed(h, i, log[i].ballot, log[i].value);
    }
  }

  /** A promise for a higher ballot changes what the history says of us only. */
  lemma PromiseKeepsLawful(s: State, s': State, a: NodeId, b: Ballot)
    requires Lawful(s.hist) && a in s.hist.promised && Below(s.hist.promised[a], b)
    requires s'.hist == s.hist.(promised := s.hist.promised[a := b])
    ensures Lawful(s'.hist) && GrowsBy(s.hist, s'.hist, a)
  {
    VotingKeepsLawful(s.hist, s'.hist);
  }

  lemma AckPrepareKeepsInv(s: State, a: NodeId, b: Ballot, start: nat)
    requires Inv(s) && Prepare(a, b, start) in s.net && a in s.nodes
    ensures Inv(Install(s, a, AckPrepare(s.nodes[a], b, start), multiset{Prepare(a, b, start)}))
  {
    hide Lawful, RecordsOK, NodeOK, PrepOK, EstablishedOK, PromiseOnce, VoteOnce, Evolves;
    var n, m := s.nodes[a], Prepare(a, b, start);
    var o := AckPrepare(n, b, start);
    var s' := Install(s, a, o, multiset{m});
    assert ParticipantOK(s, a) && MessageOK(s.hist, s.nodes, m);
    PromisedIs(s.hist, n);
    if o == Ignored(n) {
      SamePromise(s.hist, a);
      DropKeepsInv(s, s', a, n, multiset{m});
    } else {
      PromiseStep(s, s', a, b, start);
    }
  }

  lemma PromiseStep(s: State, s': State, a: NodeId, b: Ballot, start: nat)
    requires Inv(s) && Prepare(a, b, start) in s.net && a in s.nodes
    requires !IsProposer(s.nodes[a]) && Below(s.nodes[a].ballot, b)
    requires var n := s.nodes[a]; s' == Install(s, a,
           Outcome(n.(ballot := b, genHigh := b.gen), {Promise(n.id, b, start, Report(n.log, start))}),
           multiset{Prepare(a, b, start)})
    ensures Inv(s')
  {
    hide Lawful, RecordsOK, NodeOK, PrepOK, EstablishedOK, PromiseOnce, VoteOnce, GrowsBy, Report, MessageOK, Moves;
    var n, m := s.nodes[a], Prepare(a, b, start);
    var p := Promise(n.id, b, start, Report(n.log, start));
    assert ParticipantOK(s, a) && MessageOK(s.hist, s.nodes, m);
    PrepareIsBound(s.hist, s.nodes, m);
    PromisedIs(s.hist, n);
    PromiseKeepsLawful(s, s', a, b);
    PromiserOK(s.hist, s'.hist, a, n, b, s.acked[a], s.counted);
    PromiseMoves(s, s', a);
    RecordsKept(s, s', a);
    PromiseIsNew(s, s', m, p);
    assert MessageOK(s'.hist, s'.nodes, p) by { NewPromiseOK(s'.hist, s'.nodes, s'.nodes[a], b, start); }
    Finish(s, s', a);
  }

  lemma PrepareIsBound(h: History, nodes: map<NodeId, Node>, m: Message)
    requires MessageOK(h, nodes, m) && m.Prepare?
    ensures m.dst in nodes && m.ballot.id in nodes && m.dst != m.ballot.id && m.start <= nodes[m.ballot.id].ihole
  {
  }

  lemma PromiseMoves(s: State, s': State, a: NodeId)
    requires a in s.nodes && a in s'.nodes && !IsProposer(s.nodes[a]) && GrowsBy(s.hist, s'.hist, a)
    requires s'.nodes == s.nodes[a := s'.nodes[a]] && s'.acked == s.acked && s'.counted == s.counted
    requires s'.nodes[a] == s.nodes[a].(ballot := s'.nodes[a].ballot, genHigh := s'.nodes[a].genHigh)
    ensures Moves(s, s', a)
  {
    hide GrowsBy;
  }

  lemma NewPromiseOK(h: History, nodes: map<NodeId, Node>, n: Node, b: Ballot, start: nat)
    requires NodeOK(h, n) && n.ballot == b && n.id in nodes && b.id in nodes && n.id != b.id && start <= nodes[b.id].ihole
    ensures MessageOK(h, nodes, Promise(n.id, b, start, Report(n.log, start)))
  {
    ReportOK(h, n.id, n.log, b, start);
  }

  lemma PromiserOK(h: History, h': History, a: NodeId, n: Node, b: Ballot,
                   acked: set<NodeId>, counted: map<(Ballot, nat), set<NodeId>>)
    requires NodeOK(h, n) && n.id == a && !IsProposer(n) && Below(n.ballot, b)
    requires h' == h.(promised := h.promised[a := b]) && GrowsBy(h, h', a)
    ensures var n' := n.(ballot := b, genHigh := b.gen);
      NodeOK(h', n') && PrepOK(h', acked, n') && EstablishedOK(h', counted, n')
  {
    LogGrows(h, h', a, n.log);
  }

  /** A log stays accounted for while the history grows without its owner voting. */
  lemma LogGrows(h: History, h': History, a: NodeId, log: Log)
    requires LogOK(h, a, log) && Grows(h, h')
    requires h'.votes == h.votes && h'.strong == h.strong
    ensures LogOK(h', a, log)
  {
    forall i | i in log ensures Backed(h', i, log[i].ballot, log[i].value) {
      BackedStays(h, h', i, log[i].ballot, log[i].value);
    }
    forall i | i in log && log[i].committed ensures Chosen(h', i, log[i].value) {
      ChosenStays(h, h', i, log[i].value);
    }
  }

  lemma PromiserIsBound(h: History, nodes: map<NodeId, Node>, m: Message)
    requires MessageOK(h, nodes, m) && m.Promise?
    ensures m.src in h.promised && AtMost(m.ballot, h.promised[m.src])
  {
  }

  lemma AckedAreBound(h: History, acked: set<NodeId>, n: Node)
    requires PrepOK(h, acked, n) && n.prep.Some?
    ensures forall a :: a in acked ==> a in h.promised && AtMost(n.prep.value.ballot, h.promised[a])
  {
  }

  /** Nobody has promised this ballot to the preparer before. */
  lemma NotYetPromised(s: State, m: Message)
    requires NodesOK(s) && NetOK(s) && m.Prepare? && m.dst in s.nodes && Below(s.nodes[m.dst].ballot, m.ballot)
    ensures forall k :: k in s.net && k.Promise? && k.src == m.dst ==> k.ballot != m.ballot
    ensures Preparing(s, m.ballot) ==> m.dst !in s.acked[m.ballot.id]
  {
    hide NodeOK, PrepOK, EstablishedOK, MessageOK;
    assert ParticipantOK(s, m.dst);
    PromisedIs(s.hist, s.nodes[m.dst]);
    forall k | k in s.net && k.Promise? && k.src == m.dst ensures k.ballot != m.ballot {
      assert MessageOK(s.hist, s.nodes, k);
      PromiserIsBound(s.hist, s.nodes, k);
    }
    if Preparing(s, m.ballot) {
      assert ParticipantOK(s, m.ballot.id);
      AckedAreBound(s.hist, s.acked[m.ballot.id], s.nodes[m.ballot.id]);
    }
  }

  lemma PromiseIsNew(s: State, s': State, m: Message, p: Message)
    requires NodesOK(s) && NetOK(s) && m.Prepare? && p.Promise? && p.ballot == m.ballot && p.src == m.dst
    requires m.dst in s.nodes && Below(s.nodes[m.dst].ballot, m.ballot)
    requires m.ballot.id != m.dst
    requires s'.net == s.net - multiset{m} + multiset{p}
    requires s'.acked == s.acked && s'.hist.votes == s.hist.votes && s'.counted == s.counted
    requires s'.nodes.Keys == s.nodes.Keys && forall c :: c in s.nodes && c != m.dst ==> s'.nodes[c] == s.nodes[c]
    requires s'.nodes[m.dst].prep == s.nodes[m.dst].prep
    ensures forall k :: k in s'.net ==> PromiseOnce(s', k) && VoteOnce(s', k)
  {
    hide NodesOK, MessageOK;
    NotYetPromised(s, m);
    assert p !in s.net;
    forall k | k in s'.net ensures PromiseOnce(s', k) && VoteOnce(s', k) {
      if k != p {
        assert k in s.net && PromiseOnce(s, k) && VoteOnce(s, k);
      }
    }
  }
}
