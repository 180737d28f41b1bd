/** Which values a step of synchronization makes a member learn: those of the
    instances its hole has moved over, one for each and in order. */
module SyncLearning {
  import opened Types
  import opened Quorums
  import opened Node
  import opened InstanceList
  import opened Loops
  import opened SyncModel
  import opened SyncSafety

  /** In going from `n` to `m`, exactly what the hole has moved over was learned. */
  ghost predicate LearnsExactly(n: Node, m: Node) {
    && n.ihole <= m.ihole && |Learned(n, m)| == m.ihole - n.ihole
    && m.learns == n.learns + Learned(n, m)
    && forall i :: n.ihole <= i < m.ihole ==> i in m.log && m.log[i].value == Learned(n, m)[i - n.ihole]
  }

  lemma RunLearns(n: Node, x: Node)
    requires x.learns == n.learns && x.ihole == n.ihole
    ensures LearnsExactly(n, LearnRun(x))
  {
    var h, m := HoleAfter(x.log, x.ihole), LearnRun(x);
    assert Learned(n, m) == Values(x.log, x.ihole, h);
    assert m.learns == n.learns + Learned(n, m) && n.ihole <= m.ihole && |Learned(n, m)| == m.ihole - n.ihole;
    forall i | n.ihole <= i < m.ihole ensures i in m.log && m.log[i].value == Learned(n, m)[i - n.ihole] {
      assert Ready(x.log, i);
    }
  }

  lemma NoneLearned(n: Node, m: Node)
    requires m.learns == n.learns && m.ihole == n.ihole
    ensures LearnsExactly(n, m) && Learned(n, m) == []
  {
  }

  /** Committing the hole, with its data at hand, is the one way to learn. */
  lemma CommitLearns(n: Node, x: Node, i: nat, have: bool)
    requires i in x.log && x.learns == n.learns && x.ihole == n.ihole
    ensures var m := CommitInstance(x, i, have).node;
      && LearnsExactly(n, m)
      && (Learned(n, m) != [] <==> i == n.ihole && (NeedsCached(x.log[i].value.kind) ==> have))
  {
    hide HoleAfter, LearnRun, LearnsExactly, Learned;
    var y := x.(log := x.log[i := x.log[i].(committed := true, cached := true)]);
    if i == x.ihole && (NeedsCached(x.log[i].value.kind) ==> have) {
      RunLearns(n, y);
      RunMoves(y);
      LearnedSize(n, LearnRun(y));
    } else {
      NoneLearned(n, CommitInstance(x, i, have).node);
    }
  }

  lemma RunMoves(y: Node)
    requires Ready(y.log, y.ihole)
    ensures LearnRun(y).ihole > y.ihole
  {
  }

  lemma LearnedSize(n: Node, m: Node)
    requires LearnsExactly(n, m)
    ensures |Learned(n, m)| == m.ihole - n.ihole
  {
  }

  /** The message at the head of the channel commits the hole, whose data is at hand. */
  predicate FillsHole(q: Peer, have: bool)
    requires q.down != []
  {
    && (q.down[0].Commit? || q.down[0].Recommit?) && !IsProposer(q.node)
    && q.down[0].inum == q.node.ihole && !CommittedIn(q.node.log, q.node.ihole)
    && (NeedsCached(q.down[0].value.kind) ==> have)
  }

  lemma HandledLearns(q: Peer, b: Ballot, have: bool)
    requires q.down != [] && q.node.ihole > 0
    ensures var m := Handled(q, b, have).node;
      LearnsExactly(q.node, m) && (Learned(q.node, m) != [] <==> FillsHole(q, have))
  {
    hide CommitInstance, LearnsExactly, Learned, Asks, Report;
    var n, m := q.node, Handled(q, b, have).node;
    match q.down[0]
    case Commit(i, v) => CommitterLearns(n, b, i, v, have);
    case Recommit(c, i, v) => CommitterLearns(n, c, i, v, have);
    case Prepare(_) => NoneLearned(n, m);
    case Decree(_, _) => NoneLearned(n, m);
    case Sync(_) => NoneLearned(n, m);
    case Truncate(_) => NoneLearned(n, m);
  }

  lemma CommitterLearns(n: Node, c: Ballot, i: nat, v: Value, have: bool)
    ensures forall m :: m == AckCommit(n, c, i, v, have).node || m == AckRecommit(n, c, i, v, have).node ==>
              && LearnsExactly(n, m)
              && (Learned(n, m) != [] <==>
                    !IsProposer(n) && i == n.ihole && !CommittedIn(n.log, i) && (NeedsCached(v.kind) ==> have))
  {
    hide CommitInstance, LearnsExactly, Learned;
    if IsProposer(n) || CommittedIn(n.log, i) {
      NoneLearned(n, n);
    } else if i in n.log {
      CommitLearns(n, n.(log := n.log[i := n.log[i].(value := v)]), i, have);
      CommitLearns(n, n.(log := n.log[i := n.log[i].(ballot := c, value := v)]), i, have);
    } else {
      CommitLearns(n, n.(log := n.log[i := Entry(c, v, false, false, false, 0)]), i, have);
    }
  }

  lemma ResendLearns(n: Node, i: nat)
    ensures LearnsExactly(n, AckResend(n, i).node)
  {
    hide CommitInstance, LearnsExactly;
    if i !in n.log || n.log[i].cached { NoneLearned(n, n); } else { CommitLearns(n, n, i, true); }
  }

  /** What any member learns in a step, in terms of its log after the step. */
  lemma StepLearns(s: State, step: Step)
    requires Enabled(s, step) && !step.Relink? && !step.Crash?
    ensures LearnsExactly(s.p, Handle(s, step).p)
    ensures forall a :: a in s.peers && (step.Take? || step.PeerResend?) && step.peer == a ==>
              a in Handle(s, step).peers && LearnsExactly(s.peers[a].node, Handle(s, step).peers[a].node)
  {
    hide LearnsExactly, Handled, HearUp, ProposeNext, AckResend, BeginSyncing, Asks;
    NoneLearned(s.p, s.p);
    match step
    case Take(a, have) => HandledLearns(s.peers[a], s.p.ballot, have);
    case PeerResend(a, i) => ResendLearns(s.peers[a].node, i);
    case Hear(a, have) => HearLearns(s, a, have);
    case ProposerResend(i) => ResendLearns(s.p, i);
    case Propose(v, have) => ProposeLearns(s, v, have);
    case BeginSync => SyncingLearns(s);
  }

  lemma SyncingLearns(s: State)
    ensures LearnsExactly(s.p, BeginSyncing(s).p)
  {
    hide BeginRound;
    NoneLearned(s.p, s.p);
  }

  lemma ProposeLearns(s: State, v: Value, have: bool)
    ensures LearnsExactly(s.p, ProposeNext(s, v, have).p)
  {
    hide CommitInstance, LearnsExactly, NextInstance;
    var i, e := NextInstance(s.p.log), EnterDecree(s.p, v, Members(s)).node;
    NoneLearned(s.p, e);
    CommitLearns(s.p, e, i, have);
  }

  lemma HearLearns(s: State, a: NodeId, have: bool)
    requires a in s.peers && s.peers[a].up != [] && s.p.ihole > 0
    ensures LearnsExactly(s.p, HearUp(s, a, have).p)
  {
    hide CommitInstance, LearnsExactly, HearLast;
    NoneLearned(s.p, s.p);
    NoneLearned(s.p, s.p.(alive := false));
    match s.peers[a].up[0]
    case Accept(i) => AcceptLearns(s.p, i, have, Members(Taken(s, a)));
    case Retry(_, _) =>
    case LastLearn(id, last) =>
      var q := s.peers[a];
      LastLearns(s.(peers := s.peers[a := q.(up := q.up[1..], seen := last, got := id)]), id, last);
  }

  lemma LastLearns(s: State, id: nat, last: nat)
    requires s.p.ihole > 0
    ensures LearnsExactly(s.p, HearLast(s, id, last).p)
  {
    hide TakeLast;
    NoneLearned(s.p, HearLast(s, id, last).p);
  }

  lemma AcceptLearns(n: Node, i: nat, have: bool, members: set<NodeId>)
    ensures LearnsExactly(n, AckAccept(n, n.ballot, i, have, members).node)
  {
    hide CommitInstance, LearnsExactly;
    NoneLearned(n, n);
    NoneLearned(n, n.(alive := false));
    if i in n.log {
      var c := CountVote(n, i);
      NoneLearned(n, c);
      CommitLearns(n, c, i, have);
    }
  }
}
