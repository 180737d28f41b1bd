/** The integer counters of promises and votes are sizes of sets of distinct
    participants that promised, or voted in, exactly the ballot counted for. */
module Counters {
  import opened Types
  import opened Quorums
  import opened Voting
  import opened Node
  import opened Protocol
  import opened Invariant
  import opened Preservation
  import opened PreservationCommit
  import opened Agreement

  // ---- Whoever is counted has taken the ballot.

  /** By the `k`th state of the run, `c` has taken `b` for its own ballot.  When
      `b` is another's, promising it is the only way to. */
  ghost predicate Took(run: seq<State>, k: nat, c: NodeId, b: Ballot) {
    exists j :: 0 <= j <= k < |run| && c in run[j].nodes && run[j].nodes[c].ballot == b
  }

  ghost predicate PromiseSent(s: State, c: NodeId, b: Ballot) {
    exists m :: m in s.net && m.Promise? && m.src == c && m.ballot == b
  }

  /** Every promise in a state was sent before, or by one that now holds its ballot. */
  ghost predicate PromisesFrom(s: State, t: State) {
    forall m :: m in t.net && m.Promise? && m !in s.net ==> m.src in t.nodes && t.nodes[m.src].ballot == m.ballot
  }

  ghost predicate Counted(s: State, a: NodeId, c: NodeId, b: Ballot) {
    && a in s.nodes && a in s.acked && s.nodes[a].prep.Some? && s.nodes[a].prep.value.ballot == b && c in s.acked[a]
  }

  /** Every promise counted in a state was counted before, or was on its way. */
  ghost predicate CountsFrom(s: State, t: State) {
    forall a, c, b :: Counted(t, a, c, b) ==> Counted(s, a, c, b) || PromiseSent(s, c, b)
  }

  ghost predicate CountedTook(run: seq<State>, k: nat)
    requires k < |run|
  {
    && (forall m :: m in run[k].net && m.Promise? ==> Took(run, k, m.src, m.ballot))
    && (forall a, c, b :: Counted(run[k], a, c, b) ==> Took(run, k, c, b))
  }

  /** Only promising sends a promise, and only counting one touches the prepare. */
  lemma HandleOutcome(n: Node, m: Message, have: bool, members: set<NodeId>)
    requires n.log != map[] && !m.Promise?
    ensures var o := Handle(n, m, have, members);
      && o.node.prep == n.prep
      && forall r :: r in o.sent && r.Promise? ==> r.src == n.id && o.node.ballot == r.ballot
  {
    hide Last, Report;
  }

  lemma DecreeOutcome(n: Node, v: Value, have: bool, members: set<NodeId>)
    ensures var o := NewDecree(n, v, have, members); o.node.prep == n.prep && forall m :: m in o.sent ==> !m.Promise?
  {
    hide Last;
  }

  lemma PromiseOutcome(n: Node, b: Ballot, report: Log, acceptors: set<NodeId>)
    requires n.log != map[]
    ensures var o := AckPromise(n, b, report, acceptors);
      && (forall m :: m in o.sent ==> !m.Promise?)
      && (o.node.prep.Some? ==> n.prep.Some? && o.node.prep.value.ballot == n.prep.value.ballot)
  {
    hide Last, Merge, RedecreeLog, Redecreed;
  }

  /** What a handler that counts nothing does to the promises of a state. */
  lemma Installed(s: State, t: State, a: NodeId, o: Outcome, taken: multiset<Message>)
    requires a in s.nodes && t.nodes == s.nodes[a := o.node] && t.net == s.net - taken + multiset(o.sent) && t.acked == s.acked
    requires forall m :: m in o.sent && m.Promise? ==> m.src == a && o.node.ballot == m.ballot
    requires o.node.prep.Some? ==> s.nodes[a].prep.Some? && o.node.prep.value.ballot == s.nodes[a].prep.value.ballot
    ensures PromisesFrom(s, t) && CountsFrom(s, t)
  {
  }

  lemma PromiseReceived(s: State, m: Message)
    requires m.Promise? && m in s.net && Enabled(s, Receive(m, true))
    ensures PromisesFrom(s, ApplyPromise(s, m)) && CountsFrom(s, ApplyPromise(s, m))
  {
    hide AckPromise, ApplyPromise, Last;
    var a := m.ballot.id;
    PromiseOutcome(s.nodes[a], m.ballot, m.report, s.nodes.Keys);
    PromiseHandled(s, m);
    PromiseCounts(s, m);
    var t := ApplyPromise(s, m);
    assert PromiseSent(s, m.src, m.ballot);
    assert PromisesFrom(s, t);
    forall c, d, b | Counted(t, c, d, b) ensures Counted(s, c, d, b) || PromiseSent(s, d, b) { }
  }

  /** At most the sender is added to those counted, and only for the ballot being prepared. */
  lemma PromiseCounts(s: State, m: Message)
    requires m.Promise? && m in s.net && Enabled(s, Receive(m, true))
    ensures var a, t := m.ballot.id, ApplyPromise(s, m);
      && (t.acked == s.acked
          || (t.acked == s.acked[a := s.acked[a] + {m.src}]
              && s.nodes[a].prep.Some? && s.nodes[a].prep.value.ballot == m.ballot))
  {
    hide AckPromise, OwnDecrees, CompletedHistory, Last, Merge;
  }

  lemma ReceiveTakes(s: State, m: Message, have: bool)
    requires Inv(s) && Enabled(s, Receive(m, have))
    ensures PromisesFrom(s, ApplyReceive(s, m, have)) && CountsFrom(s, ApplyReceive(s, m, have))
  {
    hide Inv, Handle, ApplyPromise, PromisesFrom, CountsFrom;
    if m.Promise? {
      PromiseReceived(s, m);
    } else {
      var a := Receiver(m);
      PromisedInState(s, a);
      HandleOutcome(s.nodes[a], m, have, s.nodes.Keys);
      ReceiveHandles(s, m, have);
      hide ApplyReceive;
      Installed(s, ApplyReceive(s, m, have), a, Handle(s.nodes[a], m, have, s.nodes.Keys), multiset{m});
    }
  }

  lemma QuietTakes(s: State, t: State, a: NodeId, n: Node)
    requires a in s.nodes && t.nodes == s.nodes[a := n] && t.acked == s.acked && t.net <= s.net
    requires n.prep == s.nodes[a].prep || n.prep.None?
    ensures PromisesFrom(s, t) && CountsFrom(s, t)
  {
  }

  lemma PreparingTakes(s: State, a: NodeId)
    requires a in s.nodes && s.nodes[a].ihole > 0
    ensures var t := Install(s, a, StartPrepare(s.nodes[a], s.nodes.Keys), multiset{}).(acked := s.acked[a := {}]);
      PromisesFrom(s, t) && CountsFrom(s, t)
  {
    hide StartOf;
  }

  lemma LosingTakes(s: State, net: multiset<Message>)
    requires net <= s.net
    ensures PromisesFrom(s, s.(net := net)) && CountsFrom(s, s.(net := net))
  {
  }

  lemma StepTakes(s: State, step: Step)
    requires Inv(s) && Enabled(s, step)
    ensures PromisesFrom(s, Apply(s, step)) && CountsFrom(s, Apply(s, step))
  {
    hide Inv, ApplyReceive, NewDecree, NextInstance, PromisesFrom, CountsFrom, StartPrepare;
    match step
    case Elect(a, to) => QuietTakes(s, Apply(s, step), a, Defer(s.nodes[a], to));
    case BeginPrepare(a) => PreparingTakes(s, a);
    case Request(a, v, have) =>
      DecreeOutcome(s.nodes[a], v, have, s.nodes.Keys);
      Installed(s, Apply(s, step), a, NewDecree(s.nodes[a], v, have, s.nodes.Keys), multiset{});
    case Receive(m, have) => ReceiveTakes(s, m, have);
    case Lose(m) => LosingTakes(s, s.net - multiset{m});
    case Crash(a) => QuietTakes(s, Apply(s, step), a, s.nodes[a].(alive := false));
  }

  lemma TookLater(run: seq<State>, j: nat, k: nat, c: NodeId, b: Ballot)
    requires Took(run, j, c, b) && j <= k < |run|
    ensures Took(run, k, c, b)
  {
  }

  lemma CountedTookNext(run: seq<State>, k: nat)
    requires k + 1 < |run| && CountedTook(run, k)
    requires PromisesFrom(run[k], run[k + 1]) && CountsFrom(run[k], run[k + 1])
    ensures CountedTook(run, k + 1)
  {
    hide Took, Counted;
    var s, t := run[k], run[k + 1];
    forall m | m in t.net && m.Promise? ensures Took(run, k + 1, m.src, m.ballot) {
      if m in s.net { TookLater(run, k, k + 1, m.src, m.ballot); } else { TookNow(run, k + 1, m.src, m.ballot); }
    }
    forall a, c, b | Counted(t, a, c, b) ensures Took(run, k + 1, c, b) {
      assert Took(run, k, c, b);
      TookLater(run, k, k + 1, c, b);
    }
  }

  lemma TookNow(run: seq<State>, k: nat, c: NodeId, b: Ballot)
    requires k < |run| && c in run[k].nodes && run[k].nodes[c].ballot == b
    ensures Took(run, k, c, b)
  {
  }

  lemma {:induction false} RunTook(run: seq<State>, first: NodeId, join: Value, k: nat)
    requires IsRun(run, first, join) && k < |run|
    ensures CountedTook(run, k)
  {
    hide Inv, Apply, Enabled, CountedTook, PromisesFrom, CountsFrom;
    if k == 0 {
      FirstTook(run, first, join);
    } else {
      RunTook(run, first, join, k - 1);
      RunInv(run, first, join, k - 1);
      assert Next(run[k - 1], run[k]);
      var step :| Enabled(run[k - 1], step) && run[k] == Apply(run[k - 1], step);
      StepTakes(run[k - 1], step);
      CountedTookNext(run, k - 1);
    }
  }

  lemma FirstTook(run: seq<State>, first: NodeId, join: Value)
    requires |run| > 0 && Init(run[0], first, join)
    ensures CountedTook(run, 0)
  {
    forall a, c, b ensures !Counted(run[0], a, c, b) {
      if a in run[0].nodes { assert run[0].nodes[a] == StartNode(a, first, join); }
    }
  }

  // ---- The counters.

  /** The promise count of a prepare is the size of a set of others that have
      each promised exactly its ballot, plus the preparer; the vote count of an
      open decree is the size of the set of those that voted for it. */
  lemma CountersAreQuorums(run: seq<State>, first: NodeId, join: Value, k: nat, a: NodeId)
    requires IsRun(run, first, join) && k < |run| && a in run[k].nodes
    ensures var s, n := run[k], run[k].nodes[a];
      && (n.prep.Some? ==>
            && n.prep.value.ballot.id == a
            && exists q :: a !in q && q <= s.nodes.Keys && n.prep.value.acks == |q| + 1
                 && forall c :: c in q ==> Took(run, k, c, n.prep.value.ballot))
      && (Established(n) ==> forall i :: i in n.log && !n.log[i].committed ==>
            exists q :: q <= s.nodes.Keys && n.log[i].votes == |q| && AllVoted(s.hist.votes, q, i, n.ballot, n.log[i].value))
  {
    hide IsRun, Inv, Took, AllVoted;
    RunInv(run, first, join, k);
    RunTook(run, first, join, k);
    var s, n := run[k], run[k].nodes[a];
    VotesInState(s, a);
    if n.prep.Some? {
      PromisesInState(s, a);
      var q := s.acked[a];
      forall c | c in q ensures Took(run, k, c, n.prep.value.ballot) { assert Counted(s, a, c, n.prep.value.ballot); }
    }
  }

  lemma PromisesInState(s: State, a: NodeId)
    requires Inv(s) && a in s.nodes && s.nodes[a].prep.Some?
    ensures var n := s.nodes[a];
      && n.prep.value.ballot.id == a && a in s.acked && a !in s.acked[a] && s.acked[a] <= s.nodes.Keys
      && n.prep.value.acks == |s.acked[a]| + 1
  {
    hide Lawful, NetOK, LogOK, LearnsOK, Covers;
    assert ParticipantOK(s, a);
  }

  lemma VotesInState(s: State, a: NodeId)
    requires Inv(s) && a in s.nodes
    ensures var n := s.nodes[a];
      Established(n) ==> forall i :: i in n.log && !n.log[i].committed ==>
        exists q :: q <= s.nodes.Keys && n.log[i].votes == |q| && AllVoted(s.hist.votes, q, i, n.ballot, n.log[i].value)
  {
    hide Lawful, NetOK, LogOK, LearnsOK, Covers;
    var n := s.nodes[a];
    assert ParticipantOK(s, a);
    if Established(n) {
      forall i | i in n.log && !n.log[i].committed
        ensures exists q :: q <= s.nodes.Keys && n.log[i].votes == |q| && AllVoted(s.hist.votes, q, i, n.ballot, n.log[i].value)
      {
        assert DecreedOK(s.hist, s.nodes, s.counted, n.ballot, i);
        var q := s.counted[(n.ballot, i)];
        assert AllVoted(s.hist.votes, q, i, n.ballot, n.log[i].value);
      }
    }
  }
}
