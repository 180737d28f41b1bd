/** A run of eleven participants in which a completing prepare decrees another
    value than the one a majority has chosen below it.

    Participant 1 decrees `W`; only 3, 5 and 6 vote.  Participant 2 prepares a
    higher ballot without hearing of it and decrees `U`; 4, 10 and 11 vote.
    Participant 3 prepares twice, to a still higher ballot, and 7, 8 and 9
    promise it.  Participant 4 prepares twice and outbids them all, decrees `U`
    again with the votes of 7 to 11, and commits it.  Now 5 and 6 promise 2's
    ballot, commit `U` over their votes for `W`, and accept 2's decree without
    relabelling; so `U` is chosen in 2's ballot too.  They promise 3's ballot
    under the old label, and 3 completes with `W`.  Nobody ever takes one who
    ranks below itself for the proposer. */
module StaleLabels {
  import opened Types
  import opened Quorums
  import opened Voting
  import opened Node
  import opened Protocol
  import opened Invariant
  import opened Preservation
  import opened Agreement

  const Founder: NodeId := 1

  /** The value of instance 1. */
  const Founding := Value(DecJoin, ReqId(1, 1), 0)

  ghost predicate Reached(s: State) {
    exists run :: IsRun(run, Founder, Founding) && run[|run| - 1] == s
  }

  // ---- Single steps.

  lemma ReachedNext(s: State, step: Step)
    requires Reached(s) && Enabled(s, step)
    ensures Reached(Apply(s, step))
  {
    hide Apply, Enabled, Init;
    var run :| IsRun(run, Founder, Founding) && run[|run| - 1] == s;
    var longer := run + [Apply(s, step)];
    forall k | 0 <= k < |longer| - 1 ensures Next(longer[k], longer[k + 1]) {
      if k < |run| - 1 {
        assert longer[k] == run[k] && longer[k + 1] == run[k + 1];
        assert Next(run[k], run[k + 1]);
      } else {
        assert longer[k] == s && longer[k + 1] == Apply(s, step);
      }
    }
    assert IsRun(longer, Founder, Founding);
    assert longer[|longer| - 1] == Apply(s, step);
  }

  lemma ReachedInv(s: State)
    requires Reached(s)
    ensures Inv(s)
  {
    var run :| IsRun(run, Founder, Founding) && run[|run| - 1] == s;
    RunInv(run, Founder, Founding, |run| - 1);
  }

  lemma ReachedParticipant(s: State, a: NodeId)
    requires Reached(s) && a in s.nodes
    ensures a in s.acked && s.nodes[a].id == a && s.nodes[a].log != map[] && s.nodes[a].ihole > 0
  {
    ReachedInv(s);
    hide Lawful, NetOK, RecordsOK, PrepOK, EstablishedOK;
    assert ParticipantOK(s, a);
    assert 1 in s.nodes[a].log;
  }

  /** What one step, or several, of the participants `movers` may not undo. */
  ghost predicate Kept(s: State, t: State, movers: set<NodeId>, taken: set<Message>) {
    && t.nodes.Keys == s.nodes.Keys
    && (forall c :: c in s.nodes && c !in movers ==> t.nodes[c] == s.nodes[c])
    && (forall m :: m in s.net && m !in taken ==> m in t.net)
    && s.hist.votes <= t.hist.votes
  }

  lemma KeptChain(s: State, t: State, u: State, movers: set<NodeId>, taken: set<Message>, movers': set<NodeId>, taken': set<Message>)
    requires Kept(s, t, movers, taken) && Kept(t, u, movers', taken')
    ensures Kept(s, u, movers + movers', taken + taken')
  {
  }

  lemma KeptNode(s: State, t: State, movers: set<NodeId>, taken: set<Message>, c: NodeId)
    requires Kept(s, t, movers, taken) && c in s.nodes && c !in movers
    ensures c in t.nodes && t.nodes[c] == s.nodes[c]
  {
  }

  lemma KeptMessage(s: State, t: State, movers: set<NodeId>, taken: set<Message>, m: Message)
    requires Kept(s, t, movers, taken) && m in s.net && m !in taken
    ensures m in t.net
  {
  }

  lemma KeptKeys(s: State, t: State, movers: set<NodeId>, taken: set<Message>)
    requires Kept(s, t, movers, taken)
    ensures t.nodes.Keys == s.nodes.Keys
  {
  }

  /** Participant `a` handles message `m`. */
  lemma Receives(s: State, a: NodeId, m: Message, n: Node, sent: set<Message>) returns (t: State)
    requires Reached(s) && m in s.net && Receiver(m) == a && a in s.nodes && s.nodes[a].alive && s.nodes[a].log != map[]
    requires Handle(s.nodes[a], m, true, s.nodes.Keys) == Outcome(n, sent)
    ensures Reached(t) && Kept(s, t, {a}, {m}) && t.nodes[a] == n
    ensures forall r :: r in sent ==> r in t.net
  {
    hide Reached, Handle, Install;
    ReachedParticipant(s, a);
    ReachedNext(s, Receive(m, true));
    ReceiveHandles(s, m, true);
    t := Apply(s, Receive(m, true));
    hide ApplyReceive;
    assert forall r :: r in s.net && r != m ==> r in s.net - multiset{m};
  }

  lemma Defers(s: State, a: NodeId, to: NodeId) returns (t: State)
    requires Reached(s) && a in s.nodes && s.nodes[a].alive && !Established(s.nodes[a]) && to < a
    ensures Reached(t) && Kept(s, t, {a}, {}) && t.nodes[a] == Defer(s.nodes[a], to)
  {
    hide Reached;
    ReachedNext(s, Elect(a, to));
    t := Apply(s, Elect(a, to));
  }

  lemma Prepares(s: State, a: NodeId) returns (t: State)
    requires Reached(s) && a in s.nodes && s.nodes[a].alive && !Established(s.nodes[a]) && s.nodes[a].ihole > 0
    ensures var o := StartPrepare(s.nodes[a], s.nodes.Keys);
      && Reached(t) && Kept(s, t, {a}, {}) && t.nodes[a] == o.node
      && forall r :: r in o.sent ==> r in t.net
  {
    hide Reached;
    ReachedNext(s, BeginPrepare(a));
    t := Apply(s, BeginPrepare(a));
  }

  lemma Requests(s: State, a: NodeId, v: Value) returns (t: State)
    requires Reached(s) && a in s.nodes && s.nodes[a].alive && Established(s.nodes[a]) && Majority(|s.nodes.Keys|) > 1
    ensures var n, o := s.nodes[a], EnterDecree(s.nodes[a], v, s.nodes.Keys);
      && Reached(t) && Kept(s, t, {a}, {}) && t.nodes[a] == o.node
      && (forall r :: r in o.sent ==> r in t.net)
      && Vote(a, NextInstance(n.log), n.ballot, v) in t.hist.votes
  {
    hide Reached, NextInstance;
    ReachedNext(s, Request(a, v, true));
    t := Apply(s, Request(a, v, true));
  }

  // ---- The same step by several participants.

  function Pledged(n: Node, b: Ballot): Node {
    n.(ballot := b, genHigh := b.gen, proposer := b.id, prep := None)
  }

  predicate CanPromise(s: State, a: NodeId, b: Ballot, start: nat) {
    && a in s.nodes && b.id < a && s.nodes[a].alive && !Established(s.nodes[a]) && Below(s.nodes[a].ballot, b)
    && Prepare(a, b, start) in s.net
  }

  /** `a` takes `b.id` for the proposer and promises `b`. */
  lemma PromisesOne(s: State, a: NodeId, b: Ballot, start: nat) returns (t: State)
    requires Reached(s) && CanPromise(s, a, b, start)
    ensures Reached(t) && Kept(s, t, {a}, {Prepare(a, b, start)}) && t.nodes[a] == Pledged(s.nodes[a], b)
    ensures Promise(a, b, start, Report(s.nodes[a].log, start)) in t.net
  {
    hide Reached, Report;
    ReachedParticipant(s, a);
    var u := Defers(s, a, b.id);
    t := Receives(u, a, Prepare(a, b, start), Pledged(s.nodes[a], b),
                  {Promise(a, b, start, Report(s.nodes[a].log, start))});
  }

  function PreparesTo(movers: set<NodeId>, b: Ballot, start: nat): set<Message> {
    set a | a in movers :: Prepare(a, b, start)
  }

  lemma PreparesSplit(movers: set<NodeId>, a: NodeId, b: Ballot, start: nat)
    requires a in movers
    ensures PreparesTo(movers, b, start) == {Prepare(a, b, start)} + PreparesTo(movers - {a}, b, start)
    ensures forall m :: m in PreparesTo(movers, b, start) ==> m.Prepare?
  {
  }

  /** `a` has promised `b`, and its promise, which reports the log it had in `s`, is on its way. */
  predicate HasPromised(s: State, t: State, a: NodeId, b: Ballot, start: nat) {
    && a in s.nodes && a in t.nodes && t.nodes[a] == Pledged(s.nodes[a], b)
    && Promise(a, b, start, Report(s.nodes[a].log, start)) in t.net
  }

  lemma PromisesAll(s: State, movers: set<NodeId>, b: Ballot, start: nat) returns (t: State)
    requires Reached(s) && forall a :: a in movers ==> CanPromise(s, a, b, start)
    ensures Reached(t) && Kept(s, t, movers, PreparesTo(movers, b, start))
    ensures forall a :: a in movers ==> HasPromised(s, t, a, b, start)
    decreases |movers|
  {
    hide Reached, Kept, PreparesTo, CanPromise, HasPromised;
    if movers == {} {
      t := s;
      NothingMoved(s, b, start);
    } else {
      var a :| a in movers;
      var rest := movers - {a};
      var u := PromisesFirst(s, a, b, start);
      forall c | c in rest ensures CanPromise(u, c, b, start) { PromiseWaits(s, u, a, c, b, start); }
      t := PromisesAll(u, rest, b, start);
      PreparesSplit(movers, a, b, start);
      KeptChain(s, u, t, {a}, {Prepare(a, b, start)}, rest, PreparesTo(rest, b, start));
      assert {a} + rest == movers;
      PromiseStays(s, u, t, a, rest, b, start);
      forall c | c in rest ensures HasPromised(s, t, c, b, start) { PromiseFollows(s, u, t, a, c, b, start); }
    }
  }

  lemma NothingMoved(s: State, b: Ballot, start: nat)
    ensures Kept(s, s, {}, PreparesTo({}, b, start))
  {
  }

  lemma PromisesFirst(s: State, a: NodeId, b: Ballot, start: nat) returns (t: State)
    requires Reached(s) && CanPromise(s, a, b, start)
    ensures Reached(t) && Kept(s, t, {a}, {Prepare(a, b, start)}) && HasPromised(s, t, a, b, start)
  {
    hide Reached, Kept, Report, Pledged;
    t := PromisesOne(s, a, b, start);
    KeptKeys(s, t, {a}, {Prepare(a, b, start)});
  }

  lemma PromiseWaits(s: State, u: State, a: NodeId, c: NodeId, b: Ballot, start: nat)
    requires CanPromise(s, c, b, start) && Kept(s, u, {a}, {Prepare(a, b, start)}) && c != a
    ensures CanPromise(u, c, b, start)
  {
  }

  lemma PromiseStays(s: State, u: State, t: State, a: NodeId, rest: set<NodeId>, b: Ballot, start: nat)
    requires HasPromised(s, u, a, b, start) && a !in rest && Kept(u, t, rest, PreparesTo(rest, b, start))
    ensures HasPromised(s, t, a, b, start)
  {
    hide Report;
  }

  lemma PromiseFollows(s: State, u: State, t: State, a: NodeId, c: NodeId, b: Ballot, start: nat)
    requires CanPromise(s, c, b, start) && Kept(s, u, {a}, {Prepare(a, b, start)}) && c != a
    requires HasPromised(u, t, c, b, start)
    ensures HasPromised(s, t, c, b, start)
  {
    hide Report;
  }

  /** A report that adds nothing to the log of its receiver. */
  predicate AddsNothing(n: Node, report: Log) {
    n.prep.Some? && Merge(n.log, report) == n.log && forall i :: i in report ==> n.prep.value.istart <= i
  }

  function WithAcks(n: Node, acks: nat): Node
    requires n.prep.Some?
  {
    n.(prep := Some(n.prep.value.(acks := n.prep.value.acks + acks)))
  }

  lemma CollectsOne(s: State, p: NodeId, a: NodeId, start: nat, report: Log) returns (t: State)
    requires Reached(s) && p in s.nodes && s.nodes[p].alive && IsProposer(s.nodes[p]) && AddsNothing(s.nodes[p], report)
    requires var b := s.nodes[p].prep.value.ballot; b.id == p && Promise(a, b, start, report) in s.net
    requires s.nodes[p].prep.value.acks + 1 < Majority(|s.nodes.Keys|)
    ensures Reached(t) && p in t.nodes && t.nodes[p] == WithAcks(s.nodes[p], 1)
    ensures Kept(s, t, {p}, {Promise(a, s.nodes[p].prep.value.ballot, start, report)})
  {
    hide Reached, Merge, CompletePrepare, Last;
    ReachedParticipant(s, p);
    var n := s.nodes[p];
    t := Receives(s, p, Promise(a, n.prep.value.ballot, start, report), WithAcks(n, 1), {});
  }

  ghost predicate Reports(s: State, a: NodeId, b: Ballot, start: nat, reports: map<NodeId, Log>, n: Node) {
    a in reports && Promise(a, b, start, reports[a]) in s.net && AddsNothing(n, reports[a])
  }

  lemma AddsNothingStill(n: Node, report: Log)
    requires AddsNothing(n, report)
    ensures AddsNothing(WithAcks(n, 1), report)
  {
    hide Merge;
  }

  /** The preparer `p` counts promises that add nothing to its log, short of a majority. */
  lemma CollectsAll(s: State, p: NodeId, from: set<NodeId>, start: nat, reports: map<NodeId, Log>) returns (t: State)
    requires Reached(s) && p in s.nodes && s.nodes[p].alive && IsProposer(s.nodes[p])
    requires s.nodes[p].prep.Some? && s.nodes[p].prep.value.ballot.id == p
    requires forall a :: a in from ==> Reports(s, a, s.nodes[p].prep.value.ballot, start, reports, s.nodes[p])
    requires s.nodes[p].prep.value.acks + |from| < Majority(|s.nodes.Keys|)
    ensures Reached(t) && p in t.nodes && t.nodes[p] == WithAcks(s.nodes[p], |from|)
    ensures Kept(s, t, {p}, set a | a in from && a in reports :: Promise(a, s.nodes[p].prep.value.ballot, start, reports[a]))
    decreases |from|
  {
    hide Reached, AddsNothing;
    if from == {} {
      t := s;
    } else {
      var a :| a in from;
      assert Reports(s, a, s.nodes[p].prep.value.ballot, start, reports, s.nodes[p]);
      var u := CollectsOne(s, p, a, start, reports[a]);
      forall c | c in from - {a} ensures Reports(u, c, u.nodes[p].prep.value.ballot, start, reports, u.nodes[p]) {
        assert Reports(s, c, s.nodes[p].prep.value.ballot, start, reports, s.nodes[p]);
        AddsNothingStill(s.nodes[p], reports[c]);
      }
      t := CollectsAll(u, p, from - {a}, start, reports);
    }
  }

  /** The promise that makes the majority completes the prepare. */
  lemma Completes(s: State, p: NodeId, a: NodeId, start: nat, report: Log) returns (t: State)
    requires Reached(s) && p in s.nodes && s.nodes[p].alive && IsProposer(s.nodes[p]) && AddsNothing(s.nodes[p], report)
    requires s.nodes[p].log != map[]
    requires var b := s.nodes[p].prep.value.ballot; b.id == p && Promise(a, b, start, report) in s.net
    requires s.nodes[p].prep.value.acks + 1 >= Majority(|s.nodes.Keys|)
    ensures var n, b := s.nodes[p], s.nodes[p].prep.value.ballot;
      var o := CompletePrepare(WithAcks(n, 1), b, s.nodes.Keys);
      && Reached(t) && Kept(s, t, {p}, {Promise(a, b, start, report)}) && t.nodes[p] == o.node
      && forall m :: m in o.sent ==> m in t.net
  {
    hide Reached, Merge, CompletePrepare, Last;
    ReachedParticipant(s, p);
    var n, b := s.nodes[p], s.nodes[p].prep.value.ballot;
    var o := CompletePrepare(WithAcks(n, 1), b, s.nodes.Keys);
    t := Receives(s, p, Promise(a, b, start, report), o.node, o.sent);
  }

  predicate CanVote(s: State, a: NodeId, b: Ballot, i: nat, v: Value) {
    && a in s.nodes && s.nodes[a].alive && s.nodes[a].ballot == b && s.nodes[a].proposer == b.id && a != b.id && s.nodes[a].id == a
    && Decree(a, b, i, v) in s.net
    && AckDecree(s.nodes[a], b, i, v).sent == {Accept(a, b, i)}
  }

  function DecreesTo(movers: set<NodeId>, b: Ballot, i: nat, v: Value): set<Message> {
    set a | a in movers :: Decree(a, b, i, v)
  }

  lemma DecreesSplit(movers: set<NodeId>, a: NodeId, b: Ballot, i: nat, v: Value)
    requires a in movers
    ensures DecreesTo(movers, b, i, v) == {Decree(a, b, i, v)} + DecreesTo(movers - {a}, b, i, v)
  {
  }

  /** `a` has answered the decree as an acceptor with the state it had in `s` does. */
  predicate HasVoted(s: State, t: State, a: NodeId, b: Ballot, i: nat, v: Value) {
    && a in s.nodes && a in t.nodes && t.nodes[a] == AckDecree(s.nodes[a], b, i, v).node
    && Accept(a, b, i) in t.net
  }

  lemma VotesOne(s: State, a: NodeId, b: Ballot, i: nat, v: Value) returns (t: State)
    requires Reached(s) && CanVote(s, a, b, i, v)
    ensures Reached(t) && Kept(s, t, {a}, {Decree(a, b, i, v)}) && HasVoted(s, t, a, b, i, v)
  {
    hide Reached, AckDecree, Kept;
    ReachedParticipant(s, a);
    t := Receives(s, a, Decree(a, b, i, v), AckDecree(s.nodes[a], b, i, v).node, {Accept(a, b, i)});
    KeptKeys(s, t, {a}, {Decree(a, b, i, v)});
  }

  lemma VotesAll(s: State, movers: set<NodeId>, b: Ballot, i: nat, v: Value) returns (t: State)
    requires Reached(s) && forall a :: a in movers ==> CanVote(s, a, b, i, v)
    ensures Reached(t) && Kept(s, t, movers, DecreesTo(movers, b, i, v))
    ensures forall a :: a in movers ==> HasVoted(s, t, a, b, i, v)
    decreases |movers|
  {
    hide Reached, Kept, DecreesTo, CanVote, HasVoted;
    if movers == {} {
      t := s;
      NothingVoted(s, b, i, v);
    } else {
      var a :| a in movers;
      var rest := movers - {a};
      var u := VotesOne(s, a, b, i, v);
      forall c | c in rest ensures CanVote(u, c, b, i, v) { VoteWaits(s, u, a, c, b, i, v); }
      t := VotesAll(u, rest, b, i, v);
      DecreesSplit(movers, a, b, i, v);
      KeptChain(s, u, t, {a}, {Decree(a, b, i, v)}, rest, DecreesTo(rest, b, i, v));
      assert {a} + rest == movers;
      VoteStays(s, u, t, a, rest, b, i, v);
      forall c | c in rest ensures HasVoted(s, t, c, b, i, v) { VoteFollows(s, u, t, a, c, b, i, v); }
    }
  }

  lemma NothingVoted(s: State, b: Ballot, i: nat, v: Value)
    ensures Kept(s, s, {}, DecreesTo({}, b, i, v))
  {
  }

  lemma VoteWaits(s: State, u: State, a: NodeId, c: NodeId, b: Ballot, i: nat, v: Value)
    requires CanVote(s, c, b, i, v) && Kept(s, u, {a}, {Decree(a, b, i, v)}) && c != a
    ensures CanVote(u, c, b, i, v)
  {
    hide AckDecree;
  }

  lemma VoteStays(s: State, u: State, t: State, a: NodeId, rest: set<NodeId>, b: Ballot, i: nat, v: Value)
    requires HasVoted(s, u, a, b, i, v) && a !in rest && Kept(u, t, rest, DecreesTo(rest, b, i, v))
    ensures HasVoted(s, t, a, b, i, v)
  {
    hide AckDecree;
  }

  lemma VoteFollows(s: State, u: State, t: State, a: NodeId, c: NodeId, b: Ballot, i: nat, v: Value)
    requires CanVote(s, c, b, i, v) && Kept(s, u, {a}, {Decree(a, b, i, v)}) && c != a
    requires HasVoted(u, t, c, b, i, v)
    ensures HasVoted(s, t, c, b, i, v)
  {
    hide AckDecree;
  }

  function WithVotes(n: Node, i: nat, votes: nat): Node
    requires i in n.log
  {
    n.(log := n.log[i := n.log[i].(votes := n.log[i].votes + votes)])
  }

  lemma CountsOne(s: State, p: NodeId, i: nat, a: NodeId) returns (t: State)
    requires Reached(s) && p in s.nodes && s.nodes[p].alive && IsProposer(s.nodes[p]) && s.nodes[p].ballot.id == p
    requires i in s.nodes[p].log && !s.nodes[p].log[i].committed
    requires s.nodes[p].log[i].votes + 1 < Majority(|s.nodes.Keys|)
    requires Accept(a, s.nodes[p].ballot, i) in s.net
    ensures Reached(t) && p in t.nodes && t.nodes[p] == WithVotes(s.nodes[p], i, 1)
    ensures Kept(s, t, {p}, {Accept(a, s.nodes[p].ballot, i)})
  {
    hide Reached, ProposerCommit;
    ReachedParticipant(s, p);
    t := Receives(s, p, Accept(a, s.nodes[p].ballot, i), WithVotes(s.nodes[p], i, 1), {});
  }

  function AcceptsOf(from: set<NodeId>, b: Ballot, i: nat): set<Message> {
    set a | a in from :: Accept(a, b, i)
  }

  lemma AcceptsSplit(from: set<NodeId>, a: NodeId, b: Ballot, i: nat)
    requires a in from
    ensures AcceptsOf(from, b, i) == {Accept(a, b, i)} + AcceptsOf(from - {a}, b, i)
  {
  }

  /** Votes short of a majority are counted. */
  lemma CountsAll(s: State, p: NodeId, i: nat, from: set<NodeId>) returns (t: State)
    requires Reached(s) && p in s.nodes && s.nodes[p].alive && IsProposer(s.nodes[p]) && s.nodes[p].ballot.id == p
    requires i in s.nodes[p].log && !s.nodes[p].log[i].committed
    requires s.nodes[p].log[i].votes + |from| < Majority(|s.nodes.Keys|)
    requires forall a :: a in from ==> Accept(a, s.nodes[p].ballot, i) in s.net
    ensures Reached(t) && p in t.nodes && t.nodes[p] == WithVotes(s.nodes[p], i, |from|)
    ensures Kept(s, t, {p}, AcceptsOf(from, s.nodes[p].ballot, i))
    decreases |from|
  {
    hide Reached, Kept, AcceptsOf;
    var b := s.nodes[p].ballot;
    if from == {} {
      t := s;
      NothingCounted(s, p, b, i);
      assert s.nodes[p].log[i := s.nodes[p].log[i]] == s.nodes[p].log;
    } else {
      var a :| a in from;
      var rest := from - {a};
      var u := CountsOne(s, p, i, a);
      forall c | c in rest ensures Accept(c, b, i) in u.net { KeptMessage(s, u, {p}, {Accept(a, b, i)}, Accept(c, b, i)); }
      KeptKeys(s, u, {p}, {Accept(a, b, i)});
      t := CountsAll(u, p, i, rest);
      AcceptsSplit(from, a, b, i);
      KeptChain(s, u, t, {p}, {Accept(a, b, i)}, {p}, AcceptsOf(rest, b, i));
      assert {p} + {p} == {p};
    }
  }

  lemma NothingCounted(s: State, p: NodeId, b: Ballot, i: nat)
    ensures Kept(s, s, {p}, AcceptsOf({}, b, i))
  {
  }

  /** The vote that makes the majority commits. */
  lemma Commits(s: State, p: NodeId, i: nat, a: NodeId) returns (t: State)
    requires Reached(s) && p in s.nodes && s.nodes[p].alive && IsProposer(s.nodes[p]) && s.nodes[p].ballot.id == p
    requires i in s.nodes[p].log && !s.nodes[p].log[i].committed
    requires s.nodes[p].log[i].votes + 1 >= Majority(|s.nodes.Keys|)
    requires Accept(a, s.nodes[p].ballot, i) in s.net
    ensures var n := s.nodes[p];
      && Reached(t) && Kept(s, t, {p}, {Accept(a, n.ballot, i)})
      && forall c :: c in s.nodes && c != p ==> Commit(c, n.log[i].ballot, i, n.log[i].value) in t.net
  {
    hide Reached, CommitInstance;
    ReachedParticipant(s, p);
    var n := s.nodes[p];
    var o := AckAccept(n, n.ballot, i, true, s.nodes.Keys);
    t := Receives(s, p, Accept(a, n.ballot, i), o.node, o.sent);
  }

  // ---- The run.

  const Everyone: set<NodeId> := {1, 2, 3, 4, 5, 6, 7, 8, 9, 10, 11}

  const Low := Ballot(1, 1)
  const Mid := Ballot(2, 2)
  const Late := Ballot(3, 3)
  const High := Ballot(4, 4)

  const W := Value(DecChat, ReqId(1, 3), 0)
  const U := Value(DecChat, ReqId(2, 3), 0)

  /** Instance 2 only keeps instance 3 out of the hole. */
  const Filler := Value(DecChat, ReqId(1, 2), 0)

  const Bare: Log := map[1 := Entry(Low, Founding, true, true, true, 1)]
  const VotedW: Log := Bare[3 := Entry(Low, W, false, false, false, 0)]
  const VotedU: Log := Bare[3 := Entry(Mid, U, false, false, false, 0)]

  /** `U` committed under the label of the vote for `W`. */
  const Stale: Log := Bare[3 := Entry(Low, U, true, true, false, 0)]

  /** A participant that last promised `b` to its owner. */
  function Under(a: NodeId, b: Ballot, log: Log): Node {
    Node(a, true, b, b.gen, b.id, None, log, 2, 0, [])
  }

  /** A participant that is preparing `b`, with `acks` promises counted. */
  function Bidding(a: NodeId, own: Ballot, b: Ballot, acks: nat, log: Log): Node {
    Node(a, true, own, b.gen, a, Some(Prep(b, acks, 1)), log, 2, 0, [])
  }

  lemma Sizes()
    ensures |Everyone| == 11 && Majority(|Everyone|) == 6
  {
  }

  lemma LogFacts()
    ensures Bare != map[] && VotedW != map[] && VotedU != map[] && Stale != map[]
    ensures Types.Last(Bare) == 1 && Types.Last(VotedW) == 3 && Types.Last(VotedU) == 3 && Types.Last(Stale) == 3
  {
    assert 1 in Bare && 3 in VotedW && 3 in VotedU && 3 in Stale;
  }

  /** Participants `group`, all in ballot `b` with log `log`. */
  predicate AllUnder(s: State, group: set<NodeId>, b: Ballot, log: Log) {
    forall a :: a in group ==> a in s.nodes && s.nodes[a] == Under(a, b, log)
  }

  predicate AllAsked(s: State, group: set<NodeId>, b: Ballot) {
    forall a :: a in group ==> Prepare(a, b, 2) in s.net
  }

  predicate AllReported(s: State, group: set<NodeId>, b: Ballot, log: Log) {
    forall a :: a in group ==> Promise(a, b, 2, Report(log, 2)) in s.net
  }

  predicate AllOwed(s: State, group: set<NodeId>, b: Ballot, v: Value) {
    forall a :: a in group ==> Decree(a, b, 3, v) in s.net
  }

  predicate AllAccepted(s: State, group: set<NodeId>, b: Ballot) {
    forall a :: a in group ==> Accept(a, b, 3) in s.net
  }

  predicate AllTold(s: State, group: set<NodeId>, b: Ballot, v: Value) {
    forall a :: a in group ==> Commit(a, b, 3, v) in s.net
  }

  /** The state `s` of a run among everyone, in which `p` is established in `b` with `v` decreed. */
  ghost predicate Stands(s: State, p: NodeId, b: Ballot, v: Value) {
    && Reached(s) && s.nodes.Keys == Everyone && p in Everyone
    && Established(s.nodes[p]) && s.nodes[p].ballot == b
    && 3 in s.nodes[p].log && !s.nodes[p].log[3].committed && s.nodes[p].log[3].value == v
  }

  ghost predicate Stage0(s: State) {
    Reached(s) && s.nodes.Keys == Everyone && AllUnder(s, Everyone, Low, Bare)
  }

  ghost predicate Stage1(s: State) {
    && Reached(s) && s.nodes.Keys == Everyone
    && AllUnder(s, {3}, Low, VotedW) && AllUnder(s, {5, 6}, Low, VotedW)
    && AllUnder(s, {2}, Low, Bare) && AllUnder(s, {9}, Low, Bare) && AllUnder(s, {4, 7, 8, 10, 11}, Low, Bare)
  }

  /** Participant 2 stands by `U`; 4, 10 and 11 have voted for it. */
  ghost predicate UIsDecreed(s: State) {
    Stands(s, 2, Mid, U) && Vote(2, 3, Mid, U) in s.hist.votes && AllAccepted(s, {4, 10, 11}, Mid)
  }

  /** What 5 and 6 have yet to receive from participant 2. */
  ghost predicate Behind(s: State) {
    AllUnder(s, {5, 6}, Low, VotedW) && AllAsked(s, {5, 6}, Mid) && AllOwed(s, {5, 6}, Mid, U)
  }

  ghost predicate Stage2(s: State) {
    && UIsDecreed(s) && Behind(s)
    && AllUnder(s, {3}, Low, VotedW) && AllUnder(s, {9}, Low, Bare)
    && AllUnder(s, {7, 8}, Mid, Bare) && AllUnder(s, {4, 10, 11}, Mid, VotedU)
  }

  /** Participant 3 is preparing, and 7, 8 and 9 have promised. */
  ghost predicate Pending(s: State) {
    3 in s.nodes && s.nodes[3] == Bidding(3, Low, Late, 1, VotedW) && AllReported(s, {7, 8, 9}, Late, Bare)
  }

  ghost predicate Stage3(s: State) {
    && UIsDecreed(s) && Behind(s) && Pending(s) && AllAsked(s, {5, 6}, Late)
    && AllUnder(s, {7, 8, 9}, Late, Bare) && AllUnder(s, {4, 10, 11}, Mid, VotedU)
  }

  ghost predicate Stage4(s: State) {
    UIsDecreed(s) && Behind(s) && Pending(s) && AllAsked(s, {5, 6}, Late) && AllTold(s, {5, 6}, High, U)
  }

  ghost predicate Stage5(s: State) {
    && UIsDecreed(s) && Pending(s)
    && AllAccepted(s, {5, 6}, Mid) && AllReported(s, {5, 6}, Late, Stale)
  }

  ghost predicate Stage6(s: State) {
    UIsDecreed(s) && AllAccepted(s, {5, 6}, Mid) && Stands(s, 3, Late, W)
  }

  function FirstState(): State {
    var votes := set a | a in Everyone :: Vote(a, 1, Low, Founding);
    State(
      map a | a in Everyone :: StartNode(a, Founder, Founding),
      multiset{},
      History(map a | a in Everyone :: Low, votes, votes, map[(Low, 1) := Founding], map[Low := Everyone]),
      map a | a in Everyone :: {},
      map[(Low, 1) := Everyone])
  }

  lemma FirstIsInitial()
    ensures Init(FirstState(), Founder, Founding)
  {
    hide Majority;
    var s := FirstState();
    assert s.nodes.Keys == Everyone;
    assert s.nodes == map a | a in s.nodes :: StartNode(a, Founder, Founding);
    assert s.hist.promised == map a | a in s.nodes :: Low;
    assert s.acked == map a | a in s.nodes :: {};
  }

  lemma Begins() returns (s: State)
    ensures Stage0(s)
  {
    hide Init;
    s := FirstState();
    FirstIsInitial();
    assert IsRun([s], Founder, Founding);
    assert [s][|[s]| - 1] == s;
  }

  /** Participant `p`, established in `b` with nothing after instance 1, decrees
      `Filler` as instance 2 and `v` as instance 3. */
  lemma DecreesThird(s: State, p: NodeId, v: Value) returns (t: State)
    requires Reached(s) && s.nodes.Keys == Everyone && p in Everyone
    requires s.nodes[p].alive && Established(s.nodes[p]) && s.nodes[p].log == Bare
    ensures Reached(t) && Kept(s, t, {p}, {}) && p in t.nodes
    ensures Vote(p, 3, s.nodes[p].ballot, v) in t.hist.votes
    ensures AllOwed(t, Everyone - {p}, s.nodes[p].ballot, v)
    ensures var b, n := s.nodes[p].ballot, s.nodes[p];
      t.nodes[p] == n.(log := Bare[2 := Entry(b, Filler, false, false, false, 1)][3 := Entry(b, v, false, false, false, 1)])
  {
    hide Reached, Types.Last;
    Sizes();
    LogFacts();
    ReachedParticipant(s, p);
    var b := s.nodes[p].ballot;
    var u := Requests(s, p, Filler);
    SecondEntered(b);
    t := Requests(u, p, v);
    KeptChain(s, u, t, {p}, {}, {p}, {});
    assert {p} + {p} == {p};
  }

  lemma SecondEntered(b: Ballot)
    ensures var log := Bare[2 := Entry(b, Filler, false, false, false, 1)]; NextInstance(log) == 3
  {
    var log := Bare[2 := Entry(b, Filler, false, false, false, 1)];
    assert 2 in log;
    assert Types.Last(log) == 2;
  }

  lemma FirstVote(a: NodeId, b: Ballot, v: Value)
    requires a != b.id
    ensures AckDecree(Under(a, b, Bare), b, 3, v) ==
            Outcome(Under(a, b, Bare[3 := Entry(b, v, false, false, false, 0)]), {Accept(a, b, 3)})
  {
  }

  /** Nobody but `movers` has moved, and what is on its way to others still is. */
  ghost predicate Left(s: State, t: State, movers: set<NodeId>) {
    && t.nodes.Keys == s.nodes.Keys
    && (forall c :: c in s.nodes && c !in movers ==> t.nodes[c] == s.nodes[c])
    && (forall m :: m in s.net && Receiver(m) !in movers ==> m in t.net)
    && s.hist.votes <= t.hist.votes
  }

  lemma KeptLeft(s: State, t: State, movers: set<NodeId>, taken: set<Message>, all: set<NodeId>)
    requires Kept(s, t, movers, taken) && movers <= all && forall m :: m in taken ==> Receiver(m) in all
    ensures Left(s, t, all)
  {
  }

  lemma LeftChain(s: State, t: State, u: State, movers: set<NodeId>)
    requires Left(s, t, movers) && Left(t, u, movers)
    ensures Left(s, u, movers)
  {
  }

  lemma LeftMore(s: State, t: State, movers: set<NodeId>, more: set<NodeId>)
    requires Left(s, t, movers) && movers <= more
    ensures Left(s, t, more)
  {
  }

  lemma UnderLeft(s: State, t: State, movers: set<NodeId>, group: set<NodeId>, b: Ballot, log: Log)
    requires Left(s, t, movers) && AllUnder(s, group, b, log) && group !! movers
    ensures AllUnder(t, group, b, log)
  {
  }

  lemma OwedLeft(s: State, t: State, movers: set<NodeId>, group: set<NodeId>, b: Ballot, v: Value)
    requires Left(s, t, movers) && group !! movers
    ensures AllOwed(s, group, b, v) ==> AllOwed(t, group, b, v)
    ensures AllAsked(s, group, b) ==> AllAsked(t, group, b)
    ensures AllTold(s, group, b, v) ==> AllTold(t, group, b, v)
  {
  }

  lemma RepliesLeft(s: State, t: State, movers: set<NodeId>, group: set<NodeId>, b: Ballot, log: Log)
    requires Left(s, t, movers) && b.id !in movers
    ensures AllAccepted(s, group, b) ==> AllAccepted(t, group, b)
    ensures AllReported(s, group, b, log) ==> AllReported(t, group, b, log)
  {
    hide Report;
  }

  // ---- Steps of a group.

  lemma FreshVotes(s: State, movers: set<NodeId>, b: Ballot, v: Value) returns (t: State)
    requires Reached(s) && AllUnder(s, movers, b, Bare) && AllOwed(s, movers, b, v) && b.id !in movers
    ensures Reached(t) && Left(s, t, movers) && AllAccepted(t, movers, b)
    ensures AllUnder(t, movers, b, Bare[3 := Entry(b, v, false, false, false, 0)])
  {
    hide Reached, Kept, AckDecree;
    forall a | a in movers ensures CanVote(s, a, b, 3, v) { FirstVote(a, b, v); }
    t := VotesAll(s, movers, b, 3, v);
    KeptLeft(s, t, movers, DecreesTo(movers, b, 3, v), movers);
    assert forall a :: a in movers ==> HasVoted(s, t, a, b, 3, v);
    forall a | a in movers ensures t.nodes[a] == Under(a, b, Bare[3 := Entry(b, v, false, false, false, 0)]) { FirstVote(a, b, v); }
  }

  lemma GroupPromises(s: State, movers: set<NodeId>, was: Ballot, log: Log, b: Ballot) returns (t: State)
    requires Reached(s) && AllUnder(s, movers, was, log) && AllAsked(s, movers, b) && Below(was, b)
    requires was.id !in movers && forall a :: a in movers ==> b.id < a
    ensures Reached(t) && Left(s, t, movers) && Kept(s, t, movers, PreparesTo(movers, b, 2))
    ensures AllUnder(t, movers, b, log) && AllReported(t, movers, b, log)
  {
    hide Reached, Kept, Report;
    t := PromisesAll(s, movers, b, 2);
    KeptLeft(s, t, movers, PreparesTo(movers, b, 2), movers);
    assert forall a :: a in movers ==> HasPromised(s, t, a, b, 2);
  }

  function PromisesOf(from: set<NodeId>, b: Ballot, log: Log): set<Message> {
    set a | a in from :: Promise(a, b, 2, Report(log, 2))
  }

  /** Promises that report `log` and add nothing, short of a majority; those of `more` are left to count. */
  lemma GroupCollects(s: State, p: NodeId, from: set<NodeId>, log: Log, more: set<NodeId>, log': Log) returns (t: State)
    requires Reached(s) && p in s.nodes && s.nodes[p].alive && IsProposer(s.nodes[p])
    requires s.nodes[p].prep.Some? && s.nodes[p].prep.value.ballot.id == p
    requires AllReported(s, from, s.nodes[p].prep.value.ballot, log) && AddsNothing(s.nodes[p], Report(log, 2))
    requires AllReported(s, more, s.nodes[p].prep.value.ballot, log') && more !! from
    requires s.nodes[p].prep.value.acks + |from| < Majority(|s.nodes.Keys|)
    ensures Reached(t) && Left(s, t, {p}) && p in t.nodes && t.nodes[p] == WithAcks(s.nodes[p], |from|)
    ensures AllReported(t, more, s.nodes[p].prep.value.ballot, log')
  {
    hide Reached, Kept, Report, AddsNothing;
    var b := s.nodes[p].prep.value.ballot;
    var reports := map a | a in from :: Report(log, 2);
    t := CollectsAll(s, p, from, 2, reports);
    var taken := set a | a in from && a in reports :: Promise(a, b, 2, reports[a]);
    KeptLeft(s, t, {p}, taken, {p});
    forall a | a in more ensures Promise(a, b, 2, Report(log', 2)) in t.net {
      KeptMessage(s, t, {p}, taken, Promise(a, b, 2, Report(log', 2)));
    }
  }

  /** The promise of `a` completes the prepare of `p`. */
  lemma LastPromise(s: State, p: NodeId, a: NodeId, log: Log) returns (t: State)
    requires Reached(s) && p in s.nodes && s.nodes[p].alive && IsProposer(s.nodes[p]) && s.nodes[p].log != map[]
    requires s.nodes[p].prep.Some? && s.nodes[p].prep.value.ballot.id == p
    requires AllReported(s, {a}, s.nodes[p].prep.value.ballot, log) && AddsNothing(s.nodes[p], Report(log, 2))
    requires s.nodes[p].prep.value.acks + 1 >= Majority(|s.nodes.Keys|)
    ensures var n, b := s.nodes[p], s.nodes[p].prep.value.ballot;
      var o := CompletePrepare(WithAcks(n, 1), b, s.nodes.Keys);
      && Reached(t) && Left(s, t, {p}) && p in t.nodes && t.nodes[p] == o.node
      && forall m :: m in o.sent ==> m in t.net
  {
    hide Reached, Kept, Report, AddsNothing, CompletePrepare;
    var b := s.nodes[p].prep.value.ballot;
    var report := Report(log, 2);
    assert Promise(a, b, 2, report) in s.net;
    t := Completes(s, p, a, 2, report);
    KeptLeft(s, t, {p}, {Promise(a, b, 2, report)}, {p});
    KeptKeys(s, t, {p}, {Promise(a, b, 2, report)});
  }

  lemma BareAddsNothing(n: Node)
    requires n.prep.Some? && n.prep.value.istart <= 1 && 1 in n.log && n.log[1].committed
    ensures AddsNothing(n, Report(Bare, 2))
  {
    var report := Report(Bare, 2);
    assert forall i :: i in report ==> i == 1;
    assert Merge(n.log, report) == n.log;
  }

  lemma VotedUAddsNothing(n: Node)
    requires n.prep.Some? && n.prep.value.istart <= 1 && n.log == VotedU
    ensures AddsNothing(n, Report(VotedU, 2))
  {
    var report := Report(VotedU, 2);
    assert forall i :: i in report ==> i == 1 || (i == 3 && report[3].ballot == Mid);
    assert Merge(n.log, report) == n.log;
  }

  lemma StaleAddsNothing(n: Node)
    requires n.prep.Some? && n.prep.value.istart <= 1 && n.log == VotedW
    ensures AddsNothing(n, Report(Stale, 2))
  {
    var report := Report(Stale, 2);
    assert forall i :: i in report ==> i == 1 || (i == 3 && report[3].ballot == Low);
    assert Merge(n.log, report) == n.log;
  }

  /** With its hole still missing, a participant prepares from instance 2. */
  lemma GroupAsked(s: State, p: NodeId, own: Ballot, log: Log, b: Ballot) returns (t: State)
    requires Reached(s) && s.nodes.Keys == Everyone && p in Everyone && AllUnder(s, {p}, own, log)
    requires own.id != p && b == Ballot(p, own.gen + 1) && 2 !in log
    ensures Reached(t) && Left(s, t, {p}) && p in t.nodes && t.nodes[p] == Bidding(p, own, b, 1, log)
    ensures AllAsked(t, Everyone - {p}, b)
  {
    hide Reached;
    t := Prepares(s, p);
    KeptLeft(s, t, {p}, {}, {p});
  }

  lemma AskedAgain(s: State, p: NodeId, own: Ballot, log: Log, was: Ballot, b: Ballot) returns (t: State)
    requires Reached(s) && s.nodes.Keys == Everyone && p in Everyone && s.nodes[p] == Bidding(p, own, was, 1, log)
    requires b == Ballot(p, was.gen + 1) && 2 !in log
    ensures Reached(t) && Left(s, t, {p}) && p in t.nodes && t.nodes[p] == Bidding(p, own, b, 1, log)
    ensures AllAsked(t, Everyone - {p}, b)
  {
    hide Reached;
    t := Prepares(s, p);
    KeptLeft(s, t, {p}, {}, {p});
  }

  /** A participant prepares, gives up, and prepares again. */
  lemma AskedTwice(s: State, p: NodeId, own: Ballot, log: Log, b: Ballot) returns (t: State)
    requires Reached(s) && s.nodes.Keys == Everyone && p in Everyone && AllUnder(s, {p}, own, log)
    requires own.id != p && b == Ballot(p, own.gen + 2) && 2 !in log
    ensures Reached(t) && Left(s, t, {p}) && p in t.nodes && t.nodes[p] == Bidding(p, own, b, 1, log)
    ensures AllAsked(t, Everyone - {p}, b)
  {
    hide Reached, Left, AllUnder, AllAsked;
    var u := GroupAsked(s, p, own, log, Ballot(p, own.gen + 1));
    LeftKeys(s, u, {p});
    t := AskedAgain(u, p, own, log, Ballot(p, own.gen + 1), b);
    LeftChain(s, u, t, {p});
  }

  /** With nothing after instance 1 known, completing a prepare decrees nothing. */
  lemma NothingOpen(n: Node, b: Ballot, acceptors: set<NodeId>)
    requires n.log == Bare && n.ihole == 2
    ensures n.log != map[] && CompletePrepare(n, b, acceptors).node == n.(ballot := b, prep := None)
  {
    LogFacts();
    hide Types.Last;
    assert HolesBelow(n.log, 2, 1) == {};
    assert RedecreeLog(n, b) == n.log;
  }

  // ---- Phase by phase.

  lemma LeftKeys(s: State, t: State, movers: set<NodeId>)
    requires Left(s, t, movers)
    ensures t.nodes.Keys == s.nodes.Keys && s.hist.votes <= t.hist.votes
  {
  }

  lemma LeftNode(s: State, t: State, movers: set<NodeId>, c: NodeId)
    requires Left(s, t, movers) && c in s.nodes && c !in movers
    ensures c in t.nodes && t.nodes[c] == s.nodes[c]
  {
  }

  lemma StandsLeft(s: State, t: State, movers: set<NodeId>, p: NodeId, b: Ballot, v: Value)
    requires Left(s, t, movers) && Stands(s, p, b, v) && p !in movers && Reached(t)
    ensures Stands(t, p, b, v)
  {
    hide Reached;
  }

  lemma UIsDecreedLeft(s: State, t: State, movers: set<NodeId>)
    requires Left(s, t, movers) && UIsDecreed(s) && 2 !in movers && Reached(t)
    ensures UIsDecreed(t)
  {
    hide Reached, Left, Stands, AllAccepted;
    StandsLeft(s, t, movers, 2, Mid, U);
    RepliesLeft(s, t, movers, {4, 10, 11}, Mid, Bare);
    LeftKeys(s, t, movers);
  }

  lemma BehindLeft(s: State, t: State, movers: set<NodeId>)
    requires Left(s, t, movers) && Behind(s) && 5 !in movers && 6 !in movers
    ensures Behind(t)
  {
    hide Left, AllUnder, AllAsked, AllOwed;
    UnderLeft(s, t, movers, {5, 6}, Low, VotedW);
    OwedLeft(s, t, movers, {5, 6}, Mid, U);
  }

  lemma PendingLeft(s: State, t: State, movers: set<NodeId>)
    requires Left(s, t, movers) && Pending(s) && 3 !in movers
    ensures Pending(t)
  {
    hide Left, AllReported, Bidding;
    LeftNode(s, t, movers, 3);
    RepliesLeft(s, t, movers, {7, 8, 9}, Late, Bare);
  }

  lemma SubgroupUnder(s: State, group: set<NodeId>, some: set<NodeId>, b: Ballot, log: Log)
    requires AllUnder(s, group, b, log) && some <= group
    ensures AllUnder(s, some, b, log)
  {
  }

  lemma OneUnder(s: State, a: NodeId, b: Ballot, log: Log)
    requires AllUnder(s, {a}, b, log)
    ensures a in s.nodes && s.nodes[a] == Under(a, b, log)
  {
  }

  lemma JoinedUnder(s: State, group: set<NodeId>, more: set<NodeId>, b: Ballot, log: Log)
    requires AllUnder(s, group, b, log) && AllUnder(s, more, b, log)
    ensures AllUnder(s, group + more, b, log)
  {
  }

  lemma SubgroupAsked(s: State, group: set<NodeId>, some: set<NodeId>, b: Ballot)
    requires AllAsked(s, group, b) && some <= group
    ensures AllAsked(s, some, b)
  {
  }

  lemma SubgroupOwed(s: State, group: set<NodeId>, some: set<NodeId>, b: Ballot, v: Value)
    requires AllOwed(s, group, b, v) && some <= group
    ensures AllOwed(s, some, b, v)
  {
  }

  lemma SubgroupReported(s: State, group: set<NodeId>, some: set<NodeId>, b: Ballot, log: Log)
    requires AllReported(s, group, b, log) && some <= group
    ensures AllReported(s, some, b, log)
  {
    hide Report;
  }

  lemma BothReported(s: State, x: NodeId, y: NodeId, b: Ballot, log: Log)
    ensures AllReported(s, {x, y}, b, log) <==> AllReported(s, {x}, b, log) && AllReported(s, {y}, b, log)
  {
    hide Report;
  }

  /** Participant 1 decrees `W`, and 3, 5 and 6 vote for it. */
  lemma Phase1(s: State) returns (t: State)
    requires Stage0(s)
    ensures Stage1(t)
  {
    hide Reached, Kept, Under, Left, AllUnder, AllOwed;
    var movers, rest := {3, 5, 6}, {2, 4, 7, 8, 9, 10, 11};
    SubgroupUnder(s, Everyone, {1}, Low, Bare);
    SubgroupUnder(s, Everyone, movers, Low, Bare);
    SubgroupUnder(s, Everyone, rest, Low, Bare);
    OneUnder(s, 1, Low, Bare);
    FounderStands(s.nodes[1]);
    var u := DecreesThird(s, 1, W);
    KeptLeft(s, u, {1}, {}, {1});
    LeftKeys(s, u, {1});
    UnderLeft(s, u, {1}, movers, Low, Bare);
    UnderLeft(s, u, {1}, rest, Low, Bare);
    SubgroupOwed(u, Everyone - {1}, movers, Low, W);
    t := FreshVotes(u, movers, Low, W);
    LeftKeys(u, t, movers);
    UnderLeft(u, t, movers, rest, Low, Bare);
    Stage1Groups(t);
  }

  lemma Stage1Groups(s: State)
    requires Reached(s) && s.nodes.Keys == Everyone
    requires AllUnder(s, {3, 5, 6}, Low, VotedW) && AllUnder(s, {2, 4, 7, 8, 9, 10, 11}, Low, Bare)
    ensures Stage1(s)
  {
    hide Reached, Under;
  }

  lemma FounderStands(n: Node)
    requires n == Under(1, Low, Bare)
    ensures n.alive && Established(n) && n.log == Bare && n.ballot == Low
  {
  }

  /** Counting five promises, of which three come from participants with
      nothing to report, completes a prepare. */
  lemma Wins(s: State, p: NodeId, own: Ballot, b: Ballot, log: Log, three: set<NodeId>, x: NodeId, y: NodeId, log': Log) returns (t: State)
    requires Reached(s) && s.nodes.Keys == Everyone && p in Everyone && s.nodes[p] == Bidding(p, own, b, 1, log) && b.id == p
    requires AllReported(s, three, b, Bare) && |three| == 3 && AllReported(s, {x}, b, log') && AllReported(s, {y}, b, log')
    requires x != y && x !in three && y !in three && log != map[]
    requires forall k :: AddsNothing(Bidding(p, own, b, k, log), Report(Bare, 2))
    requires forall k :: AddsNothing(Bidding(p, own, b, k, log), Report(log', 2))
    ensures var o := CompletePrepare(Bidding(p, own, b, 6, log), b, Everyone);
      && Reached(t) && Left(s, t, {p}) && p in t.nodes && t.nodes[p] == o.node && t.nodes.Keys == Everyone
      && forall m :: m in o.sent ==> m in t.net
  {
    hide Reached, Report, AddsNothing, Left, CompletePrepare, AllReported, Everyone;
    assert |Everyone| == 11 && Majority(|Everyone|) == 6 by { Sizes(); }
    BothReported(s, x, y, b, log');
    var u := GroupCollects(s, p, three, Bare, {x, y}, log');
    LeftKeys(s, u, {p});
    assert u.nodes[p] == Bidding(p, own, b, 4, log);
    BothReported(u, x, y, b, log');
    assert |{x}| == 1;
    var v := GroupCollects(u, p, {x}, log', {y}, log');
    LeftKeys(u, v, {p});
    assert v.nodes[p] == Bidding(p, own, b, 5, log);
    t := LastPromise(v, p, y, log');
    assert WithAcks(v.nodes[p], 1) == Bidding(p, own, b, 6, log);
    LeftChain(s, u, v, {p});
    LeftChain(s, v, t, {p});
    LeftKeys(v, t, {p});
  }

  /** Participant 2 prepares, and 4, 7, 8, 10 and 11 promise without having heard of `W`. */
  lemma Phase2Ask(s: State) returns (t: State)
    requires Stage1(s)
    ensures Reached(t) && Left(s, t, {2, 4, 7, 8, 10, 11}) && t.nodes.Keys == Everyone
    ensures AllUnder(t, {4, 7, 8, 10, 11}, Mid, Bare) && AllReported(t, {4, 7, 8, 10, 11}, Mid, Bare)
    ensures AllAsked(t, {5, 6}, Mid) && t.nodes[2] == Bidding(2, Low, Mid, 1, Bare)
  {
    hide Reached, Report, Left, Under, AllUnder, AllAsked, AllReported;
    var movers, all := {4, 7, 8, 10, 11}, {2, 4, 7, 8, 10, 11};
    var u := GroupAsked(s, 2, Low, Bare, Mid);
    UnderLeft(s, u, {2}, movers, Low, Bare);
    LeftKeys(s, u, {2});
    SubgroupAsked(u, Everyone - {2}, movers, Mid);
    SubgroupAsked(u, Everyone - {2}, {5, 6}, Mid);
    t := GroupPromises(u, movers, Low, Bare, Mid);
    LeftKeys(u, t, movers);
    LeftNode(u, t, movers, 2);
    OwedLeft(u, t, movers, {5, 6}, Mid, U);
    LeftMore(s, u, {2}, all);
    LeftMore(u, t, movers, all);
    LeftChain(s, u, t, all);
  }

  lemma Phase2Prepare(s: State) returns (t: State)
    requires Stage1(s)
    ensures Reached(t) && Left(s, t, {2, 4, 7, 8, 10, 11}) && t.nodes.Keys == Everyone
    ensures AllUnder(t, {4, 7, 8, 10, 11}, Mid, Bare) && AllAsked(t, {5, 6}, Mid)
    ensures t.nodes[2] == Node(2, true, Mid, 2, 2, None, Bare, 2, 0, [])
  {
    hide Reached, Report, CompletePrepare, AddsNothing, Left, AllUnder, AllAsked, Stage1, AllReported;
    var movers, all := {4, 7, 8, 10, 11}, {2, 4, 7, 8, 10, 11};
    var u := Phase2Ask(s);
    forall k ensures AddsNothing(Bidding(2, Low, Mid, k, Bare), Report(Bare, 2)) { BareAddsNothing(Bidding(2, Low, Mid, k, Bare)); }
    SubgroupReported(u, movers, {4, 7, 8}, Mid, Bare);
    SubgroupReported(u, movers, {10}, Mid, Bare);
    SubgroupReported(u, movers, {11}, Mid, Bare);
    assert |{4, 7, 8}| == 3;
    LogFacts();
    t := Wins(u, 2, Low, Mid, Bare, {4, 7, 8}, 10, 11, Bare);
    NothingOpen(Bidding(2, Low, Mid, 6, Bare), Mid, Everyone);
    UnderLeft(u, t, {2}, movers, Mid, Bare);
    OwedLeft(u, t, {2}, {5, 6}, Mid, U);
    LeftMore(u, t, {2}, all);
    LeftChain(s, u, t, all);
  }

  /** Participant 2 completes and decrees `U`, and 4, 10 and 11 vote for it. */
  lemma Phase2(s: State) returns (t: State)
    requires Stage1(s)
    ensures Stage2(t)
  {
    hide Reached, Left, Kept, Under, AllUnder, AllAsked;
    var all := {2, 4, 7, 8, 10, 11};
    var u := Phase2Prepare(s);
    UnderLeft(s, u, all, {3}, Low, VotedW);
    UnderLeft(s, u, all, {5, 6}, Low, VotedW);
    UnderLeft(s, u, all, {9}, Low, Bare);
    hide Stage1, Stage2;
    t := Phase2Vote(u);
  }

  lemma Phase2Decree(s: State) returns (t: State)
    requires Reached(s) && s.nodes.Keys == Everyone && s.nodes[2] == Node(2, true, Mid, 2, 2, None, Bare, 2, 0, [])
    ensures Left(s, t, {2}) && Stands(t, 2, Mid, U) && Vote(2, 3, Mid, U) in t.hist.votes
    ensures AllOwed(t, {4, 10, 11}, Mid, U) && AllOwed(t, {5, 6}, Mid, U)
  {
    hide Reached, Left, Kept, AllOwed;
    t := DecreesThird(s, 2, U);
    KeptLeft(s, t, {2}, {}, {2});
    LeftKeys(s, t, {2});
    SubgroupOwed(t, Everyone - {2}, {4, 10, 11}, Mid, U);
    SubgroupOwed(t, Everyone - {2}, {5, 6}, Mid, U);
  }

  lemma VoteLeft(s: State, t: State, movers: set<NodeId>, vote: Vote)
    requires Left(s, t, movers) && vote in s.hist.votes
    ensures vote in t.hist.votes
  {
  }

  lemma Phase2Vote(s: State) returns (t: State)
    requires Reached(s) && s.nodes.Keys == Everyone && s.nodes[2] == Node(2, true, Mid, 2, 2, None, Bare, 2, 0, [])
    requires AllUnder(s, {4, 7, 8, 10, 11}, Mid, Bare) && AllAsked(s, {5, 6}, Mid)
    requires AllUnder(s, {3}, Low, VotedW) && AllUnder(s, {5, 6}, Low, VotedW) && AllUnder(s, {9}, Low, Bare)
    ensures Stage2(t)
  {
    hide Reached, Left, Kept, Under, AllUnder, AllAsked, AllOwed, AllAccepted;
    var movers, all := {4, 10, 11}, {2, 4, 10, 11};
    var u := Phase2Decree(s);
    SubgroupUnder(s, {4, 7, 8, 10, 11}, movers, Mid, Bare);
    SubgroupUnder(s, {4, 7, 8, 10, 11}, {7, 8}, Mid, Bare);
    UnderLeft(s, u, {2}, movers, Mid, Bare);
    t := FreshVotes(u, movers, Mid, U);
    StandsLeft(u, t, movers, 2, Mid, U);
    VoteLeft(u, t, movers, Vote(2, 3, Mid, U));
    OwedLeft(u, t, movers, {5, 6}, Mid, U);
    hide Stands;
    LeftMore(s, u, {2}, all);
    LeftMore(u, t, movers, all);
    LeftChain(s, u, t, all);
    OwedLeft(s, t, all, {5, 6}, Mid, U);
    UnderLeft(s, t, all, {7, 8}, Mid, Bare);
    UnderLeft(s, t, all, {3}, Low, VotedW);
    UnderLeft(s, t, all, {5, 6}, Low, VotedW);
    UnderLeft(s, t, all, {9}, Low, Bare);
  }

  lemma Stage2Groups(s: State)
    requires Stage2(s)
    ensures Reached(s) && s.nodes.Keys == Everyone
  {
    hide Reached, AllUnder, AllAsked, AllOwed, AllAccepted;
  }

  lemma JoinedReported(s: State, group: set<NodeId>, more: set<NodeId>, b: Ballot, log: Log)
    requires AllReported(s, group, b, log) && AllReported(s, more, b, log)
    ensures AllReported(s, group + more, b, log)
  {
    hide Report;
  }

  /** Participant 3 prepares twice, and 7, 8 and 9 promise. */
  lemma Phase3(s: State) returns (t: State)
    requires Stage2(s)
    ensures Stage3(t)
  {
    hide Reached, Report, Left, Kept, Under, AllUnder, AllAsked, AllOwed, AllReported, AllAccepted, UIsDecreed, Behind, Bidding;
    var all := {3, 7, 8, 9};
    Stage2Groups(s);
    var u := AskedTwice(s, 3, Low, VotedW, Late);
    LeftKeys(s, u, {3});
    SubgroupAsked(u, Everyone - {3}, {7, 8}, Late);
    SubgroupAsked(u, Everyone - {3}, {9}, Late);
    SubgroupAsked(u, Everyone - {3}, {5, 6}, Late);
    UnderLeft(s, u, {3}, {7, 8}, Mid, Bare);
    UnderLeft(s, u, {3}, {9}, Low, Bare);
    LeftMore(s, u, {3}, all);
    t := Phase3Promise(u);
    LeftChain(s, u, t, all);
    UIsDecreedLeft(s, t, all);
    BehindLeft(s, t, all);
    UnderLeft(s, t, all, {4, 10, 11}, Mid, VotedU);
    LeftPending(u, t);
  }

  lemma LeftPending(s: State, t: State)
    requires Left(s, t, {3, 7, 8, 9}) && AllReported(t, {7, 8, 9}, Late, Bare)
    requires 3 in t.nodes && t.nodes[3] == Bidding(3, Low, Late, 1, VotedW)
    ensures Pending(t)
  {
  }

  lemma Phase3Promise(s: State) returns (t: State)
    requires Reached(s) && s.nodes.Keys == Everyone && s.nodes[3] == Bidding(3, Low, Late, 1, VotedW)
    requires AllUnder(s, {7, 8}, Mid, Bare) && AllUnder(s, {9}, Low, Bare)
    requires AllAsked(s, {7, 8}, Late) && AllAsked(s, {9}, Late) && AllAsked(s, {5, 6}, Late)
    ensures Reached(t) && Left(s, t, {3, 7, 8, 9}) && AllUnder(t, {7, 8, 9}, Late, Bare) && AllReported(t, {7, 8, 9}, Late, Bare)
    ensures 3 in t.nodes && t.nodes[3] == Bidding(3, Low, Late, 1, VotedW) && AllAsked(t, {5, 6}, Late)
  {
    hide Reached, Report, Left, Kept, Under, AllUnder, AllAsked, AllReported, Bidding;
    var all := {3, 7, 8, 9};
    var u := GroupPromises(s, {7, 8}, Mid, Bare, Late);
    OwedLeft(s, u, {7, 8}, {9}, Late, U);
    OwedLeft(s, u, {7, 8}, {5, 6}, Late, U);
    UnderLeft(s, u, {7, 8}, {9}, Low, Bare);
    LeftNode(s, u, {7, 8}, 3);
    t := GroupPromises(u, {9}, Low, Bare, Late);
    LeftNode(u, t, {9}, 3);
    OwedLeft(u, t, {9}, {5, 6}, Late, U);
    UnderLeft(u, t, {9}, {7, 8}, Late, Bare);
    RepliesLeft(u, t, {9}, {7, 8}, Late, Bare);
    JoinedUnder(t, {7, 8}, {9}, Late, Bare);
    JoinedReported(t, {7, 8}, {9}, Late, Bare);
    assert {7, 8} + {9} == {7, 8, 9};
    LeftMore(s, u, {7, 8}, all);
    LeftMore(u, t, {9}, all);
    LeftChain(s, u, t, all);
  }

  /** With a vote for `v` at instance 3, a completing prepare fills instance 2 and decrees `v` again. */
  lemma OpenThird(n: Node, b: Ballot, acceptors: set<NodeId>, was: Ballot, v: Value)
    requires n.log == Bare[3 := Entry(was, v, false, false, false, 0)] && n.ihole == 2 && n.alive
    ensures n.log != map[]
    ensures var o := CompletePrepare(n, b, acceptors);
      && o.node.id == n.id && o.node.alive && o.node.proposer == n.proposer && o.node.prep.None? && o.node.ballot == b
      && 3 in o.node.log && o.node.log[3] == Entry(b, v, false, false, false, 1)
      && forall a :: a in acceptors && a != n.id ==> Decree(a, b, 3, v) in o.sent
  {
    assert 3 in n.log && Types.Last(n.log) == 3;
    hide Types.Last, HolesBelow;
    assert Redecreed(n, 3);
    var log := RedecreeLog(n, b);
    assert 3 in log && log[3] == Entry(b, v, false, false, false, 1);
  }

  // ---- Participant 4 outbids the others.

  lemma Phase4Ask(s: State) returns (t: State)
    requires Stage3(s)
    ensures Reached(t) && Left(s, t, {4, 7, 8, 9, 10, 11}) && t.nodes.Keys == Everyone
    ensures AllUnder(t, {7, 8, 9}, High, Bare) && AllReported(t, {7, 8, 9}, High, Bare)
    ensures AllUnder(t, {10, 11}, High, VotedU) && AllReported(t, {10, 11}, High, VotedU)
    ensures t.nodes[4] == Bidding(4, Mid, High, 1, VotedU)
  {
    hide Reached, Report, Left, Kept, Under, AllUnder, AllAsked, AllOwed, AllReported, AllAccepted, Behind, Bidding, Pending;
    var all := {4, 7, 8, 9, 10, 11};
    SubgroupUnder(s, {4, 10, 11}, {4}, Mid, VotedU);
    SubgroupUnder(s, {4, 10, 11}, {10, 11}, Mid, VotedU);
    var u := AskedTwice(s, 4, Mid, VotedU, High);
    LeftKeys(s, u, {4});
    SubgroupAsked(u, Everyone - {4}, {7, 8, 9}, High);
    SubgroupAsked(u, Everyone - {4}, {10, 11}, High);
    UnderLeft(s, u, {4}, {7, 8, 9}, Late, Bare);
    UnderLeft(s, u, {4}, {10, 11}, Mid, VotedU);
    hide Stage3, UIsDecreed;
    t := Phase4Promise(u);
    LeftMore(s, u, {4}, all);
    LeftMore(u, t, {7, 8, 9, 10, 11}, all);
    LeftChain(s, u, t, all);
    LeftKeys(u, t, all);
    LeftNode(u, t, {7, 8, 9, 10, 11}, 4);
  }

  lemma Phase4Promise(s: State) returns (t: State)
    requires Reached(s) && AllUnder(s, {7, 8, 9}, Late, Bare) && AllUnder(s, {10, 11}, Mid, VotedU)
    requires AllAsked(s, {7, 8, 9}, High) && AllAsked(s, {10, 11}, High)
    ensures Reached(t) && Left(s, t, {7, 8, 9, 10, 11})
    ensures AllUnder(t, {7, 8, 9}, High, Bare) && AllReported(t, {7, 8, 9}, High, Bare)
    ensures AllUnder(t, {10, 11}, High, VotedU) && AllReported(t, {10, 11}, High, VotedU)
  {
    hide Reached, Report, Left, Kept, Under, AllUnder, AllAsked, AllReported;
    var all := {7, 8, 9, 10, 11};
    var u := GroupPromises(s, {7, 8, 9}, Late, Bare, High);
    OwedLeft(s, u, {7, 8, 9}, {10, 11}, High, U);
    UnderLeft(s, u, {7, 8, 9}, {10, 11}, Mid, VotedU);
    t := GroupPromises(u, {10, 11}, Mid, VotedU, High);
    UnderLeft(u, t, {10, 11}, {7, 8, 9}, High, Bare);
    RepliesLeft(u, t, {10, 11}, {7, 8, 9}, High, Bare);
    LeftMore(s, u, {7, 8, 9}, all);
    LeftMore(u, t, {10, 11}, all);
    LeftChain(s, u, t, all);
  }

  lemma VotedUAlways(own: Ballot, b: Ballot)
    ensures forall k :: AddsNothing(Bidding(4, own, b, k, VotedU), Report(Bare, 2))
    ensures forall k :: AddsNothing(Bidding(4, own, b, k, VotedU), Report(VotedU, 2))
  {
    hide AddsNothing, Report;
    forall k ensures AddsNothing(Bidding(4, own, b, k, VotedU), Report(Bare, 2)) { BareAddsNothing(Bidding(4, own, b, k, VotedU)); }
    forall k ensures AddsNothing(Bidding(4, own, b, k, VotedU), Report(VotedU, 2)) { VotedUAddsNothing(Bidding(4, own, b, k, VotedU)); }
  }

  /** Participant 4 completes and decrees `U` again. */
  lemma Phase4Decree(s: State) returns (t: State)
    requires Stage3(s)
    ensures Reached(t) && Left(s, t, {4, 7, 8, 9, 10, 11}) && t.nodes.Keys == Everyone
    ensures AllUnder(t, {7, 8, 9}, High, Bare) && AllUnder(t, {10, 11}, High, VotedU)
    ensures AllOwed(t, {7, 8, 9}, High, U) && AllOwed(t, {10, 11}, High, U)
    ensures var n := t.nodes[4];
      n.id == 4 && n.alive && IsProposer(n) && n.ballot == High && 3 in n.log && n.log[3] == Entry(High, U, false, false, false, 1)
  {
    hide Reached, Report, Left, Under, AllUnder, AllReported, AddsNothing, Stage3, CompletePrepare;
    var all := {4, 7, 8, 9, 10, 11};
    var u := Phase4Ask(s);
    SubgroupReported(u, {10, 11}, {10}, High, VotedU);
    SubgroupReported(u, {10, 11}, {11}, High, VotedU);
    VotedUAlways(Mid, High);
    LogFacts();
    assert |{7, 8, 9}| == 3;
    t := Wins(u, 4, Mid, High, VotedU, {7, 8, 9}, 10, 11, VotedU);
    OpenThird(Bidding(4, Mid, High, 6, VotedU), High, Everyone, Mid, U);
    UnderLeft(u, t, {4}, {7, 8, 9}, High, Bare);
    UnderLeft(u, t, {4}, {10, 11}, High, VotedU);
    LeftMore(u, t, {4}, all);
    LeftChain(s, u, t, all);
  }

  lemma SecondVote(a: NodeId)
    requires a != High.id
    ensures AckDecree(Under(a, High, VotedU), High, 3, U) ==
            Outcome(Under(a, High, Bare[3 := Entry(High, U, false, false, false, 0)]), {Accept(a, High, 3)})
  {
    assert VotedU[3 := Entry(High, U, false, false, false, 0)] == Bare[3 := Entry(High, U, false, false, false, 0)];
  }

  lemma SecondVotes(s: State, movers: set<NodeId>) returns (t: State)
    requires Reached(s) && AllUnder(s, movers, High, VotedU) && AllOwed(s, movers, High, U) && High.id !in movers
    ensures Reached(t) && Left(s, t, movers) && AllAccepted(t, movers, High)
  {
    hide Reached, Kept, AckDecree;
    forall a | a in movers ensures CanVote(s, a, High, 3, U) { SecondVote(a); }
    t := VotesAll(s, movers, High, 3, U);
    KeptLeft(s, t, movers, DecreesTo(movers, High, 3, U), movers);
    assert forall a :: a in movers ==> HasVoted(s, t, a, High, 3, U);
  }

  lemma JoinedAccepted(s: State, group: set<NodeId>, more: set<NodeId>, b: Ballot)
    requires AllAccepted(s, group, b) && AllAccepted(s, more, b)
    ensures AllAccepted(s, group + more, b)
  {
  }

  lemma SubgroupAccepted(s: State, group: set<NodeId>, some: set<NodeId>, b: Ballot)
    requires AllAccepted(s, group, b) && some <= group
    ensures AllAccepted(s, some, b)
  {
  }

  lemma Phase4Vote(s: State) returns (t: State)
    requires Stage3(s)
    ensures Reached(t) && Left(s, t, {4, 7, 8, 9, 10, 11}) && t.nodes.Keys == Everyone
    ensures AllAccepted(t, {7, 8, 9, 10, 11}, High)
    ensures var n := t.nodes[4];
      n.alive && IsProposer(n) && n.ballot == High && 3 in n.log && n.log[3] == Entry(High, U, false, false, false, 1)
  {
    hide Reached, Left, Under, AllUnder, AllOwed, AllAccepted, Stage3;
    var all := {4, 7, 8, 9, 10, 11};
    var u := Phase4Decree(s);
    var v := FreshVotes(u, {7, 8, 9}, High, U);
    LeftKeys(u, v, {7, 8, 9});
    LeftNode(u, v, {7, 8, 9}, 4);
    UnderLeft(u, v, {7, 8, 9}, {10, 11}, High, VotedU);
    OwedLeft(u, v, {7, 8, 9}, {10, 11}, High, U);
    t := SecondVotes(v, {10, 11});
    LeftKeys(v, t, {10, 11});
    LeftNode(v, t, {10, 11}, 4);
    RepliesLeft(v, t, {10, 11}, {7, 8, 9}, High, Bare);
    JoinedAccepted(t, {7, 8, 9}, {10, 11}, High);
    assert {7, 8, 9} + {10, 11} == {7, 8, 9, 10, 11};
    LeftMore(u, v, {7, 8, 9}, all);
    LeftMore(v, t, {10, 11}, all);
    LeftChain(s, u, v, all);
    LeftChain(s, v, t, all);
  }

  /** Votes of everyone in `four` and of `last` commit instance 3. */
  lemma GroupCommits(s: State, p: NodeId, b: Ballot, v: Value, four: set<NodeId>, last: NodeId) returns (t: State)
    requires Reached(s) && s.nodes.Keys == Everyone && p in Everyone && b.id == p
    requires var n := s.nodes[p];
      n.alive && IsProposer(n) && n.ballot == b && 3 in n.log && n.log[3] == Entry(b, v, false, false, false, 1)
    requires AllAccepted(s, four, b) && AllAccepted(s, {last}, b) && last !in four && |four| == 4
    ensures Reached(t) && Left(s, t, {p}) && AllTold(t, Everyone - {p}, b, v)
  {
    hide Reached, Kept, Left, Everyone;
    assert |Everyone| == 11 && Majority(|Everyone|) == 6 by { Sizes(); }
    var u := CountsAll(s, p, 3, four);
    KeptLeft(s, u, {p}, AcceptsOf(four, b, 3), {p});
    KeptKeys(s, u, {p}, AcceptsOf(four, b, 3));
    KeptMessage(s, u, {p}, AcceptsOf(four, b, 3), Accept(last, b, 3));
    t := Commits(u, p, 3, last);
    KeptLeft(u, t, {p}, {Accept(last, b, 3)}, {p});
    LeftChain(s, u, t, {p});
  }

  lemma SubgroupTold(s: State, group: set<NodeId>, some: set<NodeId>, b: Ballot, v: Value)
    requires AllTold(s, group, b, v) && some <= group
    ensures AllTold(s, some, b, v)
  {
  }

  lemma Phase4(s: State) returns (t: State)
    requires Stage3(s)
    ensures Stage4(t)
  {
    hide Reached, Left, AllAccepted, AllTold, AllUnder, AllAsked, UIsDecreed, Behind, Pending;
    var all := {4, 7, 8, 9, 10, 11};
    var u := Phase4Vote(s);
    SubgroupAccepted(u, {7, 8, 9, 10, 11}, {7, 8, 9, 10}, High);
    SubgroupAccepted(u, {7, 8, 9, 10, 11}, {11}, High);
    assert |{7, 8, 9, 10}| == 4;
    t := GroupCommits(u, 4, High, U, {7, 8, 9, 10}, 11);
    SubgroupTold(t, Everyone - {4}, {5, 6}, High, U);
    LeftMore(u, t, {4}, all);
    LeftChain(s, u, t, all);
    UIsDecreedLeft(s, t, all);
    BehindLeft(s, t, all);
    PendingLeft(s, t, all);
    OwedLeft(s, t, all, {5, 6}, Late, U);
  }

  // ---- Participants 5 and 6 vote under a stale label.

  lemma StaleCommit(a: NodeId)
    requires a != 2
    ensures AckCommit(Under(a, Mid, VotedW), High, 3, U, true) == Outcome(Under(a, Mid, Stale), {})
  {
    assert VotedW[3 := Entry(Low, U, true, true, false, 0)] == Stale;
  }

  lemma StaleVote(a: NodeId)
    requires a != 2
    ensures AckDecree(Under(a, Mid, Stale), Mid, 3, U) == Outcome(Under(a, Mid, Stale), {Accept(a, Mid, 3)})
  {
  }

  lemma CommitsOne(s: State, a: NodeId) returns (t: State)
    requires Reached(s) && a in s.nodes && a != 2 && s.nodes[a] == Under(a, Mid, VotedW) && Commit(a, High, 3, U) in s.net
    ensures Reached(t) && Kept(s, t, {a}, {Commit(a, High, 3, U)}) && t.nodes[a] == Under(a, Mid, Stale)
  {
    hide Reached, Kept, AckCommit, Types.Last;
    LogFacts();
    StaleCommit(a);
    t := Receives(s, a, Commit(a, High, 3, U), Under(a, Mid, Stale), {});
  }

  lemma VotesStale(s: State, a: NodeId) returns (t: State)
    requires Reached(s) && a in s.nodes && a != 2 && s.nodes[a] == Under(a, Mid, Stale) && Decree(a, Mid, 3, U) in s.net
    ensures Reached(t) && Kept(s, t, {a}, {Decree(a, Mid, 3, U)}) && t.nodes[a] == Under(a, Mid, Stale)
    ensures Accept(a, Mid, 3) in t.net
  {
    hide Reached, Kept, AckDecree, Types.Last;
    LogFacts();
    StaleVote(a);
    t := Receives(s, a, Decree(a, Mid, 3, U), Under(a, Mid, Stale), {Accept(a, Mid, 3)});
  }

  function StaleTaken(a: NodeId): set<Message> {
    {Commit(a, High, 3, U), Decree(a, Mid, 3, U)}
  }

  /** One participant commits `U` over its vote for `W`, and votes for `U`. */
  lemma CommitsAndVotes(s: State, a: NodeId) returns (t: State)
    requires Reached(s) && a in s.nodes && a != 2 && s.nodes[a] == Under(a, Mid, VotedW)
    requires Commit(a, High, 3, U) in s.net && Decree(a, Mid, 3, U) in s.net
    ensures Reached(t) && Kept(s, t, {a}, StaleTaken(a)) && AllUnder(t, {a}, Mid, Stale) && AllAccepted(t, {a}, Mid)
  {
    hide Reached, Kept, Under;
    var u := CommitsOne(s, a);
    KeptKeys(s, u, {a}, {Commit(a, High, 3, U)});
    KeptMessage(s, u, {a}, {Commit(a, High, 3, U)}, Decree(a, Mid, 3, U));
    t := VotesStale(u, a);
    KeptKeys(u, t, {a}, {Decree(a, Mid, 3, U)});
    KeptChain(s, u, t, {a}, {Commit(a, High, 3, U)}, {a}, {Decree(a, Mid, 3, U)});
    assert {a} + {a} == {a};
    assert {Commit(a, High, 3, U)} + {Decree(a, Mid, 3, U)} == StaleTaken(a);
  }

  lemma StragglerFinds(s: State, u: State, a: NodeId)
    requires Kept(s, u, {a}, PreparesTo({a}, Mid, 2)) && AllUnder(u, {a}, Mid, VotedW)
    requires AllAsked(s, {a}, Late) && AllOwed(s, {a}, Mid, U) && AllTold(s, {a}, High, U)
    ensures a in u.nodes && u.nodes[a] == Under(a, Mid, VotedW)
    ensures Commit(a, High, 3, U) in u.net && Decree(a, Mid, 3, U) in u.net && AllAsked(u, {a}, Late)
    ensures Left(s, u, {a})
  {
    hide Under;
  }

  lemma StragglerAsked(s: State, t: State, a: NodeId)
    requires Kept(s, t, {a}, StaleTaken(a)) && AllAsked(s, {a}, Late)
    ensures AllAsked(t, {a}, Late) && Left(s, t, {a})
  {
  }

  /** One participant promises `Mid`, commits `U`, votes for it, and promises `Late`. */
  lemma Straggles(s: State, a: NodeId) returns (t: State)
    requires Reached(s) && a in {5, 6} && AllUnder(s, {a}, Low, VotedW) && AllAsked(s, {a}, Mid) && AllAsked(s, {a}, Late)
    requires AllOwed(s, {a}, Mid, U) && AllTold(s, {a}, High, U)
    ensures Reached(t) && Left(s, t, {a}) && AllAccepted(t, {a}, Mid) && AllReported(t, {a}, Late, Stale)
  {
    hide Reached, Kept, Left, Report, Under, AllUnder, AllAsked, AllOwed, AllTold, AllAccepted, AllReported;
    var u := GroupPromises(s, {a}, Low, VotedW, Mid);
    StragglerFinds(s, u, a);
    var v := CommitsAndVotes(u, a);
    StragglerAsked(u, v, a);
    t := GroupPromises(v, {a}, Mid, Stale, Late);
    StragglerReplies(v, t, a);
    LeftChain(s, u, v, {a});
    LeftChain(s, v, t, {a});
  }

  lemma StragglerReplies(v: State, t: State, a: NodeId)
    requires Kept(v, t, {a}, PreparesTo({a}, Late, 2)) && AllAccepted(v, {a}, Mid)
    ensures Left(v, t, {a}) && AllAccepted(t, {a}, Mid)
  {
  }

  lemma BehindOne(s: State, a: NodeId)
    requires Behind(s) && AllAsked(s, {5, 6}, Late) && AllTold(s, {5, 6}, High, U) && a in {5, 6}
    ensures AllUnder(s, {a}, Low, VotedW) && AllAsked(s, {a}, Mid) && AllAsked(s, {a}, Late)
    ensures AllOwed(s, {a}, Mid, U) && AllTold(s, {a}, High, U)
  {
    hide Under;
  }

  lemma Phase5(s: State) returns (t: State)
    requires Stage4(s)
    ensures Stage5(t)
  {
    hide Reached, Left, AllAccepted, AllTold, AllUnder, AllAsked, AllOwed, AllReported, UIsDecreed, Behind, Pending;
    UIsDecreedStands(s);
    BehindOne(s, 5);
    BehindOne(s, 6);
    var u := Straggles(s, 5);
    UnderLeft(s, u, {5}, {6}, Low, VotedW);
    OwedLeft(s, u, {5}, {6}, Mid, U);
    OwedLeft(s, u, {5}, {6}, Late, U);
    OwedLeft(s, u, {5}, {6}, High, U);
    t := Straggles(u, 6);
    RepliesLeft(u, t, {6}, {5}, Mid, Bare);
    RepliesLeft(u, t, {6}, {5}, Late, Stale);
    JoinedAccepted(t, {5}, {6}, Mid);
    JoinedReported(t, {5}, {6}, Late, Stale);
    assert {5} + {6} == {5, 6};
    UIsDecreedLeft(s, u, {5});
    UIsDecreedLeft(u, t, {6});
    PendingLeft(s, u, {5});
    PendingLeft(u, t, {6});
  }

  // ---- Participant 3 completes.

  lemma VotedWAlways()
    ensures forall k :: AddsNothing(Bidding(3, Low, Late, k, VotedW), Report(Bare, 2))
    ensures forall k :: AddsNothing(Bidding(3, Low, Late, k, VotedW), Report(Stale, 2))
  {
    hide AddsNothing, Report;
    forall k ensures AddsNothing(Bidding(3, Low, Late, k, VotedW), Report(Bare, 2)) { BareAddsNothing(Bidding(3, Low, Late, k, VotedW)); }
    forall k ensures AddsNothing(Bidding(3, Low, Late, k, VotedW), Report(Stale, 2)) { StaleAddsNothing(Bidding(3, Low, Late, k, VotedW)); }
  }

  lemma UIsDecreedStands(s: State)
    requires UIsDecreed(s)
    ensures Reached(s) && s.nodes.Keys == Everyone
  {
    hide Reached;
  }

  lemma Phase6(s: State) returns (t: State)
    requires Stage5(s)
    ensures Stage6(t)
  {
    hide Reached, Left, AllAccepted, AllReported, AddsNothing, Report, UIsDecreed, CompletePrepare;
    UIsDecreedStands(s);
    SubgroupReported(s, {5, 6}, {5}, Late, Stale);
    SubgroupReported(s, {5, 6}, {6}, Late, Stale);
    VotedWAlways();
    LogFacts();
    assert |{7, 8, 9}| == 3;
    t := Wins(s, 3, Low, Late, VotedW, {7, 8, 9}, 5, 6, Stale);
    OpenThird(Bidding(3, Low, Late, 6, VotedW), Late, Everyone, Low, W);
    UIsDecreedLeft(s, t, {3});
    RepliesLeft(s, t, {3}, {5, 6}, Mid, Bare);
  }

  // ---- What has been reached.

  lemma StandsGenuine(s: State, p: NodeId, b: Ballot, v: Value)
    requires Inv(s) && Stands(s, p, b, v)
    ensures Genuine(s.hist, 3, b, v)
  {
    hide Reached, Lawful, NetOK, RecordsOK, NodeOK, PrepOK, Everyone;
    assert ParticipantOK(s, p);
  }

  lemma AcceptedVoted(s: State, group: set<NodeId>, b: Ballot, v: Value)
    requires Inv(s) && AllAccepted(s, group, b) && Genuine(s.hist, 3, b, v)
    ensures AllVoted(s.hist.votes, group, 3, b, v)
  {
    hide Lawful, NodesOK, RecordsOK, PromiseOnce, VoteOnce;
    forall a | a in group ensures Vote(a, 3, b, v) in s.hist.votes {
      assert Accept(a, b, 3) in s.net;
      assert MessageOK(s.hist, s.nodes, Accept(a, b, 3));
    }
  }

  lemma UIsChosen(s: State)
    requires Inv(s) && UIsDecreed(s) && AllAccepted(s, {5, 6}, Mid)
    ensures ChosenAt(s.hist, 3, Mid, U)
  {
    hide Lawful, NodesOK, RecordsOK, NetOK, Reached, AllAccepted, Everyone;
    StandsGenuine(s, 2, Mid, U);
    AcceptedVoted(s, {5, 6}, Mid, U);
    AcceptedVoted(s, {4, 10, 11}, Mid, U);
    var q := {2} + {5, 6} + {4, 10, 11};
    assert q == {2, 4, 5, 6, 10, 11};
    assert |q| == 6 && q <= Everyone by { SixAreEnough(); }
    assert |Everyone| == 11 && Majority(|Everyone|) == 6 by { Sizes(); }
    assert AllVoted(s.hist.votes, q, 3, Mid, U);
  }

  lemma SixAreEnough()
    ensures |{2, 4, 5, 6, 10, 11}| == 6 && {2, 4, 5, 6, 10, 11} <= Everyone
  {
    assert |{2, 4, 5, 6, 10, 11}| == 6;
  }

  /** Decree safety does not hold without its exception: this run ends in a
      state where a majority has voted for `U` in one ballot, and a higher
      ballot has been prepared and `W` decreed in it. */
  lemma UnsafeDecreeIsReached() returns (run: seq<State>)
    ensures IsRun(run, Founder, Founding)
    ensures var h := run[|run| - 1].hist;
      && Below(Mid, Late) && ChosenAt(h, 3, Mid, U)
      && Genuine(h, 3, Late, W) && U != W && !SafeAt(h, 3, Late, W)
  {
    var s0 := Begins();
    var s1 := Phase1(s0);
    var s2 := Phase2(s1);
    var s3 := Phase3(s2);
    var s4 := Phase4(s3);
    var s5 := Phase5(s4);
    var s := Phase6(s5);
    Ends(s);
    run :| IsRun(run, Founder, Founding) && run[|run| - 1] == s;
  }

  lemma Ends(s: State)
    requires Stage6(s)
    ensures Reached(s)
    ensures var h := s.hist;
      && Below(Mid, Late) && ChosenAt(h, 3, Mid, U)
      && Genuine(h, 3, Late, W) && U != W && !SafeAt(h, 3, Late, W)
  {
    hide Inv, Reached, ChosenAt, AllAccepted, Choosable;
    UIsDecreedStands(s);
    ReachedInv(s);
    UIsChosen(s);
    StandsGenuine(s, 3, Late, W);
    ChosenIsChoosable(s.hist, 3, Mid, U);
  }
}
