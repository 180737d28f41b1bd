/** The protocol as a transition system: a fixed list of participants, a
    network that may lose and reorder but not duplicate messages, and steps
    that each run one handler to completion.  Histories of votes, decrees and
    completed prepares are recorded beside the real state. */
module Protocol {
  import opened Types
  import opened Quorums
  import opened Voting
  import opened Node

  /** `acked` holds the other participants whose promises the prepare in
      progress has counted; `counted` the voters counted for each decree. */
  datatype State = State(
    nodes: map<NodeId, Node>,
    net: multiset<Message>,
    hist: History,
    acked: map<NodeId, set<NodeId>>,
    counted: map<(Ballot, nat), set<NodeId>>)

  datatype Step =
    | Elect(node: NodeId, to: NodeId)
    | BeginPrepare(node: NodeId)
    | Request(node: NodeId, value: Value, have: bool)
    | Receive(msg: Message, have: bool)
    | Lose(msg: Message)
    | Crash(node: NodeId)

  function Receiver(m: Message): NodeId {
    match m
    case Prepare(dst, _, _) => dst
    case Promise(_, b, _, _) => b.id
    case Decree(dst, _, _, _) => dst
    case Accept(_, b, _) => b.id
    case Commit(dst, _, _, _) => dst
    case Resend(dst, _) => dst
  }

  ghost predicate Enabled(s: State, step: Step) {
    match step
    // A change of connections makes a participant defer to one who outranks it,
    // or take itself for the proposer and prepare; one whose prepare has
    // completed stays the proposer.
    case Elect(a, to) => a in s.nodes && s.nodes[a].alive && !Established(s.nodes[a]) && to < a
    case BeginPrepare(a) => a in s.nodes && s.nodes[a].alive && !Established(s.nodes[a]) && s.nodes[a].ihole > 0
    case Request(a, _, _) => a in s.nodes && s.nodes[a].alive && Established(s.nodes[a])
    case Receive(m, _) =>
      && m in s.net && Receiver(m) in s.nodes && s.nodes[Receiver(m)].alive && s.nodes[Receiver(m)].log != map[]
      && Receiver(m) in s.acked
    case Lose(m) => m in s.net
    case Crash(a) => a in s.nodes
  }

  /** Install a handler's outcome, having taken the messages `taken` off the network. */
  function Install(s: State, a: NodeId, o: Outcome, taken: multiset<Message>): State {
    s.(nodes := s.nodes[a := o.node],
       net := s.net - taken + multiset(o.sent),
       hist := s.hist.(promised := s.hist.promised[a := o.node.ballot]))
  }

  function Cast(h: History, votes: set<Vote>, strong: set<Vote>): History {
    h.(votes := h.votes + votes, strong := h.strong + strong)
  }

  /** Our own votes for the instances in `log` that `n` decrees on completing. */
  function OwnVotes(n: Node, b: Ballot): set<Vote>
    requires n.log != map[]
  {
    var log := RedecreeLog(n, b);
    set i | i in log && Redecreed(n, i) :: Vote(n.id, i, b, log[i].value)
  }

  function OwnDecrees(n: Node, b: Ballot): map<(Ballot, nat), Value>
    requires n.log != map[]
  {
    var log := RedecreeLog(n, b);
    map k | k in (set i | i in log && Redecreed(n, i) :: (b, i)) :: log[k.1].value
  }

  /** The history once `n` has taken ballot `b`, prepared by `q`. */
  function CompletedHistory(h: History, n: Node, b: Ballot, q: set<NodeId>): History
    requires n.log != map[]
  {
    var votes := OwnVotes(n, b);
    Cast(h.(promised := h.promised[n.id := b]), votes, votes).(
      prepared := h.prepared[b := q],
      decreed := h.decreed + OwnDecrees(n, b))
  }

  function ApplyRequest(s: State, a: NodeId, v: Value, have: bool): State
    requires a in s.nodes
  {
    var n := s.nodes[a];
    var i := NextInstance(n.log);
    var vote := Vote(a, i, n.ballot, v);
    var t := Install(s, a, NewDecree(n, v, have, s.nodes.Keys), multiset{});
    t.(hist := Cast(t.hist, {vote}, {vote}).(decreed := s.hist.decreed[(n.ballot, i) := v]),
       counted := s.counted[(n.ballot, i) := {a}])
  }

  function ApplyPromise(s: State, m: Message): State
    requires m.Promise? && m.ballot.id in s.nodes && m.ballot.id in s.acked && s.nodes[m.ballot.id].log != map[]
  {
    var a := m.ballot.id;
    var n := s.nodes[a];
    var o := AckPromise(n, m.ballot, m.report, s.nodes.Keys);
    var t := Install(s, a, o, multiset{m});
    if !IsProposer(n) || n.prep.None? || n.prep.value.ballot != m.ballot || !o.node.alive then t
    else
      var acked := s.acked[a] + {m.src};
      var merged := n.(log := Merge(n.log, m.report));
      if o.node.prep.Some? then t.(acked := s.acked[a := acked])
      else
        assert Last(n.log) in merged.log;
        t.(acked := s.acked[a := acked],
           hist := CompletedHistory(s.hist, merged, m.ballot, acked + {a}),
           counted := s.counted + map k | k in OwnDecrees(merged, m.ballot) :: {a})
  }

  function ApplyDecree(s: State, m: Message): State
    requires m.Decree? && m.dst in s.nodes
  {
    var n := s.nodes[m.dst];
    var o := AckDecree(n, m.ballot, m.inum, m.value);
    var t := Install(s, m.dst, o, multiset{m});
    if o.sent == {} then t
    else
      var vote := {Vote(m.dst, m.inum, m.ballot, m.value)};
      t.(hist := Cast(t.hist, vote, if m.inum in n.log && n.log[m.inum].committed then {} else vote))
  }

  function ApplyAccept(s: State, m: Message, have: bool): State
    requires m.Accept? && m.ballot.id in s.nodes
  {
    var a := m.ballot.id;
    var k := (m.ballot, m.inum);
    var t := Install(s, a, AckAccept(s.nodes[a], m.ballot, m.inum, have, s.nodes.Keys), multiset{m});
    if k in s.counted then t.(counted := s.counted[k := s.counted[k] + {m.src}]) else t
  }

  function ApplyReceive(s: State, m: Message, have: bool): State
    requires Enabled(s, Receive(m, have))
  {
    var n := s.nodes[Receiver(m)];
    match m
    case Prepare(a, b, start) => Install(s, a, AckPrepare(n, b, start), multiset{m})
    case Promise(_, _, _, _) => ApplyPromise(s, m)
    case Decree(_, _, _, _) => ApplyDecree(s, m)
    case Accept(_, _, _) => ApplyAccept(s, m, have)
    case Commit(a, b, i, v) => Install(s, a, AckCommit(n, b, i, v, have), multiset{m})
    case Resend(a, i) => Install(s, a, AckResend(n, i), multiset{m})
  }

  /** What handling a message does, whichever it is. */
  function Handle(n: Node, m: Message, have: bool, members: set<NodeId>): Outcome
    requires n.log != map[]
  {
    match m
    case Prepare(_, b, start) => AckPrepare(n, b, start)
    case Promise(_, b, _, report) => AckPromise(n, b, report, members)
    case Decree(_, b, i, v) => AckDecree(n, b, i, v)
    case Accept(_, b, i) => AckAccept(n, b, i, have, members)
    case Commit(_, b, i, v) => AckCommit(n, b, i, v, have)
    case Resend(_, i) => AckResend(n, i)
  }

  /** `t` is `s` once participant `a` has handled `m` with outcome `o`, histories apart. */
  ghost predicate Installs(s: State, a: NodeId, m: Message, o: Outcome, t: State) {
    && t.nodes == s.nodes[a := o.node]
    && t.net == s.net - multiset{m} + multiset(o.sent)
    && s.hist.votes <= t.hist.votes
    && (!m.Promise? ==> t.acked == s.acked)
  }

  lemma ReceiveHandles(s: State, m: Message, have: bool)
    requires Enabled(s, Receive(m, have))
    ensures Installs(s, Receiver(m), m, Handle(s.nodes[Receiver(m)], m, have, s.nodes.Keys), ApplyReceive(s, m, have))
  {
    hide Installs, Install, AckPrepare, AckPromise, AckDecree, AckAccept, AckCommit, AckResend, ApplyPromise, ApplyDecree, ApplyAccept, Last;
    var o := Handle(s.nodes[Receiver(m)], m, have, s.nodes.Keys);
    InstallInstalls(s, Receiver(m), m, o);
    match m
    case Prepare(_, _, _) =>
    case Promise(_, _, _, _) => PromiseHandled(s, m);
    case Decree(_, _, _, _) => DecreeHandled(s, m);
    case Accept(_, _, _) => AcceptHandled(s, m, have);
    case Commit(_, _, _, _) =>
    case Resend(_, _) =>
  }

  lemma InstallInstalls(s: State, a: NodeId, m: Message, o: Outcome)
    ensures Installs(s, a, m, o, Install(s, a, o, multiset{m}))
  {
  }

  lemma DecreeHandled(s: State, m: Message)
    requires m.Decree? && m.dst in s.nodes
    ensures Installs(s, m.dst, m, AckDecree(s.nodes[m.dst], m.ballot, m.inum, m.value), ApplyDecree(s, m))
  {
    hide AckDecree;
  }

  lemma AcceptHandled(s: State, m: Message, have: bool)
    requires m.Accept? && m.ballot.id in s.nodes
    ensures Installs(s, m.ballot.id, m, AckAccept(s.nodes[m.ballot.id], m.ballot, m.inum, have, s.nodes.Keys), ApplyAccept(s, m, have))
  {
    hide AckAccept;
  }

  lemma PromiseHandled(s: State, m: Message)
    requires m.Promise? && m.ballot.id in s.nodes && m.ballot.id in s.acked && s.nodes[m.ballot.id].log != map[]
    ensures Installs(s, m.ballot.id, m, AckPromise(s.nodes[m.ballot.id], m.ballot, m.report, s.nodes.Keys), ApplyPromise(s, m))
  {
    hide AckPromise, OwnDecrees, OwnVotes, Last, Merge;
  }

  ghost function Apply(s: State, step: Step): State
    requires Enabled(s, step)
  {
    match step
    case Elect(a, to) => s.(nodes := s.nodes[a := Defer(s.nodes[a], to)])
    case BeginPrepare(a) =>
      Install(s, a, StartPrepare(s.nodes[a], s.nodes.Keys), multiset{}).(acked := s.acked[a := {}])
    case Request(a, v, have) => ApplyRequest(s, a, v, have)
    case Receive(m, have) => ApplyReceive(s, m, have)
    case Lose(m) => s.(net := s.net - multiset{m})
    case Crash(a) => s.(nodes := s.nodes[a := s.nodes[a].(alive := false)])
  }

  ghost predicate Next(s: State, s': State) {
    exists step :: Enabled(s, step) && s' == Apply(s, step)
  }

  /** Everyone starts from the first participant's welcome: its ballot, and a
      log holding its own join as a learned instance 1. */
  function StartNode(a: NodeId, first: NodeId, join: Value): Node {
    var b := Ballot(first, 1);
    Node(a, true, b, 1, first, None, map[1 := Entry(b, join, true, true, true, 1)], 2, 0, [])
  }

  ghost predicate Init(s: State, first: NodeId, join: Value) {
    var b := Ballot(first, 1);
    && first in s.nodes
    && s.nodes == (map a | a in s.nodes :: StartNode(a, first, join))
    && s.net == multiset{}
    && s.hist.promised == (map a | a in s.nodes :: b)
    && s.hist.votes == (set a | a in s.nodes :: Vote(a, 1, b, join))
    && s.hist.strong == s.hist.votes
    && s.hist.decreed == map[(b, 1) := join]
    && s.hist.prepared == map[b := s.nodes.Keys]
    && s.acked == (map a | a in s.nodes :: {})
    && s.counted == map[(b, 1) := s.nodes.Keys]
  }

  /** A run is a finite sequence of states from an initial one. */
  ghost predicate IsRun(run: seq<State>, first: NodeId, join: Value) {
    && |run| > 0
    && Init(run[0], first, join)
    && forall k :: 0 <= k < |run| - 1 ==> Next(run[k], run[k + 1])
  }
}
