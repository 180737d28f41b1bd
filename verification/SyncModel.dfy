/** Log synchronization under one established proposer.  Every other member is
    joined to it by two first-in first-out channels.  Steps run the same
    handlers as the agreement model, and those of the sync protocol; every
    member keeps its own list of acceptors, which what it learns changes. */
module SyncModel {
  import opened Types
  import opened Quorums
  import opened Node
  import opened InstanceList
  import opened Loops
  import opened Listing

  // ---- The sync handlers.

  const SkipThreshold := 30

  /** A sync round: members, replies counted (our own included), rounds skipped
      while waiting, and the least last learn reported; 0 before any reply. */
  datatype Round = Round(total: nat, acks: nat, skips: nat, last: nat)

  datatype Syncing = Syncing(id: nat, prev: nat, round: Option<Round>)

  /** Start a round, unless nothing was learned since the last one or the
      round in progress has not been waited for long enough. */
  function BeginRound(y: Syncing, ihole: nat, total: nat): Syncing {
    if ihole - 1 == y.prev then y
    else if y.round.Some? && y.round.value.skips + 1 < SkipThreshold then
      y.(round := Some(y.round.value.(skips := y.round.value.skips + 1)))
    else Syncing(y.id + 1, y.prev, Some(Round(total, 1, 0, 0)))
  }

  function Least(last: nat, sofar: nat): nat {
    if last < sofar || sofar == 0 then last else sofar
  }

  /** Count a reply of the current round; the last one yields the new base. */
  function TakeLast(y: Syncing, id: nat, last: nat, ihole: nat): (Syncing, Option<nat>)
    requires id == y.id ==> y.round.Some? && ihole > 0
  {
    if id != y.id then (y, None)
    else
      var r := y.round.value.(last := Least(last, y.round.value.last), acks := y.round.value.acks + 1);
      if r.acks == r.total then
        var base := if ihole - 1 < r.last then ihole - 1 else r.last;
        (Syncing(y.id, base, None), Some(base))
      else (y.(round := Some(r)), None)
  }

  // ---- The system.

  datatype Down =
    | Prepare(start: nat)
    | Decree(inum: nat, value: Value)
    | Commit(inum: nat, value: Value)
    | Recommit(ballot: Ballot, inum: nat, value: Value)
    | Sync(id: nat)
    | Truncate(base: nat)

  datatype Up =
    | Accept(inum: nat)
    | LastLearn(id: nat, last: nat)
    | Retry(ballot: Ballot, inum: nat)

  /** An acceptor with its two channels.  `seen` and `got` record the last
      learn and the sync id of the latest LAST the proposer has had from it.
      `listed` says of each acceptor it lists whether it is connected to it;
      `failed`, that it stopped on a failed assertion or a missing acceptor. */
  datatype Peer = Peer(node: Node, ibase: nat, down: seq<Down>, up: seq<Up>, seen: nat, got: nat,
                       listed: map<NodeId, bool>, failed: bool)

  /** `floor` records the highest base anyone has been told to truncate to;
      `decided` the values the proposer's log holds or has held.  `listed` and
      `failed` are the proposer's. */
  datatype State = State(p: Node, ibase: nat, syncing: Syncing, peers: map<NodeId, Peer>,
                         floor: nat, decided: map<nat, Value>, listed: map<NodeId, bool>, failed: bool)

  datatype Step =
    | Take(peer: NodeId, have: bool)
    | PeerResend(peer: NodeId, inum: nat)
    | Hear(peer: NodeId, have: bool)
    | ProposerResend(inum: nat)
    | Propose(value: Value, have: bool)
    | BeginSync
    | Relink(peer: NodeId, other: NodeId, connected: bool)
    | Crash(peer: NodeId)

  // ---- Learning.

  /** The values learned in going from `n` to `m`. */
  function Learned(n: Node, m: Node): seq<Value> {
    if |n.learns| <= |m.learns| then m.learns[|n.learns|..] else []
  }

  function FateOn(listed: map<NodeId, bool>, n: Node, m: Node): Fate {
    FateAfter(listed, n.id, n.proposer, Learned(n, m), n.ihole)
  }

  /** The acceptor `q`, which its handlers have made `r`, acts on what it has learned in this. */
  function Heeds(q: Peer, r: Peer): Peer {
    var fate := FateOn(q.listed, q.node, r.node);
    r.(listed := ListAfter(q.listed, Learned(q.node, r.node), q.node.ihole),
       node := r.node.(alive := r.node.alive && fate == Stays),
       failed := r.failed || fate == Fails || (q.node.alive && !r.node.alive))
  }

  // ---- An acceptor's steps.

  /** A commit that cannot be learned because the hole is missing or uncommitted. */
  predicate Asks(n: Node, i: nat, m: Node) {
    !Ready(n.log, i) && Ready(m.log, i) && n.ihole < i && !CommittedIn(m.log, n.ihole)
  }

  function Committed(q: Peer, i: nat, m: Node): Peer {
    q.(node := m, up := if Asks(q.node, i, m) then q.up + [Retry(m.ballot, m.ihole)] else q.up)
  }

  /** What the handler of the message at the head of the channel from the
      proposer, whose ballot is `b`, does with log and channels. */
  function Handled(q: Peer, b: Ballot, have: bool): Peer
    requires q.down != [] && q.node.ihole > 0
  {
    var n, r := q.node, q.(down := q.down[1..]);
    match q.down[0]
    case Prepare(start) => r.(node := AckPrepare(n, b, start).node)
    case Decree(i, v) =>
      var o := AckDecree(n, b, i, v);
      r.(node := o.node, up := if o.sent == {} then q.up else q.up + [Up.Accept(i)])
    case Commit(i, v) => Committed(r, i, AckCommit(n, b, i, v, have).node)
    case Recommit(c, i, v) => Committed(r, i, AckRecommit(n, c, i, v, have).node)
    case Sync(id) => if n.ballot == b then r.(up := q.up + [LastLearn(id, n.ihole - 1)]) else r
    case Truncate(base) => r.(ibase := base, node := n.(log := From(n.log, base)))
  }

  /** The head of the channel decrees, in our ballot, the part of someone. */
  predicate Judges(q: Peer, b: Ballot)
    requires q.down != []
  {
    && q.down[0].Decree? && q.down[0].value.kind == DecPart
    && !IsProposer(q.node) && q.node.ballot == b && q.node.proposer == b.id
  }

  /** Handle that message.  The part of one whom we cannot find is fatal; that
      of one whom we are connected to is rejected, without a vote. */
  function TakeDown(q: Peer, b: Ballot, have: bool): Peer
    requires q.down != [] && q.node.ihole > 0
  {
    if Judges(q, b) && q.down[0].value.extra !in q.listed then
      q.(down := q.down[1..], node := q.node.(alive := false), failed := true)
    else if Judges(q, b) && q.listed[q.down[0].value.extra] then q.(down := q.down[1..])
    else Heeds(q, Handled(q, b, have))
  }

  // ---- The proposer's steps.

  function SendAll(peers: map<NodeId, Peer>, m: Down): map<NodeId, Peer> {
    map a | a in peers :: peers[a].(down := peers[a].down + [m])
  }

  function Members(s: State): set<NodeId> {
    s.peers.Keys + {s.p.id}
  }

  function HearAccept(s: State, i: nat, have: bool): State {
    var m := AckAccept(s.p, s.p.ballot, i, have, Members(s)).node;
    if i in s.p.log && i in m.log && !s.p.log[i].committed && m.log[i].committed then
      s.(p := m, peers := SendAll(s.peers, Down.Commit(i, m.log[i].value)))
    else s.(p := m)
  }

  function HearRetry(s: State, b: Ballot, i: nat): State {
    if i !in s.p.log then s.(p := s.p.(alive := false))
    else if s.p.log[i].committed then s.(peers := SendAll(s.peers, Recommit(b, i, s.p.log[i].value)))
    else s
  }

  /** Count a LAST.  One for the current id outside a round, or a base below
      the present one, is fatal. */
  function HearLast(s: State, id: nat, last: nat): State
    requires s.p.ihole > 0
  {
    if id == s.syncing.id && s.syncing.round.None? then s.(p := s.p.(alive := false))
    else
      var (y, base) := TakeLast(s.syncing, id, last, s.p.ihole);
      if base.None? then s.(syncing := y)
      else if base.value < s.ibase then s.(p := s.p.(alive := false))
      else
        s.(syncing := y, ibase := base.value, floor := base.value,
           p := s.p.(log := From(s.p.log, base.value)),
           peers := SendAll(s.peers, Truncate(base.value)))
  }

  /** Handle the message at the head of the channel from peer `a`. */
  function HearUp(s: State, a: NodeId, have: bool): State
    requires a in s.peers && s.peers[a].up != [] && s.p.ihole > 0
  {
    var q := s.peers[a];
    var r := q.(up := q.up[1..]);
    match q.up[0]
    case Accept(i) => HearAccept(s.(peers := s.peers[a := r]), i, have)
    case Retry(b, i) => HearRetry(s.(peers := s.peers[a := r]), b, i)
    case LastLearn(id, last) => HearLast(s.(peers := s.peers[a := r.(seen := last, got := id)]), id, last)
  }

  function ProposeNext(s: State, v: Value, have: bool): State {
    var i := NextInstance(s.p.log);
    s.(p := NewDecree(s.p, v, have, Members(s)).node,
       peers := SendAll(s.peers, Down.Decree(i, v)),
       decided := s.decided[i := v])
  }

  function BeginSyncing(s: State): State {
    var y := BeginRound(s.syncing, s.p.ihole, |Members(s)|);
    s.(syncing := y, peers := if y.id == s.syncing.id then s.peers else SendAll(s.peers, Sync(y.id)))
  }

  /** The proposer of `s`, whose handlers have led to `t`, acts on what it has learned in this. */
  function ProposerHeeds(s: State, t: State): State {
    var fate := FateOn(s.listed, s.p, t.p);
    t.(listed := ListAfter(s.listed, Learned(s.p, t.p), s.p.ihole),
       p := t.p.(alive := t.p.alive && fate == Stays),
       failed := t.failed || fate == Fails || (s.p.alive && !t.p.alive))
  }

  predicate Enabled(s: State, step: Step) {
    match step
    case Take(a, _) => a in s.peers && s.peers[a].node.alive && s.peers[a].down != [] && s.peers[a].node.ihole > 0
    case PeerResend(a, i) => a in s.peers && s.peers[a].node.alive && CommittedIn(s.peers[a].node.log, i)
    case Hear(a, _) => s.p.alive && a in s.peers && s.peers[a].up != [] && s.p.ihole > 0
    case ProposerResend(i) => s.p.alive && CommittedIn(s.p.log, i)
    case Propose(_, _) => s.p.alive
    case BeginSync => s.p.alive
    case Relink(a, c, _) => a in s.peers && c in s.peers[a].listed
    case Crash(a) => a in s.peers
  }

  /** What the handlers of a step do with logs and channels. */
  function Handle(s: State, step: Step): State
    requires Enabled(s, step) && !step.Relink? && !step.Crash?
  {
    match step
    case Take(a, have) => s.(peers := s.peers[a := Handled(s.peers[a], s.p.ballot, have)])
    case PeerResend(a, i) =>
      s.(peers := s.peers[a := Committed(s.peers[a], i, AckResend(s.peers[a].node, i).node)])
    case Hear(a, have) => HearUp(s, a, have)
    case ProposerResend(i) => s.(p := AckResend(s.p, i).node)
    case Propose(v, have) => ProposeNext(s, v, have)
    case BeginSync => BeginSyncing(s)
  }

  function Apply(s: State, step: Step): State
    requires Enabled(s, step)
  {
    match step
    case Take(a, have) => s.(peers := s.peers[a := TakeDown(s.peers[a], s.p.ballot, have)])
    case PeerResend(a, i) => s.(peers := s.peers[a := Heeds(s.peers[a], Handle(s, step).peers[a])])
    case Relink(a, c, connected) =>
      s.(peers := s.peers[a := s.peers[a].(listed := s.peers[a].listed[c := connected])])
    case Crash(a) => s.(peers := s.peers[a := s.peers[a].(node := s.peers[a].node.(alive := false))])
    case _ => ProposerHeeds(s, Handle(s, step))
  }
}
