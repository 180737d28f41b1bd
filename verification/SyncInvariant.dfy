/** What synchronization keeps true: of one acceptor with its two channels, of
    the proposer, and of the sync round. */
module SyncInvariant {
  import opened Types
  import opened Quorums
  import opened Node
  import opened Loops
  import opened Soundness
  import opened SyncModel

  /** What an acceptor's invariant refers to outside it. */
  datatype View = View(ballot: Ballot, floor: nat, last: nat, syncId: nat, decided: map<nat, Value>)

  predicate Decided(w: View, i: nat, v: Value) {
    i <= w.last && i in w.decided && w.decided[i] == v
  }

  /** Everything committed was decided by the proposer's log. */
  ghost predicate LogAgrees(w: View, log: Log) {
    forall i :: CommittedIn(log, i) ==> Decided(w, i, log[i].value)
  }

  predicate UpAt(w: View, ihole: nat, seen: nat, got: nat, u: Up) {
    match u
    case Accept(i) => seen < i <= w.last
    case Retry(_, i) => seen < i <= w.last
    case LastLearn(id, last) => seen <= last < ihole && got < id <= w.syncId
  }

  /** `y` may follow `x` on its way up: last learns grow, and no vote or retry
      follows a last learn that would release its instance. */
  predicate UpAfter(x: Up, y: Up) {
    x.LastLearn? ==>
      match y
      case LastLearn(id, last) => x.id < id && x.last <= last
      case Accept(i) => x.last < i
      case Retry(_, i) => x.last < i
  }

  predicate DownAt(w: View, ibase: nat, seen: nat, got: nat, d: Down) {
    match d
    case Prepare(_) => true
    case Decree(i, v) => ibase < i && seen < i && Decided(w, i, v)
    case Commit(i, v) => ibase < i && Decided(w, i, v)
    case Recommit(_, i, v) => ibase < i && Decided(w, i, v)
    case Sync(id) => got < id <= w.syncId
    case Truncate(base) => ibase <= base <= w.floor
  }

  /** `y` may follow `x` on its way down to a holder of `log`. */
  predicate DownAfter(log: Log, x: Down, y: Down) {
    match y
    case Prepare(_) => true
    case Decree(i, _) =>
      && (x.Truncate? ==> x.base < i)
      && (x.Commit? || x.Recommit? ==> x.inum != i)
      && (x.Sync? ==> !CommittedIn(log, i))
    case Commit(i, _) => x.Truncate? ==> x.base < i
    case Recommit(_, i, _) => x.Truncate? ==> x.base < i
    case Sync(id) => x.Sync? ==> x.id < id
    case Truncate(base) => x.Truncate? ==> x.base <= base
  }

  /** A last learn going up against a message coming down. */
  predicate Across(u: Up, d: Down) {
    u.LastLearn? ==> (d.Sync? ==> u.id < d.id) && (d.Decree? ==> u.last < d.inum)
  }

  ghost predicate UpsOK(w: View, q: Peer) {
    && (forall k :: 0 <= k < |q.up| ==> UpAt(w, q.node.ihole, q.seen, q.got, q.up[k]))
    && (forall j, k :: 0 <= j < k < |q.up| ==> UpAfter(q.up[j], q.up[k]))
  }

  ghost predicate DownsOK(w: View, q: Peer) {
    && (forall k :: 0 <= k < |q.down| ==> DownAt(w, q.ibase, q.seen, q.got, q.down[k]))
    && (forall j, k :: 0 <= j < k < |q.down| ==> DownAfter(q.node.log, q.down[j], q.down[k]))
  }

  ghost predicate ChannelsCross(q: Peer) {
    forall j, k :: 0 <= j < |q.up| && 0 <= k < |q.down| ==> Across(q.up[j], q.down[k])
  }

  ghost predicate MemberOK(w: View, q: Peer) {
    && HoleOK(q.node.log, q.ibase, q.node.ihole)
    && q.ibase <= w.floor <= q.seen < q.node.ihole
    && q.got <= w.syncId
    && !IsProposer(q.node) && q.node.proposer == w.ballot.id
    && LogAgrees(w, q.node.log)
  }

  ghost predicate PeerOK(w: View, q: Peer) {
    MemberOK(w, q) && UpsOK(w, q) && DownsOK(w, q) && ChannelsCross(q)
  }

  /** Neither the list of acceptors nor having stopped matters to log and channels. */
  lemma ListedElsewhere(w: View, q: Peer, r: Peer)
    requires PeerOK(w, q)
    requires r == q.(node := q.node.(alive := r.node.alive), listed := r.listed, failed := r.failed)
    ensures PeerOK(w, r)
  {
    hide HoleOK, LogAgrees, UpAt, UpAfter, DownAt, DownAfter, Across;
  }

  // ---- Channel operations.

  lemma AppendUp(w: View, q: Peer, u: Up)
    requires PeerOK(w, q) && UpAt(w, q.node.ihole, q.seen, q.got, u)
    requires forall k :: 0 <= k < |q.up| ==> UpAfter(q.up[k], u)
    requires forall k :: 0 <= k < |q.down| ==> Across(u, q.down[k])
    ensures PeerOK(w, q.(up := q.up + [u]))
  {
    hide HoleOK, LogAgrees, UpAt, UpAfter, DownAt, DownAfter, Across;
  }

  lemma AppendDown(w: View, q: Peer, d: Down)
    requires PeerOK(w, q) && DownAt(w, q.ibase, q.seen, q.got, d)
    requires forall k :: 0 <= k < |q.down| ==> DownAfter(q.node.log, q.down[k], d)
    requires forall k :: 0 <= k < |q.up| ==> Across(q.up[k], d)
    ensures PeerOK(w, q.(down := q.down + [d]))
  {
    hide HoleOK, LogAgrees, UpAt, UpAfter, DownAt, DownAfter, Across;
  }

  /** Taking a message off the channel up; the proposer notes what a LAST says. */
  function Heard(q: Peer): Peer
    requires q.up != []
  {
    var r := q.(up := q.up[1..]);
    if q.up[0].LastLearn? then r.(seen := q.up[0].last, got := q.up[0].id) else r
  }

  lemma HeardOK(w: View, q: Peer)
    requires PeerOK(w, q) && q.up != []
    ensures PeerOK(w, Heard(q)) && UpAt(w, q.node.ihole, q.seen, q.got, q.up[0]) && q.seen <= Heard(q).seen
  {
    hide HoleOK, LogAgrees, DownAfter;
    var r := Heard(q);
    assert forall k :: 0 <= k < |r.up| ==> r.up[k] == q.up[k + 1] && UpAfter(q.up[0], q.up[k + 1]);
    assert forall k :: 0 <= k < |q.down| ==> Across(q.up[0], q.down[k]);
  }

  /** An acceptor goes on to `m`, having taken the head of its channel from the proposer. */
  ghost predicate Moves(w: View, q: Peer, m: Node, ibase: nat)
    requires q.down != []
  {
    && HoleOK(m.log, ibase, m.ihole) && q.node.ihole <= m.ihole
    && !IsProposer(m) && m.proposer == q.node.proposer
    && LogAgrees(w, m.log)
    && (forall i :: CommittedIn(m.log, i) ==> CommittedIn(q.node.log, i) || Commits(q.down[0], i))
    && if q.down[0].Truncate? then ibase == q.down[0].base else ibase == q.ibase
  }

  predicate Commits(d: Down, i: nat) {
    (d.Commit? || d.Recommit?) && d.inum == i
  }

  lemma DownStays(log: Log, log': Log, head: Down, x: Down, y: Down)
    requires DownAfter(log, x, y) && DownAfter(log, head, y)
    requires forall i :: CommittedIn(log', i) ==> CommittedIn(log, i) || Commits(head, i)
    ensures DownAfter(log', x, y)
  {
  }

  lemma TakenOK(w: View, q: Peer, m: Node, ibase: nat)
    requires PeerOK(w, q) && q.down != [] && Moves(w, q, m, ibase)
    ensures PeerOK(w, q.(down := q.down[1..], node := m, ibase := ibase))
  {
    var r := q.(down := q.down[1..], node := m, ibase := ibase);
    assert DownAt(w, q.ibase, q.seen, q.got, q.down[0]);
    assert MemberOK(w, r);
    hide HoleOK, LogAgrees, Across, UpAfter, Decided;
    assert forall k :: 0 <= k < |r.down| ==> r.down[k] == q.down[k + 1] && DownAfter(q.node.log, q.down[0], q.down[k + 1]);
    forall k | 0 <= k < |r.down| ensures DownAt(w, r.ibase, r.seen, r.got, r.down[k]) {
      assert DownAt(w, q.ibase, q.seen, q.got, q.down[k + 1]);
    }
    hide DownAt;
    forall j, k | 0 <= j < k < |r.down| ensures DownAfter(m.log, r.down[j], r.down[k]) {
      DownStays(q.node.log, m.log, q.down[0], q.down[j + 1], q.down[k + 1]);
    }
  }

  // ---- The view from the proposer.

  predicate ViewGrows(w: View, w': View) {
    && w'.ballot == w.ballot && w.floor <= w'.floor && w.last <= w'.last && w.syncId <= w'.syncId
    && forall i :: i <= w.last && i in w.decided ==> i in w'.decided && w'.decided[i] == w.decided[i]
  }

  lemma ViewKept(w: View, w': View, q: Peer)
    requires PeerOK(w, q) && ViewGrows(w, w') && w'.floor <= q.seen
    ensures PeerOK(w', q)
  {
    hide HoleOK, UpAfter, DownAfter, Across;
  }

  // ---- The whole system.

  function ViewOf(s: State): View
    requires s.p.log != map[]
  {
    View(s.p.ballot, s.floor, Last(s.p.log), s.syncing.id, s.decided)
  }

  ghost predicate ProposerOK(p: Node, ibase: nat, floor: nat, decided: map<nat, Value>) {
    && Established(p) && p.ballot.id == p.id
    && HoleOK(p.log, ibase, p.ihole)
    && (forall i :: ibase <= i <= Last(p.log) ==> i in p.log)
    && (forall i :: i in p.log ==> i in decided && decided[i] == p.log[i].value)
    && ibase <= floor < p.ihole
  }

  function Replied(peers: map<NodeId, Peer>, id: nat): set<NodeId> {
    set a | a in peers && peers[a].got == id
  }

  /** `m` is the least last learn of those heard from, and not below the floor. */
  ghost predicate HeardLeast(peers: map<NodeId, Peer>, heard: set<NodeId>, floor: nat, m: nat) {
    && (forall a :: a in heard && a in peers ==> floor <= m <= peers[a].seen)
    && exists a :: a in heard && a in peers && peers[a].seen == m
  }

  /** The count of a round is the number of distinct members heard from, and
      its minimum is the least last learn among them. */
  ghost predicate RoundOK(y: Syncing, peers: map<NodeId, Peer>, floor: nat) {
    match y.round
    case None => forall a :: a in peers ==> peers[a].got == y.id
    case Some(r) =>
      && r.total == |peers| + 1
      && r.acks == |Replied(peers, y.id)| + 1
      && (r.last == 0 <==> Replied(peers, y.id) == {})
      && (Replied(peers, y.id) != {} ==> HeardLeast(peers, Replied(peers, y.id), floor, r.last))
  }

  ghost predicate PeersOK(w: View, peers: map<NodeId, Peer>) {
    forall a :: a in peers ==> PeerOK(w, peers[a])
  }

  ghost predicate Inv(s: State) {
    && ProposerOK(s.p, s.ibase, s.floor, s.decided)
    && s.p.id !in s.peers
    && RoundOK(s.syncing, s.peers, s.floor)
    && PeersOK(ViewOf(s), s.peers)
  }
}
