/** Who is live and who leads: one participant's acceptor list, its count of
    live acceptors, the proposer it believes in, and its prepare, under every
    event that changes them. */
module Membership {
  import opened Types
  import opened Quorums
  import opened Seqs

  /** An acceptor and our connection to it, if we have one; we hold none to ourselves. */
  datatype Acceptor = Acceptor(id: NodeId, peer: Option<nat>)

  /** A prepare in progress, with its replies counted. */
  datatype Bid = Bid(ballot: Ballot, acks: nat, redirects: nat)

  /** `adefer` holds hellos that came before their joins; `queue` the decrees
      put off until the prepare completes, and `decreed` those made. */
  datatype Group = Group(
    self: NodeId,
    alive: bool,
    failed: bool,
    alist: seq<Acceptor>,
    adefer: seq<Acceptor>,
    live: int,
    proposer: NodeId,
    ballot: Ballot,
    genHigh: nat,
    reqId: nat,
    prep: Option<Bid>,
    queue: seq<Value>,
    decreed: seq<Value>)

  predicate Leads(g: Group) {
    g.proposer == g.self
  }

  /** A proposer whose prepare has completed. */
  predicate Established(g: Group) {
    Leads(g) && g.prep.None?
  }

  // ---- The acceptor list.

  predicate Ranked(l: seq<Acceptor>) {
    forall j, k :: 0 <= j < k < |l| ==> l[j].id < l[k].id
  }

  /** The position of an acceptor. */
  function IndexOf(l: seq<Acceptor>, id: NodeId): (k: Option<nat>)
    ensures k.Some? ==> k.value < |l| && l[k.value].id == id
    ensures k.None? ==> forall j :: 0 <= j < |l| ==> l[j].id != id
  {
    if l == [] then None
    else if l[|l| - 1].id == id then Some(|l| - 1)
    else IndexOf(l[..|l| - 1], id)
  }

  /** The first acceptor joined to us by connection `source`. */
  function JoinedBy(l: seq<Acceptor>, source: nat, from: nat): (k: Option<nat>)
    requires from <= |l|
    ensures k.Some? ==> from <= k.value < |l| && l[k.value].peer == Some(source)
    ensures forall j :: from <= j < (if k.Some? then k.value else |l|) ==> l[j].peer != Some(source)
    decreases |l| - from
  {
    if from == |l| then None else if l[from].peer == Some(source) then Some(from) else JoinedBy(l, source, from + 1)
  }

  predicate Reachable(x: Acceptor, self: NodeId) {
    x.id == self || x.peer.Some?
  }

  /** `k` is the first position whose acceptor is reachable. */
  predicate FirstReachable(l: seq<Acceptor>, self: NodeId, k: nat) {
    k < |l| && Reachable(l[k], self) && forall j :: 0 <= j < k ==> !Reachable(l[j], self)
  }

  /** Of the acceptors reachable, `id` is listed and has the least id. */
  predicate IsLeader(l: seq<Acceptor>, self: NodeId, id: NodeId) {
    && (exists k :: 0 <= k < |l| && l[k].id == id && Reachable(l[k], self))
    && forall k :: 0 <= k < |l| && Reachable(l[k], self) ==> id <= l[k].id
  }

  lemma FirstIsLeader(l: seq<Acceptor>, self: NodeId, k: nat)
    requires Ranked(l) && FirstReachable(l, self, k)
    ensures IsLeader(l, self, l[k].id)
  {
  }

  /** Whether an acceptor adds to the count of others we are connected to. */
  function Share(x: Acceptor, self: NodeId): nat {
    if x.id != self && x.peer.Some? then 1 else 0
  }

  /** How many others we are connected to. */
  function Connected(l: seq<Acceptor>, self: NodeId): nat {
    if l == [] then 0 else Connected(l[..|l| - 1], self) + Share(l[|l| - 1], self)
  }

  lemma {:induction false} ConnectedSplit(l: seq<Acceptor>, r: seq<Acceptor>, self: NodeId)
    ensures Connected(l + r, self) == Connected(l, self) + Connected(r, self)
    decreases |r|
  {
    if r == [] {
      assert l + r == l;
    } else {
      assert (l + r)[..|l + r| - 1] == l + r[..|r| - 1];
      ConnectedSplit(l, r[..|r| - 1], self);
    }
  }

  function SetPeer(l: seq<Acceptor>, k: nat, peer: Option<nat>): seq<Acceptor>
    requires k < |l|
  {
    l[k := l[k].(peer := peer)]
  }

  function One(peer: Option<nat>): nat {
    if peer.Some? then 1 else 0
  }

  lemma ConnectedOne(x: Acceptor, self: NodeId)
    ensures Connected([x], self) == Share(x, self)
  {
    assert [x][..0] == [];
  }

  lemma ConnectedParts(a: seq<Acceptor>, x: Acceptor, z: seq<Acceptor>, self: NodeId)
    ensures Connected(a + [x] + z, self) == Connected(a, self) + Share(x, self) + Connected(z, self)
  {
    ConnectedSplit(a, [x], self);
    ConnectedSplit(a + [x], z, self);
    ConnectedOne(x, self);
  }

  lemma ConnectedAt(l: seq<Acceptor>, k: nat, peer: Option<nat>, self: NodeId)
    requires k < |l|
    ensures Connected(SetPeer(l, k, peer), self) == Connected(l, self) - Share(l[k], self) + Share(l[k].(peer := peer), self)
    ensures Connected(Removed(l, k), self) == Connected(l, self) - Share(l[k], self)
  {
    hide Connected, Share;
    var a, x, z := l[..k], l[k], l[k + 1..];
    assert l == a + [x] + z;
    assert SetPeer(l, k, peer) == a + [x.(peer := peer)] + z;
    ConnectedParts(a, x, z, self);
    ConnectedParts(a, x.(peer := peer), z, self);
    ConnectedSplit(a, z, self);
  }

  // ---- What the handlers do.

  /** The session ends. */
  function Ended(g: Group): Group {
    g.(alive := false)
  }

  /** An assertion fails, or an acceptor that is not listed is dereferenced. */
  function Failed(g: Group): Group {
    g.(alive := false, failed := true)
  }

  /** The parts, and for the higher-ranked kills, of everyone unreachable. */
  function Parts(l: seq<Acceptor>, self: NodeId, reqId: nat): seq<Value> {
    if l == [] then []
    else
      var front := Parts(l[..|l| - 1], self, reqId);
      var x := l[|l| - 1];
      if Reachable(x, self) then front
      else front + [Value(if x.id < self then DecKill else DecPart, ReqId(self, reqId + |front| + 1), x.id)]
  }

  /** Start a prepare, or leave if too few acceptors are live; `anew` queues
      parts for those we cannot reach. */
  function Prepare(g: Group, anew: bool): Group {
    if g.prep.Some? then Failed(g)
    else if g.live < Majority(|g.alist|) then Ended(g)
    else
      var parts := if anew then Parts(g.alist, g.self, g.reqId) else [];
      g.(genHigh := g.genHigh + 1,
         prep := Some(Bid(Ballot(g.self, g.genHigh + 1), 1, 0)),
         queue := g.queue + parts,
         reqId := g.reqId + |parts|)
  }

  /** Decree a part or kill, or queue it while preparing. */
  function DecreePart(g: Group, id: NodeId, force: bool): Group {
    var v := Value(if force then DecKill else DecPart, ReqId(g.self, g.reqId + 1), id);
    if g.prep.Some? then g.(reqId := g.reqId + 1, queue := g.queue + [v])
    else g.(reqId := g.reqId + 1, decreed := g.decreed + [v])
  }

  function LeaderOf(l: seq<Acceptor>, self: NodeId, from: nat): (k: Option<nat>)
    requires from <= |l|
    ensures k.Some? ==> from <= k.value < |l| && Reachable(l[k.value], self)
    ensures forall j :: from <= j < (if k.Some? then k.value else |l|) ==> !Reachable(l[j], self)
    decreases |l| - from
  {
    if from == |l| then None else if Reachable(l[from], self) then Some(from) else LeaderOf(l, self, from + 1)
  }

  /** Take the first reachable acceptor for the proposer. */
  function Reset(g: Group): Group {
    var k := LeaderOf(g.alist, g.self, 0);
    if k.Some? then g.(proposer := g.alist[k.value].id) else g
  }

  /** Having lost the proposer: take the next in line, and prepare if that is us. */
  function Succeed(g: Group): Group {
    var r := Reset(g);
    if Leads(r) then Prepare(r, true) else r
  }

  /** A connection is lost. */
  function Drop(g: Group, source: nat): Group {
    var k := JoinedBy(g.alist, source, 0);
    if k.None? then g
    else
      var id := g.alist[k.value].id;
      var r := g.(alist := SetPeer(g.alist, k.value, None), live := g.live - 1);
      if Leads(r) then DecreePart(r, id, false)
      else if id == r.proposer then Succeed(r)
      else r
  }

  /** Attach a connection to the acceptor at `k`, deferring to it if it outranks the proposer. */
  function Attach(g: Group, k: nat, peer: nat): Group
    requires k < |g.alist|
  {
    var r := g.(alist := SetPeer(g.alist, k, Some(peer)), live := g.live + 1);
    if g.alist[k].id < g.proposer then r.(proposer := g.alist[k].id, prep := None) else r
  }

  function InsertAcceptor(l: seq<Acceptor>, x: Acceptor): seq<Acceptor> {
    if l == [] || l[|l| - 1].id < x.id then l + [x]
    else if l[|l| - 1].id == x.id then l
    else InsertAcceptor(l[..|l| - 1], x) + [l[|l| - 1]]
  }

  /** Acceptor `id`, whose ballot is `b`, says hello over connection `source`. */
  function Hello(g: Group, source: nat, id: NodeId, b: Ballot): Group {
    var k := IndexOf(g.alist, id);
    if Established(g) && id < g.self then g
    else if k.None? then g.(adefer := InsertAcceptor(g.adefer, Acceptor(id, Some(source))))
    else
      var r := if g.alist[k.value].peer.None? then Attach(g, k.value, source)
               else if id < g.self then g.(alist := SetPeer(g.alist, k.value, Some(source)))
               else g;
      if id == r.proposer then r.(ballot := b) else r
  }

  /** Learn the join of `id`.  A proposer connects to the newcomer, with the
      given result, and decrees its part if that fails. */
  function LearnJoin(g: Group, id: NodeId, connection: Option<nat>): Group {
    var k := IndexOf(g.adefer, id);
    var x := if k.Some? then g.adefer[k.value] else Acceptor(id, None);
    var r := g.(
      adefer := if k.Some? then Removed(g.adefer, k.value) else g.adefer,
      live := if k.Some? then g.live + 1 else g.live);
    if !Leads(g) then r.(alist := g.alist + [x])
    else
      var w := r.(alist := g.alist + [x.(peer := connection)]);
      if connection.Some? then w.(live := w.live + 1) else DecreePart(w, id, false)
  }

  /** Learn the part or kill of `id`; our own ends the session. */
  function LearnPart(g: Group, id: NodeId): Group {
    var k := IndexOf(g.alist, id);
    if k.None? then g
    else if id == g.self then Ended(g)
    else
      var r := g.(alist := Removed(g.alist, k.value), live := g.live - One(g.alist[k.value].peer));
      if id == r.proposer then Succeed(r) else r
  }

  function DeathAdjusted(g: Group, n: nat): int {
    n + (|g.alist| - g.live)
  }

  /** Give up the prepare for a reconnected superior, or else prepare again. */
  function Reconnect(g: Group, k: nat, connection: Option<nat>): Group
    requires k < |g.alist|
  {
    if connection.Some? then Attach(g.(prep := None), k, connection.value).(queue := [])
    else Prepare(g.(prep := None), false)
  }

  /** An acceptor redirects our prepare of `b` to `superior`. */
  function Redirect(g: Group, superior: NodeId, b: Ballot, connection: Option<nat>): Group {
    if !Leads(g) then g
    else if superior >= g.self then Failed(g)
    else if g.prep.None? || g.prep.value.ballot != b then g
    else
      var r := g.(prep := Some(g.prep.value.(redirects := g.prep.value.redirects + 1)));
      if DeathAdjusted(r, r.prep.value.redirects) >= Majority(|r.alist|) then
        var k := IndexOf(r.alist, superior);
        if k.None? || r.alist[k.value].peer.Some? then Failed(r) else Reconnect(r, k.value, connection)
      else if r.prep.value.acks < Majority(|r.alist|) && r.prep.value.acks + r.prep.value.redirects == r.live then
        Prepare(r.(prep := None), false)
      else r
  }

  /** The acceptor we asked as proposer names `superior` instead. */
  function Refuse(g: Group, superior: NodeId, connection: Option<nat>): Group {
    if Leads(g) || g.proposer <= superior then g
    else
      var k := IndexOf(g.alist, superior);
      if k.None? || g.alist[k.value].peer.Some? then Failed(g)
      else if connection.None? then g
      else Attach(g, k.value, connection.value).(queue := [])
  }

  /** A majority kept us from parting `id`: reconnect to it. */
  function Rejoin(g: Group, id: NodeId, connection: Option<nat>): Group {
    var k := IndexOf(g.alist, id);
    if !Leads(g) then g
    else if k.None? || g.alist[k.value].peer.Some? then Failed(g)
    else if connection.None? then g
    else g.(alist := SetPeer(g.alist, k.value, connection), live := g.live + 1)
  }

  /** Promise a higher ballot of the participant we take for the proposer. */
  function Promise(g: Group, b: Ballot): Group {
    if Leads(g) || !Below(g.ballot, b) || g.proposer != b.id then g else g.(ballot := b, genHigh := b.gen)
  }

  /** Count a promise; a majority completes the prepare, which takes `nulls`
      request numbers for the gaps it fills, and releases the queue. */
  function CountPromise(g: Group, b: Ballot, nulls: nat): Group {
    if !Leads(g) || g.prep.None? || g.prep.value.ballot != b then g
    else
      var acks := g.prep.value.acks + 1;
      if acks < Majority(|g.alist|) then g.(prep := Some(g.prep.value.(acks := acks)))
      else g.(ballot := b, prep := None, reqId := g.reqId + nulls, decreed := g.decreed + g.queue, queue := [])
  }

  /** One of our first connections after being welcomed. */
  function WelcomeConnect(g: Group, id: NodeId, connection: Option<nat>): Group {
    var k := IndexOf(g.alist, id);
    if k.None? || connection.None? then g
    else g.(alist := SetPeer(g.alist, k.value, connection), live := g.live + 1)
  }
}
