/** Live counting, ranking and stable proposership, over every event and every run. */
module Leadership {
  import opened Types
  import opened Quorums
  import opened Seqs
  import opened Membership

  datatype Event =
    | Dropped(source: nat)
    | Greeted(source: nat, id: NodeId, ballot: Ballot)
    | Joined(id: NodeId, connection: Option<nat>)
    | Parted(id: NodeId)
    | Redirected(superior: NodeId, ballot: Ballot, connection: Option<nat>)
    | Refused(superior: NodeId, connection: Option<nat>)
    | Rejoined(id: NodeId, connection: Option<nat>)
    | Promised(ballot: Ballot)
    | PromiseCounted(ballot: Ballot, nulls: nat)
    | Connecting(id: NodeId, connection: Option<nat>)

  predicate Disconnected(l: seq<Acceptor>, id: NodeId) {
    forall k :: 0 <= k < |l| && l[k].id == id ==> l[k].peer.None?
  }

  predicate Lists(l: seq<Acceptor>, id: NodeId) {
    exists k :: 0 <= k < |l| && l[k].id == id
  }

  /** A hello from ourselves, over a connection to ourselves, carries our own
      ballot.  A join's id is its instance number, above those
      of all earlier joins.  A newcomer's first connections are to others in
      the list it has just unpacked, none of whom it was connected to. */
  predicate Possible(g: Group, e: Event) {
    && g.alive
    && match e
       case Greeted(_, id, b) => id == g.self ==> b == g.ballot
       case Joined(id, _) => forall k :: 0 <= k < |g.alist| ==> g.alist[k].id < id
       case Connecting(id, _) => id != g.self && Disconnected(g.alist, id)
       case _ => true
  }

  function Apply(g: Group, e: Event): Group {
    match e
    case Dropped(source) => Drop(g, source)
    case Greeted(source, id, b) => Hello(g, source, id, b)
    case Joined(id, connection) => LearnJoin(g, id, connection)
    case Parted(id) => LearnPart(g, id)
    case Redirected(superior, b, connection) => Redirect(g, superior, b, connection)
    case Refused(superior, connection) => Refuse(g, superior, connection)
    case Rejoined(id, connection) => Rejoin(g, id, connection)
    case Promised(b) => Promise(g, b)
    case PromiseCounted(b, nulls) => CountPromise(g, b, nulls)
    case Connecting(id, connection) => WelcomeConnect(g, id, connection)
  }

  // ---- What holds of a session.

  /** What no event upsets: we are listed, believe in nobody below ourselves,
      prepare only as proposer and in a ballot of our own, and hold a ballot of
      our own once established. */
  predicate Sane(g: Group) {
    && Ranked(g.alist) && Lists(g.alist, g.self) && g.proposer <= g.self
    && (g.prep.Some? ==> Leads(g) && g.prep.value.ballot.id == g.self)
    && (Established(g) ==> g.ballot.id == g.self)
    && forall k :: 0 <= k < |g.adefer| ==> g.adefer[k].peer.Some?
  }

  /** Besides, we hold no connection to ourselves, and the proposer is the least
      id among ourselves and the connected. */
  predicate InOrder(g: Group) {
    Sane(g) && Disconnected(g.alist, g.self) && IsLeader(g.alist, g.self, g.proposer)
  }

  /** The live count is ourselves and the others we are connected to. */
  predicate Accounted(g: Group) {
    g.live == 1 + Connected(g.alist, g.self)
  }

  /** An established proposer stays established, in the same ballot, for as long as its session lasts. */
  predicate Steady(g: Group, r: Group) {
    Established(g) && r.alive ==> Established(r) && r.ballot == g.ballot
  }

  // ---- The events that upset more.

  /** A participant holds a connection to itself from now on.  A proposer may
      have inherited the decree of its own part, and had it rejected; it then
      says hello to itself. */
  predicate ConnectsSelf(g: Group, e: Event) {
    || (e.Rejoined? && Leads(g) && e.id == g.self && e.connection.Some?)
    || (e.Greeted? && e.id == g.self)
  }

  /** A participant connects to one who outranks its proposer without deferring
      to it: a proposer that inherited a superior's part and had it rejected,
      or a newcomer that the superior does not answer to. */
  predicate Outranked(g: Group, e: Event) {
    || (e.Rejoined? && Leads(g) && e.id < g.self && e.connection.Some? && Lists(g.alist, e.id) && Disconnected(g.alist, e.id))
    || (e.Connecting? && e.id < g.proposer && e.connection.Some? && Lists(g.alist, e.id))
  }

  /** A proposer learns a join whose hello it has deferred. */
  predicate CountsTwice(g: Group, e: Event) {
    e.Joined? && Leads(g) && IndexOf(g.adefer, e.id).Some?
  }

  /** The acceptor cannot be reconnected to: it is not listed, or is connected. */
  predicate Unfit(g: Group, id: NodeId) {
    !Lists(g.alist, id) || !Disconnected(g.alist, id)
  }

  /** A redirect of the prepare in progress, the last it takes to give it up. */
  predicate Outvoted(g: Group, b: Ballot) {
    && g.prep.Some? && g.prep.value.ballot == b
    && DeathAdjusted(g, g.prep.value.redirects + 1) >= Majority(|g.alist|)
  }

  /** The events that fail an assertion: a proposer is redirected to someone not
      above it, or told by a majority to reconnect to someone unfit; an acceptor
      is refused in favour of someone unfit above its proposer; or a proposer is
      kept from parting someone who is no longer listed, or has reconnected. */
  predicate Misled(g: Group, e: Event) {
    match e
    case Redirected(superior, b, _) => Leads(g) && (superior >= g.self || (Outvoted(g, b) && Unfit(g, superior)))
    case Refused(superior, _) => !Leads(g) && superior < g.proposer && Unfit(g, superior)
    case Rejoined(id, _) => Leads(g) && Unfit(g, id)
    case _ => false
  }

  // ---- The acceptor list.

  lemma IndexUnique(l: seq<Acceptor>, k: nat)
    requires Ranked(l) && k < |l|
    ensures IndexOf(l, l[k].id) == Some(k)
  {
  }

  lemma SetPeerLists(l: seq<Acceptor>, k: nat, peer: Option<nat>)
    requires Ranked(l) && k < |l|
    ensures Ranked(SetPeer(l, k, peer)) && forall id :: Lists(l, id) ==> Lists(SetPeer(l, k, peer), id)
  {
    var m := SetPeer(l, k, peer);
    forall id | Lists(l, id) ensures Lists(m, id) {
      var j :| 0 <= j < |l| && l[j].id == id;
      assert m[j].id == id;
    }
  }

  lemma RemovedLists(l: seq<Acceptor>, self: NodeId, k: nat)
    requires Ranked(l) && Lists(l, self) && k < |l| && l[k].id != self
    ensures Ranked(Removed(l, k)) && Lists(Removed(l, k), self)
    ensures Disconnected(l, self) ==> Disconnected(Removed(l, k), self)
  {
    var j :| 0 <= j < |l| && l[j].id == self;
    assert Removed(l, k)[if j < k then j else j - 1].id == self;
  }

  lemma AppendedLists(l: seq<Acceptor>, self: NodeId, x: Acceptor)
    requires Ranked(l) && Lists(l, self) && forall k :: 0 <= k < |l| ==> l[k].id < x.id
    ensures Ranked(l + [x]) && Lists(l + [x], self)
    ensures Disconnected(l, self) ==> Disconnected(l + [x], self)
    ensures forall leader :: IsLeader(l, self, leader) ==> IsLeader(l + [x], self, leader)
  {
    var m := l + [x];
    var j :| 0 <= j < |l| && l[j].id == self;
    assert m[j].id == self && Reachable(m[j], self);
    forall leader | IsLeader(l, self, leader) ensures IsLeader(m, self, leader) {
      var i :| 0 <= i < |l| && l[i].id == leader && Reachable(l[i], self);
      assert m[i] == l[i];
      assert Reachable(l[j], self);
    }
  }

  lemma PresentReachable(l: seq<Acceptor>, self: NodeId) returns (k: nat)
    requires Ranked(l) && Lists(l, self)
    ensures LeaderOf(l, self, 0) == Some(k) && k < |l| && l[k].id <= self && IsLeader(l, self, l[k].id)
  {
    var j :| 0 <= j < |l| && l[j].id == self;
    assert Reachable(l[j], self);
    k := LeaderOf(l, self, 0).value;
    assert k <= j;
    FirstIsLeader(l, self, k);
  }

  lemma InsertKeepsPeers(l: seq<Acceptor>, x: Acceptor)
    requires x.peer.Some? && forall k :: 0 <= k < |l| ==> l[k].peer.Some?
    ensures forall k :: 0 <= k < |InsertAcceptor(l, x)| ==> InsertAcceptor(l, x)[k].peer.Some?
  {
  }

  lemma RemovedPeers(l: seq<Acceptor>, k: nat)
    requires k < |l| && forall j :: 0 <= j < |l| ==> l[j].peer.Some?
    ensures forall j :: 0 <= j < |Removed(l, k)| ==> Removed(l, k)[j].peer.Some?
  {
  }

  lemma ListedIndex(l: seq<Acceptor>, id: NodeId)
    ensures Lists(l, id) <==> IndexOf(l, id).Some?
    ensures Ranked(l) && Lists(l, id) ==> (Disconnected(l, id) <==> l[IndexOf(l, id).value].peer.None?)
  {
  }

  // ---- Every event keeps a session sane.

  /** What an event makes of a sane session. */
  predicate StaysSane(g: Group, r: Group) {
    (r.alive ==> Sane(r)) && Steady(g, r) && r.self == g.self
  }

  lemma SucceedSane(g: Group)
    requires Ranked(g.alist) && Lists(g.alist, g.self) && g.prep.None?
    requires forall k :: 0 <= k < |g.adefer| ==> g.adefer[k].peer.Some?
    ensures var r := Succeed(g);
      && (r.alive ==> Sane(r) && IsLeader(r.alist, r.self, r.proposer))
      && r.live == g.live && r.alist == g.alist && r.failed == g.failed && r.self == g.self
  {
    var k := PresentReachable(g.alist, g.self);
    hide Parts, IsLeader, LeaderOf, Reachable;
  }

  lemma AttachSane(g: Group, k: nat, peer: nat)
    requires Sane(g) && k < |g.alist|
    requires Established(g) ==> g.self <= g.alist[k].id
    ensures Sane(Attach(g, k, peer)) && Steady(g, Attach(g, k, peer))
  {
    SetPeerLists(g.alist, k, Some(peer));
    hide SetPeer, Ranked, Lists;
  }

  lemma DropSane(g: Group, source: nat)
    requires Sane(g)
    ensures StaysSane(g, Drop(g, source)) && Drop(g, source).failed == g.failed
  {
    hide SetPeer, Ranked, Lists, Succeed;
    var k := JoinedBy(g.alist, source, 0);
    if k.Some? {
      SetPeerLists(g.alist, k.value, None);
      var r := g.(alist := SetPeer(g.alist, k.value, None), live := g.live - 1);
      if !Leads(r) { SucceedSane(r); }
    }
  }

  lemma HelloSane(g: Group, source: nat, id: NodeId, b: Ballot)
    requires Sane(g) && (id == g.self ==> b == g.ballot)
    ensures StaysSane(g, Hello(g, source, id, b)) && Hello(g, source, id, b).failed == g.failed
  {
    hide SetPeer, Ranked, Lists, InsertAcceptor;
    var k := IndexOf(g.alist, id);
    if k.None? {
      InsertKeepsPeers(g.adefer, Acceptor(id, Some(source)));
    } else {
      SetPeerLists(g.alist, k.value, Some(source));
    }
  }

  lemma LearnJoinSane(g: Group, id: NodeId, connection: Option<nat>)
    requires Sane(g) && forall k :: 0 <= k < |g.alist| ==> g.alist[k].id < id
    ensures StaysSane(g, LearnJoin(g, id, connection)) && LearnJoin(g, id, connection).failed == g.failed
  {
    hide Ranked, Lists, Removed;
    var k := IndexOf(g.adefer, id);
    if k.Some? { RemovedPeers(g.adefer, k.value); }
    var x := if k.Some? then g.adefer[k.value] else Acceptor(id, None);
    AppendedLists(g.alist, g.self, x);
    AppendedLists(g.alist, g.self, x.(peer := connection));
  }

  lemma LearnPartSane(g: Group, id: NodeId)
    requires Sane(g)
    ensures StaysSane(g, LearnPart(g, id)) && LearnPart(g, id).failed == g.failed
  {
    hide Ranked, Lists, Removed, Succeed;
    var k := IndexOf(g.alist, id);
    if k.Some? && id != g.self {
      RemovedLists(g.alist, g.self, k.value);
      var r := g.(alist := Removed(g.alist, k.value), live := g.live - One(g.alist[k.value].peer));
      if id == g.proposer { SucceedSane(r); }
    }
  }

  lemma RedirectSane(g: Group, superior: NodeId, b: Ballot, connection: Option<nat>)
    requires Sane(g)
    ensures var r := Redirect(g, superior, b, connection);
      StaysSane(g, r) && (r.failed <==> g.failed || Misled(g, Redirected(superior, b, connection)))
  {
    hide Ranked, Lists, Disconnected, SetPeer;
    ListedIndex(g.alist, superior);
    var k := IndexOf(g.alist, superior);
    if k.Some? && connection.Some? { SetPeerLists(g.alist, k.value, connection); }
  }

  lemma RefuseSane(g: Group, superior: NodeId, connection: Option<nat>)
    requires Sane(g)
    ensures var r := Refuse(g, superior, connection);
      StaysSane(g, r) && (r.failed <==> g.failed || Misled(g, Refused(superior, connection)))
  {
    hide Ranked, Lists, Disconnected, SetPeer;
    ListedIndex(g.alist, superior);
    var k := IndexOf(g.alist, superior);
    if k.Some? && connection.Some? { SetPeerLists(g.alist, k.value, connection); }
  }

  lemma RejoinSane(g: Group, id: NodeId, connection: Option<nat>)
    requires Sane(g)
    ensures var r := Rejoin(g, id, connection);
      StaysSane(g, r) && (r.failed <==> g.failed || Misled(g, Rejoined(id, connection)))
    ensures StaysSane(g, WelcomeConnect(g, id, connection)) && WelcomeConnect(g, id, connection).failed == g.failed
  {
    hide Ranked, Lists, Disconnected, SetPeer;
    ListedIndex(g.alist, id);
    var k := IndexOf(g.alist, id);
    if k.Some? && connection.Some? { SetPeerLists(g.alist, k.value, connection); }
  }

  /** Every event keeps a session sane and an established proposer established.
      Preparing never finds a prepare in progress: an assertion fails exactly
      if we are misled. */
  lemma EventSane(g: Group, e: Event)
    requires Sane(g) && Possible(g, e)
    ensures StaysSane(g, Apply(g, e))
    ensures Apply(g, e).failed <==> g.failed || Misled(g, e)
  {
    hide Ranked, Lists, Disconnected, Drop, Hello, LearnJoin, LearnPart, Redirect, Refuse, Rejoin, WelcomeConnect;
    match e
    case Dropped(source) => DropSane(g, source);
    case Greeted(source, id, b) => HelloSane(g, source, id, b);
    case Joined(id, connection) => LearnJoinSane(g, id, connection);
    case Parted(id) => LearnPartSane(g, id);
    case Redirected(superior, b, connection) => RedirectSane(g, superior, b, connection);
    case Refused(superior, connection) => RefuseSane(g, superior, connection);
    case Rejoined(id, connection) => RejoinSane(g, id, connection);
    case Promised(b) =>
    case PromiseCounted(b, nulls) =>
    case Connecting(id, connection) => RejoinSane(g, id, connection);
  }

  // ---- What the events make of the ranking.

  lemma LeaderKept(l: seq<Acceptor>, self: NodeId, leader: NodeId, k: nat, peer: Option<nat>)
    requires Ranked(l) && IsLeader(l, self, leader) && k < |l| && leader < l[k].id
    ensures IsLeader(SetPeer(l, k, peer), self, leader)
  {
    var m := SetPeer(l, k, peer);
    var j :| 0 <= j < |l| && l[j].id == leader && Reachable(l[j], self);
    assert j < k && m[j] == l[j];
  }

  /** One who outranks the leader, once connected, is the leader, and the former leader is not. */
  lemma LeaderTaken(l: seq<Acceptor>, self: NodeId, leader: NodeId, k: nat, peer: nat)
    requires IsLeader(l, self, leader) && k < |l| && l[k].id < leader
    ensures IsLeader(SetPeer(l, k, Some(peer)), self, l[k].id) && !IsLeader(SetPeer(l, k, Some(peer)), self, leader)
  {
    var m := SetPeer(l, k, Some(peer));
    assert m[k].id == l[k].id && Reachable(m[k], self);
  }

  lemma SameReach(l: seq<Acceptor>, self: NodeId, leader: NodeId, k: nat, peer: nat)
    requires k < |l| && Reachable(l[k], self) && IsLeader(l, self, leader)
    ensures IsLeader(SetPeer(l, k, Some(peer)), self, leader)
  {
    var m := SetPeer(l, k, Some(peer));
    var j :| 0 <= j < |l| && l[j].id == leader && Reachable(l[j], self);
    assert m[j].id == leader && Reachable(m[j], self);
    assert forall i :: 0 <= i < |m| ==> (Reachable(m[i], self) <==> Reachable(l[i], self));
  }

  lemma LeaderRemains(l: seq<Acceptor>, self: NodeId, leader: NodeId, k: nat)
    requires Ranked(l) && IsLeader(l, self, leader) && k < |l| && leader != l[k].id
    ensures IsLeader(Removed(l, k), self, leader)
  {
    var w := Removed(l, k);
    var j :| 0 <= j < |l| && l[j].id == leader && Reachable(l[j], self);
    assert w[if j < k then j else j - 1] == l[j];
    assert forall i :: 0 <= i < |w| ==> w[i] == l[if i < k then i else i + 1];
  }

  lemma OtherPeer(l: seq<Acceptor>, self: NodeId, k: nat, peer: Option<nat>)
    requires Ranked(l) && k < |l|
    ensures l[k].id != self && Disconnected(l, self) ==> Disconnected(SetPeer(l, k, peer), self)
    ensures l[k].id == self && peer.Some? ==> !Disconnected(SetPeer(l, k, peer), self)
  {
    var m := SetPeer(l, k, peer);
    assert m[k].id == l[k].id && m[k].peer == peer;
    assert forall j :: 0 <= j < |l| && j != k ==> m[j] == l[j];
  }

  lemma AttachInOrder(g: Group, k: nat, peer: nat)
    requires InOrder(g) && k < |g.alist| && g.alist[k].id != g.self && g.alist[k].peer.None?
    requires Established(g) ==> g.self <= g.alist[k].id
    ensures InOrder(Attach(g, k, peer))
  {
    AttachSane(g, k, peer);
    OtherPeer(g.alist, g.self, k, Some(peer));
    if g.alist[k].id < g.proposer {
      LeaderTaken(g.alist, g.self, g.proposer, k, peer);
    } else {
      assert g.alist[k].id != g.proposer;
      LeaderKept(g.alist, g.self, g.proposer, k, Some(peer));
    }
  }

  lemma DropInOrder(g: Group, source: nat)
    requires InOrder(g)
    ensures Drop(g, source).alive ==> InOrder(Drop(g, source))
  {
    hide SetPeer, Ranked, Lists, Succeed;
    DropSane(g, source);
    var k := JoinedBy(g.alist, source, 0);
    if k.Some? {
      var id := g.alist[k.value].id;
      SetPeerLists(g.alist, k.value, None);
      OtherPeer(g.alist, g.self, k.value, None);
      var r := g.(alist := SetPeer(g.alist, k.value, None), live := g.live - 1);
      if g.proposer < id {
        LeaderKept(g.alist, g.self, g.proposer, k.value, None);
      } else {
        assert id == g.proposer;
        SucceedSane(r);
      }
    }
  }

  lemma HelloInOrder(g: Group, source: nat, id: NodeId, b: Ballot)
    requires g.alive && InOrder(g) && (id == g.self ==> b == g.ballot)
    ensures InOrder(Hello(g, source, id, b)) <==> id != g.self
  {
    hide SetPeer, IsLeader, Ranked, Lists, Disconnected, InsertAcceptor;
    HelloSane(g, source, id, b);
    SelfUnconnected(g);
    var k := IndexOf(g.alist, id);
    if (Established(g) && id < g.self) || k.None? {
    } else if id == g.self {
      OtherPeer(g.alist, g.self, k.value, Some(source));
    } else if g.alist[k.value].peer.None? {
      AttachInOrder(g, k.value, source);
    } else {
      OtherPeer(g.alist, g.self, k.value, Some(source));
      SameReach(g.alist, g.self, g.proposer, k.value, source);
    }
  }

  lemma LearnJoinInOrder(g: Group, id: NodeId, connection: Option<nat>)
    requires InOrder(g) && forall k :: 0 <= k < |g.alist| ==> g.alist[k].id < id
    ensures InOrder(LearnJoin(g, id, connection)) || !g.alive
  {
    hide Ranked, IsLeader, Lists, Disconnected, Removed;
    LearnJoinSane(g, id, connection);
    var k := IndexOf(g.adefer, id);
    var x := if k.Some? then g.adefer[k.value] else Acceptor(id, None);
    AppendedLists(g.alist, g.self, x);
    AppendedLists(g.alist, g.self, x.(peer := connection));
  }

  lemma LearnPartInOrder(g: Group, id: NodeId)
    requires InOrder(g)
    ensures LearnPart(g, id).alive ==> InOrder(LearnPart(g, id))
  {
    hide Succeed, Removed, IsLeader, Ranked, Lists, Disconnected;
    LearnPartSane(g, id);
    var k := IndexOf(g.alist, id);
    if k.Some? && id != g.self {
      RemovedLists(g.alist, g.self, k.value);
      var r := g.(alist := Removed(g.alist, k.value), live := g.live - One(g.alist[k.value].peer));
      if id == g.proposer {
        SucceedSane(r);
      } else {
        LeaderRemains(g.alist, g.self, g.proposer, k.value);
      }
    }
  }

  lemma RedirectInOrder(g: Group, superior: NodeId, b: Ballot, connection: Option<nat>)
    requires InOrder(g)
    ensures Redirect(g, superior, b, connection).alive ==> InOrder(Redirect(g, superior, b, connection))
  {
    hide IsLeader, Ranked, Lists, Disconnected, SetPeer;
    RedirectSane(g, superior, b, connection);
    var k := IndexOf(g.alist, superior);
    if Leads(g) && superior < g.self && k.Some? && connection.Some? && g.prep.Some? && g.alist[k.value].peer.None? {
      AttachInOrder(g, k.value, connection.value);
    }
  }

  lemma RefuseInOrder(g: Group, superior: NodeId, connection: Option<nat>)
    requires InOrder(g)
    ensures Refuse(g, superior, connection).alive ==> InOrder(Refuse(g, superior, connection))
  {
    hide IsLeader, Ranked, Lists, Disconnected, SetPeer;
    RefuseSane(g, superior, connection);
    var k := IndexOf(g.alist, superior);
    if !Leads(g) && superior < g.proposer && k.Some? && connection.Some? && g.alist[k.value].peer.None? {
      AttachInOrder(g, k.value, connection.value);
    }
  }

  /** Connecting without deferring keeps the ranking exactly if the other ranks below both us and the proposer. */
  lemma ConnectInOrder(g: Group, k: nat, peer: nat)
    requires InOrder(g) && k < |g.alist| && g.alist[k].peer.None?
    ensures var r := g.(alist := SetPeer(g.alist, k, Some(peer)), live := g.live + 1);
      InOrder(r) <==> g.alist[k].id != g.self && g.proposer < g.alist[k].id
  {
    var id := g.alist[k].id;
    SetPeerLists(g.alist, k, Some(peer));
    OtherPeer(g.alist, g.self, k, Some(peer));
    if g.proposer < id {
      LeaderKept(g.alist, g.self, g.proposer, k, Some(peer));
    } else if id < g.proposer {
      LeaderTaken(g.alist, g.self, g.proposer, k, peer);
    } else {
      LeaderReachable(g.alist, g.self, k);
    }
  }

  lemma LeaderReachable(l: seq<Acceptor>, self: NodeId, k: nat)
    requires Ranked(l) && k < |l| && IsLeader(l, self, l[k].id)
    ensures Reachable(l[k], self)
  {
  }

  lemma RejoinInOrder(g: Group, id: NodeId, connection: Option<nat>)
    requires InOrder(g)
    ensures var r, e := Rejoin(g, id, connection), Rejoined(id, connection);
      r.alive ==> (InOrder(r) <==> !ConnectsSelf(g, e) && !Outranked(g, e))
    ensures var r, e := WelcomeConnect(g, id, connection), Connecting(id, connection);
      id != g.self && Disconnected(g.alist, id) ==> (InOrder(r) <==> !Outranked(g, e))
  {
    hide IsLeader, SetPeer, Ranked, Lists, Disconnected;
    ListedIndex(g.alist, id);
    SelfUnconnected(g);
    var k := IndexOf(g.alist, id);
    if k.Some? && id == g.proposer { LeaderReachable(g.alist, g.self, k.value); }
    if k.Some? && connection.Some? && g.alist[k.value].peer.None? { ConnectInOrder(g, k.value, connection.value); }
  }

  lemma SelfUnconnected(g: Group)
    requires InOrder(g)
    ensures Lists(g.alist, g.self) && Disconnected(g.alist, g.self)
    ensures IndexOf(g.alist, g.self).Some? && g.alist[IndexOf(g.alist, g.self).value].peer.None?
  {
    ListedIndex(g.alist, g.self);
  }

  /** Exactly which events upset the ranking. */
  lemma EventInOrder(g: Group, e: Event)
    requires InOrder(g) && Possible(g, e) && Apply(g, e).alive
    ensures InOrder(Apply(g, e)) <==> !ConnectsSelf(g, e) && !Outranked(g, e)
  {
    hide IsLeader, Ranked, Lists, Disconnected, Drop, Hello, LearnJoin, LearnPart, Redirect, Refuse, Rejoin, WelcomeConnect;
    match e
    case Dropped(source) => DropInOrder(g, source);
    case Greeted(source, id, b) => HelloInOrder(g, source, id, b);
    case Joined(id, connection) => LearnJoinInOrder(g, id, connection);
    case Parted(id) => LearnPartInOrder(g, id);
    case Redirected(superior, b, connection) => RedirectInOrder(g, superior, b, connection);
    case Refused(superior, connection) => RefuseInOrder(g, superior, connection);
    case Rejoined(id, connection) => RejoinInOrder(g, id, connection);
    case Promised(b) =>
    case PromiseCounted(b, nulls) =>
    case Connecting(id, connection) => RejoinInOrder(g, id, connection);
  }

  // ---- What the events make of the live count.

  lemma AppendCount(l: seq<Acceptor>, x: Acceptor, self: NodeId)
    ensures Connected(l + [x], self) == Connected(l, self) + Share(x, self)
  {
    ConnectedSplit(l, [x], self);
    ConnectedOne(x, self);
  }

  /** Learning a join keeps the live count exact, except for a proposer that
      had already deferred the newcomer's hello: it counts the newcomer twice. */
  lemma LearnJoinCount(g: Group, id: NodeId, connection: Option<nat>)
    requires Sane(g) && Accounted(g) && forall k :: 0 <= k < |g.alist| ==> g.alist[k].id < id
    ensures Accounted(LearnJoin(g, id, connection)) <==> !(Leads(g) && IndexOf(g.adefer, id).Some?)
  {
    hide Connected, Ranked, Removed;
    var k := IndexOf(g.adefer, id);
    var x := if k.Some? then g.adefer[k.value] else Acceptor(id, None);
    AppendCount(g.alist, x, g.self);
    AppendCount(g.alist, x.(peer := connection), g.self);
    assert g.self < id by { var j :| 0 <= j < |g.alist| && g.alist[j].id == g.self; }
  }

  lemma DropCount(g: Group, source: nat)
    requires Sane(g) && Disconnected(g.alist, g.self) && Accounted(g)
    ensures Accounted(Drop(g, source))
  {
    hide Connected, SetPeer, Ranked, Lists, Succeed;
    var k := JoinedBy(g.alist, source, 0);
    if k.Some? {
      ConnectedAt(g.alist, k.value, None, g.self);
      SucceedCount(g.(alist := SetPeer(g.alist, k.value, None), live := g.live - 1));
    }
  }

  lemma SucceedCount(g: Group)
    ensures var r := Succeed(g); r.alist == g.alist && r.live == g.live && r.self == g.self
  {
    hide Parts;
  }

  lemma LearnPartCount(g: Group, id: NodeId)
    requires Sane(g) && Disconnected(g.alist, g.self) && Accounted(g)
    ensures Accounted(LearnPart(g, id))
  {
    hide Connected, Removed, Ranked, Lists, Succeed;
    var k := IndexOf(g.alist, id);
    if k.Some? {
      ConnectedAt(g.alist, k.value, None, g.self);
      SucceedCount(g.(alist := Removed(g.alist, k.value), live := g.live - One(g.alist[k.value].peer)));
    }
  }

  lemma GainCount(g: Group, k: nat, peer: nat)
    requires k < |g.alist| && g.alist[k].peer.None?
    ensures Connected(SetPeer(g.alist, k, Some(peer)), g.self) == Connected(g.alist, g.self) + if g.alist[k].id != g.self then 1 else 0
  {
    ConnectedAt(g.alist, k, Some(peer), g.self);
    hide Connected;
  }

  lemma HelloCount(g: Group, source: nat, id: NodeId, b: Ballot)
    requires Sane(g) && Disconnected(g.alist, g.self) && Accounted(g)
    ensures Accounted(Hello(g, source, id, b)) <==> id != g.self
  {
    hide Connected, SetPeer, Ranked, Lists, InsertAcceptor;
    ListedIndex(g.alist, g.self);
    var k := IndexOf(g.alist, id);
    if k.Some? { ConnectedAt(g.alist, k.value, Some(source), g.self); }
  }

  lemma ReconnectCount(g: Group, id: NodeId, b: Ballot, connection: Option<nat>)
    requires Sane(g) && Accounted(g)
    ensures Accounted(Redirect(g, id, b, connection)) && Accounted(Refuse(g, id, connection))
  {
    hide Connected, SetPeer, Ranked, Lists, Parts;
    var k := IndexOf(g.alist, id);
    if k.Some? && connection.Some? && g.alist[k.value].peer.None? { GainCount(g, k.value, connection.value); }
  }

  lemma RejoinCount(g: Group, id: NodeId, connection: Option<nat>)
    requires Sane(g) && Disconnected(g.alist, g.self) && Accounted(g)
    ensures Accounted(Rejoin(g, id, connection)) <==> !ConnectsSelf(g, Rejoined(id, connection))
    ensures id != g.self && Disconnected(g.alist, id) ==> Accounted(WelcomeConnect(g, id, connection))
  {
    hide Connected, SetPeer, Ranked;
    ListedIndex(g.alist, id);
    var k := IndexOf(g.alist, id);
    if k.Some? && connection.Some? && g.alist[k.value].peer.None? { GainCount(g, k.value, connection.value); }
  }

  /** Exactly which events upset the live count. */
  lemma EventAccounted(g: Group, e: Event)
    requires Sane(g) && Disconnected(g.alist, g.self) && Accounted(g) && Possible(g, e)
    ensures Accounted(Apply(g, e)) <==> !CountsTwice(g, e) && !ConnectsSelf(g, e)
  {
    hide Connected, Ranked, Lists, Drop, Hello, LearnJoin, LearnPart, Redirect, Refuse, Rejoin, WelcomeConnect;
    match e
    case Dropped(source) => DropCount(g, source);
    case Greeted(source, id, b) => HelloCount(g, source, id, b);
    case Joined(id, connection) => LearnJoinCount(g, id, connection);
    case Parted(id) => LearnPartCount(g, id);
    case Redirected(superior, b, connection) => ReconnectCount(g, superior, b, connection);
    case Refused(superior, connection) => ReconnectCount(g, superior, Ballot(0, 0), connection);
    case Rejoined(id, connection) => RejoinCount(g, id, connection);
    case Promised(b) =>
    case PromiseCounted(b, nulls) =>
    case Connecting(id, connection) => RejoinCount(g, id, connection);
  }

  // ---- Parts.

  /** `v` is the part, or for one who outranks us the kill, of acceptor `x`. */
  predicate Removes(v: Value, x: Acceptor, self: NodeId) {
    v.kind == (if x.id < self then DecKill else DecPart) && v.extra == x.id
  }

  lemma {:induction false} PartsAreNumbered(l: seq<Acceptor>, self: NodeId, reqId: nat, m: nat)
    requires m < |Parts(l, self, reqId)|
    ensures Parts(l, self, reqId)[m].req == ReqId(self, reqId + 1 + m)
  {
    var front := l[..|l| - 1];
    if m < |Parts(front, self, reqId)| { PartsAreNumbered(front, self, reqId, m); }
  }

  lemma {:induction false} PartIsOfUnreachable(l: seq<Acceptor>, self: NodeId, reqId: nat, m: nat) returns (k: nat)
    requires m < |Parts(l, self, reqId)|
    ensures k < |l| && !Reachable(l[k], self) && Removes(Parts(l, self, reqId)[m], l[k], self)
  {
    var front := l[..|l| - 1];
    if m < |Parts(front, self, reqId)| {
      k := PartIsOfUnreachable(front, self, reqId, m);
    } else {
      k := |front|;
    }
  }

  lemma {:induction false} UnreachableIsParted(l: seq<Acceptor>, self: NodeId, reqId: nat, k: nat) returns (m: nat)
    requires k < |l| && !Reachable(l[k], self)
    ensures m < |Parts(l, self, reqId)| && Removes(Parts(l, self, reqId)[m], l[k], self)
  {
    var front := l[..|l| - 1];
    if k < |front| {
      m := UnreachableIsParted(front, self, reqId, k);
    } else {
      m := |Parts(front, self, reqId)|;
    }
  }

  lemma {:induction false} PartsInOrder(l: seq<Acceptor>, self: NodeId, reqId: nat, m: nat, n: nat)
    requires Ranked(l) && m < n < |Parts(l, self, reqId)|
    ensures Parts(l, self, reqId)[m].extra < Parts(l, self, reqId)[n].extra
  {
    var front := l[..|l| - 1];
    if n < |Parts(front, self, reqId)| {
      PartsInOrder(front, self, reqId, m, n);
    } else {
      var k := PartIsOfUnreachable(front, self, reqId, m);
    }
  }

  predicate PartsSomeone(v: Value, l: seq<Acceptor>, self: NodeId) {
    exists k :: 0 <= k < |l| && !Reachable(l[k], self) && Removes(v, l[k], self)
  }

  predicate IsParted(x: Acceptor, parts: seq<Value>, self: NodeId) {
    exists m :: 0 <= m < |parts| && Removes(parts[m], x, self)
  }

  /** A new preparer queues exactly one decree for each acceptor it cannot
      reach, in list order and under request ids of its own in sequence. */
  lemma PartsAreOfUnreachable(l: seq<Acceptor>, self: NodeId, reqId: nat)
    requires Ranked(l)
    ensures var parts := Parts(l, self, reqId);
      && (forall m :: 0 <= m < |parts| ==> parts[m].req == ReqId(self, reqId + 1 + m) && PartsSomeone(parts[m], l, self))
      && (forall k :: 0 <= k < |l| && !Reachable(l[k], self) ==> IsParted(l[k], parts, self))
      && (forall m, n :: 0 <= m < n < |parts| ==> parts[m].extra < parts[n].extra)
  {
    hide Parts, Ranked, Reachable, Removes, PartsSomeone, IsParted;
    var parts := Parts(l, self, reqId);
    forall m: nat | m < |parts| ensures parts[m].req == ReqId(self, reqId + 1 + m) && PartsSomeone(parts[m], l, self) {
      PartsAreNumbered(l, self, reqId, m);
      PartsOne(l, self, reqId, m);
    }
    forall k: nat | k < |l| && !Reachable(l[k], self) ensures IsParted(l[k], parts, self) { OneParted(l, self, reqId, k); }
    forall m: nat, n: nat | m < n < |parts| ensures parts[m].extra < parts[n].extra { PartsInOrder(l, self, reqId, m, n); }
  }

  lemma PartsOne(l: seq<Acceptor>, self: NodeId, reqId: nat, m: nat)
    requires m < |Parts(l, self, reqId)|
    ensures PartsSomeone(Parts(l, self, reqId)[m], l, self)
  {
    hide Parts, Reachable, Removes;
    var k := PartIsOfUnreachable(l, self, reqId, m);
  }

  lemma OneParted(l: seq<Acceptor>, self: NodeId, reqId: nat, k: nat)
    requires k < |l| && !Reachable(l[k], self)
    ensures IsParted(l[k], Parts(l, self, reqId), self)
  {
    hide Parts, Reachable, Removes;
    var m := UnreachableIsParted(l, self, reqId, k);
  }

  // ---- Every run.

  ghost predicate Next(g: Group, r: Group) {
    exists e :: Possible(g, e) && r == Apply(g, e)
  }

  ghost predicate IsRun(run: seq<Group>) {
    && |run| > 0 && run[0].alive && Sane(run[0])
    && forall k :: 0 <= k < |run| - 1 ==> Next(run[k], run[k + 1])
  }

  lemma PossibleAlive(g: Group, e: Event)
    requires Possible(g, e)
    ensures g.alive
  {
  }

  lemma {:induction false} RunSane(run: seq<Group>, k: nat)
    requires IsRun(run) && k < |run| && run[k].alive
    ensures Sane(run[k])
  {
    hide Apply, Sane, Possible;
    if k > 0 {
      assert Next(run[k - 1], run[k]);
      var e :| Possible(run[k - 1], e) && run[k] == Apply(run[k - 1], e);
      PossibleAlive(run[k - 1], e);
      RunSane(run, k - 1);
      EventSane(run[k - 1], e);
    }
  }

  /** Once a proposer has prepared it remains the proposer, in the ballot it
      prepared, until it drops out. */
  lemma {:induction false} StableProposership(run: seq<Group>, j: nat, k: nat)
    requires IsRun(run) && j <= k < |run| && Established(run[j]) && run[k].alive
    ensures Established(run[k]) && run[k].ballot == run[j].ballot && run[k].ballot.id == run[k].self
  {
    hide Apply, Sane, Possible;
    RunSane(run, k);
    if j < k {
      assert Next(run[k - 1], run[k]);
      var e :| Possible(run[k - 1], e) && run[k] == Apply(run[k - 1], e);
      PossibleAlive(run[k - 1], e);
      StableProposership(run, j, k - 1);
      RunSane(run, k - 1);
      EventSane(run[k - 1], e);
    }
    OwnBallot(run[k]);
  }

  lemma OwnBallot(g: Group)
    requires Sane(g) && Established(g)
    ensures g.ballot.id == g.self
  {
  }

  // ---- Whom a proposer has lost.

  /** `v` is the part of `id`, or its kill if it outranks us. */
  predicate Names(v: Value, id: NodeId, self: NodeId) {
    v.extra == id && (v.kind == DecPart || (v.kind == DecKill && id < self))
  }

  predicate NamedIn(vs: seq<Value>, id: NodeId, self: NodeId) {
    exists m :: 0 <= m < |vs| && Names(vs[m], id, self)
  }

  /** A proposer has decreed, or queued, the part of everyone it cannot reach, or
      the kill if that acceptor outranks it. */
  predicate LostAreParted(g: Group) {
    Leads(g) ==>
      forall k :: 0 <= k < |g.alist| && !Reachable(g.alist[k], g.self) ==>
        NamedIn(g.queue, g.alist[k].id, g.self) || NamedIn(g.decreed, g.alist[k].id, g.self)
  }

  lemma NamedMore(vs: seq<Value>, more: seq<Value>, id: NodeId, self: NodeId)
    requires NamedIn(vs, id, self) || NamedIn(more, id, self)
    ensures NamedIn(vs + more, id, self)
  {
    var all := vs + more;
    if NamedIn(vs, id, self) {
      var m :| 0 <= m < |vs| && Names(vs[m], id, self);
      assert all[m] == vs[m];
    } else {
      var m :| 0 <= m < |more| && Names(more[m], id, self);
      assert all[|vs| + m] == more[m];
    }
  }

  lemma NamedInMore(vs: seq<Value>, more: seq<Value>, self: NodeId)
    ensures forall id :: NamedIn(vs, id, self) || NamedIn(more, id, self) ==> NamedIn(vs + more, id, self)
  {
    forall id | NamedIn(vs, id, self) || NamedIn(more, id, self) ensures NamedIn(vs + more, id, self) { NamedMore(vs, more, id, self); }
  }

  /** A prepare begun anew queues the part or kill of everyone out of reach. */
  lemma PrepareParts(g: Group)
    requires Ranked(g.alist) && g.prep.None? && Prepare(g, true).alive
    ensures LostAreParted(Prepare(g, true))
  {
    hide Parts, Ranked, NamedIn;
    var r, parts := Prepare(g, true), Parts(g.alist, g.self, g.reqId);
    PartsAreOfUnreachable(g.alist, g.self, g.reqId);
    NamedInMore(g.queue, parts, g.self);
    forall k | 0 <= k < |r.alist| && !Reachable(r.alist[k], r.self) ensures NamedIn(r.queue, r.alist[k].id, r.self) {
      PartedNamed(g.alist[k], parts, g.self);
    }
  }

  lemma PartedNamed(x: Acceptor, parts: seq<Value>, self: NodeId)
    requires IsParted(x, parts, self)
    ensures NamedIn(parts, x.id, self)
  {
    var m :| 0 <= m < |parts| && Removes(parts[m], x, self);
    assert Names(parts[m], x.id, self);
  }

  lemma SucceedParts(g: Group)
    requires Ranked(g.alist) && g.prep.None? && Succeed(g).alive
    ensures LostAreParted(Succeed(g))
  {
    hide Prepare, LostAreParted, Ranked, LeaderOf;
    if Leads(Reset(g)) {
      PrepareParts(Reset(g));
    } else {
      hide Reset;
      NobodyLed(Reset(g));
    }
  }

  lemma NobodyLed(g: Group)
    requires !Leads(g)
    ensures LostAreParted(g)
  {
  }

  lemma DecreePartNames(g: Group, id: NodeId, force: bool)
    requires force ==> id < g.self
    ensures var r := DecreePart(g, id, force);
      && (NamedIn(r.queue, id, g.self) || NamedIn(r.decreed, id, g.self))
      && forall i :: (NamedIn(g.queue, i, g.self) || NamedIn(g.decreed, i, g.self)) ==>
           (NamedIn(r.queue, i, g.self) || NamedIn(r.decreed, i, g.self))
  {
    var v := Value(if force then DecKill else DecPart, ReqId(g.self, g.reqId + 1), id);
    NamedInMore(g.queue, [v], g.self);
    NamedInMore(g.decreed, [v], g.self);
    assert Names([v][0], id, g.self);
  }

  lemma DropParts(g: Group, source: nat)
    requires Sane(g) && LostAreParted(g) && Drop(g, source).alive
    ensures LostAreParted(Drop(g, source))
  {
    hide NamedIn, Succeed, Ranked, Lists;
    var k := JoinedBy(g.alist, source, 0);
    if k.Some? {
      var id := g.alist[k.value].id;
      var r := g.(alist := SetPeer(g.alist, k.value, None), live := g.live - 1);
      if Leads(g) {
        DecreePartNames(r, id, false);
      } else {
        SetPeerLists(g.alist, k.value, None);
        if id == r.proposer { SucceedParts(r); }
      }
    }
  }

  lemma LearnPartParts(g: Group, id: NodeId)
    requires Sane(g) && LostAreParted(g) && LearnPart(g, id).alive
    ensures LostAreParted(LearnPart(g, id))
  {
    hide NamedIn, Succeed, Ranked, Lists;
    var k := IndexOf(g.alist, id);
    if k.Some? && id != g.self {
      RemovedLists(g.alist, g.self, k.value);
      var r := g.(alist := Removed(g.alist, k.value), live := g.live - One(g.alist[k.value].peer));
      if id == g.proposer { SucceedParts(r); }
    }
  }

  lemma LearnJoinParts(g: Group, id: NodeId, connection: Option<nat>)
    requires LostAreParted(g)
    ensures LostAreParted(LearnJoin(g, id, connection))
  {
    hide NamedIn, Removed;
    var k := IndexOf(g.adefer, id);
    var x := if k.Some? then g.adefer[k.value] else Acceptor(id, None);
    var r := g.(
      adefer := if k.Some? then Removed(g.adefer, k.value) else g.adefer,
      live := if k.Some? then g.live + 1 else g.live);
    DecreePartNames(r.(alist := g.alist + [x.(peer := connection)]), id, false);
  }

  /** Connecting to more acceptors leaves fewer to part. */
  lemma ConnectParts(g: Group, source: nat, id: NodeId, b: Ballot, connection: Option<nat>)
    requires Sane(g) && LostAreParted(g)
    ensures LostAreParted(Hello(g, source, id, b)) && LostAreParted(Rejoin(g, id, connection))
    ensures LostAreParted(WelcomeConnect(g, id, connection)) && LostAreParted(Refuse(g, id, connection))
  {
    hide NamedIn, InsertAcceptor, Ranked, Lists;
  }

  lemma PrepareAgainParts(g: Group)
    requires LostAreParted(g) && Leads(g) && g.prep.None?
    ensures LostAreParted(Prepare(g, false))
  {
    hide NamedIn;
    assert g.queue + [] == g.queue;
  }

  lemma RedirectParts(g: Group, superior: NodeId, b: Ballot, connection: Option<nat>)
    requires Sane(g) && LostAreParted(g)
    ensures LostAreParted(Redirect(g, superior, b, connection))
  {
    hide NamedIn, Prepare, Ranked, Lists, LostAreParted;
    if Leads(g) && superior < g.self && g.prep.Some? && g.prep.value.ballot == b {
      var r := g.(prep := Some(g.prep.value.(redirects := g.prep.value.redirects + 1)));
      PartedAlike(g, r);
      PartedAlike(g, Failed(r));
      PartedAlike(g, r.(prep := None));
      PrepareAgainParts(r.(prep := None));
      var k := IndexOf(r.alist, superior);
      if k.Some? && connection.Some? { NobodyLed(Attach(r.(prep := None), k.value, connection.value).(queue := [])); }
    } else {
      PartedAlike(g, Failed(g));
    }
  }

  lemma PartedAlike(g: Group, r: Group)
    requires LostAreParted(g)
    requires r.self == g.self && r.alist == g.alist && r.queue == g.queue && r.decreed == g.decreed && r.proposer == g.proposer
    ensures LostAreParted(r)
  {
  }

  lemma CountParts(g: Group, b: Ballot, nulls: nat)
    requires LostAreParted(g)
    ensures LostAreParted(CountPromise(g, b, nulls))
  {
    hide NamedIn;
    NamedInMore(g.decreed, g.queue, g.self);
  }

  lemma EventParts(g: Group, e: Event)
    requires Sane(g) && LostAreParted(g) && Possible(g, e) && Apply(g, e).alive
    ensures LostAreParted(Apply(g, e))
  {
    hide Sane, LostAreParted, Drop, Hello, LearnJoin, LearnPart, Redirect, Refuse, Rejoin, WelcomeConnect, CountPromise;
    match e
    case Dropped(source) => DropParts(g, source);
    case Greeted(source, id, b) => ConnectParts(g, source, id, b, None);
    case Joined(id, connection) => LearnJoinParts(g, id, connection);
    case Parted(id) => LearnPartParts(g, id);
    case Redirected(superior, b, connection) => RedirectParts(g, superior, b, connection);
    case Refused(superior, connection) => ConnectParts(g, 0, superior, Ballot(0, 0), connection);
    case Rejoined(id, connection) => ConnectParts(g, 0, id, Ballot(0, 0), connection);
    case Promised(b) => PartedAlike(g, Promise(g, b));
    case PromiseCounted(b, nulls) => CountParts(g, b, nulls);
    case Connecting(id, connection) => ConnectParts(g, 0, id, Ballot(0, 0), connection);
  }

  /** In every state of every run, whoever the proposer has lost, at whatever
      moment and for whatever reason, it has decreed or queued to part; only one
      who outranks it may it kill instead. */
  lemma {:induction false} LostAcceptorsAreParted(run: seq<Group>, k: nat)
    requires IsRun(run) && LostAreParted(run[0]) && k < |run| && run[k].alive
    ensures LostAreParted(run[k])
  {
    hide Apply, Sane, Possible, LostAreParted;
    if k > 0 {
      assert Next(run[k - 1], run[k]);
      var e :| Possible(run[k - 1], e) && run[k] == Apply(run[k - 1], e);
      PossibleAlive(run[k - 1], e);
      LostAcceptorsAreParted(run, k - 1);
      RunSane(run, k - 1);
      EventParts(run[k - 1], e);
    }
  }

  /** Whomever we kill outranks us. */
  predicate KillsOutrank(vs: seq<Value>, self: NodeId) {
    forall m :: 0 <= m < |vs| && vs[m].kind == DecKill ==> vs[m].extra < self
  }

  predicate KillsAreOfSuperiors(g: Group) {
    KillsOutrank(g.queue, g.self) && KillsOutrank(g.decreed, g.self)
  }

  lemma KillsJoin(vs: seq<Value>, more: seq<Value>, self: NodeId)
    requires KillsOutrank(vs, self) && KillsOutrank(more, self)
    ensures KillsOutrank(vs + more, self)
  {
  }

  lemma PartsKillSuperiors(l: seq<Acceptor>, self: NodeId, reqId: nat)
    requires Ranked(l)
    ensures KillsOutrank(Parts(l, self, reqId), self)
  {
    hide Ranked, IsParted;
    PartsAreOfUnreachable(l, self, reqId);
    var parts := Parts(l, self, reqId);
    forall m | 0 <= m < |parts| && parts[m].kind == DecKill ensures parts[m].extra < self {
      assert PartsSomeone(parts[m], l, self);
    }
  }

  lemma PrepareKills(g: Group, anew: bool)
    requires Ranked(g.alist) && KillsAreOfSuperiors(g)
    ensures KillsAreOfSuperiors(Prepare(g, anew))
  {
    PartsKillSuperiors(g.alist, g.self, g.reqId);
    KillsJoin(g.queue, Parts(g.alist, g.self, g.reqId), g.self);
    assert g.queue + [] == g.queue;
    hide Parts, Ranked, KillsOutrank;
  }

  lemma SucceedKills(g: Group)
    requires Ranked(g.alist) && KillsAreOfSuperiors(g)
    ensures KillsAreOfSuperiors(Succeed(g))
  {
    hide Prepare, Ranked, LeaderOf;
    PrepareKills(Reset(g), true);
  }

  lemma DecreePartKills(g: Group, id: NodeId)
    requires KillsAreOfSuperiors(g)
    ensures KillsAreOfSuperiors(DecreePart(g, id, false))
  {
    var v := Value(DecPart, ReqId(g.self, g.reqId + 1), id);
    KillsJoin(g.queue, [v], g.self);
    KillsJoin(g.decreed, [v], g.self);
  }

  lemma EventKills(g: Group, e: Event)
    requires Sane(g) && KillsAreOfSuperiors(g) && Possible(g, e)
    ensures KillsAreOfSuperiors(Apply(g, e))
  {
    hide KillsOutrank, Ranked, Lists, Succeed, Prepare, DecreePart, SetPeer, InsertAcceptor, LeaderOf, Disconnected;
    match e
    case Dropped(source) =>
      var k := JoinedBy(g.alist, source, 0);
      if k.Some? {
        SetPeerLists(g.alist, k.value, None);
        var r := g.(alist := SetPeer(g.alist, k.value, None), live := g.live - 1);
        DecreePartKills(r, g.alist[k.value].id);
        SucceedKills(r);
      }
    case Greeted(source, id, b) =>
    case Joined(id, connection) => JoinKills(g, id, connection);
    case Parted(id) =>
      var k := IndexOf(g.alist, id);
      if k.Some? && id != g.self {
        RemovedLists(g.alist, g.self, k.value);
        SucceedKills(g.(alist := Removed(g.alist, k.value), live := g.live - One(g.alist[k.value].peer)));
      }
    case Redirected(superior, b, connection) =>
      if g.prep.Some? {
        var r := g.(prep := Some(g.prep.value.(redirects := g.prep.value.redirects + 1)));
        PrepareKills(r.(prep := None), false);
        NoKills(g.self);
      }
    case Refused(superior, connection) => NoKills(g.self);
    case Rejoined(id, connection) =>
    case Promised(b) =>
    case PromiseCounted(b, nulls) =>
      KillsJoin(g.decreed, g.queue, g.self);
      NoKills(g.self);
    case Connecting(id, connection) =>
  }

  lemma NoKills(self: NodeId)
    ensures KillsOutrank([], self)
  {
  }

  lemma JoinKills(g: Group, id: NodeId, connection: Option<nat>)
    requires KillsAreOfSuperiors(g)
    ensures KillsAreOfSuperiors(LearnJoin(g, id, connection))
  {
    hide Removed, KillsOutrank, DecreePart;
    var k := IndexOf(g.adefer, id);
    var x := if k.Some? then g.adefer[k.value] else Acceptor(id, None);
    var r := g.(
      adefer := if k.Some? then Removed(g.adefer, k.value) else g.adefer,
      live := if k.Some? then g.live + 1 else g.live);
    DecreePartKills(r.(alist := g.alist + [x.(peer := connection)]), id);
  }

  /** Over every run, each kill that a participant has queued or decreed on
      losing or succeeding someone names one who outranks it. */
  lemma {:induction false} OnlySuperiorsAreKilled(run: seq<Group>, k: nat)
    requires IsRun(run) && KillsAreOfSuperiors(run[0]) && k < |run| && run[k].alive
    ensures KillsAreOfSuperiors(run[k])
  {
    hide Apply, Sane, Possible, KillsAreOfSuperiors;
    if k > 0 {
      assert Next(run[k - 1], run[k]);
      var e :| Possible(run[k - 1], e) && run[k] == Apply(run[k - 1], e);
      PossibleAlive(run[k - 1], e);
      OnlySuperiorsAreKilled(run, k - 1);
      RunSane(run, k - 1);
      EventKills(run[k - 1], e);
    }
  }

  // ---- The exceptions are reached.

  lemma OneMore(run: seq<Group>, e: Event) returns (more: seq<Group>)
    requires IsRun(run) && Possible(run[|run| - 1], e)
    ensures IsRun(more) && more[0] == run[0] && more[|more| - 1] == Apply(run[|run| - 1], e)
  {
    hide Apply, Possible, Sane;
    var r := Apply(run[|run| - 1], e);
    more := run + [r];
    forall k | 0 <= k < |more| - 1 ensures Next(more[k], more[k + 1]) {
      if k < |run| - 1 {
        assert more[k] == run[k] && more[k + 1] == run[k + 1] && Next(run[k], run[k + 1]);
      } else {
        assert more[k] == run[|run| - 1] && more[k + 1] == r;
      }
    }
  }

  /** The second of five, welcomed by the first. */
  const Second := Group(2, true, false,
                        [Acceptor(1, Some(5)), Acceptor(2, None), Acceptor(3, Some(6)), Acceptor(4, Some(7)), Acceptor(5, Some(8))],
                        [], 5, 1, Ballot(1, 1), 1, 0, None, [], [])

  /** Its list once it has lost the first. */
  const Left: seq<Acceptor> :=
    [Acceptor(1, None), Acceptor(2, None), Acceptor(3, Some(6)), Acceptor(4, Some(7)), Acceptor(5, Some(8))]

  lemma SecondInOrder()
    ensures InOrder(Second) && Sane(Second) && Disconnected(Second.alist, 2) && Accounted(Second) && IsRun([Second])
  {
    var l := Second.alist;
    assert l[0].id == 1 && l[1].id == 2 && Reachable(l[0], 2);
    SecondCount();
    hide Connected;
  }

  lemma SecondCount()
    ensures Connected(Second.alist, 2) == 4
  {
    var l := Second.alist;
    AppendCount(l[..4], l[4], 2);
    AppendCount(l[..3], l[3], 2);
    AppendCount(l[..2], l[2], 2);
    AppendCount(l[..1], l[1], 2);
    ConnectedOne(l[0], 2);
    assert l == l[..4] + [l[4]] && l[..4] == l[..3] + [l[3]] && l[..3] == l[..2] + [l[2]];
    assert l[..2] == l[..1] + [l[1]] && l[..1] == [l[0]];
    hide Connected;
  }

  /** The second, deferring whatever hellos, loses the first and prepares. */
  lemma SecondPrepares(g: Group)
    requires g == Second.(adefer := g.adefer)
    ensures var r := Drop(g, 5);
      && r.alive && Leads(r) && r.self == 2 && r.prep == Some(Bid(Ballot(2, 2), 1, 0)) && r.alist == Left && r.adefer == g.adefer
  {
    hide Parts;
    assert JoinedBy(g.alist, 5, 0) == Some(0);
    var l := SetPeer(g.alist, 0, None);
    assert l == Left;
    assert LeaderOf(l, 2, 0) == LeaderOf(l, 2, 1) == Some(1);
  }

  lemma InOrderParts(g: Group)
    requires InOrder(g)
    ensures Sane(g) && Disconnected(g.alist, g.self) && Ranked(g.alist)
  {
  }

  /** Two promises are enough. */
  lemma SecondPromised(g: Group)
    requires g.alive && Leads(g) && g.self == 2 && g.prep == Some(Bid(Ballot(2, 2), 1, 0)) && g.alist == Left
    ensures var p := CountPromise(g, Ballot(2, 2), 0);
      var r := CountPromise(p, Ballot(2, 2), 0);
      && p.alive && r.alive && Established(r) && r.self == 2 && r.alist == Left && r.adefer == g.adefer
      && r.ballot == Ballot(2, 2)
  {
  }

  lemma NoException(g: Group, e: Event)
    requires e.Dropped? || e.PromiseCounted? || (e.Greeted? && e.id != g.self)
    ensures !ConnectsSelf(g, e) && !Outranked(g, e) && !CountsTwice(g, e)
  {
  }

  /** A run grows by an event that upsets nothing. */
  lemma Undisturbed(run: seq<Group>, e: Event) returns (more: seq<Group>)
    requires IsRun(run) && InOrder(run[|run| - 1]) && Accounted(run[|run| - 1])
    requires Possible(run[|run| - 1], e) && Apply(run[|run| - 1], e).alive
    requires e.Dropped? || e.PromiseCounted? || (e.Greeted? && e.id != run[|run| - 1].self)
    ensures IsRun(more) && more[0] == run[0] && more[|more| - 1] == Apply(run[|run| - 1], e)
    ensures InOrder(more[|more| - 1]) && Accounted(more[|more| - 1])
  {
    hide InOrder, Accounted, Sane, Disconnected, ConnectsSelf, Outranked, CountsTwice, Possible, Apply;
    var g := run[|run| - 1];
    InOrderParts(g);
    NoException(g, e);
    EventInOrder(g, e);
    EventAccounted(g, e);
    more := OneMore(run, e);
  }

  lemma PossibleHere(g: Group, e: Event)
    requires g.alive && (e.Dropped? || e.PromiseCounted? || (e.Greeted? && e.id != g.self))
    ensures Possible(g, e)
  {
  }

  /** The first is lost, and the second prepares and is promised, having deferred the given hellos. */
  lemma SecondTakesOver(before: seq<Group>) returns (run: seq<Group>)
    requires IsRun(before)
    requires var g := before[|before| - 1]; g == Second.(adefer := g.adefer) && InOrder(g) && Accounted(g)
    ensures IsRun(run) && run[0] == before[0]
    ensures var r := run[|run| - 1];
      && InOrder(r) && Accounted(r) && r.alive && Established(r) && r.self == 2 && r.alist == Left
      && r.adefer == before[|before| - 1].adefer && r.ballot == Ballot(2, 2)
  {
    hide InOrder, Accounted, Sane, Drop, CountPromise, Possible;
    var lost, promise := Dropped(5), PromiseCounted(Ballot(2, 2), 0);
    var g := before[|before| - 1];
    SecondPrepares(g);
    PossibleHere(g, lost);
    run := Undisturbed(before, lost);
    g := run[|run| - 1];
    SecondPromised(g);
    PossibleHere(g, promise);
    run := Undisturbed(run, promise);
    PossibleHere(run[|run| - 1], promise);
    run := Undisturbed(run, promise);
  }

  lemma SecondEstablished() returns (run: seq<Group>)
    ensures IsRun(run) && InOrder(run[0]) && Accounted(run[0])
    ensures var r := run[|run| - 1];
      && InOrder(r) && Accounted(r) && r.alive && Established(r) && r.self == 2 && r.alist == Left && r.ballot == Ballot(2, 2)
  {
    hide InOrder, Accounted, Sane;
    SecondInOrder();
    run := SecondTakesOver([Second]);
  }

  lemma SecondDefers()
    ensures Hello(Second, 9, 6, Ballot(1, 1)) == Second.(adefer := [Acceptor(6, Some(9))])
    ensures IndexOf([Acceptor(6, Some(9))], 6).Some?
  {
    hide IndexOf;
    assert [Acceptor(6, Some(9))][0].id == 6;
    assert !Lists(Second.alist, 6);
    ListedIndex(Second.alist, 6);
    ListedIndex([Acceptor(6, Some(9))], 6);
  }

  /** The second hears from the sixth before it has learned the sixth's join,
      and defers the hello; then the first is lost.  When the second, now the
      proposer, learns the join, it counts the sixth twice. */
  lemma MiscountIsReached() returns (run: seq<Group>)
    ensures IsRun(run) && run[0] == Second && InOrder(run[0]) && Accounted(run[0])
    ensures var last := run[|run| - 1];
      last.alive && Established(last) && InOrder(last) && !Accounted(last)
  {
    hide InOrder, Accounted, Sane, Hello, LearnJoin, Possible, IndexOf, ConnectsSelf, Disconnected, Outranked;
    SecondInOrder();
    var hello, join := Greeted(9, 6, Ballot(1, 1)), Joined(6, Some(10));
    PossibleHere(Second, hello);
    SecondDefers();
    run := Undisturbed([Second], hello);
    run := SecondTakesOver(run);
    var g := run[|run| - 1];
    InOrderParts(g);
    JoinPossible(g, join);
    JoinLives(g, 6, Some(10));
    EventAccounted(g, join);
    EventInOrder(g, join);
    JoinHarmless(g, join);
    run := OneMore(run, join);
  }

  lemma JoinHarmless(g: Group, e: Event)
    requires e.Joined?
    ensures !ConnectsSelf(g, e) && !Outranked(g, e)
  {
  }

  lemma JoinPossible(g: Group, e: Event)
    requires g.alive && g.alist == Left && e.Joined? && e.id > 5
    ensures Possible(g, e)
  {
  }

  lemma JoinLives(g: Group, id: NodeId, connection: Option<nat>)
    ensures var r := LearnJoin(g, id, connection);
      r.alive == g.alive && (Established(g) ==> Established(r))
  {
  }

  lemma RejoinLives(g: Group, id: NodeId, peer: nat, k: nat)
    requires Ranked(g.alist) && k < |g.alist| && g.alist[k] == Acceptor(id, None) && Established(g)
    ensures var r := Rejoin(g, id, Some(peer)); r.alive == g.alive && Established(r)
    ensures Lists(g.alist, id) && Disconnected(g.alist, id)
  {
    IndexUnique(g.alist, k);
  }

  /** A proposer whose inherited part of itself is rejected holds a connection
      to itself, and counts itself twice; its hello to itself changes nothing. */
  lemma SelfRejoinIsReached() returns (run: seq<Group>)
    ensures IsRun(run) && InOrder(run[0]) && Accounted(run[0])
    ensures var last := run[|run| - 1]; last.alive && Established(last) && !InOrder(last) && !Accounted(last)
    ensures Possible(run[|run| - 1], Greeted(11, 2, Ballot(2, 2)))
    ensures Apply(run[|run| - 1], Greeted(11, 2, Ballot(2, 2))) == run[|run| - 1]
  {
    hide InOrder, Accounted, Sane, Rejoin, Hello, Disconnected, Lists, Ranked;
    run := SecondEstablished();
    var r := run[|run| - 1];
    InOrderParts(r);
    RejoinLives(r, 2, 10, 1);
    var e := Rejoined(2, Some(10));
    run := OneMore(run, e);
    EventInOrder(r, e);
    EventAccounted(r, e);
    SelfHelloIsIdle(r, Rejoin(r, 2, Some(10)), 10, 11);
  }

  lemma SelfHelloIsIdle(g: Group, r: Group, peer: nat, source: nat)
    requires Ranked(g.alist) && g.alist == Left && g.self == 2 && Established(g) && g.ballot == Ballot(2, 2)
    requires r == Rejoin(g, 2, Some(peer))
    ensures r.ballot == Ballot(2, 2) && r.self == 2 && Hello(r, source, 2, Ballot(2, 2)) == r
  {
    IndexUnique(g.alist, 1);
    var l := SetPeer(g.alist, 1, Some(peer));
    assert Ranked(l) && l[1] == Acceptor(2, Some(peer));
    IndexUnique(l, 1);
    hide IndexOf;
  }

  /** One whose inherited part of its superior is rejected is connected to the
      superior and remains the proposer. */
  lemma SuperiorRejoinIsReached() returns (run: seq<Group>)
    ensures IsRun(run) && InOrder(run[0]) && Accounted(run[0])
    ensures var last := run[|run| - 1]; last.alive && Established(last) && !InOrder(last) && Accounted(last)
  {
    hide InOrder, Accounted, Sane, Rejoin, Disconnected, Lists, Ranked;
    run := SecondEstablished();
    var r := run[|run| - 1];
    InOrderParts(r);
    RejoinLives(r, 1, 10, 0);
    var e := Rejoined(1, Some(10));
    run := OneMore(run, e);
    EventInOrder(r, e);
    EventAccounted(r, e);
  }

  /** The third, welcomed by the second, which has lost the first. */
  const Third := Group(3, true, false, [Acceptor(1, None), Acceptor(2, Some(5)), Acceptor(3, None)], [], 2, 2,
                       Ballot(2, 2), 2, 0, None, [], [])

  lemma ThirdInOrder()
    ensures InOrder(Third) && Outranked(Third, Connecting(1, Some(6))) && Possible(Third, Connecting(1, Some(6)))
  {
    var l := Third.alist;
    assert l[0].id == 1 && l[1].id == 2 && l[2].id == 3 && Reachable(l[1], 3);
  }

  /** A newcomer that reaches one the proposer has lost takes the proposer's
      word over its own connection. */
  lemma SuperiorWelcomeIsReached() returns (run: seq<Group>)
    ensures IsRun(run) && InOrder(run[0])
    ensures var last := run[|run| - 1]; last.alive && !InOrder(last)
  {
    ThirdInOrder();
    hide InOrder, Outranked, Possible, Sane;
    InOrderParts(Third);
    var e := Connecting(1, Some(6));
    run := OneMore([Third], e);
    EventInOrder(Third, e);
  }

  // ---- Fresh ballots.

  /** A prepare begun now takes a ballot above the one held. */
  predicate Outbids(g: Group) {
    Below(g.ballot, Ballot(g.self, g.genHigh + 1))
  }

  /** The highest generation seen bounds the one held. */
  predicate Covered(g: Group) {
    g.ballot.gen <= g.genHigh
  }

  /** A hello of the proposer, or of one who becomes it, under a generation above
      all seen: it replaces the ballot held, and the highest generation stays. */
  predicate Overtakes(g: Group, e: Event) {
    && e.Greeted? && e.ballot.gen > g.genHigh && !(Established(g) && e.id < g.self) && Lists(g.alist, e.id)
    && (e.id == g.proposer || (e.id < g.proposer && Disconnected(g.alist, e.id)))
  }

  /** The next prepare that a session begins is in a ballot above the one it
      holds exactly if the generation held is covered, or is the next one and
      held from somebody who ranks below us. */
  lemma NextOutbids(g: Group, anew: bool)
    requires g.prep.None? && Prepare(g, anew).alive
    ensures var r := Prepare(g, anew);
      && r.prep.Some? && r.ballot == g.ballot
      && (Below(r.ballot, r.prep.value.ballot) <==>
            Covered(g) || (g.ballot.gen == g.genHigh + 1 && g.self < g.ballot.id))
  {
    hide Parts;
  }

  /** Preparing in a ballot no lower than the highest generation seen. */
  predicate PrepCovered(g: Group) {
    g.prep.Some? ==> g.prep.value.ballot.gen <= g.genHigh
  }

  lemma HelloCovered(g: Group, source: nat, id: NodeId, b: Ballot)
    requires Sane(g) && BothCovered(g)
    ensures var r, e := Hello(g, source, id, b), Greeted(source, id, b);
      PrepCovered(r) && (Covered(r) <==> !Overtakes(g, e))
  {
    hide SetPeer, Ranked, InsertAcceptor, Lists, Disconnected;
    SaneRanked(g);
    ListedIndex(g.alist, id);
  }

  lemma SaneRanked(g: Group)
    requires Sane(g)
    ensures Ranked(g.alist)
  {
  }

  /** The generation held, and that being prepared, are both covered. */
  predicate BothCovered(g: Group) {
    Covered(g) && PrepCovered(g)
  }

  lemma DropCovered(g: Group, source: nat)
    requires BothCovered(g)
    ensures BothCovered(Drop(g, source))
  {
    hide SetPeer, Succeed;
    var k := JoinedBy(g.alist, source, 0);
    if k.Some? { SuccessionBounds(g.(alist := SetPeer(g.alist, k.value, None), live := g.live - 1)); }
  }

  lemma PartCovered(g: Group, id: NodeId)
    requires BothCovered(g)
    ensures BothCovered(LearnPart(g, id))
  {
    hide Removed, Succeed;
    var k := IndexOf(g.alist, id);
    if k.Some? { SuccessionBounds(g.(alist := Removed(g.alist, k.value), live := g.live - One(g.alist[k.value].peer))); }
  }

  lemma RedirectCovered(g: Group, superior: NodeId, b: Ballot, connection: Option<nat>)
    requires BothCovered(g)
    ensures BothCovered(Redirect(g, superior, b, connection)) && BothCovered(Refuse(g, superior, connection))
  {
    hide SetPeer, Parts;
  }

  lemma RestCovered(g: Group, id: NodeId, connection: Option<nat>, b: Ballot, nulls: nat)
    requires BothCovered(g) && (g.prep.Some? ==> Leads(g))
    ensures BothCovered(LearnJoin(g, id, connection)) && BothCovered(Rejoin(g, id, connection))
    ensures BothCovered(WelcomeConnect(g, id, connection)) && BothCovered(Promise(g, b)) && BothCovered(CountPromise(g, b, nulls))
  {
    hide SetPeer, Removed, IndexOf;
  }

  /** Exactly which events leave a session with a generation above all it has seen. */
  lemma EventCovered(g: Group, e: Event)
    requires Sane(g) && BothCovered(g)
    ensures Covered(Apply(g, e)) <==> !Overtakes(g, e)
    ensures PrepCovered(Apply(g, e))
  {
    assert g.prep.Some? ==> Leads(g);
    hide Sane, Drop, Hello, LearnJoin, LearnPart, Redirect, Refuse, Rejoin, WelcomeConnect, Promise, CountPromise;
    match e
    case Dropped(source) => DropCovered(g, source);
    case Greeted(source, id, b) => HelloCovered(g, source, id, b);
    case Joined(id, connection) => RestCovered(g, id, connection, g.ballot, 0);
    case Parted(id) => PartCovered(g, id);
    case Redirected(superior, b, connection) => RedirectCovered(g, superior, b, connection);
    case Refused(superior, connection) => RedirectCovered(g, superior, g.ballot, connection);
    case Rejoined(id, connection) => RestCovered(g, id, connection, g.ballot, 0);
    case Promised(b) => RestCovered(g, 0, None, b, 0);
    case PromiseCounted(b, nulls) => RestCovered(g, 0, None, b, nulls);
    case Connecting(id, connection) => RestCovered(g, id, connection, g.ballot, 0);
  }

  lemma SuccessionBounds(g: Group)
    requires BothCovered(g)
    ensures BothCovered(Succeed(g))
  {
    hide Parts, LeaderOf;
  }

  /** The fourth of seven, welcomed by the first. */
  const Fourth := Group(4, true, false,
                        [Acceptor(1, Some(11)), Acceptor(2, Some(12)), Acceptor(3, Some(13)), Acceptor(4, None),
                         Acceptor(5, Some(15)), Acceptor(6, Some(16)), Acceptor(7, Some(17))],
                        [], 7, 1, Ballot(1, 1), 1, 0, None, [], [])

  /** The fourth's session with these connections to the first three. */
  function Placed(peers: seq<Option<nat>>, live: int, proposer: NodeId, b: Ballot): Group
    requires |peers| == 3
  {
    Fourth.(
      alist := [Acceptor(1, peers[0]), Acceptor(2, peers[1]), Acceptor(3, peers[2])] + Fourth.alist[3..],
      live := live, proposer := proposer, ballot := b)
  }

  lemma PlacedList(peers: seq<Option<nat>>, live: int, proposer: NodeId, b: Ballot)
    requires |peers| == 3
    ensures Placed(peers, live, proposer, b).alist ==
            [Acceptor(1, peers[0]), Acceptor(2, peers[1]), Acceptor(3, peers[2]), Acceptor(4, None),
             Acceptor(5, Some(15)), Acceptor(6, Some(16)), Acceptor(7, Some(17))]
  {
  }

  lemma FourthInOrder()
    ensures InOrder(Fourth) && Sane(Fourth) && Accounted(Fourth) && IsRun([Fourth])
    ensures Placed([Some(11), Some(12), Some(13)], 7, 1, Ballot(1, 1)) == Fourth
  {
    var l := Fourth.alist;
    assert l[0].id == 1 && l[3].id == 4 && Reachable(l[0], 4);
    FourthCount();
    hide Connected;
  }

  lemma FourthCount()
    ensures Connected(Fourth.alist, 4) == 6
  {
    var l := Fourth.alist;
    forall k: nat | k < 7 ensures l[..k + 1] == l[..k] + [l[k]] { }
    AppendCount(l[..6], l[6], 4);
    AppendCount(l[..5], l[5], 4);
    AppendCount(l[..4], l[4], 4);
    AppendCount(l[..3], l[3], 4);
    AppendCount(l[..2], l[2], 4);
    AppendCount(l[..1], l[1], 4);
    ConnectedOne(l[0], 4);
    assert l[..7] == l && l[..1] == [l[0]];
    hide Connected;
  }

  lemma FirstJoined(l: seq<Acceptor>, source: nat, k: nat)
    requires k < |l| && l[k].peer == Some(source) && forall j :: 0 <= j < k ==> l[j].peer != Some(source)
    ensures JoinedBy(l, source, 0) == Some(k)
  {
    var r := JoinedBy(l, source, 0);
    assert l[k].peer == Some(source) && r.Some?;
  }

  lemma FirstLeads(l: seq<Acceptor>, self: NodeId, k: nat)
    requires FirstReachable(l, self, k)
    ensures LeaderOf(l, self, 0) == Some(k)
  {
    var r := LeaderOf(l, self, 0);
    assert Reachable(l[k], self) && r.Some?;
  }

  /** It loses its proposer, the `k`th of the first three, and takes the next for it. */
  lemma FourthLoses(peers: seq<Option<nat>>, live: int, b: Ballot, k: nat, next: nat)
    requires |peers| == 3 && k < next < 3 && peers[k].Some? && peers[next].Some? && peers[k].value !in {15, 16, 17}
    requires forall j :: 0 <= j < next && j != k ==> peers[j].None?
    ensures Drop(Placed(peers, live, k + 1, b), peers[k].value) == Placed(peers[k := None], live - 1, next + 1, b)
  {
    hide JoinedBy, LeaderOf, Parts;
    var g, r := Placed(peers, live, k + 1, b), Placed(peers[k := None], live - 1, next + 1, b);
    PlacedList(peers, live, k + 1, b);
    PlacedList(peers[k := None], live - 1, next + 1, b);
    FirstJoined(g.alist, peers[k].value, k);
    assert SetPeer(g.alist, k, None) == r.alist;
    FirstLeads(r.alist, 4, next);
  }

  /** The second says hello to it with a higher ballot. */
  lemma FourthHears(b: Ballot)
    ensures Hello(Placed([None, None, Some(13)], 5, 3, Ballot(1, 1)), 20, 2, b) == Placed([None, Some(20), Some(13)], 6, 2, b)
  {
    var g, r := Placed([None, None, Some(13)], 5, 3, Ballot(1, 1)), Placed([None, Some(20), Some(13)], 6, 2, b);
    PlacedList([None, None, Some(13)], 5, 3, Ballot(1, 1));
    PlacedList([None, Some(20), Some(13)], 6, 2, b);
    IndexUnique(g.alist, 1);
    assert SetPeer(g.alist, 1, Some(20)) == r.alist;
    hide IndexOf;
  }

  /** With nobody left above it, it prepares. */
  lemma FourthPrepares(b: Ballot)
    ensures var r := Drop(Placed([None, None, Some(13)], 5, 3, b), 13);
      r.alive && Leads(r) && r.prep == Some(Bid(Ballot(4, 2), 1, 0)) && r.ballot == b
  {
    hide JoinedBy, LeaderOf, Parts;
    var g := Placed([None, None, Some(13)], 5, 3, b);
    PlacedList([None, None, Some(13)], 5, 3, b);
    PlacedList([None, None, None], 4, 3, b);
    FirstJoined(g.alist, 13, 2);
    assert SetPeer(g.alist, 2, None) == Placed([None, None, None], 4, 3, b).alist;
    FirstLeads(SetPeer(g.alist, 2, None), 4, 3);
  }

  lemma PlacedGoes(peers: seq<Option<nat>>, live: int, proposer: NodeId, b: Ballot)
    requires |peers| == 3
    ensures var g := Placed(peers, live, proposer, b); g.alive && g.self == 4
  {
  }

  /** The fourth loses the first and the second; the second, which has prepared
      meanwhile, says hello and is lost again, as is the third.  Then the fourth
      prepares, in a ballot below the one it holds. */
  lemma UnderbidIsReached() returns (run: seq<Group>)
    ensures IsRun(run) && run[0] == Fourth && InOrder(run[0]) && Accounted(run[0]) && Covered(run[0])
    ensures var last := run[|run| - 1];
      && last.alive && InOrder(last) && Accounted(last) && Leads(last)
      && last.prep.Some? && Below(last.prep.value.ballot, last.ballot)
  {
    hide InOrder, Accounted, Sane, Drop, Hello, Possible, Placed;
    var low, mid := Ballot(1, 1), Ballot(2, 2);
    FourthInOrder();
    FourthLoses([Some(11), Some(12), Some(13)], 7, low, 0, 1);
    assert [Some(11), Some(12), Some(13)][0 := None] == [None, Some(12), Some(13)];
    PlacedGoes([None, Some(12), Some(13)], 6, 2, low);
    PossibleHere(Fourth, Dropped(11));
    run := Undisturbed([Fourth], Dropped(11));
    FourthLoses([None, Some(12), Some(13)], 6, low, 1, 2);
    assert [None, Some(12), Some(13)][1 := None] == [None, None, Some(13)];
    PlacedGoes([None, None, Some(13)], 5, 3, low);
    PossibleHere(run[|run| - 1], Dropped(12));
    run := Undisturbed(run, Dropped(12));
    FourthHears(mid);
    PlacedGoes([None, Some(20), Some(13)], 6, 2, mid);
    PossibleHere(run[|run| - 1], Greeted(20, 2, mid));
    run := Undisturbed(run, Greeted(20, 2, mid));
    FourthLoses([None, Some(20), Some(13)], 6, mid, 1, 2);
    assert [None, Some(20), Some(13)][1 := None] == [None, None, Some(13)];
    PlacedGoes([None, None, Some(13)], 5, 3, mid);
    PossibleHere(run[|run| - 1], Dropped(20));
    run := Undisturbed(run, Dropped(20));
    FourthPrepares(mid);
    PossibleHere(run[|run| - 1], Dropped(13));
    run := Undisturbed(run, Dropped(13));
  }

  // ---- Redirects.

  /** When every live acceptor has answered a prepare once, exactly one of these
      holds: the promises are a majority, the redirects with the dead are a
      majority, or an even membership is split in half. */
  lemma RedirectTrichotomy(g: Group)
    requires g.prep.Some? && g.prep.value.acks + g.prep.value.redirects == g.live
    ensures var n, acks, dead := |g.alist|, g.prep.value.acks, DeathAdjusted(g, g.prep.value.redirects);
      var won, lost, tied := acks >= Majority(n), dead >= Majority(n), n % 2 == 0 && acks == n / 2 && dead == n / 2;
      (won || lost || tied) && !(won && lost) && !(won && tied) && !(lost && tied)
  {
  }

  /** An even membership of which half has promised. */
  predicate SplitEvenly(g: Group) {
    g.prep.Some? && |g.alist| % 2 == 0 && g.prep.value.acks == |g.alist| / 2
  }

  /** The last answer to an undecided prepare makes us prepare again, in a fresh
      ballot or not at all if too few are live, exactly if the membership is
      split evenly or the superior cannot be reached; otherwise we defer. */
  lemma LastAnswerDecides(g: Group, superior: NodeId, b: Ballot, connection: Option<nat>)
    requires Leads(g) && g.prep.Some? && g.prep.value.ballot == b && superior < g.self
    requires Lists(g.alist, superior) && Disconnected(g.alist, superior)
    requires g.prep.value.acks < Majority(|g.alist|) && g.prep.value.acks + g.prep.value.redirects + 1 == g.live
    ensures var r := Redirect(g, superior, b, connection);
      if SplitEvenly(g) || connection.None? then
        && Leads(r) && r.queue == g.queue && r.alist == g.alist
        && (if g.live < Majority(|g.alist|) then !r.alive && r.failed == g.failed
            else r.prep == Some(Bid(Ballot(g.self, g.genHigh + 1), 1, 0)) && r.alive == g.alive)
      else
        r.proposer == superior && r.prep.None? && r.queue == [] && r.live == g.live + 1
  {
    ListedIndex(g.alist, superior);
    assert g.queue + [] == g.queue;
    hide Lists, Parts;
  }
}
