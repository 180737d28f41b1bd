/** What a session makes of each event, in terms of whom it is connected to,
    whom it takes for the proposer, and what it has decreed or queued. */
module Reactions {
  import opened Types
  import opened Quorums
  import opened Seqs
  import opened Membership
  import opened Leadership

  /** The lists have the same acceptors with the same connections, but for `id`, whose is now `peer`. */
  ghost predicate OnlyPeer(l: seq<Acceptor>, l': seq<Acceptor>, id: NodeId, peer: Option<nat>) {
    && |l'| == |l|
    && forall k :: 0 <= k < |l| ==> l'[k].id == l[k].id && l'[k].peer == if l[k].id == id then peer else l[k].peer
  }

  lemma SetIsOnly(l: seq<Acceptor>, k: nat, peer: Option<nat>)
    requires Ranked(l) && k < |l|
    ensures OnlyPeer(l, SetPeer(l, k, peer), l[k].id, peer)
  {
  }

  /** `r` is connected to `id` over `peer` besides, and counts one more. */
  ghost predicate Gains(g: Group, r: Group, id: NodeId, peer: nat) {
    OnlyPeer(g.alist, r.alist, id, Some(peer)) && r.live == g.live + 1
  }

  // ---- Redirects, refusals and rejects.

  /** Leaves for want of live acceptors, or prepares in a fresh ballot. */
  predicate PreparesAgain(g: Group, r: Group) {
    && Leads(r) && r.self == g.self && r.failed == g.failed && r.alist == g.alist && r.live == g.live && r.queue == g.queue
    && r.decreed == g.decreed && r.ballot == g.ballot
    && if g.live < Majority(|g.alist|) then !r.alive
       else r.alive == g.alive && r.genHigh == g.genHigh + 1 && r.prep == Some(Bid(Ballot(g.self, r.genHigh), 1, 0))
  }

  /** Every redirect of our prepare to a superior that could be reconnected to,
      whether or not others are still to answer.  We defer to the superior if
      and only if the redirects with the dead reach a majority and the
      connection succeeds.  We prepare again, or leave, if and only if they do
      and it fails, or all have answered and neither side has a majority.
      Otherwise one more redirect is counted. */
  lemma RedirectAnswered(g: Group, superior: NodeId, b: Ballot, connection: Option<nat>)
    requires Leads(g) && g.prep.Some? && g.prep.value.ballot == b && superior < g.self
    requires Ranked(g.alist) && Lists(g.alist, superior) && Disconnected(g.alist, superior)
    ensures var r, bid := Redirect(g, superior, b, connection), g.prep.value;
      var outvoted := DeathAdjusted(g, bid.redirects + 1) >= Majority(|g.alist|);
      var split := bid.acks < Majority(|g.alist|) && bid.acks + bid.redirects + 1 == g.live;
      if outvoted && connection.Some? then
        && r.proposer == superior && r.prep.None? && r.queue == [] && Gains(g, r, superior, connection.value)
        && r == g.(proposer := superior, prep := None, queue := [], alist := r.alist, live := r.live)
      else if outvoted || split then PreparesAgain(g, r)
      else r == g.(prep := Some(bid.(redirects := bid.redirects + 1)))
  {
    hide Lists, Disconnected, Ranked;
    ListedIndex(g.alist, superior);
    var k := IndexOf(g.alist, superior);
    if connection.Some? { SetIsOnly(g.alist, k.value, connection); }
    assert g.queue + [] == g.queue;
    hide SetPeer, Parts, OnlyPeer;
  }

  /** A redirect of another ballot, or of no prepare at all, does nothing. */
  lemma RedirectIgnored(g: Group, superior: NodeId, b: Ballot, connection: Option<nat>)
    requires !Leads(g) || (superior < g.self && (g.prep.None? || g.prep.value.ballot != b))
    ensures Redirect(g, superior, b, connection) == g
  {
  }

  /** An acceptor refused in favour of someone above its proposer, to whom it is
      not connected, defers to that acceptor if and only if it can be reached. */
  lemma RefusalAnswered(g: Group, superior: NodeId, connection: Option<nat>)
    requires Ranked(g.alist) && Lists(g.alist, superior) && Disconnected(g.alist, superior)
    ensures var r := Refuse(g, superior, connection);
      if !Leads(g) && superior < g.proposer && connection.Some? then
        && Gains(g, r, superior, connection.value)
        && r == g.(proposer := superior, prep := None, queue := [], alist := r.alist, live := r.live)
      else r == g
  {
    hide Lists, Disconnected, Ranked;
    ListedIndex(g.alist, superior);
    var k := IndexOf(g.alist, superior);
    if connection.Some? { SetIsOnly(g.alist, k.value, connection); }
    hide SetPeer, OnlyPeer;
  }

  /** A proposer that was kept from parting someone, and can reach that acceptor,
      is connected to it from then on; it changes nothing else. */
  lemma RejoinAnswered(g: Group, id: NodeId, connection: Option<nat>)
    requires Ranked(g.alist) && Lists(g.alist, id) && Disconnected(g.alist, id)
    ensures var r := Rejoin(g, id, connection);
      if Leads(g) && connection.Some? then Gains(g, r, id, connection.value) && r == g.(alist := r.alist, live := r.live) else r == g
    ensures var r := WelcomeConnect(g, id, connection);
      if connection.Some? then Gains(g, r, id, connection.value) && r == g.(alist := r.alist, live := r.live) else r == g
  {
    hide Lists, Disconnected, Ranked;
    ListedIndex(g.alist, id);
    var k := IndexOf(g.alist, id);
    if connection.Some? { SetIsOnly(g.alist, k.value, connection); }
    hide SetPeer, OnlyPeer;
  }

  // ---- Hellos.

  /** A listed acceptor says hello, and we are not an established proposer below it. */
  predicate Heard(g: Group, id: NodeId) {
    Lists(g.alist, id) && !(Established(g) && id < g.self)
  }

  /** A hello from someone we are not connected to connects us, and makes us
      defer if and only if that acceptor outranks our proposer.  If we are
      connected, the connection of the higher-ranked of the two stays: the
      hello's if its sender outranks us, and ours otherwise.  The ballot is
      taken over if and only if the sender is our proposer after that. */
  lemma HelloAnswered(g: Group, source: nat, id: NodeId, b: Ballot)
    requires Ranked(g.alist) && Heard(g, id)
    ensures var r, alone := Hello(g, source, id, b), Disconnected(g.alist, id);
      && (alone || id < g.self ==> OnlyPeer(g.alist, r.alist, id, Some(source)))
      && (!alone && g.self <= id ==> r.alist == g.alist)
      && r.live == g.live + (if alone then 1 else 0)
      && r.proposer == (if alone && id < g.proposer then id else g.proposer)
      && r.prep == (if alone && id < g.proposer then None else g.prep)
      && r.ballot == (if id == r.proposer then b else g.ballot)
      && r == g.(alist := r.alist, live := r.live, proposer := r.proposer, prep := r.prep, ballot := r.ballot)
  {
    hide Lists, Disconnected, Ranked;
    ListedIndex(g.alist, id);
    var k := IndexOf(g.alist, id);
    SetIsOnly(g.alist, k.value, Some(source));
    hide SetPeer, OnlyPeer;
  }

  /** An established proposer ignores those who outrank it, and a hello from
      someone not listed is kept for its join, unless one is kept already. */
  lemma HelloPutOff(g: Group, source: nat, id: NodeId, b: Ballot)
    requires Ranked(g.adefer) && !Heard(g, id)
    ensures var r := Hello(g, source, id, b);
      if Established(g) && id < g.self then r == g
      else
        && r == g.(adefer := r.adefer)
        && (Lists(g.adefer, id) ==> r.adefer == g.adefer)
        && (forall x :: x in r.adefer <==> x in g.adefer || (x == Acceptor(id, Some(source)) && !Lists(g.adefer, id)))
  {
    ListedIndex(g.alist, id);
    InsertedOnce(g.adefer, Acceptor(id, Some(source)));
    hide InsertAcceptor, IndexOf;
  }

  lemma InsertedOnce(l: seq<Acceptor>, x: Acceptor)
    requires Ranked(l)
    ensures var m := InsertAcceptor(l, x);
      && (Lists(l, x.id) ==> m == l)
      && forall y :: y in m <==> y in l || (y == x && !Lists(l, x.id))
  {
    if l != [] && l[|l| - 1].id > x.id {
      var front := l[..|l| - 1];
      InsertedOnce(front, x);
      assert l == front + [l[|l| - 1]];
      assert Lists(l, x.id) <==> Lists(front, x.id) by {
        if Lists(l, x.id) { var k :| 0 <= k < |l| && l[k].id == x.id; assert front[k].id == x.id; }
        if Lists(front, x.id) { var k :| 0 <= k < |front| && front[k].id == x.id; assert l[k].id == x.id; }
      }
    } else if l != [] {
      assert l[|l| - 1].id == x.id ==> Lists(l, x.id);
      assert l[|l| - 1].id < x.id ==> !Lists(l, x.id);
    }
  }

  // ---- Losing connections.

  /** `v` is the part of `id` under our next request id. */
  predicate NextPart(g: Group, v: Value, id: NodeId) {
    v.kind == DecPart && v.extra == id && v.req == ReqId(g.self, g.reqId + 1)
  }

  /** `r` has decreed the part of `id` besides, or queued it last while preparing, and that is all. */
  ghost predicate PartsOne(g: Group, r: Group, id: NodeId) {
    && r.reqId == g.reqId + 1
    && if g.prep.Some? then r.decreed == g.decreed && exists v :: r.queue == g.queue + [v] && NextPart(g, v, id)
       else r.queue == g.queue && exists v :: r.decreed == g.decreed + [v] && NextPart(g, v, id)
  }

  lemma DecreePartParts(g: Group, id: NodeId)
    ensures var r := DecreePart(g, id, false);
      PartsOne(g, r, id) && r == g.(reqId := r.reqId, queue := r.queue, decreed := r.decreed)
    ensures var r := DecreePart(g, id, true);
      && r.reqId == g.reqId + 1 && r == g.(reqId := r.reqId, queue := r.queue, decreed := r.decreed)
      && (if g.prep.Some? then r.queue else r.decreed)
         == (if g.prep.Some? then g.queue else g.decreed) + [Value(DecKill, ReqId(g.self, g.reqId + 1), id)]
  {
    var v := Value(DecPart, ReqId(g.self, g.reqId + 1), id);
    assert NextPart(g, v, id);
  }

  /** A proposer that loses an acceptor is unconnected to it and decrees its
      part, whatever its rank.  Anyone else that loses its proposer takes the
      first it can reach, and prepares if that is itself; losing anybody else
      changes nothing more. */
  lemma DropAnswered(g: Group, k: nat)
    requires Sane(g) && k < |g.alist| && g.alist[k].peer.Some? && JoinedBy(g.alist, g.alist[k].peer.value, 0) == Some(k)
    ensures var r, id := Drop(g, g.alist[k].peer.value), g.alist[k].id;
      && OnlyPeer(g.alist, r.alist, id, None) && r.live == g.live - 1
      && if Leads(g) then
           PartsOne(g, r, id) && r == g.(alist := r.alist, live := r.live, reqId := r.reqId, queue := r.queue, decreed := r.decreed)
         else if id != g.proposer then r == g.(alist := r.alist, live := r.live)
         else IsLeader(r.alist, g.self, r.proposer) && Succeeds(g.(alist := r.alist, live := r.live), r)
  {
    hide Ranked, Lists, IsLeader, SetPeer, Succeed, OnlyPeer, DecreePart, PartsOne, Succeeds, Sane;
    SaneLists(g);
    SetIsOnly(g.alist, k, None);
    SetPeerLists(g.alist, k, None);
    var d := g.(alist := SetPeer(g.alist, k, None), live := g.live - 1);
    if Leads(g) {
      DecreePartParts(d, g.alist[k].id);
      PartsAlike(g, d, Drop(g, g.alist[k].peer.value), g.alist[k].id);
    } else {
      SucceedAnswered(d);
      SucceedCount(d);
    }
  }

  /** Which decree is made depends on the numbers and the queue alone. */
  lemma PartsAlike(g: Group, d: Group, r: Group, id: NodeId)
    requires PartsOne(d, r, id) && d == g.(alist := d.alist, live := d.live)
    ensures PartsOne(g, r, id)
  {
    if g.prep.Some? {
      var v :| r.queue == d.queue + [v] && NextPart(d, v, id);
      assert NextPart(g, v, id);
    } else {
      var v :| r.decreed == d.decreed + [v] && NextPart(d, v, id);
      assert NextPart(g, v, id);
    }
  }

  lemma DropUnknown(g: Group, source: nat)
    requires forall k :: 0 <= k < |g.alist| ==> g.alist[k].peer != Some(source)
    ensures Drop(g, source) == g
  {
  }

  /** `r` follows another, or leads and has begun to prepare anew, or has left
      for want of live acceptors. */
  predicate Succeeds(g: Group, r: Group) {
    if r.proposer != g.self then r == g.(proposer := r.proposer)
    else if g.live < Majority(|g.alist|) then r == g.(proposer := g.self, alive := false)
    else
      var parts := Parts(g.alist, g.self, g.reqId);
      r == g.(proposer := g.self, genHigh := g.genHigh + 1, prep := Some(Bid(Ballot(g.self, g.genHigh + 1), 1, 0)),
              queue := g.queue + parts, reqId := g.reqId + |parts|)
  }

  lemma SucceedAnswered(g: Group)
    requires Ranked(g.alist) && Lists(g.alist, g.self) && g.prep.None?
    ensures IsLeader(g.alist, g.self, Succeed(g).proposer) && Succeeds(g, Succeed(g))
  {
    var k := PresentReachable(g.alist, g.self);
    hide Parts, IsLeader, Reachable, Ranked, Lists;
  }

  // ---- Joins and parts.

  /** Everyone lists a newcomer last.  One who kept its hello takes it over,
      connected and counted.  A proposer connects to it itself, counting it if
      that succeeds, and decrees its part if not. */
  lemma JoinAnswered(g: Group, id: NodeId, connection: Option<nat>)
    ensures var r, kept := LearnJoin(g, id, connection), IndexOf(g.adefer, id);
      && |r.alist| == |g.alist| + 1 && r.alist[..|g.alist|] == g.alist
      && r.alist[|g.alist|].id == id
      && r.alist[|g.alist|].peer == (if Leads(g) then connection else if kept.Some? then g.adefer[kept.value].peer else None)
      && r.live == g.live + (if kept.Some? then 1 else 0) + (if Leads(g) && connection.Some? then 1 else 0)
      && |r.adefer| == |g.adefer| - (if kept.Some? then 1 else 0)
      && (if Leads(g) && connection.None? then PartsOne(g, r, id)
          else r.reqId == g.reqId && r.queue == g.queue && r.decreed == g.decreed)
      && r == g.(alist := r.alist, adefer := r.adefer, live := r.live, reqId := r.reqId, queue := r.queue, decreed := r.decreed)
  {
    var v := Value(DecPart, ReqId(g.self, g.reqId + 1), id);
    assert NextPart(g, v, id);
  }

  /** The hello that was kept for a newcomer, and no other, is used up. */
  lemma KeptHelloUsed(g: Group, id: NodeId, connection: Option<nat>)
    requires Ranked(g.adefer)
    ensures forall x :: x in LearnJoin(g, id, connection).adefer <==> x in g.adefer && x.id != id
  {
    hide Ranked, Removed, DecreePart, Lists;
    ListedIndex(g.adefer, id);
    var k := IndexOf(g.adefer, id);
    if k.Some? {
      RemovedMembers(g.adefer, k.value);
    } else {
      forall x | x in g.adefer ensures x.id != id { NotListed(g.adefer, x, id); }
    }
    DeferredStay(g, id, connection);
  }

  lemma NotListed(l: seq<Acceptor>, x: Acceptor, id: NodeId)
    requires x in l && IndexOf(l, id).None?
    ensures x.id != id
  {
    var j :| 0 <= j < |l| && l[j] == x;
  }

  lemma DeferredStay(g: Group, id: NodeId, connection: Option<nat>)
    ensures var k := IndexOf(g.adefer, id);
      LearnJoin(g, id, connection).adefer == if k.Some? then Removed(g.adefer, k.value) else g.adefer
  {
    hide Removed;
  }

  /** A parted acceptor goes off the list, and off the count if we were connected
      to it.  Our own part ends the session; our proposer's makes us take
      another; one already gone changes nothing. */
  lemma PartAnswered(g: Group, id: NodeId)
    requires Sane(g)
    ensures var r := LearnPart(g, id);
      if !Lists(g.alist, id) then r == g
      else if id == g.self then r == g.(alive := false)
      else
        && |r.alist| == |g.alist| - 1 && (forall x :: x in r.alist <==> x in g.alist && x.id != id)
        && r.live == g.live - (if Disconnected(g.alist, id) then 0 else 1)
        && if id != g.proposer then r == g.(alist := r.alist, live := r.live)
           else IsLeader(r.alist, g.self, r.proposer) && Succeeds(g.(alist := r.alist, live := r.live), r)
  {
    hide IsLeader, Lists, Disconnected, Ranked, Removed, Succeed, Succeeds, IndexOf, Sane;
    SaneLists(g);
    ListedIndex(g.alist, id);
    var k := IndexOf(g.alist, id);
    if k.Some? && id != g.self {
      RemovedLists(g.alist, g.self, k.value);
      RemovedMembers(g.alist, k.value);
      var d := g.(alist := Removed(g.alist, k.value), live := g.live - One(g.alist[k.value].peer));
      if id == g.proposer {
        SucceedAnswered(d);
        SucceedCount(d);
      }
    }
  }

  lemma SaneLists(g: Group)
    requires Sane(g)
    ensures Ranked(g.alist) && Lists(g.alist, g.self) && g.proposer <= g.self && (g.prep.Some? ==> Leads(g))
  {
  }

  lemma RemovedMembers(l: seq<Acceptor>, k: nat)
    requires Ranked(l) && k < |l|
    ensures |Removed(l, k)| == |l| - 1 && forall x :: x in Removed(l, k) <==> x in l && x.id != l[k].id
  {
    var m := Removed(l, k);
    assert |m| == |l| - 1;
    forall x ensures x in m <==> x in l && x.id != l[k].id {
      if x in m { RemainedWas(l, k, x); }
      if x in l && x.id != l[k].id { OtherRemains(l, k, x); }
    }
  }

  lemma OtherRemains(l: seq<Acceptor>, k: nat, x: Acceptor)
    requires k < |l| && x in l && x.id != l[k].id
    ensures x in Removed(l, k)
  {
    var j :| 0 <= j < |l| && l[j] == x;
    assert Removed(l, k)[if j < k then j else j - 1] == x;
  }

  lemma RemainedWas(l: seq<Acceptor>, k: nat, x: Acceptor)
    requires Ranked(l) && k < |l| && x in Removed(l, k)
    ensures x in l && x.id != l[k].id
  {
    var j :| 0 <= j < |Removed(l, k)| && Removed(l, k)[j] == x;
    assert l[if j < k then j else j + 1] == x;
  }

  // ---- Preparing.

  /** A promise of the ballot we prepare counts once, and the one that makes a
      majority takes the ballot and decrees all that was queued, in order, after
      the nulls.  Nothing else about a promise matters. */
  lemma CountAnswered(g: Group, b: Ballot, nulls: nat)
    ensures var r := CountPromise(g, b, nulls);
      if !Leads(g) || g.prep.None? || g.prep.value.ballot != b then r == g
      else if g.prep.value.acks + 1 >= Majority(|g.alist|) then
        && Established(r) && r.ballot == b && r.queue == [] && r.decreed == g.decreed + g.queue && r.reqId == g.reqId + nulls
        && r == g.(ballot := b, prep := None, queue := [], decreed := r.decreed, reqId := r.reqId)
      else r == g.(prep := Some(g.prep.value.(acks := g.prep.value.acks + 1)))
  {
  }

  /** A follower takes exactly a higher ballot of its proposer. */
  lemma BallotTaken(g: Group, b: Ballot)
    ensures var r := Promise(g, b);
      if !Leads(g) && Below(g.ballot, b) && g.proposer == b.id then r == g.(ballot := b, genHigh := b.gen) else r == g
  {
  }

  // ---- Request ids.

  /** The values are under request ids of our own, in increasing order, up to `last`. */
  predicate Numbered(vs: seq<Value>, self: NodeId, last: nat) {
    && (forall j :: 0 <= j < |vs| ==> vs[j].req.id == self && vs[j].req.gen <= last)
    && forall j, k :: 0 <= j < k < |vs| ==> vs[j].req.gen < vs[k].req.gen
  }

  /** What has been decreed and queued is numbered; an established proposer has nothing queued. */
  predicate WellNumbered(g: Group) {
    Numbered(g.decreed + g.queue, g.self, g.reqId) && (Established(g) ==> g.queue == [])
  }

  lemma NumberedMore(vs: seq<Value>, self: NodeId, last: nat, more: seq<Value>)
    requires Numbered(vs, self, last)
    requires forall m :: 0 <= m < |more| ==> more[m].req == ReqId(self, last + 1 + m)
    ensures Numbered(vs + more, self, last + |more|)
  {
  }

  lemma NumberedPrefix(vs: seq<Value>, more: seq<Value>, self: NodeId, last: nat, later: nat)
    requires Numbered(vs + more, self, last) && last <= later
    ensures Numbered(vs, self, later) && Numbered(vs + more, self, later)
  {
    assert forall j :: 0 <= j < |vs| ==> (vs + more)[j] == vs[j];
  }

  lemma PrepareNumbers(g: Group, anew: bool)
    requires Ranked(g.alist) && Numbered(g.decreed + g.queue, g.self, g.reqId) && g.prep.None?
    ensures var r := Prepare(g, anew); Numbered(r.decreed + r.queue, r.self, r.reqId) && (r.alive ==> r.prep.Some?)
  {
    hide Parts, Ranked, Numbered;
    var parts := if anew then Parts(g.alist, g.self, g.reqId) else [];
    if anew { PartsAreNumberedAll(g.alist, g.self, g.reqId); }
    NumberedMore(g.decreed + g.queue, g.self, g.reqId, parts);
    assert g.decreed + (g.queue + parts) == g.decreed + g.queue + parts;
  }

  lemma PartsAreNumberedAll(l: seq<Acceptor>, self: NodeId, reqId: nat)
    ensures forall m :: 0 <= m < |Parts(l, self, reqId)| ==> Parts(l, self, reqId)[m].req == ReqId(self, reqId + 1 + m)
  {
    forall m | 0 <= m < |Parts(l, self, reqId)| ensures Parts(l, self, reqId)[m].req == ReqId(self, reqId + 1 + m) {
      PartsAreNumbered(l, self, reqId, m);
    }
  }

  lemma SucceedNumbers(g: Group)
    requires Ranked(g.alist) && Numbered(g.decreed + g.queue, g.self, g.reqId) && g.prep.None? && !Leads(g)
    ensures var r := Succeed(g); r.alive ==> WellNumbered(r)
  {
    hide Prepare, Ranked, LeaderOf, Numbered;
    PrepareNumbers(Reset(g), true);
  }

  lemma PartNumbers(g: Group, id: NodeId)
    requires WellNumbered(g) && Leads(g)
    ensures WellNumbered(DecreePart(g, id, false))
  {
    hide Numbered;
    var v := Value(DecPart, ReqId(g.self, g.reqId + 1), id);
    NumberedMore(g.decreed + g.queue, g.self, g.reqId, [v]);
    assert g.decreed + (g.queue + [v]) == g.decreed + g.queue + [v];
    assert g.queue == [] ==> g.decreed + [v] + g.queue == g.decreed + g.queue + [v];
  }

  lemma EventNumbers(g: Group, e: Event)
    requires Sane(g) && WellNumbered(g) && Possible(g, e) && Apply(g, e).alive
    ensures WellNumbered(Apply(g, e))
  {
    hide Sane, WellNumbered, Drop, Hello, LearnJoin, LearnPart, Redirect, Refuse, Rejoin, Promise, CountPromise, WelcomeConnect;
    match e
    case Dropped(source) => DropNumbers(g, source);
    case Greeted(source, id, b) => OtherNumbers(g, source, id, b, None);
    case Joined(id, connection) => JoinNumbers(g, id, connection);
    case Parted(id) => LearnPartNumbers(g, id);
    case Redirected(superior, b, connection) => RedirectNumbers(g, superior, b, connection);
    case Refused(superior, connection) => RefuseNumbers(g, superior, connection);
    case Rejoined(id, connection) => OtherNumbers(g, 0, id, g.ballot, connection);
    case Promised(b) => OtherNumbers(g, 0, 0, b, None);
    case PromiseCounted(b, nulls) => CountNumbers(g, b, nulls);
    case Connecting(id, connection) => OtherNumbers(g, 0, id, g.ballot, connection);
  }

  lemma OtherNumbers(g: Group, source: nat, id: NodeId, b: Ballot, connection: Option<nat>)
    requires Sane(g) && WellNumbered(g)
    ensures WellNumbered(Hello(g, source, id, b)) && WellNumbered(Rejoin(g, id, connection))
    ensures WellNumbered(Promise(g, b)) && WellNumbered(WelcomeConnect(g, id, connection))
  {
    hide Numbered, Lists, Ranked, SetPeer, InsertAcceptor;
  }

  lemma RefuseNumbers(g: Group, superior: NodeId, connection: Option<nat>)
    requires Sane(g) && WellNumbered(g) && Refuse(g, superior, connection).alive
    ensures WellNumbered(Refuse(g, superior, connection))
  {
    hide Numbered, Lists, Ranked, SetPeer;
    QueueDropped(g);
  }

  lemma QueueDropped(g: Group)
    requires Numbered(g.decreed + g.queue, g.self, g.reqId)
    ensures Numbered(g.decreed + [], g.self, g.reqId)
  {
    NumberedPrefix(g.decreed, g.queue, g.self, g.reqId, g.reqId);
    assert g.decreed + [] == g.decreed;
  }

  lemma CountNumbers(g: Group, b: Ballot, nulls: nat)
    requires WellNumbered(g)
    ensures WellNumbered(CountPromise(g, b, nulls))
  {
    hide Numbered;
    NumberedPrefix(g.decreed, g.queue, g.self, g.reqId, g.reqId + nulls);
    assert g.decreed + g.queue + [] == g.decreed + g.queue;
  }

  lemma DropNumbers(g: Group, source: nat)
    requires Sane(g) && WellNumbered(g) && Drop(g, source).alive
    ensures WellNumbered(Drop(g, source))
  {
    hide Numbered, Ranked, Lists, Succeed, DecreePart, SetPeer;
    SaneLists(g);
    var k := JoinedBy(g.alist, source, 0);
    if k.Some? {
      SetPeerLists(g.alist, k.value, None);
      var r := g.(alist := SetPeer(g.alist, k.value, None), live := g.live - 1);
      if Leads(g) { PartNumbers(r, g.alist[k.value].id); } else { SucceedNumbers(r); }
    }
  }

  lemma JoinNumbers(g: Group, id: NodeId, connection: Option<nat>)
    requires WellNumbered(g)
    ensures WellNumbered(LearnJoin(g, id, connection))
  {
    hide Numbered, DecreePart, Removed;
    var k := IndexOf(g.adefer, id);
    var x := if k.Some? then g.adefer[k.value] else Acceptor(id, None);
    var r := g.(
      adefer := if k.Some? then Removed(g.adefer, k.value) else g.adefer,
      live := if k.Some? then g.live + 1 else g.live);
    if Leads(g) { PartNumbers(r.(alist := g.alist + [x.(peer := connection)]), id); }
  }

  lemma LearnPartNumbers(g: Group, id: NodeId)
    requires Sane(g) && WellNumbered(g) && LearnPart(g, id).alive
    ensures WellNumbered(LearnPart(g, id))
  {
    hide Numbered, Ranked, Lists, Succeed, Removed;
    SaneLists(g);
    var k := IndexOf(g.alist, id);
    if k.Some? && id != g.self {
      RemovedLists(g.alist, g.self, k.value);
      if id == g.proposer {
        SucceedNumbers(g.(alist := Removed(g.alist, k.value), live := g.live - One(g.alist[k.value].peer)));
      }
    }
  }

  lemma RedirectNumbers(g: Group, superior: NodeId, b: Ballot, connection: Option<nat>)
    requires Sane(g) && WellNumbered(g) && Redirect(g, superior, b, connection).alive
    ensures WellNumbered(Redirect(g, superior, b, connection))
  {
    hide Numbered, Ranked, Lists, Prepare, SetPeer;
    SaneLists(g);
    QueueDropped(g);
    if g.prep.Some? {
      PrepareNumbers(g.(prep := None), false);
      PrepareNumbers(g.(prep := Some(g.prep.value.(redirects := g.prep.value.redirects + 1))).(prep := None), false);
    }
  }

  /** Over every run, all that a participant has decreed and queued for
      membership is under request ids of its own, each used once, in order. */
  lemma {:induction false} RequestsAreNumbered(run: seq<Group>, k: nat)
    requires IsRun(run) && WellNumbered(run[0]) && k < |run| && run[k].alive
    ensures WellNumbered(run[k])
  {
    hide Apply, Sane, Possible, WellNumbered;
    if k > 0 {
      assert Next(run[k - 1], run[k]);
      var e :| Possible(run[k - 1], e) && run[k] == Apply(run[k - 1], e);
      PossibleAlive(run[k - 1], e);
      RequestsAreNumbered(run, k - 1);
      RunSane(run, k - 1);
      EventNumbers(run[k - 1], e);
    }
  }
}
