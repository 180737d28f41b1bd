/** The mutable half of a session that tracks its members, with the loops that
    walk the acceptor list. */
module Roster {
  import opened Types
  import opened Quorums
  import opened Seqs
  import opened Membership
  import opened Leadership
  import Spec = Membership

  lemma PartsNext(l: seq<Acceptor>, k: nat, self: NodeId, reqId: nat)
    requires k < |l|
    ensures var front := Parts(l[..k], self, reqId);
      Parts(l[..k + 1], self, reqId) ==
        if Reachable(l[k], self) then front
        else front + [Value(if l[k].id < self then DecKill else DecPart, ReqId(self, reqId + |front| + 1), l[k].id)]
  {
    assert l[..k + 1][..k] == l[..k];
  }

  lemma InsertRanked(l: seq<Acceptor>, x: Acceptor, bound: nat)
    requires Ranked(l) && x.id < bound && forall k :: 0 <= k < |l| ==> l[k].id < bound
    ensures Ranked(InsertAcceptor(l, x)) && forall k :: 0 <= k < |InsertAcceptor(l, x)| ==> InsertAcceptor(l, x)[k].id < bound
  {
    if l != [] && l[|l| - 1].id > x.id {
      InsertRanked(l[..|l| - 1], x, l[|l| - 1].id);
    }
  }

  lemma BoundExists(l: seq<Acceptor>, x: Acceptor) returns (bound: nat)
    requires Ranked(l)
    ensures x.id < bound && forall k :: 0 <= k < |l| ==> l[k].id < bound
  {
    bound := x.id + 1 + if l == [] then 0 else l[|l| - 1].id;
  }

  lemma ListRanked(g: Group)
    requires Sane(g)
    ensures Ranked(g.alist)
  {
  }

  lemma WithoutRanked(l: seq<Acceptor>, k: nat)
    requires Ranked(l) && k < |l|
    ensures Ranked(Removed(l, k))
  {
    assert forall j :: 0 <= j < |l| - 1 ==> Removed(l, k)[j] == l[if j < k then j else j + 1];
  }

  lemma InsertSplit(l: seq<Acceptor>, k: nat, x: Acceptor)
    requires Ranked(l) && k <= |l|
    requires k < |l| ==> x.id < l[k].id
    ensures InsertAcceptor(l, x) == InsertAcceptor(l[..k], x) + l[k..]
    decreases |l| - k
  {
    if k < |l| {
      InsertSplit(l, k + 1, x);
      var m := l[..k + 1];
      assert m[..k] == l[..k] && m[|m| - 1] == l[k];
      assert InsertAcceptor(m, x) == InsertAcceptor(l[..k], x) + [l[k]];
      assert l[k..] == [l[k]] + l[k + 1..];
    } else {
      assert l[..k] == l && l[k..] == [];
    }
  }

  lemma InsertHere(l: seq<Acceptor>, x: Acceptor)
    requires l == [] || l[|l| - 1].id <= x.id
    ensures InsertAcceptor(l, x) == if l != [] && l[|l| - 1].id == x.id then l else l + [x]
  {
  }

  class Roster {
    const self: NodeId
    var alive: bool
    var failed: bool
    var alist: seq<Acceptor>
    var adefer: seq<Acceptor>
    var live: int
    var proposer: NodeId
    var ballot: Ballot
    var genHigh: nat
    var reqId: nat
    var prep: Option<Bid>
    var queue: seq<Value>
    var decreed: seq<Value>

    function View(): Group
      reads this
    {
      Group(self, alive, failed, alist, adefer, live, proposer, ballot, genHigh, reqId, prep, queue, decreed)
    }

    predicate Valid()
      reads this
    {
      Ranked(adefer) && (alive ==> Sane(View()))
    }

    /** The only participant of a new session. */
    constructor Start()
      ensures Valid() && InOrder(View()) && Accounted(View()) && Established(View())
      ensures View() == Group(1, true, false, [Acceptor(1, None)], [], 1, 1, Ballot(1, 1), 1, 1, None, [], [])
    {
      self, alive, failed, alist, adefer, live, proposer := 1, true, false, [Acceptor(1, None)], [], 1, 1;
      ballot, genHigh, reqId, prep, queue, decreed := Ballot(1, 1), 1, 1, None, [], [];
      new;
      assert alist[0].id == self && Reachable(alist[0], self);
      ConnectedOne(Acceptor(1, None), 1);
    }

    /** Find an acceptor, walking forward and stopping early at a higher id. */
    method Find(l: seq<Acceptor>, id: NodeId) returns (k: Option<nat>)
      requires Ranked(l)
      ensures k == IndexOf(l, id)
    {
      var it := 0;
      while it < |l|
        invariant 0 <= it <= |l| && forall j :: 0 <= j < it ==> l[j].id < id
      {
        if l[it].id == id {
          IndexUnique(l, it);
          return Some(it);
        }
        if id < l[it].id { break; }
        it := it + 1;
      }
      assert IndexOf(l, id).None?;
      k := None;
    }

    method Prepare(anew: bool)
      modifies this`alive, this`failed, this`genHigh, this`prep, this`queue, this`reqId
      ensures View() == Spec.Prepare(old(View()), anew)
    {
      if prep.Some? {
        alive, failed := false, true;
        return;
      }
      if live < Majority(|alist|) {
        alive := false;
        return;
      }
      genHigh := genHigh + 1;
      prep := Some(Bid(Ballot(self, genHigh), 1, 0));
      if !anew {
        assert queue + [] == queue;
        return;
      }
      QueueParts();
    }

    /** Queue a part or kill for every acceptor we cannot reach. */
    method QueueParts()
      modifies this`queue, this`reqId
      ensures var parts := Parts(alist, self, old(reqId));
        queue == old(queue) + parts && reqId == old(reqId) + |parts|
    {
      hide Reachable;
      ghost var q, r := queue, reqId;
      var k := 0;
      assert alist[..0] == [];
      while k < |alist|
        invariant 0 <= k <= |alist|
        invariant queue == q + Parts(alist[..k], self, r) && reqId == r + |Parts(alist[..k], self, r)|
      {
        PartsNext(alist, k, self, r);
        if !Reachable(alist[k], self) {
          reqId := reqId + 1;
          queue := queue + [Value(if alist[k].id < self then DecKill else DecPart, ReqId(self, reqId), alist[k].id)];
        }
        k := k + 1;
      }
      assert alist[..k] == alist;
    }

    method DecreePart(id: NodeId, force: bool)
      modifies this`reqId, this`queue, this`decreed
      ensures View() == Spec.DecreePart(old(View()), id, force)
    {
      reqId := reqId + 1;
      var v := Value(if force then DecKill else DecPart, ReqId(self, reqId), id);
      if prep.Some? { queue := queue + [v]; } else { decreed := decreed + [v]; }
    }

    /** Walk the acceptors in rank for the first that is reachable. */
    method ResetProposer()
      modifies this`proposer
      ensures View() == Reset(old(View()))
    {
      var k := 0;
      while k < |alist|
        invariant 0 <= k <= |alist| && proposer == old(proposer)
        invariant LeaderOf(alist, self, 0) == LeaderOf(alist, self, k)
      {
        if Reachable(alist[k], self) {
          proposer := alist[k].id;
          return;
        }
        k := k + 1;
      }
    }

    method Succeed()
      modifies this
      ensures View() == Spec.Succeed(old(View()))
    {
      ResetProposer();
      if proposer == self { Prepare(true); }
    }

    method Drop(source: nat)
      requires Valid() && alive
      modifies this
      ensures Valid() && View() == Spec.Drop(old(View()), source)
    {
      hide Connected, Ranked, Sane, Accounted;
      DropSane(View(), source);
      var k := 0;
      while k < |alist| && alist[k].peer != Some(source)
        invariant 0 <= k <= |alist|
        invariant JoinedBy(alist, source, 0) == JoinedBy(alist, source, k)
      {
        k := k + 1;
      }
      if k == |alist| { return; }
      var id := alist[k].id;
      alist, live := SetPeer(alist, k, None), live - 1;
      if proposer == self {
        DecreePart(id, false);
      } else if id == proposer {
        Succeed();
      }
    }

    method Attach(k: nat, peer: nat)
      requires k < |alist|
      modifies this`alist, this`live, this`proposer, this`prep
      ensures View() == Spec.Attach(old(View()), k, peer)
    {
      var id := alist[k].id;
      alist, live := SetPeer(alist, k, Some(peer)), live + 1;
      if id < proposer { proposer, prep := id, None; }
    }

    /** Defer a hello, inserting backwards in order and never twice. */
    method DeferHello(x: Acceptor)
      requires Ranked(adefer)
      modifies this`adefer
      ensures Ranked(adefer) && adefer == InsertAcceptor(old(adefer), x)
    {
      hide InsertAcceptor, Ranked;
      ghost var bound := BoundExists(adefer, x);
      InsertRanked(adefer, x, bound);
      var k := |adefer|;
      while k > 0 && x.id < adefer[k - 1].id
        invariant 0 <= k <= |adefer| && (k < |adefer| ==> x.id < adefer[k].id)
      {
        k := k - 1;
      }
      InsertSplit(adefer, k, x);
      InsertHere(adefer[..k], x);
      if k > 0 && adefer[k - 1].id == x.id {
        assert adefer[..k] + adefer[k..] == adefer;
        return;
      }
      adefer := adefer[..k] + [x] + adefer[k..];
    }

    method Hello(source: nat, id: NodeId, b: Ballot)
      requires Valid() && alive && (id == self ==> b == ballot)
      modifies this
      ensures Valid() && View() == Spec.Hello(old(View()), source, id, b)
    {
      hide Sane, Ranked, Lists, Disconnected, InsertAcceptor;
      ListRanked(View());
      HelloSane(View(), source, id, b);
      if proposer == self && prep.None? && id < self { return; }
      var k := Find(alist, id);
      if k.None? {
        DeferHello(Acceptor(id, Some(source)));
        return;
      }
      if alist[k.value].peer.None? {
        Attach(k.value, source);
      } else if id < self {
        alist := SetPeer(alist, k.value, Some(source));
      }
      if id == proposer { ballot := b; }
    }

    method LearnJoin(id: NodeId, connection: Option<nat>)
      requires Valid() && alive && forall k :: 0 <= k < |alist| ==> alist[k].id < id
      modifies this
      ensures Valid() && View() == Spec.LearnJoin(old(View()), id, connection)
    {
      hide Connected, Ranked, Sane, Removed, Accounted;
      LearnJoinSane(View(), id, connection);
      var k := Find(adefer, id);
      var x := Acceptor(id, None);
      if k.Some? {
        x := adefer[k.value];
        WithoutRanked(adefer, k.value);
        adefer := Removed(adefer, k.value);
        live := live + 1;
      }
      if proposer != self {
        alist := alist + [x];
        return;
      }
      alist := alist + [x.(peer := connection)];
      if connection.Some? { live := live + 1; } else { DecreePart(id, false); }
    }

    method LearnPart(id: NodeId)
      requires Valid() && alive
      modifies this
      ensures Valid() && View() == Spec.LearnPart(old(View()), id)
    {
      hide Connected, Ranked, Sane, Accounted, Removed;
      ListRanked(View());
      LearnPartSane(View(), id);
      var k := Find(alist, id);
      if k.None? { return; }
      if id == self {
        alive := false;
        return;
      }
      var x := alist[k.value];
      alist := Removed(alist, k.value);
      if x.peer.Some? { live := live - 1; }
      if id == proposer { Succeed(); }
    }

    method Reconnect(k: nat, connection: Option<nat>)
      requires k < |alist|
      modifies this
      ensures View() == Spec.Reconnect(old(View()), k, connection)
    {
      prep := None;
      if connection.Some? {
        Attach(k, connection.value);
        queue := [];
      } else {
        Prepare(false);
      }
    }

    method Redirect(superior: NodeId, b: Ballot, connection: Option<nat>)
      requires Valid() && alive
      modifies this
      ensures Valid() && View() == Spec.Redirect(old(View()), superior, b, connection)
    {
      hide Sane, Ranked, Lists, Disconnected, Parts;
      ListRanked(View());
      RedirectSane(View(), superior, b, connection);
      if proposer != self { return; }
      if superior >= self {
        alive, failed := false, true;
        return;
      }
      if prep.None? || prep.value.ballot != b { return; }
      prep := Some(prep.value.(redirects := prep.value.redirects + 1));
      var dead := prep.value.redirects + (|alist| - live);
      if dead >= Majority(|alist|) {
        var k := Find(alist, superior);
        if k.None? || alist[k.value].peer.Some? {
          alive, failed := false, true;
          return;
        }
        Reconnect(k.value, connection);
      } else if prep.value.acks < Majority(|alist|) && prep.value.acks + prep.value.redirects == live {
        prep := None;
        Prepare(false);
      }
    }

    method Refuse(superior: NodeId, connection: Option<nat>)
      requires Valid() && alive
      modifies this
      ensures Valid() && View() == Spec.Refuse(old(View()), superior, connection)
    {
      hide Sane, Ranked, Lists, Disconnected, Parts;
      ListRanked(View());
      RefuseSane(View(), superior, connection);
      if proposer == self || proposer <= superior { return; }
      var k := Find(alist, superior);
      if k.None? || alist[k.value].peer.Some? {
        alive, failed := false, true;
        return;
      }
      if connection.None? { return; }
      Attach(k.value, connection.value);
      queue := [];
    }

    /** The acceptor we could not part: connect to it again, without deferring to it. */
    method Rejoin(id: NodeId, connection: Option<nat>)
      requires Valid() && alive
      modifies this`alive, this`failed, this`alist, this`live
      ensures Valid() && View() == Spec.Rejoin(old(View()), id, connection)
    {
      hide Sane, Ranked, Lists, Disconnected, Parts;
      ListRanked(View());
      RejoinSane(View(), id, connection);
      if proposer != self { return; }
      var k := Find(alist, id);
      if k.None? || alist[k.value].peer.Some? {
        alive, failed := false, true;
        return;
      }
      if connection.None? { return; }
      alist, live := SetPeer(alist, k.value, connection), live + 1;
    }

    method CountPromise(b: Ballot, nulls: nat)
      requires Valid() && alive
      modifies this`prep, this`ballot, this`reqId, this`decreed, this`queue
      ensures Valid() && View() == Spec.CountPromise(old(View()), b, nulls)
    {
      if proposer != self || prep.None? || prep.value.ballot != b { return; }
      prep := Some(prep.value.(acks := prep.value.acks + 1));
      if prep.value.acks < Majority(|alist|) { return; }
      ballot, prep, reqId := b, None, reqId + nulls;
      decreed, queue := decreed + queue, [];
    }
  }
}
