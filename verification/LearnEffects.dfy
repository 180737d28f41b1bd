/** Learning with its effects on the membership.  A proposer that learns a join
    and cannot reach the newcomer decrees its part, which appends to the very
    list the learning loop is walking. */
module LearnEffects {
  import opened Types
  import opened Quorums
  import opened Node
  import opened InstanceList
  import opened Loops
  import opened Seqs
  import opened Membership
  import Listing

  /** What learning value `v` of instance `i` does; a chat from an acceptor
      that is no longer listed fails an assertion. */
  function Act(g: Group, v: Value, i: nat, connection: Option<nat>): Group {
    match v.kind
    case DecNull => g
    case DecChat => if IndexOf(g.alist, v.req.id).None? then Failed(g) else g
    case DecJoin => LearnJoin(g, i, connection)
    case DecPart => LearnPart(g, v.extra)
    case DecKill => LearnPart(g, v.extra)
  }

  /** The values of the instances from `from` on act one after another, for as
      long as the session lasts; `connect` gives the results of connecting. */
  function ActAll(g: Group, vs: seq<Value>, from: nat, connect: NodeId -> Option<nat>): Group {
    if vs == [] then g
    else
      var k := |vs| - 1;
      var p := ActAll(g, vs[..k], from, connect);
      if p.alive then Act(p, vs[k], from + k, connect(from + k)) else p
  }

  // ---- Seen from the list of acceptors alone.

  /** `listed` holds the ids on the acceptor list. */
  ghost predicate Holds(listed: map<NodeId, bool>, l: seq<Acceptor>) {
    forall id :: id in listed <==> IndexOf(l, id).Some?
  }

  lemma OnList(l: seq<Acceptor>, id: NodeId)
    ensures IndexOf(l, id).Some? <==> exists k :: 0 <= k < |l| && l[k].id == id
  {
  }

  lemma AppendHolds(listed: map<NodeId, bool>, l: seq<Acceptor>, x: Acceptor)
    requires Holds(listed, l)
    ensures Holds(listed[x.id := false], l + [x])
  {
    forall id ensures id in listed[x.id := false] <==> IndexOf(l + [x], id).Some? {
      assert (l + [x])[..|l|] == l;
    }
  }

  lemma RemovedHas(l: seq<Acceptor>, k: nat, id: NodeId)
    requires Ranked(l) && k < |l|
    ensures IndexOf(Removed(l, k), id).Some? <==> IndexOf(l, id).Some? && id != l[k].id
  {
    hide IndexOf;
    var m := Removed(l, k);
    OnList(l, id);
    OnList(m, id);
    if IndexOf(l, id).Some? && id != l[k].id {
      var j :| 0 <= j < |l| && l[j].id == id;
      assert m[if j < k then j else j - 1].id == id;
    }
    if IndexOf(m, id).Some? {
      var j :| 0 <= j < |m| && m[j].id == id;
      assert l[if j < k then j else j + 1].id == id;
    }
  }

  lemma RemoveHolds(listed: map<NodeId, bool>, l: seq<Acceptor>, k: nat)
    requires Holds(listed, l) && Ranked(l) && k < |l|
    ensures Holds(listed - {l[k].id}, Removed(l, k))
  {
    hide IndexOf, Ranked, Removed;
    forall id ensures id in listed - {l[k].id} <==> IndexOf(Removed(l, k), id).Some? { RemovedHas(l, k, id); }
  }

  /** The one who comes after `id`, now off the list, is another. */
  lemma AnotherSucceeds(g: Group, id: NodeId)
    requires HasSelf(g) && IndexOf(g.alist, id).None? && g.prep.None?
    ensures var r := Succeed(g); r.failed == g.failed && r.proposer != id
  {
    hide Parts;
    var k :| 0 <= k < |g.alist| && g.alist[k].id == g.self;
    assert Reachable(g.alist[k], g.self);
    var leader := LeaderOf(g.alist, g.self, 0);
    assert leader.Some? && g.alist[leader.value].id != id;
    hide IndexOf;
  }

  lemma PartByList(g: Group, listed: map<NodeId, bool>, id: NodeId)
    requires g.alive && !g.failed && g.prep.None? && Ranked(g.alist) && HasSelf(g) && Holds(listed, g.alist)
    ensures var r, leaves := LearnPart(g, id), id in listed && (id == g.self || id == g.proposer);
      && !r.failed
      && (!leaves ==> r.alive && r.proposer == g.proposer && Holds(listed - {id}, r.alist))
      && (leaves ==> !r.alive || r.proposer != g.proposer)
  {
    hide IndexOf, Ranked, Removed, Succeed, Holds;
    HoldsAt(listed, g.alist, id);
    var k := IndexOf(g.alist, id);
    if k.None? {
      assert listed - {id} == listed;
    } else if id != g.self {
      RemoveHolds(listed, g.alist, k.value);
      RemovedHas(g.alist, k.value, id);
      var j :| 0 <= j < |g.alist| && g.alist[j].id == g.self;
      SelfRemains(g.alist, g.self, j, k.value);
      var r := g.(alist := Removed(g.alist, k.value), live := g.live - One(g.alist[k.value].peer));
      if id == g.proposer { AnotherSucceeds(r, id); }
    }
  }

  lemma HoldsAt(listed: map<NodeId, bool>, l: seq<Acceptor>, id: NodeId)
    requires Holds(listed, l)
    ensures id in listed <==> IndexOf(l, id).Some?
  {
  }

  lemma JoinByList(g: Group, listed: map<NodeId, bool>, i: nat, connection: Option<nat>)
    requires g.alive && !g.failed && Holds(listed, g.alist)
    ensures var r := LearnJoin(g, i, connection);
      r.alive && !r.failed && r.proposer == g.proposer && Holds(listed[i := false], r.alist)
  {
    hide IndexOf, Removed, Holds;
    var k := IndexOf(g.adefer, i);
    var x := if k.Some? then g.adefer[k.value] else Acceptor(i, None);
    AppendHolds(listed, g.alist, x);
    AppendHolds(listed, g.alist, x.(peer := connection));
  }

  /** For a follower, or an established proposer, what learning a value does is
      told by the list of acceptors: whether it fails, whether it ends the
      session or turns us to another proposer, and whom it leaves listed. */
  lemma ActByList(g: Group, listed: map<NodeId, bool>, v: Value, i: nat, connection: Option<nat>)
    requires g.alive && !g.failed && g.prep.None? && Ranked(g.alist) && HasSelf(g) && Holds(listed, g.alist)
    ensures var r, fate := Act(g, v, i, connection), Listing.FateOf(listed, g.self, g.proposer, v);
      && (r.failed <==> fate == Listing.Fails)
      && (fate == Listing.Stays ==> r.alive && r.proposer == g.proposer && Holds(Listing.Heeded(listed, v, i), r.alist))
      && (fate == Listing.Leaves ==> !r.alive || r.proposer != g.proposer)
  {
    hide IndexOf, Ranked, LearnPart, LearnJoin, Holds, HasSelf;
    match v.kind
    case DecNull =>
    case DecChat => HoldsAt(listed, g.alist, v.req.id);
    case DecJoin => JoinByList(g, listed, i, connection);
    case DecPart => PartByList(g, listed, v.extra);
    case DecKill => PartByList(g, listed, v.extra);
  }

  /** The log with decrees of `vs` entered at its end. */
  function Entered(log: Log, vs: seq<Value>, b: Ballot): Log {
    if vs == [] then log
    else
      var p := Entered(log, vs[..|vs| - 1], b);
      p[NextInstance(p) := Entry(b, vs[|vs| - 1], false, false, false, 1)]
  }

  predicate HasSelf(g: Group) {
    exists k :: 0 <= k < |g.alist| && g.alist[k].id == g.self
  }

  /** `r` has entered at most one decree more than `g`, and that only with two
      or more members. */
  predicate EntersOne(g: Group, r: Group) {
    && r.ballot == g.ballot && r.self == g.self && HasSelf(r)
    && |g.decreed| <= |r.decreed| <= |g.decreed| + 1 && r.decreed[..|g.decreed|] == g.decreed
    && (|r.decreed| > |g.decreed| ==> |r.alist| >= 2)
  }

  lemma JoinEntersOne(g: Group, i: nat, connection: Option<nat>)
    requires HasSelf(g)
    ensures EntersOne(g, LearnJoin(g, i, connection))
  {
    var k :| 0 <= k < |g.alist| && g.alist[k].id == g.self;
    var r := LearnJoin(g, i, connection);
    assert r.alist[k].id == r.self;
  }

  lemma PartEntersNone(g: Group, id: NodeId)
    requires HasSelf(g)
    ensures EntersOne(g, LearnPart(g, id)) && LearnPart(g, id).decreed == g.decreed
  {
    hide Reachable, Parts, Removed, LeaderOf;
    var j :| 0 <= j < |g.alist| && g.alist[j].id == g.self;
    var k := IndexOf(g.alist, id);
    var r := LearnPart(g, id);
    if k.Some? && id != g.self {
      SelfRemains(g.alist, g.self, j, k.value);
      assert r.alist == Removed(g.alist, k.value);
    } else {
      assert r.alist[j].id == r.self;
    }
  }

  lemma SelfRemains(l: seq<Acceptor>, self: NodeId, j: nat, k: nat)
    requires j < |l| && k < |l| && j != k && l[j].id == self
    ensures exists i :: 0 <= i < |Removed(l, k)| && Removed(l, k)[i].id == self
  {
    assert Removed(l, k)[if j < k then j else j - 1].id == self;
  }

  /** One learned value enters at most one decree, and then our own vote is not a majority. */
  lemma ActDecrees(g: Group, v: Value, i: nat, connection: Option<nat>)
    requires HasSelf(g)
    ensures var r := Act(g, v, i, connection);
      EntersOne(g, r) && (|r.decreed| > |g.decreed| ==> Majority(|r.alist|) > 1)
  {
    JoinEntersOne(g, i, connection);
    PartEntersNone(g, v.extra);
    var j :| 0 <= j < |g.alist| && g.alist[j].id == g.self;
    assert Failed(g).alist[j].id == g.self;
    hide LearnJoin, LearnPart;
  }

  lemma EnteredKeys(log: Log, vs: seq<Value>, b: Ballot)
    requires log != map[]
    ensures var m := Entered(log, vs, b);
      && m != map[] && Last(m) == Last(log) + |vs|
      && (forall i :: i in m <==> i in log || Last(log) < i <= Last(log) + |vs|)
      && (forall i :: i in log ==> m[i] == log[i])
  {
    if vs != [] {
      EnteredKeys(log, vs[..|vs| - 1], b);
      assert Last(log) + |vs| in Entered(log, vs, b);
    }
  }

  /** Marking an old instance and entering new ones commute. */
  lemma {:induction false} EnteredUpdate(log: Log, vs: seq<Value>, b: Ballot, i: nat, e: Entry)
    requires i in log
    ensures Entered(log[i := e], vs, b) == Entered(log, vs, b)[i := e]
  {
    if vs != [] {
      var front := vs[..|vs| - 1];
      EnteredUpdate(log, front, b, i, e);
      EnteredKeys(log, front, b);
      var m := Entered(log, front, b);
      assert Last(m) in m[i := e];
      assert NextInstance(m[i := e]) == NextInstance(m);
    }
  }

  lemma EnteredNext(log: Log, vs: seq<Value>, b: Ballot, v: Value)
    ensures Entered(log, vs + [v], b) ==
            Entered(log, vs, b)[NextInstance(Entered(log, vs, b)) := Entry(b, v, false, false, false, 1)]
  {
    assert (vs + [v])[..|vs|] == vs;
  }

  lemma ActAllNext(g: Group, vs: seq<Value>, v: Value, from: nat, connect: NodeId -> Option<nat>)
    ensures var p := ActAll(g, vs, from, connect);
      ActAll(g, vs + [v], from, connect) == if p.alive then Act(p, v, from + |vs|, connect(from + |vs|)) else p
  {
    hide Act;
    assert (vs + [v])[..|vs|] == vs;
  }

  lemma StopsAtHole(s: seq<Instance>, it: nat, log: Log, from: nat, hole: nat)
    requires Sorted(s) && 0 < it <= |s| && LogOf(s) == log && from <= hole && s[it - 1].inum + 1 == hole
    requires forall j :: from <= j < hole ==> Ready(log, j)
    requires it < |s| && s[it].inum == hole && s[it].entry.committed ==> !s[it].entry.cached
    ensures hole == HoleAfter(log, from)
  {
    hide HoleAfter, LogOf, Sorted;
    ListedAt(s, it, hole);
    if hole in log { Listed(s, it); }
    HoleIs(log, from, hole);
  }

  /** Enter a decree at the end of the list. */
  method Enter(t: seq<Instance>, b: Ballot, v: Value) returns (u: seq<Instance>)
    requires Sorted(t) && t != []
    ensures var e := Entry(b, v, false, false, false, 1);
      && Sorted(u) && LogOf(u) == LogOf(t)[NextInstance(LogOf(t)) := e]
      && u == t + [Instance(t[|t| - 1].inum + 1, e)]
  {
    hide LogOf, FitsAt;
    LastOf(t);
    var x := Instance(t[|t| - 1].inum + 1, Entry(b, v, false, false, false, 1));
    FitsLast(t, x.inum);
    InsertAt(t, |t|, x);
    u := t + [x];
    assert u == Inserted(t, |t|, x);
  }

  lemma FitsLast(t: seq<Instance>, i: nat)
    requires Sorted(t) && t != [] && t[|t| - 1].inum < i
    ensures FitsAt(t, |t|, i)
  {
  }

  /** What the loop has done when it reaches `hole`. */
  ghost predicate ActedSoFar(log: Log, from: nat, hole: nat, g: Group, connect: NodeId -> Option<nat>, t: Log, r: Group)
  {
    && from <= hole && (forall j :: from <= j < hole ==> Ready(log, j))
    && r == ActAll(g, Values(log, from, hole), from, connect)
    && r.ballot == g.ballot && |g.decreed| <= |r.decreed|
    && t == Entered(MarkedLearned(log, from, hole), r.decreed[|g.decreed|..], g.ballot)
  }

  lemma ActsNone(log: Log, from: nat, g: Group, connect: NodeId -> Option<nat>)
    ensures ActedSoFar(log, from, from, g, connect, log, g)
  {
    MarkedNone(log, from);
    assert g.decreed[|g.decreed|..] == [];
  }

  /** The log after learning `hole` and entering the decree, if any, that this makes. */
  function LearnedOne(t: Log, hole: nat, r: Group, r': Group): Log
    requires hole in t
  {
    var m := t[hole := t[hole].(learned := true)];
    if |r'.decreed| > |r.decreed|
    then m[NextInstance(m) := Entry(r.ballot, r'.decreed[|r'.decreed| - 1], false, false, false, 1)]
    else m
  }

  lemma SuffixNext(x: seq<Value>, y: seq<Value>, n: nat)
    requires n <= |x| && |y| == |x| + 1 && y[..|x|] == x
    ensures y[n..] == x[n..] + [y[|x|]]
  {
    assert y == x + [y[|x|]];
  }

  lemma EnteredOne(log: Log, d: seq<Value>, b: Ballot, hole: nat, r: Group, r': Group, n: nat)
    requires hole in log && log != map[] && n <= |r.decreed| && d == r.decreed[n..] && EntersOne(r, r') && r.ballot == b
    ensures hole in Entered(log, d, b)
    ensures LearnedOne(Entered(log, d, b), hole, r, r') ==
            Entered(log[hole := log[hole].(learned := true)], r'.decreed[n..], b)
  {
    hide Entered, NextInstance, HasSelf;
    EnteredKeys(log, d, b);
    EnteredUpdate(log, d, b, hole, log[hole].(learned := true));
    if |r'.decreed| > |r.decreed| {
      SuffixNext(r.decreed, r'.decreed, n);
      EnteredNext(log[hole := log[hole].(learned := true)], d, b, r'.decreed[|r.decreed|]);
    } else {
      assert r'.decreed == r.decreed;
    }
  }

  lemma ActsNext(log: Log, from: nat, hole: nat, g: Group, connect: NodeId -> Option<nat>, t: Log, r: Group, r': Group)
    requires ActedSoFar(log, from, hole, g, connect, t, r) && Ready(log, hole) && r.alive && HasSelf(r)
    requires hole in t && r' == Act(r, log[hole].value, hole, connect(hole))
    ensures ActedSoFar(log, from, hole + 1, g, connect, LearnedOne(t, hole, r, r'), r')
  {
    hide MarkedLearned, Values, Act, Last, Entered, ActAll, LearnedOne, HasSelf;
    ActDecrees(r, log[hole].value, hole, connect(hole));
    ValuesNext(log, from, hole);
    ActAllNext(g, Values(log, from, hole), log[hole].value, from, connect);
    ValuesSize(log, from, hole);
    MarkedNext(log, from, hole);
    MarkedKeys(log, from, hole);
    var m := MarkedLearned(log, from, hole);
    assert hole in m;
    EnteredOne(m, r.decreed[|g.decreed|..], g.ballot, hole, r, r', |g.decreed|);
  }

  lemma ValuesSize(log: Log, from: nat, to: nat)
    requires from <= to && forall j :: from <= j < to ==> Ready(log, j)
    ensures |Values(log, from, to)| == to - from
  {
  }

  /** Learn the instance at position `it`, and act on it. */
  method LearnOne(t: seq<Instance>, it: nat, hole: nat, r: Group, connection: Option<nat>)
    returns (u: seq<Instance>, r': Group)
    requires Sorted(t) && it < |t| && t[it].inum == hole && HasSelf(r)
    ensures r' == Act(r, t[it].entry.value, hole, connection) && HasSelf(r')
    ensures hole in LogOf(t) && Sorted(u) && LogOf(u) == LearnedOne(LogOf(t), hole, r, r')
    ensures |t| <= |u| && u[it].inum == hole && forall k :: 0 <= k < |t| && k != it ==> u[k] == t[k]
    ensures forall k :: |t| <= k < |u| ==> !u[k].entry.committed
  {
    hide LogOf, Sorted, Last, NextInstance, Act, HasSelf;
    Listed(t, it);
    UpdateAt(t, it, t[it].entry.(learned := true));
    ActDecrees(r, t[it].entry.value, hole, connection);
    r' := Act(r, t[it].entry.value, hole, connection);
    u := t[it := Instance(hole, t[it].entry.(learned := true))];
    if |r'.decreed| > |r.decreed| {
      assert Majority(|r'.alist|) > 1;
      u := Enter(u, r.ballot, r'.decreed[|r'.decreed| - 1]);
    }
  }

  /** How the list `t` relates to the original `s` when the loop stands at `it`:
      what lies ahead is untouched, and whatever was appended is uncommitted. */
  predicate Walking(s: seq<Instance>, t: seq<Instance>, start: nat, it: nat, hole: nat) {
    && Sorted(t) && start <= it <= |s| <= |t|
    && (forall k :: it <= k < |s| ==> t[k] == s[k])
    && (forall k :: |s| <= k < |t| ==> !t[k].entry.committed)
    && (it > start ==> t[it - 1].inum + 1 == hole && s[it - 1].inum + 1 == hole)
    && (it == start ==> t == s)
  }

  lemma WalkNext(s: seq<Instance>, t: seq<Instance>, start: nat, it: nat, hole: nat, u: seq<Instance>)
    requires Walking(s, t, start, it, hole) && it < |t| && t[it].entry.committed && t[it].inum == hole
    requires Sorted(u) && |t| <= |u| && u[it].inum == hole && forall k :: 0 <= k < |t| && k != it ==> u[k] == t[k]
    requires forall k :: |t| <= k < |u| ==> !u[k].entry.committed
    ensures it < |s| && t[it] == s[it]
    ensures Walking(s, u, start, it + 1, hole + 1)
  {
    hide Sorted;
  }

  lemma WalkStarts(s: seq<Instance>, start: nat, from: nat)
    requires Sorted(s) && start < |s|
    ensures Walking(s, s, start, start, from)
  {
  }

  lemma ReadyAt(s: seq<Instance>, k: nat)
    requires Sorted(s) && k < |s| && Ready(LogOf(s), s[k].inum)
    ensures s[k].entry.committed && s[k].entry.cached
  {
  }

  lemma WalkEnds(s: seq<Instance>, t: seq<Instance>, start: nat, it: nat, hole: nat)
    requires Walking(s, t, start, it, hole) && it > start
    requires it < |t| && t[it].inum == hole && t[it].entry.committed ==> !t[it].entry.cached
    ensures it <= |s| && it <= |t| && s[it - 1].inum + 1 == hole && t[it - 1].inum + 1 == hole
    ensures it < |s| && s[it].inum == hole && s[it].entry.committed ==> !s[it].entry.cached
  {
    hide Sorted;
  }

  /** Learn from the hole on, acting on each value.  The loop ends although it
      may lengthen the list it walks: it stops at the same hole as if nothing
      had been appended, unless the session ends on the way, and the decrees
      it enters lie uncommitted past the old end. */
  method LearnActing(s: seq<Instance>, start: nat, from: nat, g: Group, connect: NodeId -> Option<nat>)
    returns (t: seq<Instance>, ihole: nat, istart: nat, r: Group)
    requires Sorted(s) && start < |s| && s[start].inum == from && from > 0 && Ready(LogOf(s), from)
    requires g.alive && HasSelf(g)
    ensures Sorted(t) && from <= ihole && forall j :: from <= j < ihole ==> Ready(LogOf(s), j)
    ensures r == ActAll(g, Values(LogOf(s), from, ihole), from, connect) && |g.decreed| <= |r.decreed|
    ensures LogOf(t) == Entered(MarkedLearned(LogOf(s), from, ihole), r.decreed[|g.decreed|..], g.ballot)
    ensures r.alive ==> ihole == HoleAfter(LogOf(s), from) && istart as int == StartOf(LogOf(t), ihole)
  {
    hide LogOf, Sorted, Last, MarkedLearned, HoleAfter, Values, Entered, ActAll, Act, ActedSoFar, NextInstance, LearnedOne, HasSelf, Walking;
    ghost var log := LogOf(s);
    ActsNone(log, from, g, connect);
    Listed(s, start);
    t, ihole, istart, r := s, from, from, g;
    var it := start;
    WalkStarts(s, start, from);
    ReadyAt(s, start);
    while it < |t| && t[it].inum == ihole && t[it].entry.committed && t[it].entry.cached
      invariant Sorted(t) && it <= |t| && r.alive && HasSelf(r)
      invariant ActedSoFar(log, from, ihole, g, connect, LogOf(t), r) && from <= ihole
      invariant Walking(s, t, start, it, ihole)
      invariant it == start ==> ihole == from && t == s
      decreases |s| - it
    {
      ghost var t0, r0, l0 := LogOf(t), r, t;
      t, r := LearnOne(t, it, ihole, r, connect(ihole));
      WalkNext(s, l0, start, it, ihole, t);
      Listed(s, it);
      ActsNext(log, from, ihole, g, connect, t0, r0, r);
      ihole := ihole + 1;
      it := it + 1;
      if !r.alive {
        ActedMeans(log, from, ihole, g, connect, LogOf(t), r);
        return;
      }
    }
    ActedMeans(log, from, ihole, g, connect, LogOf(t), r);
    WalkEnds(s, t, start, it, ihole);
    StopsAtHole(s, it, log, from, ihole);
    ListedAt(t, it, ihole);
    if it == |t| {
      istart := t[|t| - 1].inum;
    } else if t[it].inum != ihole {
      istart := t[it - 1].inum;
    } else {
      istart := t[it].inum;
    }
  }

  lemma ActedMeans(log: Log, from: nat, hole: nat, g: Group, connect: NodeId -> Option<nat>, t: Log, r: Group)
    requires ActedSoFar(log, from, hole, g, connect, t, r)
    ensures from <= hole && forall j :: from <= j < hole ==> Ready(log, j)
    ensures r == ActAll(g, Values(log, from, hole), from, connect) && |g.decreed| <= |r.decreed|
    ensures t == Entered(MarkedLearned(log, from, hole), r.decreed[|g.decreed|..], g.ballot)
  {
  }
}
