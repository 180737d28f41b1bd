/** What a completing prepare makes of the promises: the highest vote for each
    instance, no gaps, and then the queued values in order. */
module Promises {
  import opened Types
  import opened Quorums
  import opened Node
  import opened Session

  // ---- Merging any number of promises.

  function MergeAll(log: Log, reports: seq<Log>): Log {
    if reports == [] then log else Merge(MergeAll(log, reports[..|reports| - 1]), reports[|reports| - 1])
  }

  predicate ReportedBy(reports: seq<Log>, k: nat, i: nat) {
    k < |reports| && i in reports[k]
  }

  /** `e` is our own entry for `i`, or one of those reported. */
  ghost predicate Offered(log: Log, reports: seq<Log>, i: nat, e: Entry) {
    (i in log && e == log[i]) || exists k: nat :: ReportedBy(reports, k, i) && e == Fresh(reports[k][i])
  }

  /** The merge of any promises is pointwise the vote of the highest ballot;
      committed entries stay, and nothing is lost. */
  lemma {:induction false} MergeAllIsHighest(log: Log, reports: seq<Log>, i: nat)
    ensures var m := MergeAll(log, reports);
      && (i in m <==> i in log || exists k: nat :: ReportedBy(reports, k, i))
      && (i in m ==> Offered(log, reports, i, m[i]))
      && (CommittedIn(log, i) ==> m[i] == log[i])
      && (i in m && !CommittedIn(log, i) ==>
            && !m[i].committed
            && (i in log ==> AtMost(log[i].ballot, m[i].ballot))
            && forall k: nat :: ReportedBy(reports, k, i) ==> AtMost(reports[k][i].ballot, m[i].ballot))
  {
    if reports != [] {
      hide MergeEntry, Offered, ReportedBy;
      var last := |reports| - 1;
      var before, m := reports[..last], MergeAll(log, reports[..last]);
      MergeAllIsHighest(log, before, i);
      ReportedBefore(reports, i);
      if i in m { OfferedStill(log, reports, i, m[i]); }
      if i in reports[last] {
        OfferedLast(log, reports, i);
        if i in m { MergeTakesHigher(m[i], reports[last][i]); }
      }
      assert forall k: nat :: ReportedBy(reports, k, i) && k != last ==> ReportedBy(before, k, i) && before[k] == reports[k];
    }
  }

  lemma ReportedBefore(reports: seq<Log>, i: nat)
    requires reports != []
    ensures var last := |reports| - 1;
      && (forall k: nat :: ReportedBy(reports[..last], k, i) <==> ReportedBy(reports, k, i) && k != last)
      && (forall k: nat :: ReportedBy(reports, k, i) && k != last ==> k < last && reports[..last][k] == reports[k])
      && (ReportedBy(reports, last, i) <==> i in reports[last])
  {
  }

  lemma OfferedLast(log: Log, reports: seq<Log>, i: nat)
    requires reports != [] && i in reports[|reports| - 1]
    ensures Offered(log, reports, i, Fresh(reports[|reports| - 1][i]))
  {
    assert ReportedBy(reports, |reports| - 1, i);
  }

  lemma OfferedStill(log: Log, reports: seq<Log>, i: nat, e: Entry)
    requires reports != [] && Offered(log, reports[..|reports| - 1], i, e)
    ensures Offered(log, reports, i, e)
  {
    var before := reports[..|reports| - 1];
    assert forall k: nat :: ReportedBy(before, k, i) ==> ReportedBy(reports, k, i) && reports[k] == before[k];
  }

  lemma MergeTakesHigher(own: Entry, other: Entry)
    ensures var e := MergeEntry(own, other);
      && (e == own || e == Fresh(other))
      && (own.committed ==> e == own)
      && (!own.committed ==> !e.committed && AtMost(own.ballot, e.ballot) && AtMost(other.ballot, e.ballot))
  {
  }

  // ---- Decreeing everything open.

  lemma HolesGrow(log: Log, from: nat, i: nat, j: nat)
    requires from <= i < j && i !in log
    ensures |HolesBelow(log, from, i)| < |HolesBelow(log, from, j)|
  {
    var x, y := HolesBelow(log, from, i), HolesBelow(log, from, j);
    assert x + {i} <= y;
    Subset(x + {i}, y);
  }

  lemma Subset(x: set<nat>, y: set<nat>)
    requires x <= y
    ensures |x| <= |y|
  {
    if x != {} {
      var e :| e in x;
      Subset(x - {e}, y - {e});
    }
  }

  lemma FilledHoles(n: Node, b: Ballot)
    requires n.log != map[] && n.ihole <= Last(n.log) + 1
    ensures forall i :: n.ihole <= i < Last(n.log) && i !in n.log ==>
              && i in RedecreeLog(n, b) && RedecreeLog(n, b)[i].value == NullValue(n, i)
              && n.reqId < NullValue(n, i).req.gen <= CompletePrepare(n, b, {}).node.reqId
    ensures forall i, j :: n.ihole <= i < j && i !in n.log ==> NullValue(n, i).req.gen < NullValue(n, j).req.gen
  {
    forall i | n.ihole <= i < Last(n.log) && i !in n.log
      ensures && i in RedecreeLog(n, b) && RedecreeLog(n, b)[i].value == NullValue(n, i)
              && n.reqId < NullValue(n, i).req.gen <= CompletePrepare(n, b, {}).node.reqId
    {
      HolesGrow(n.log, n.ihole, i, Last(n.log));
      assert i in HolesBelow(n.log, n.ihole, Last(n.log));
    }
    hide Last, RedecreeLog, CompletePrepare;
    forall i, j | n.ihole <= i < j && i !in n.log ensures NullValue(n, i).req.gen < NullValue(n, j).req.gen {
      HolesGrow(n.log, n.ihole, i, j);
    }
  }

  /** The re-decree leaves no gap from the hole to the old end; committed
      entries are untouched, open ones are under the new ballot with our own
      vote, and only former gaps hold nulls, each under a request id of its own. */
  lemma RedecreeFills(n: Node, b: Ballot)
    requires n.log != map[] && n.ihole <= Last(n.log) + 1
    ensures var log, last := RedecreeLog(n, b), Last(n.log);
      && log != map[] && Last(log) == last
      && (forall i :: i in log <==> i in n.log || n.ihole <= i <= last)
      && (forall i :: i in n.log && (n.log[i].committed || i < n.ihole) ==> log[i] == n.log[i])
      && (forall i :: i in n.log && !n.log[i].committed && n.ihole <= i ==>
            log[i] == Entry(b, n.log[i].value, false, false, false, 1))
      && (forall i :: i in log && i !in n.log ==>
            && log[i].value.kind == DecNull && log[i].value.req.id == n.id
            && n.reqId < log[i].value.req.gen <= CompletePrepare(n, b, {}).node.reqId)
      && (forall i, j :: i in log && j in log && i !in n.log && j !in n.log && i < j ==>
            log[i].value.req.gen < log[j].value.req.gen)
  {
    hide CompletePrepare;
    assert Last(n.log) in RedecreeLog(n, b);
    FilledHoles(n, b);
  }

  // ---- Decreeing what was queued.

  /** Every decree made is for `v` in our ballot, at the next number; the rest of the log keeps its values. */
  lemma DecreeAppends(n: Node, v: Value, have: bool, acceptors: set<NodeId>)
    requires n.log != map[]
    ensures var m, i := NewDecree(n, v, have, acceptors).node, Last(n.log) + 1;
      && m.ballot == n.ballot && m.log.Keys == n.log.Keys + {i} && m.log != map[] && Last(m.log) == i
      && m.log[i].ballot == n.ballot && m.log[i].value == v
      && forall j :: j in n.log ==> m.log[j].value == n.log[j].value && m.log[j].ballot == n.log[j].ballot
  {
    var m, i := NewDecree(n, v, have, acceptors).node, Last(n.log) + 1;
    CommitKeepsVotes(EnterDecree(n, v, acceptors).node, i, have);
    assert i in m.log;
    hide CommitInstance;
  }

  lemma CommitKeepsVotes(n: Node, i: nat, have: bool)
    requires i in n.log
    ensures var m := CommitInstance(n, i, have).node;
      && m.ballot == n.ballot && m.log.Keys == n.log.Keys
      && forall j :: j in n.log ==> m.log[j].value == n.log[j].value && m.log[j].ballot == n.log[j].ballot
  {
  }

  /** `m` continues the log of `n` with the queued values at the next numbers, in our ballot. */
  ghost predicate Continues(n: Node, queue: seq<Value>, m: Node)
    requires n.log != map[]
  {
    var next := Last(n.log) + 1;
    && m.ballot == n.ballot
    && (forall i :: i in m.log <==> i in n.log || next <= i < next + |queue|)
    && (forall i :: i in n.log ==> m.log[i].value == n.log[i].value && m.log[i].ballot == n.log[i].ballot)
    && (forall i :: next <= i < next + |queue| ==> m.log[i].value == queue[i - next] && m.log[i].ballot == n.ballot)
  }

  lemma ContinuesNext(n: Node, queue: seq<Value>, o: Node, m: Node)
    requires n.log != map[] && o.log != map[] && queue != []
    requires Continues(n, [queue[0]], o) && Last(o.log) == Last(n.log) + 1 && Continues(o, queue[1..], m)
    ensures Continues(n, queue, m)
  {
    hide Last;
  }

  lemma FirstContinues(n: Node, v: Value, have: bool, acceptors: set<NodeId>)
    requires n.log != map[]
    ensures var o := NewDecree(n, v, have, acceptors).node;
      o.log != map[] && Last(o.log) == Last(n.log) + 1 && Continues(n, [v], o)
  {
    DecreeAppends(n, v, have, acceptors);
    hide NewDecree, Last;
  }

  lemma NothingContinues(n: Node)
    requires n.log != map[]
    ensures Continues(n, [], n)
  {
    hide Last;
  }

  /** Draining the queue gives its values the next numbers, in queue order. */
  lemma {:induction false} DrainAssignsInOrder(n: Node, queue: seq<Value>, rcache: set<ReqId>, acceptors: set<NodeId>)
    requires n.log != map[]
    ensures Continues(n, queue, DecreeAll(n, queue, rcache, acceptors).node)
    decreases |queue|
  {
    if queue != [] {
      hide NewDecree, Continues, Last;
      var o := NewDecree(n, queue[0], queue[0].req in rcache, acceptors).node;
      FirstContinues(n, queue[0], queue[0].req in rcache, acceptors);
      DrainAssignsInOrder(o, queue[1..], rcache, acceptors);
      ContinuesNext(n, queue, o, DecreeAll(n, queue, rcache, acceptors).node);
    } else {
      NothingContinues(n);
    }
  }

  lemma SameIdentity(n: Node, v: Value, have: bool, acceptors: set<NodeId>)
    ensures NewDecree(n, v, have, acceptors).node.id == n.id
    ensures forall a: NodeId, b: Ballot, i: nat, w: Value :: Decree(a, b, i, w) in NewDecree(n, v, have, acceptors).sent <==>
              a in acceptors && a != n.id && b == n.ballot && i == NextInstance(n.log) && w == v
  {
    var e, i := EnterDecree(n, v, acceptors).node, NextInstance(n.log);
    CommitSendsNoDecree(e, i, have, acceptors);
    hide ProposerCommit, NextInstance;
  }

  lemma CommitSendsNoDecree(n: Node, i: nat, have: bool, acceptors: set<NodeId>)
    requires i in n.log
    ensures var o := ProposerCommit(n, i, have, acceptors);
      o.node.id == n.id && forall m :: m in o.sent ==> !m.Decree?
  {
    hide HoleAfter, Values;
  }

  /** Draining asks everyone else for exactly the queued values, each under its number. */
  lemma {:induction false} DrainAsksForAll(n: Node, queue: seq<Value>, rcache: set<ReqId>, acceptors: set<NodeId>)
    requires n.log != map[]
    ensures forall a: NodeId, b: Ballot, i: nat, w: Value :: Decree(a, b, i, w) in DecreeAll(n, queue, rcache, acceptors).sent <==>
              && a in acceptors && a != n.id && b == n.ballot
              && Last(n.log) < i <= Last(n.log) + |queue| && w == queue[i - Last(n.log) - 1]
    decreases |queue|
  {
    if queue != [] {
      var have := queue[0].req in rcache;
      var o := NewDecree(n, queue[0], have, acceptors);
      DecreeAppends(n, queue[0], have, acceptors);
      SameIdentity(n, queue[0], have, acceptors);
      DrainAsksForAll(o.node, queue[1..], rcache, acceptors);
      hide NewDecree, Last;
    }
  }

  /** A completed prepare, queue included, leaves a log without a gap from the
      hole on: what was there, then what was queued. */
  lemma CompletionLeavesNoGap(n: Node, b: Ballot, queue: seq<Value>, rcache: set<ReqId>, acceptors: set<NodeId>)
    requires n.log != map[] && n.ihole <= Last(n.log) + 1
    ensures var m, last := DecreeAll(CompletePrepare(n, b, acceptors).node, queue, rcache, acceptors).node, Last(n.log);
      && (forall i :: n.ihole <= i <= last + |queue| ==> i in m.log)
      && (forall i :: i in n.log ==> i in m.log && m.log[i].value == n.log[i].value)
      && (forall i :: last < i <= last + |queue| ==> m.log[i].value == queue[i - last - 1] && m.log[i].ballot == b)
  {
    hide Last, NullValue, HolesBelow, DecreeAll;
    RedecreeFills(n, b);
    var c := CompletePrepare(n, b, acceptors).node;
    hide RedecreeLog;
    DrainAssignsInOrder(c, queue, rcache, acceptors);
  }
}
