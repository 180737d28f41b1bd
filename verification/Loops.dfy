/** The loops the protocol runs over an instance list, each proved against the
    map operation it implements. */
module Loops {
  import opened Types
  import opened Node
  import opened InstanceList
  import opened Seqs

  // ---- Learning the contiguous run.

  /** The log once the instances from `from` up to `to` are marked learned. */
  function MarkedLearned(log: Log, from: nat, to: nat): Log {
    map i | i in log :: if from <= i < to then log[i].(learned := true) else log[i]
  }

  lemma MarkedNone(log: Log, from: nat)
    ensures MarkedLearned(log, from, from) == log && Values(log, from, from) == []
  {
  }

  lemma Listed(s: seq<Instance>, k: nat)
    requires Sorted(s) && k < |s|
    ensures s[k].inum in LogOf(s) && LogOf(s)[s[k].inum] == s[k].entry
  {
  }

  lemma MarkedNext(log: Log, from: nat, hole: nat)
    requires from <= hole && hole in log
    ensures MarkedLearned(log, from, hole)[hole] == log[hole]
    ensures MarkedLearned(log, from, hole)[hole := log[hole].(learned := true)] == MarkedLearned(log, from, hole + 1)
  {
  }

  lemma MarkNext(s: seq<Instance>, it: nat, log: Log, from: nat, hole: nat)
    requires Sorted(s) && it < |s| && s[it].inum == hole && from <= hole
    requires LogOf(s) == MarkedLearned(log, from, hole)
    ensures var t := s[it := Instance(hole, s[it].entry.(learned := true))];
      Sorted(t) && LogOf(t) == MarkedLearned(log, from, hole + 1)
    ensures hole in log && log[hole] == s[it].entry
  {
    hide MarkedLearned, Sorted;
    Listed(s, it);
    UpdateAt(s, it, s[it].entry.(learned := true));
    assert hole in MarkedLearned(log, from, hole);
    MarkedKeys(log, from, hole);
    MarkedNext(log, from, hole);
  }

  lemma MarkedKeys(log: Log, from: nat, hole: nat)
    ensures MarkedLearned(log, from, hole).Keys == log.Keys
  {
  }

  lemma ValuesNext(log: Log, from: nat, hole: nat)
    requires from <= hole && (forall j :: from <= j < hole ==> Ready(log, j)) && Ready(log, hole)
    ensures forall j :: from <= j < hole + 1 ==> Ready(log, j)
    ensures Values(log, from, hole + 1) == Values(log, from, hole) + [log[hole].value]
  {
  }

  /** What the learning loop has done when it stands at position `it`. */
  predicate RunSoFar(s: seq<Instance>, start: nat, from: nat, t: seq<Instance>, it: nat, hole: nat, learned: seq<Value>)
    requires Sorted(s)
  {
    && Sorted(t) && start <= it <= |t| == |s| && hole == from + (it - start)
    && (forall k :: it <= k < |t| ==> t[k] == s[k])
    && LogOf(t) == MarkedLearned(LogOf(s), from, hole)
    && (forall j :: from <= j < hole ==> Ready(LogOf(s), j))
    && learned == Values(LogOf(s), from, hole)
    && (it > start ==> t[it - 1].inum == hole - 1)
  }

  lemma RunStarts(s: seq<Instance>, start: nat, from: nat)
    requires Sorted(s) && start < |s|
    ensures RunSoFar(s, start, from, s, start, from, [])
  {
    MarkedNone(LogOf(s), from);
  }

  lemma RunNext(s: seq<Instance>, start: nat, from: nat, t: seq<Instance>, it: nat, hole: nat, learned: seq<Value>)
    requires Sorted(s) && RunSoFar(s, start, from, t, it, hole, learned)
    requires it < |t| && t[it].inum == hole && t[it].entry.committed && t[it].entry.cached
    ensures start <= it < |t| == |s| && t[it] == s[it]
    ensures RunSoFar(s, start, from, t[it := Instance(hole, t[it].entry.(learned := true))], it + 1, hole + 1,
                     learned + [t[it].entry.value])
  {
    hide Sorted, LogOf, MarkedLearned, Values;
    MarkNext(t, it, LogOf(s), from, hole);
    ValuesNext(LogOf(s), from, hole);
  }

  /** Where the learning loop stops is the first instance that cannot be learned. */
  lemma RunEnds(s: seq<Instance>, start: nat, from: nat, t: seq<Instance>, it: nat, hole: nat, learned: seq<Value>)
    requires Sorted(s) && RunSoFar(s, start, from, t, it, hole, learned) && 0 < from && start < it
    requires it < |t| && t[it].inum == hole && t[it].entry.committed ==> !t[it].entry.cached
    ensures hole == HoleAfter(LogOf(s), from) && Sorted(t)
    ensures from <= hole && forall j :: from <= j < hole ==> Ready(LogOf(s), j)
    ensures LogOf(t) == MarkedLearned(LogOf(s), from, hole) && learned == Values(LogOf(s), from, hole)
    ensures it <= |t| && t[it - 1].inum == hole - 1
    ensures (it < |t| && t[it].inum == hole) <==> hole in LogOf(t)
  {
    hide HoleAfter, Values, MarkedLearned, LogOf, Sorted;
    var log := LogOf(s);
    ListedAt(t, it, hole);
    MarkedKeys(log, from, hole);
    if hole in LogOf(t) {
      Listed(t, it);
      MarkedNext(log, from, hole);
    }
    assert !Ready(log, hole);
    HoleIs(log, from, hole);
  }

  lemma HoleIs(log: Log, from: nat, hole: nat)
    requires from <= hole && !Ready(log, hole) && forall j :: from <= j < hole ==> Ready(log, j)
    ensures hole == HoleAfter(log, from)
  {
    hide HoleAfter;
    var h := HoleAfter(log, from);
    assert !(hole < h) && !(h < hole);
  }

  /** The instance after position `it - 1`, whose number precedes `hole`, is the one numbered `hole`, if any is. */
  lemma ListedAt(t: seq<Instance>, it: nat, hole: nat)
    requires Sorted(t) && 0 < it <= |t| && t[it - 1].inum + 1 == hole
    ensures hole in LogOf(t) <==> it < |t| && t[it].inum == hole
  {
    if hole in LogOf(t) {
      var k :| 0 <= k < |t| && t[k].inum == hole;
      assert it < |t| ==> hole <= t[it].inum;
      assert k == it;
    }
  }

  /** Learn from position `start`, the instance at the hole, for as long as the
      numbers are consecutive and the instances ready. */
  method LearnRunLoop(s: seq<Instance>, start: nat, from: nat)
    returns (t: seq<Instance>, ihole: nat, istart: nat, learned: seq<Value>)
    requires Sorted(s) && start < |s| && s[start].inum == from && from > 0
    requires Ready(LogOf(s), from)
    requires forall k :: start <= k < |s| ==> !s[k].entry.learned
    ensures Sorted(t) && ihole == HoleAfter(LogOf(s), from)
    ensures from <= ihole && forall j :: from <= j < ihole ==> Ready(LogOf(s), j)
    ensures LogOf(t) == MarkedLearned(LogOf(s), from, ihole)
    ensures learned == Values(LogOf(s), from, ihole)
    ensures istart as int == StartOf(LogOf(t), ihole)
  {
    hide Sorted, LogOf, Last, MarkedLearned, HoleAfter, Values, RunSoFar;
    RunStarts(s, start, from);
    t, ihole, learned := s, from, [];
    var it := start;
    Listed(s, start);
    while it < |t| && t[it].inum == ihole && t[it].entry.committed && t[it].entry.cached
      invariant start <= it <= |t| && RunSoFar(s, start, from, t, it, ihole, learned)
      invariant it == start ==> ihole == from && t == s
      decreases |s| - it
    {
      RunNext(s, start, from, t, it, ihole, learned);
      assert !t[it].entry.learned;
      learned := learned + [t[it].entry.value];
      t := t[it := Instance(ihole, t[it].entry.(learned := true))];
      ihole := ihole + 1;
      it := it + 1;
    }
    RunEnds(s, start, from, t, it, ihole, learned);
    if it == |t| {
      istart := t[|t| - 1].inum;
    } else if t[it].inum != ihole {
      istart := t[it - 1].inum;
    } else {
      istart := t[it].inum;
    }
  }

  // ---- Merging a promise.

  lemma MergeNone(log: Log)
    ensures Merge(log, map[]) == log
  {
  }

  lemma MergeNext(log: Log, report: Log, i: nat, e: Entry)
    requires i !in report
    ensures i in Merge(log, report) <==> i in log
    ensures i in log ==> Merge(log, report)[i] == log[i]
    ensures Merge(log, report[i := e]) ==
            Merge(log, report)[i := if i in log then MergeEntry(log[i], e) else Fresh(e)]
  {
    var m := Merge(log, report)[i := if i in log then MergeEntry(log[i], e) else Fresh(e)];
    assert Merge(log, report[i := e]).Keys == m.Keys;
  }

  /** Splitting off the last instance of a prefix. */
  lemma PrefixNext(s: seq<Instance>, k: nat)
    requires Sorted(s) && k < |s|
    ensures Sorted(s[..k]) && Sorted(s[..k + 1])
    ensures s[k].inum !in LogOf(s[..k])
    ensures LogOf(s[..k + 1]) == LogOf(s[..k])[s[k].inum := s[k].entry]
  {
    hide LogOf;
    assert s[..k + 1] == Inserted(s[..k], k, s[k]);
    InsertAt(s[..k], k, s[k]);
  }

  /** No instance has a number strictly between a cursor and its successor. */
  lemma NotBetween(s: seq<Instance>, it: nat, i: nat)
    requires Sorted(s) && it < |s| && s[it].inum < i
    requires it + 1 < |s| ==> i < s[it + 1].inum
    ensures FitsAt(s, it + 1, i) && i !in LogOf(s)
  {
  }

  /** Merge one reported instance at the cursor: insert it after a lower
      neighbour, or settle it against ours of the same number. */
  method MergeOne(s: seq<Instance>, from: nat, x: Instance) returns (it: Option<nat>, t: seq<Instance>, inserted: bool)
    requires Sorted(s) && from < |s|
    ensures it.Some? ==> (inserted <==> x.inum !in LogOf(s))
    ensures it.None? <==> x.inum < s[from].inum
    ensures it.Some? ==> it.value < |t| && t[it.value].inum <= x.inum && Sorted(t)
    ensures it.Some? ==> LogOf(t) == LogOf(s)[x.inum :=
                           if x.inum in LogOf(s) then MergeEntry(LogOf(s)[x.inum], x.entry) else Fresh(x.entry)]
  {
    hide LogOf, Inserted, FitsAt, MergeEntry;
    t, inserted := s, false;
    it := GreatestAtMost(s, from, x.inum);
    if it.None? { return; }
    var k := it.value;
    if s[k].inum < x.inum {
      inserted := true;
      NotBetween(s, k, x.inum);
      InsertAt(s, k + 1, Instance(x.inum, Fresh(x.entry)));
      t := Inserted(s, k + 1, Instance(x.inum, Fresh(x.entry)));
    } else {
      Listed(s, k);
      UpdateAt(s, k, MergeEntry(s[k].entry, x.entry));
      t := s[k := Instance(x.inum, MergeEntry(s[k].entry, x.entry))];
    }
  }

  /** What the merge has done with the first `k` instances of the report. */
  predicate MergeSoFar(s: seq<Instance>, from: nat, report: seq<Instance>, hole: nat, start: nat,
                       k: nat, t: seq<Instance>, it: nat, istart: nat)
    requires Sorted(s) && Sorted(report)
  {
    && k <= |report| && Sorted(report[..k]) && Sorted(t) && it < |t| && from < |s|
    && LogOf(t) == Merge(LogOf(s), LogOf(report[..k]))
    && istart == (if hole in LogOf(report[..k]) && hole !in LogOf(s) then hole else start)
    && if k == 0 then it == from && t == s else s[from].inum <= report[0].inum && t[it].inum <= report[k - 1].inum
  }

  lemma MergeStarts(s: seq<Instance>, from: nat, report: seq<Instance>, hole: nat, start: nat)
    requires Sorted(s) && from < |s| && Sorted(report)
    ensures MergeSoFar(s, from, report, hole, start, 0, s, from, start)
  {
    hide LogOf, Merge;
    IsLogOf(report[..0], map[]);
    MergeNone(LogOf(s));
  }

  /** Merging one more reported instance, with the result that `MergeOne` promises. */
  lemma MergeGoesOn(s: seq<Instance>, from: nat, report: seq<Instance>, hole: nat, start: nat,
                    k: nat, t: seq<Instance>, it: nat, istart: nat, glb: nat, u: seq<Instance>)
    requires Sorted(s) && Sorted(report) && MergeSoFar(s, from, report, hole, start, k, t, it, istart) && k < |report|
    requires t[it].inum <= report[k].inum && glb < |u| && u[glb].inum <= report[k].inum && Sorted(u)
    requires var x := report[k]; LogOf(u) == LogOf(t)[x.inum :=
                           if x.inum in LogOf(t) then MergeEntry(LogOf(t)[x.inum], x.entry) else Fresh(x.entry)]
    ensures MergeSoFar(s, from, report, hole, start, k + 1, u, glb,
              if report[k].inum !in LogOf(t) && report[k].inum == hole then hole else istart)
  {
    hide LogOf, Merge, MergeEntry;
    PrefixNext(report, k);
    MergeNext(LogOf(s), LogOf(report[..k]), report[k].inum, report[k].entry);
    assert k > 0 ==> s[from].inum <= report[0].inum;
  }

  lemma MergeAtCursor(s: seq<Instance>, from: nat, report: seq<Instance>, hole: nat, start: nat,
                      k: nat, t: seq<Instance>, it: nat, istart: nat)
    requires Sorted(s) && Sorted(report) && MergeSoFar(s, from, report, hole, start, k, t, it, istart)
    ensures Sorted(t) && it < |t| && from < |s|
    ensures k < |report| ==>
              if k == 0 then it == from && t == s
              else t[it].inum <= report[k].inum && s[from].inum <= report[0].inum
  {
    hide Merge, LogOf;
  }

  lemma MergeEnds(s: seq<Instance>, from: nat, report: seq<Instance>, hole: nat, start: nat,
                  t: seq<Instance>, it: nat, istart: nat)
    requires Sorted(s) && Sorted(report) && MergeSoFar(s, from, report, hole, start, |report|, t, it, istart)
    ensures Sorted(t) && LogOf(t) == Merge(LogOf(s), LogOf(report))
    ensures istart == if hole in LogOf(report) && hole !in LogOf(s) then hole else start
    ensures report == [] || (from < |s| && s[from].inum <= report[0].inum)
  {
    hide Merge, LogOf;
    assert report[..|report|] == report;
  }

  /** Merge a sorted report into the list with one forward cursor that starts
      at position `from`; the report must not begin before the cursor.  When
      the merge supplies the hole, `istart` moves to it. */
  method MergeLoop(s: seq<Instance>, from: nat, report: seq<Instance>, hole: nat, start: nat)
    returns (ok: bool, t: seq<Instance>, istart: nat)
    requires Sorted(s) && from < |s| && Sorted(report)
    ensures ok ==> istart == if hole in LogOf(report) && hole !in LogOf(s) then hole else start
    ensures ok <==> report == [] || s[from].inum <= report[0].inum
    ensures ok ==> Sorted(t) && LogOf(t) == Merge(LogOf(s), LogOf(report))
  {
    hide LogOf, Merge, MergeEntry, Fresh, Sorted, MergeSoFar;
    t, istart := s, start;
    var it, k := from, 0;
    MergeStarts(s, from, report, hole, start);
    while k < |report|
      invariant 0 <= k <= |report| && MergeSoFar(s, from, report, hole, start, k, t, it, istart)
    {
      MergeAtCursor(s, from, report, hole, start, k, t, it, istart);
      var glb, u, inserted := MergeOne(t, it, report[k]);
      if glb.None? { return false, t, istart; }
      MergeGoesOn(s, from, report, hole, start, k, t, it, istart, glb.value, u);
      if inserted && report[k].inum == hole { istart := hole; }
      it, t := glb.value, u;
      k := k + 1;
    }
    MergeEnds(s, from, report, hole, start, t, it, istart);
    ok := true;
  }

  // ---- Decreeing every open instance again.

  /** The log once the open instances below `inum` have been rewritten. */
  function RedecreedUpTo(n: Node, b: Ballot, inum: nat): Log
    requires n.log != map[] && inum <= Last(n.log) + 1
  {
    map i | i in n.log.Keys + HolesBelow(n.log, n.ihole, inum) ::
      if i < inum && Redecreed(n, i) then RedecreeEntry(n, b, i) else n.log[i]
  }

  lemma RedecreedNone(n: Node, b: Ballot)
    requires n.log != map[] && n.ihole <= Last(n.log) + 1
    ensures RedecreedUpTo(n, b, n.ihole) == n.log
  {
  }

  lemma RedecreedAll(n: Node, b: Ballot)
    requires n.log != map[] && n.ihole <= Last(n.log) + 1
    ensures RedecreedUpTo(n, b, Last(n.log) + 1) == RedecreeLog(n, b)
    ensures HolesBelow(n.log, n.ihole, Last(n.log) + 1) == HolesBelow(n.log, n.ihole, Last(n.log))
  {
    assert HolesBelow(n.log, n.ihole, Last(n.log) + 1) == HolesBelow(n.log, n.ihole, Last(n.log));
  }

  lemma HoleNext(log: Log, from: nat, i: nat)
    requires from <= i
    ensures HolesBelow(log, from, i + 1) == HolesBelow(log, from, i) + (if i in log then {} else {i})
    ensures |HolesBelow(log, from, i + 1)| == |HolesBelow(log, from, i)| + (if i in log then 0 else 1)
  {
    assert HolesBelow(log, from, i + 1) == HolesBelow(log, from, i) + (if i in log then {} else {i});
  }

  lemma RedecreedNext(n: Node, b: Ballot, i: nat)
    requires n.log != map[] && n.ihole <= i <= Last(n.log)
    ensures var m := RedecreedUpTo(n, b, i);
      && (i in m <==> i in n.log) && (i in m ==> m[i] == n.log[i])
      && RedecreedUpTo(n, b, i + 1) == if Redecreed(n, i) then m[i := RedecreeEntry(n, b, i)] else m
  {
    HoleNext(n.log, n.ihole, i);
    hide HolesBelow;
    assert i !in HolesBelow(n.log, n.ihole, i) by { HoleIsBelow(n.log, n.ihole, i); }
  }

  lemma HoleIsBelow(log: Log, from: nat, i: nat)
    ensures forall j :: j in HolesBelow(log, from, i) ==> from <= j < i && j !in log
  {
  }

  lemma UpToKeepsLast(n: Node, b: Ballot, i: nat)
    requires n.log != map[] && i <= Last(n.log) + 1
    ensures RedecreedUpTo(n, b, i) != map[] && Last(RedecreedUpTo(n, b, i)) == Last(n.log)
  {
    var m := RedecreedUpTo(n, b, i);
    assert Last(n.log) in m;
  }

  /** The decrees sent for the instances below `inum`. */
  function DecreesBelow(n: Node, b: Ballot, acceptors: set<NodeId>, inum: nat): set<Message>
    requires n.log != map[]
  {
    var log := RedecreeLog(n, b);
    set a, i | a in acceptors && a != n.id && i in log && i < inum && Redecreed(n, i) :: Decree(a, b, i, log[i].value)
  }

  function Broadcast(self: NodeId, acceptors: set<NodeId>, b: Ballot, i: nat, v: Value): set<Message> {
    set a | a in acceptors && a != self :: Decree(a, b, i, v)
  }

  lemma DecreesNone(n: Node, b: Ballot, acceptors: set<NodeId>)
    requires n.log != map[]
    ensures DecreesBelow(n, b, acceptors, n.ihole) == {}
  {
    OpenAtHole(n);
    hide RedecreeLog, Redecreed, Last;
  }

  lemma OpenAtHole(n: Node)
    requires n.log != map[]
    ensures forall i: nat :: Redecreed(n, i) ==> n.ihole <= i <= Last(n.log)
  {
  }

  lemma RedecreeLogAt(n: Node, b: Ballot, i: nat)
    requires n.log != map[] && Redecreed(n, i)
    ensures i in RedecreeLog(n, b) && RedecreeLog(n, b)[i] == RedecreeEntry(n, b, i)
  {
  }

  lemma DecreesNext(n: Node, b: Ballot, acceptors: set<NodeId>, i: nat)
    requires n.log != map[]
    ensures DecreesBelow(n, b, acceptors, i + 1) == DecreesBelow(n, b, acceptors, i)
              + if Redecreed(n, i) then Broadcast(n.id, acceptors, b, i, RedecreeEntry(n, b, i).value) else {}
  {
    if Redecreed(n, i) { RedecreeLogAt(n, b, i); }
    hide RedecreeLog, Redecreed, Last, RedecreeEntry;
  }

  lemma DecreesAll(n: Node, b: Ballot, acceptors: set<NodeId>)
    requires n.log != map[]
    ensures DecreesBelow(n, b, acceptors, Last(n.log) + 1) == CompletePrepare(n, b, acceptors).sent
  {
    OpenAtHole(n);
    hide RedecreeLog, Redecreed, Last;
  }

  lemma LastListed(s: seq<Instance>, log: Log)
    requires Sorted(s) && s != [] && LogOf(s) == log
    ensures log != map[] && Last(log) == s[|s| - 1].inum
  {
    LastOf(s);
  }

  /** Handle instance `inum` at the cursor: fill a hole with a null value, take
      an uncommitted entry over, leave a committed one.  Past the last
      instance there is nothing to do. */
  method RedecreeOne(s: seq<Instance>, from: nat, inum: nat, b: Ballot, fill: Value)
    returns (past: bool, it: nat, t: seq<Instance>, decreed: Option<Value>, filled: bool)
    requires Sorted(s) && from < |s| && s[from].inum <= inum
    ensures past <==> s[|s| - 1].inum < inum
    ensures past ==> t == s
    ensures !past ==> it < |t| && t[it].inum <= inum && Sorted(t)
    ensures !past ==> var log := LogOf(s);
              && (filled <==> inum !in log)
              && decreed == (if inum !in log then Some(fill) else if log[inum].committed then None else Some(log[inum].value))
              && LogOf(t) == if decreed.Some? then log[inum := Entry(b, decreed.value, false, false, false, 1)] else log
  {
    hide LogOf, Inserted, FitsAt;
    t, decreed, filled := s, None, false;
    var glb := GreatestAtMost(s, from, inum);
    it := glb.value;
    if s[it].inum < inum {
      if it == |s| - 1 { return true, it, s, None, false; }
      past, filled := false, true;
      decreed := Some(fill);
      NotBetween(s, it, inum);
      var x := Instance(inum, Entry(b, fill, false, false, false, 1));
      InsertAt(s, it + 1, x);
      t := Inserted(s, it + 1, x);
    } else {
      past := false;
      Listed(s, it);
      if !s[it].entry.committed {
        decreed := Some(s[it].entry.value);
        var e := Entry(b, s[it].entry.value, false, false, false, 1);
        UpdateAt(s, it, e);
        t := s[it := Instance(inum, e)];
      }
    }
  }

  lemma StepAgrees(n: Node, b: Ballot, i: nat, fill: Value, log: Log, decreed: Option<Value>, log': Log)
    requires n.log != map[] && n.ihole <= i <= Last(n.log) && log == RedecreedUpTo(n, b, i)
    requires fill == NullValue(n, i)
    requires decreed == if i !in log then Some(fill) else if log[i].committed then None else Some(log[i].value)
    requires log' == if decreed.Some? then log[i := Entry(b, decreed.value, false, false, false, 1)] else log
    ensures log' == RedecreedUpTo(n, b, i + 1)
    ensures decreed == if Redecreed(n, i) then Some(RedecreeEntry(n, b, i).value) else None
    ensures i in log <==> i in n.log
  {
    RedecreedNext(n, b, i);
    hide RedecreedUpTo, Last, NullValue;
  }

  /** What the re-decree loop has done when it reaches `inum`. */
  ghost predicate RedecreedSoFar(n: Node, b: Ballot, acceptors: set<NodeId>, inum: nat,
                                 log: Log, reqId: nat, sent: set<Message>)
    requires n.log != map[]
  {
    && n.ihole <= inum <= Last(n.log) + 1
    && log == RedecreedUpTo(n, b, inum)
    && reqId == n.reqId + |HolesBelow(n.log, n.ihole, inum)|
    && sent == DecreesBelow(n, b, acceptors, inum)
  }

  lemma RedecreeStarts(n: Node, b: Ballot, acceptors: set<NodeId>)
    requires n.log != map[] && n.ihole <= Last(n.log) + 1
    ensures RedecreedSoFar(n, b, acceptors, n.ihole, n.log, n.reqId, {})
  {
    RedecreedNone(n, b);
    DecreesNone(n, b, acceptors);
    assert HolesBelow(n.log, n.ihole, n.ihole) == {};
  }

  lemma RedecreeSteps(n: Node, b: Ballot, acceptors: set<NodeId>, inum: nat, log: Log, reqId: nat, sent: set<Message>,
                      decreed: Option<Value>, log': Log)
    requires n.log != map[] && RedecreedSoFar(n, b, acceptors, inum, log, reqId, sent) && inum <= Last(n.log)
    requires var fill := Value(DecNull, ReqId(n.id, reqId + 1), 0);
      && decreed == (if inum !in log then Some(fill) else if log[inum].committed then None else Some(log[inum].value))
      && log' == if decreed.Some? then log[inum := Entry(b, decreed.value, false, false, false, 1)] else log
    ensures RedecreedSoFar(n, b, acceptors, inum + 1, log', if inum !in log then reqId + 1 else reqId,
              if decreed.Some? then sent + Broadcast(n.id, acceptors, b, inum, decreed.value) else sent)
  {
    hide RedecreedUpTo, DecreesBelow, RedecreeEntry, Redecreed, HolesBelow, Last, NullValue, Broadcast;
    FillsWith(n, inum, reqId);
    StepAgrees(n, b, inum, NullValue(n, inum), log, decreed, log');
    DecreesNext(n, b, acceptors, inum);
    HoleNext(n.log, n.ihole, inum);
  }

  lemma FillsWith(n: Node, i: nat, reqId: nat)
    requires reqId == n.reqId + |HolesBelow(n.log, n.ihole, i)|
    ensures NullValue(n, i) == Value(DecNull, ReqId(n.id, reqId + 1), 0)
  {
    hide HolesBelow;
  }

  lemma RedecreeEnds(n: Node, b: Ballot, acceptors: set<NodeId>, log: Log, reqId: nat, sent: set<Message>)
    requires n.log != map[] && RedecreedSoFar(n, b, acceptors, Last(n.log) + 1, log, reqId, sent)
    ensures log == RedecreeLog(n, b) && reqId == n.reqId + |HolesBelow(n.log, n.ihole, Last(n.log))|
    ensures sent == CompletePrepare(n, b, acceptors).sent
  {
    RedecreedAll(n, b);
    DecreesAll(n, b, acceptors);
    hide RedecreedUpTo, DecreesBelow, RedecreeLog, HolesBelow, Last, CompletePrepare;
  }

  lemma SoFarKeepsLast(n: Node, b: Ballot, acceptors: set<NodeId>, inum: nat, s: seq<Instance>, reqId: nat, sent: set<Message>)
    requires n.log != map[] && Sorted(s) && s != []
    requires RedecreedSoFar(n, b, acceptors, inum, LogOf(s), reqId, sent)
    ensures s[|s| - 1].inum == Last(n.log) && n.ihole <= inum <= Last(n.log) + 1
  {
    UpToKeepsLast(n, b, inum);
    LastListed(s, RedecreedUpTo(n, b, inum));
  }

  /** Decree every open instance from the hole to the end of the list, walking
      numbers and list together. */
  method RedecreeLoop(s: seq<Instance>, from: nat, self: NodeId, hole: nat, req: nat, b: Ballot,
                      acceptors: set<NodeId>, start: nat, ghost n: Node)
    returns (t: seq<Instance>, reqId: nat, sent: set<Message>, istart: nat)
    requires Sorted(s) && from < |s| && s[from].inum <= hole <= s[|s| - 1].inum + 1
    requires n.log == LogOf(s) && n.id == self && n.ihole == hole && n.reqId == req
    ensures n.log != map[] && Sorted(t)
    ensures LogOf(t) == RedecreeLog(n, b)
    ensures reqId == n.reqId + |HolesBelow(n.log, n.ihole, Last(n.log))|
    ensures sent == CompletePrepare(n, b, acceptors).sent
    ensures istart == if hole in LogOf(t) && hole !in LogOf(s) then hole else start
  {
    hide LogOf, Sorted, Last, RedecreedSoFar, RedecreeLog, CompletePrepare, HolesBelow, Broadcast;
    LastListed(s, n.log);
    RedecreeStarts(n, b, acceptors);
    ghost var last: int := Last(n.log);
    t, reqId, sent, istart := s, req, {}, start;
    var it: int, inum: int := from, hole;
    while true
      invariant 0 <= it < |t| && Sorted(t) && t[it].inum <= inum
      invariant hole <= inum && RedecreedSoFar(n, b, acceptors, inum, LogOf(t), reqId, sent)
      invariant inum == hole ==> t == s
      invariant istart == if hole in LogOf(t) && hole !in LogOf(s) then hole else start
      decreases last - inum
    {
      SoFarKeepsLast(n, b, acceptors, inum, t, reqId, sent);
      var fill := Value(DecNull, ReqId(self, reqId + 1), 0);
      var past, next, u, decreed, filled := RedecreeOne(t, it, inum, b, fill);
      if past { break; }
      RedecreeSteps(n, b, acceptors, inum, LogOf(t), reqId, sent, decreed, LogOf(u));
      if filled {
        reqId := reqId + 1;
        if inum == hole { istart := hole; }
      }
      if decreed.Some? { sent := sent + Broadcast(self, acceptors, b, inum, decreed.value); }
      it, t, inum := next, u, inum + 1;
    }
    RedecreeEnds(n, b, acceptors, LogOf(t), reqId, sent);
  }

  // ---- Truncating.

  /** The request ids of the instances below `base`. */
  function RequestsBelow(log: Log, base: nat): set<ReqId> {
    set i | i in log && i < base :: log[i].value.req
  }

  /** Remove instances from the front while they are below `base`, and the
      requests cached for them. */
  method TruncateLoop(s: seq<Instance>, rcache: set<ReqId>, base: nat) returns (t: seq<Instance>, cache: set<ReqId>)
    requires Sorted(s)
    ensures Sorted(t) && LogOf(t) == From(LogOf(s), base)
    ensures cache == rcache - RequestsBelow(LogOf(s), base)
  {
    hide LogOf, RequestsBelow;
    t, cache := s, rcache;
    var k := 0;
    assert cache == rcache - FirstRequests(s, 0);
    while t != [] && t[0].inum < base
      invariant 0 <= k <= |s| && t == s[k..]
      invariant forall j :: 0 <= j < k ==> s[j].inum < base
      invariant cache == rcache - FirstRequests(s, k)
    {
      assert FirstRequests(s, k + 1) == FirstRequests(s, k) + {s[k].entry.value.req};
      cache := cache - {t[0].entry.value.req};
      t := t[1..];
      k := k + 1;
    }
    DropPrefix(s, k, base);
    DroppedRequests(s, k, base);
  }

  function FirstRequests(s: seq<Instance>, k: nat): set<ReqId>
    requires k <= |s|
  {
    set j | 0 <= j < k :: s[j].entry.value.req
  }

  lemma DroppedRequests(s: seq<Instance>, k: nat, base: nat)
    requires Sorted(s) && k <= |s|
    requires forall j :: 0 <= j < k ==> s[j].inum < base
    requires k < |s| ==> base <= s[k].inum
    ensures FirstRequests(s, k) == RequestsBelow(LogOf(s), base)
  {
    hide Sorted, LogOf, FirstRequests, RequestsBelow;
    forall r: ReqId ensures r in RequestsBelow(LogOf(s), base) <==> r in FirstRequests(s, k) {
      if r in RequestsBelow(LogOf(s), base) { RequestIsFirst(s, k, base, r); }
      if r in FirstRequests(s, k) { FirstIsBelow(s, k, base, r); }
    }
  }

  lemma RequestIsFirst(s: seq<Instance>, k: nat, base: nat, r: ReqId)
    requires Sorted(s) && k <= |s| && r in RequestsBelow(LogOf(s), base)
    requires k < |s| ==> base <= s[k].inum
    ensures r in FirstRequests(s, k)
  {
    hide LogOf;
    var i :| i in LogOf(s) && i < base && LogOf(s)[i].value.req == r;
    var j :| 0 <= j < |s| && s[j].inum == i;
    Listed(s, j);
    assert j < k;
  }

  lemma FirstIsBelow(s: seq<Instance>, k: nat, base: nat, r: ReqId)
    requires Sorted(s) && k <= |s| && r in FirstRequests(s, k)
    requires forall j :: 0 <= j < k ==> s[j].inum < base
    ensures r in RequestsBelow(LogOf(s), base)
  {
    hide Sorted, LogOf;
    var j :| 0 <= j < k && s[j].entry.value.req == r;
    Listed(s, j);
    assert s[j].inum in LogOf(s);
  }

  // ---- Being welcomed.

  /** The log once the instances from `from` up to `to` count as learned. */
  function TakenAsLearned(log: Log, from: nat, to: nat): Log {
    map i | i in log :: if from <= i < to then log[i].(cached := true, learned := true) else log[i]
  }

  lemma TakenNext(log: Log, from: nat, hole: nat)
    requires from <= hole && hole in log
    ensures TakenAsLearned(log, from, hole).Keys == log.Keys && TakenAsLearned(log, from, hole)[hole] == log[hole]
    ensures TakenAsLearned(log, from, hole)[hole := log[hole].(cached := true, learned := true)]
            == TakenAsLearned(log, from, hole + 1)
  {
  }

  lemma TakenNone(log: Log, from: nat)
    ensures TakenAsLearned(log, from, from) == log
  {
  }

  lemma TakenKeys(log: Log, from: nat, to: nat)
    ensures TakenAsLearned(log, from, to).Keys == log.Keys
  {
  }

  lemma TakeNext(s: seq<Instance>, it: nat, log: Log, from: nat, hole: nat)
    requires Sorted(s) && it < |s| && s[it].inum == hole && from <= hole && s[it].entry.committed
    requires LogOf(s) == TakenAsLearned(log, from, hole)
    ensures var t := s[it := Instance(hole, s[it].entry.(cached := true, learned := true))];
      Sorted(t) && LogOf(t) == TakenAsLearned(log, from, hole + 1)
    ensures CommittedIn(log, hole)
  {
    hide TakenAsLearned, Sorted, LogOf;
    Listed(s, it);
    UpdateAt(s, it, s[it].entry.(cached := true, learned := true));
    TakenKeys(log, from, hole);
    TakenNext(log, from, hole);
  }

  /** What the walk has done when it stands at position `it`. */
  predicate TakenSoFar(s: seq<Instance>, ibase: nat, t: seq<Instance>, it: nat, hole: nat)
    requires Sorted(s)
  {
    && Sorted(t) && it <= |t| == |s| && hole == ibase + it
    && (forall k :: it <= k < |t| ==> t[k] == s[k])
    && (forall j :: ibase <= j < hole ==> CommittedIn(LogOf(s), j))
    && LogOf(t) == TakenAsLearned(LogOf(s), ibase, hole)
    && (it > 0 ==> t[it - 1].inum == hole - 1)
  }

  lemma TakingStarts(s: seq<Instance>, ibase: nat)
    requires Sorted(s)
    ensures TakenSoFar(s, ibase, s, 0, ibase)
  {
    TakenNone(LogOf(s), ibase);
  }

  lemma TakingGoesOn(s: seq<Instance>, ibase: nat, t: seq<Instance>, it: nat, hole: nat)
    requires Sorted(s) && TakenSoFar(s, ibase, t, it, hole)
    requires it < |t| && t[it].inum == hole && t[it].entry.committed
    ensures TakenSoFar(s, ibase, t[it := Instance(hole, t[it].entry.(cached := true, learned := true))], it + 1, hole + 1)
  {
    hide Sorted, LogOf, TakenAsLearned, CommittedIn;
    TakeNext(t, it, LogOf(s), ibase, hole);
  }

  lemma TakingEnds(s: seq<Instance>, ibase: nat, t: seq<Instance>, it: nat, hole: nat)
    requires Sorted(s) && TakenSoFar(s, ibase, t, it, hole) && 0 < it
    requires it < |t| && t[it].inum == hole ==> !t[it].entry.committed
    ensures Sorted(t) && ibase < hole && it <= |t| && t[it - 1].inum == hole - 1
    ensures forall j :: ibase <= j < hole ==> CommittedIn(LogOf(s), j)
    ensures !CommittedIn(LogOf(s), hole)
    ensures LogOf(t) == TakenAsLearned(LogOf(s), ibase, hole)
    ensures (it < |t| && t[it].inum == hole) <==> hole in LogOf(t)
  {
    hide Sorted, LogOf, TakenAsLearned;
    var log := LogOf(s);
    ListedAt(t, it, hole);
    TakenKeys(log, ibase, hole);
    if hole in LogOf(t) {
      Listed(t, it);
      TakenNext(log, ibase, hole);
    }
  }

  /** Find the hole in a list received whole: walk it from its base for as
      long as numbers are consecutive and instances committed, taking each as
      learned without acting on it. */
  method WelcomeLoop(s: seq<Instance>, ibase: nat) returns (t: seq<Instance>, ihole: nat, istart: nat)
    requires Sorted(s) && s != [] && s[0].inum == ibase && s[0].entry.committed
    ensures Sorted(t) && ibase < ihole
    ensures forall j :: ibase <= j < ihole ==> CommittedIn(LogOf(s), j)
    ensures !CommittedIn(LogOf(s), ihole)
    ensures LogOf(t) == TakenAsLearned(LogOf(s), ibase, ihole)
    ensures istart as int == StartOf(LogOf(t), ihole)
  {
    hide LogOf, Sorted, TakenAsLearned, CommittedIn, TakenSoFar;
    t, ihole := s, ibase;
    var it := 0;
    TakingStarts(s, ibase);
    while it < |t| && t[it].inum == ihole && t[it].entry.committed
      invariant 0 <= it <= |t| == |s| && TakenSoFar(s, ibase, t, it, ihole)
      invariant it == 0 ==> t == s && ihole == ibase
      decreases |t| - it
    {
      TakingGoesOn(s, ibase, t, it, ihole);
      t := t[it := Instance(ihole, t[it].entry.(cached := true, learned := true))];
      ihole := ihole + 1;
      it := it + 1;
    }
    TakingEnds(s, ibase, t, it, ihole);
    if it == |t| {
      istart := t[|t| - 1].inum;
    } else if t[it].inum != ihole {
      istart := t[it - 1].inum;
    } else {
      istart := t[it].inum;
    }
  }
}
