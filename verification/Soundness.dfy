/** What every handler keeps true of one participant's log, hole, request cache
    and learn log, proved on the handlers' functions. */
module Soundness {
  import opened Types
  import opened Quorums
  import opened Node
  import opened InstanceList
  import opened Loops

  /** An instance marked cached and not yet learned has its request cached. */
  predicate Available(log: Log, rcache: set<ReqId>) {
    forall i :: i in log && log[i].cached && !log[i].learned && NeedsCached(log[i].value.kind) ==> log[i].value.req in rcache
  }

  /** The hole is the least number not both committed and cached; everything
      from the base below it is learned and nothing else is. */
  predicate HoleOK(log: Log, ibase: nat, ihole: nat) {
    && ibase in log && 0 < ibase < ihole
    && (forall i :: i in log ==> ibase <= i)
    && (forall i :: ibase <= i < ihole ==> Ready(log, i))
    && !Ready(log, ihole)
    && (forall i :: i in log ==> (log[i].learned <==> i < ihole) && (log[i].cached ==> log[i].committed))
  }

  /** The learn log holds the values of the instances below the hole, once each and in order. */
  predicate LearnLogOK(log: Log, ibase: nat, ihole: nat, learns: seq<Value>, first: nat) {
    && first <= ihole && |learns| == ihole - first
    && forall i :: ibase <= i < ihole && first <= i ==> i in log && learns[i - first] == log[i].value
  }

  /** The session invariant, on values. */
  predicate Sound(n: Node, ibase: nat, rcache: set<ReqId>, first: nat) {
    && HoleOK(n.log, ibase, n.ihole)
    && LearnLogOK(n.log, ibase, n.ihole, n.learns, first)
    && Available(n.log, rcache)
    && (n.prep.Some? ==> IsProposer(n) && n.prep.value.istart in n.log && n.prep.value.istart <= n.ihole)
  }

  // ---- The handlers' functions keep the invariant.

  lemma LearnRunHole(n: Node, ibase: nat)
    requires n.ihole > ibase > 0 && ibase in n.log && (forall i :: i in n.log ==> ibase <= i)
    requires forall i :: ibase <= i < n.ihole ==> Ready(n.log, i)
    requires forall i :: i in n.log ==> (n.log[i].learned <==> i < n.ihole) && (n.log[i].cached ==> n.log[i].committed)
    ensures HoleOK(LearnRun(n).log, ibase, LearnRun(n).ihole)
  {
    var m, h := LearnRun(n), HoleAfter(n.log, n.ihole);
    forall i | ibase <= i < m.ihole ensures Ready(m.log, i) { assert Ready(n.log, i); }
    assert !Ready(n.log, h);
  }

  lemma LearnRunLogs(n: Node, ibase: nat, first: nat)
    requires LearnLogOK(n.log, ibase, n.ihole, n.learns, first)
    ensures LearnLogOK(LearnRun(n).log, ibase, LearnRun(n).ihole, LearnRun(n).learns, first)
  {
    var m, h := LearnRun(n), HoleAfter(n.log, n.ihole);
    forall i | ibase <= i < m.ihole && first <= i ensures i in m.log && m.learns[i - first] == m.log[i].value {
      if i < n.ihole {
        assert m.learns[i - first] == n.learns[i - first];
      } else {
        assert Ready(n.log, i);
        assert m.learns[i - first] == Values(n.log, n.ihole, h)[i - n.ihole];
      }
    }
  }

  lemma LearnRunSound(n: Node, ibase: nat, rcache: set<ReqId>, first: nat)
    requires n.ihole > ibase > 0 && ibase in n.log && (forall i :: i in n.log ==> ibase <= i)
    requires forall i :: ibase <= i < n.ihole ==> Ready(n.log, i)
    requires forall i :: i in n.log ==> (n.log[i].learned <==> i < n.ihole) && (n.log[i].cached ==> n.log[i].committed)
    requires LearnLogOK(n.log, ibase, n.ihole, n.learns, first) && Available(n.log, rcache)
    requires n.prep.Some? ==> IsProposer(n) && n.prep.value.istart in n.log && n.prep.value.istart <= n.ihole
    ensures Sound(LearnRun(n), ibase, rcache, first)
  {
    hide HoleOK, LearnLogOK, HoleAfter, Values;
    LearnRunHole(n, ibase);
    LearnRunLogs(n, ibase, first);
  }

  /** Marking an instance committed leaves the learned prefix as it was. */
  lemma MarkedLearnLog(log: Log, ibase: nat, ihole: nat, learns: seq<Value>, first: nat, i: nat, e: Entry)
    requires i in log && e.value == log[i].value && LearnLogOK(log, ibase, ihole, learns, first)
    ensures LearnLogOK(log[i := e], ibase, ihole, learns, first)
  {
  }

  lemma MarkedReady(log: Log, ibase: nat, ihole: nat, i: nat, e: Entry, log': Log)
    requires i in log && ihole <= i && forall j :: ibase <= j < ihole ==> Ready(log, j)
    requires log' == log[i := e]
    ensures forall j :: ibase <= j < ihole ==> Ready(log', j)
  {
    forall j | ibase <= j < ihole ensures Ready(log', j) { assert Ready(log, j); }
  }

  lemma CommitSound(n: Node, i: nat, ibase: nat, rcache: set<ReqId>, first: nat)
    requires Sound(n, ibase, rcache, first) && i in n.log && !Ready(n.log, i)
    ensures var have := n.log[i].value.req in rcache;
      Sound(CommitInstance(n, i, have).node, ibase, rcache, first)
    ensures n.ihole <= i
  {
    hide LearnLogOK, HoleAfter, LearnRun;
    assert i < n.ihole ==> Ready(n.log, i);
    var have := n.log[i].value.req in rcache;
    var e := n.log[i].(committed := true);
    if NeedsCached(e.value.kind) && !have {
      MarkedLearnLog(n.log, ibase, n.ihole, n.learns, first, i, e);
      MarkedReady(n.log, ibase, n.ihole, i, e, n.log[i := e]);
    } else {
      e := e.(cached := true);
      MarkedLearnLog(n.log, ibase, n.ihole, n.learns, first, i, e);
      MarkedReady(n.log, ibase, n.ihole, i, e, n.log[i := e]);
      if i == n.ihole { LearnRunSound(n.(log := n.log[i := e]), ibase, rcache, first); }
    }
  }

  /** Writing an uncommitted entry at or past the hole. */
  lemma WriteSound(n: Node, i: nat, e: Entry, ibase: nat, rcache: set<ReqId>, first: nat)
    requires Sound(n, ibase, rcache, first) && ibase <= i && !Ready(n.log, i)
    requires !e.learned && !e.cached
    ensures Sound(n.(log := n.log[i := e]), ibase, rcache, first)
  {
    assert i < n.ihole ==> Ready(n.log, i);
    var m := n.log[i := e];
    forall j | ibase <= j < n.ihole ensures Ready(m, j) { assert Ready(n.log, j); }
  }

  /** Changing votes only. */
  lemma CountSound(n: Node, i: nat, ibase: nat, rcache: set<ReqId>, first: nat)
    requires Sound(n, ibase, rcache, first) && i in n.log
    ensures Sound(CountVote(n, i), ibase, rcache, first)
  {
    var m := CountVote(n, i).log;
    forall j | ibase <= j < n.ihole ensures Ready(m, j) { assert Ready(n.log, j); }
  }

  lemma UncachedOpen(n: Node, i: nat, ibase: nat, rcache: set<ReqId>, first: nat)
    requires Sound(n, ibase, rcache, first) && i in n.log && (!n.log[i].committed || !n.log[i].cached)
    ensures !n.log[i].learned && !n.log[i].cached && n.ihole <= i
  {
    assert i < n.ihole ==> Ready(n.log, i);
  }

  /** From an instance at or past the hole on, nothing in the list is learned. */
  lemma OpenFrom(s: seq<Instance>, k: nat, n: Node, ibase: nat, rcache: set<ReqId>, first: nat)
    requires Sorted(s) && k < |s| && Sound(n, ibase, rcache, first) && n.log == LogOf(s) && n.ihole <= s[k].inum
    ensures forall j :: k <= j < |s| ==> !s[j].entry.learned
    ensures n.ihole > 0
  {
    forall j | k <= j < |s| ensures !s[j].entry.learned { Listed(s, j); }
  }

  lemma MergeSound(n: Node, report: Log, acks: nat, ibase: nat, rcache: set<ReqId>, first: nat)
    requires Sound(n, ibase, rcache, first) && n.prep.Some?
    requires forall i :: i in report ==> n.prep.value.istart <= i
    ensures Sound(n.(log := Merge(n.log, report), prep := Some(n.prep.value.(acks := acks))), ibase, rcache, first)
  {
    var m := Merge(n.log, report);
    forall j | ibase <= j < n.ihole ensures Ready(m, j) && m[j] == n.log[j] { assert Ready(n.log, j); }
    assert !Ready(n.log, n.ihole) && !Ready(m, n.ihole);
  }

  lemma CompleteSound(n: Node, b: Ballot, acceptors: set<NodeId>, ibase: nat, rcache: set<ReqId>, first: nat)
    requires Sound(n, ibase, rcache, first)
    ensures n.log != map[]
    ensures Sound(CompletePrepare(n, b, acceptors).node, ibase, rcache, first)
  {
    hide Last, HolesBelow, RedecreeLog;
    var m := RedecreeLog(n, b);
    forall i: nat ensures i in n.log && (n.log[i].committed || i < n.ihole) ==> i in m && m[i] == n.log[i] { OldStays(n, b, i); }
    forall i | i in m ensures (i in n.log && m[i] == n.log[i]) || (n.ihole <= i && Blank(m[i])) { FromRedecree(n, b, i); }
    forall j | ibase <= j < n.ihole ensures Ready(m, j) { assert Ready(n.log, j); }
    assert !Ready(n.log, n.ihole) && !Ready(m, n.ihole);
    if n.prep.Some? { OldStays(n, b, n.prep.value.istart); }
  }

  predicate Blank(e: Entry) {
    !e.committed && !e.cached && !e.learned
  }

  lemma OldStays(n: Node, b: Ballot, i: nat)
    requires n.log != map[]
    ensures i in n.log ==> i in RedecreeLog(n, b)
    ensures i in n.log && (n.log[i].committed || i < n.ihole) ==> RedecreeLog(n, b)[i] == n.log[i]
  {
  }

  lemma FromRedecree(n: Node, b: Ballot, i: nat)
    requires n.log != map[] && i in RedecreeLog(n, b)
    ensures var m := RedecreeLog(n, b); (i in n.log && m[i] == n.log[i]) || (n.ihole <= i && Blank(m[i]))
  {
  }

  lemma EnterSound(n: Node, v: Value, acceptors: set<NodeId>, ibase: nat, rcache: set<ReqId>, first: nat)
    requires Sound(n, ibase, rcache, first)
    ensures var m, i := EnterDecree(n, v, acceptors).node, NextInstance(n.log);
      Sound(m, ibase, rcache, first) && n.ihole <= i && i in m.log && !Ready(m.log, i)
  {
    var i := NextInstance(n.log);
    assert Ready(n.log, n.ihole - 1);
    WriteSound(n, i, Entry(n.ballot, v, false, false, false, 1), ibase, rcache, first);
  }

  /** An established participant's handlers only ever raise its request number or fill its cache. */
  lemma CacheSound(n: Node, ibase: nat, rcache: set<ReqId>, first: nat, reqs: set<ReqId>, reqId: nat)
    requires Sound(n, ibase, rcache, first)
    ensures Sound(n.(reqId := reqId), ibase, rcache + reqs, first)
  {
  }

  /** No request names two instances of the log. */
  predicate DistinctRequests(log: Log) {
    forall i, j :: i in log && j in log && i != j ==> log[i].value.req != log[j].value.req
  }

  /** Dropping learned instances, and their requests, takes nothing that is
      still to be learned. */
  lemma TruncateSound(n: Node, base: nat, ibase: nat, rcache: set<ReqId>, first: nat)
    requires Sound(n, ibase, rcache, first) && n.prep.None? && DistinctRequests(n.log)
    requires ibase <= base < n.ihole
    ensures Sound(n.(log := From(n.log, base)), base, rcache - RequestsBelow(n.log, base), first)
    ensures StartOf(From(n.log, base), n.ihole) == StartOf(n.log, n.ihole)
  {
    var m := From(n.log, base);
    assert Ready(n.log, base);
    assert !Ready(n.log, n.ihole) && !Ready(m, n.ihole);
    forall i | base <= i < n.ihole ensures Ready(m, i) && m[i] == n.log[i] { assert Ready(n.log, i); }
    KeepsRequests(n.log, base, rcache);
  }

  lemma KeepsRequests(log: Log, base: nat, rcache: set<ReqId>)
    requires DistinctRequests(log) && Available(log, rcache)
    ensures Available(From(log, base), rcache - RequestsBelow(log, base))
  {
    assert forall i, j :: i in From(log, base) && j in log && j < base ==> log[i].value.req != log[j].value.req;
  }

  lemma OnlyInstance(e: Entry)
    ensures Sorted([Instance(1, e)]) && LogOf([Instance(1, e)]) == map[1 := e]
  {
    var s := [Instance(1, e)];
    assert s[0].inum == 1;
    IsLogOf(s, map[1 := e]);
  }

  lemma StartSound(n: Node, e: Entry, rcache: set<ReqId>)
    requires n.log == map[1 := e] && e.committed && e.cached && e.learned && n.ihole == 2 && n.learns == [] && n.prep.None?
    ensures Sound(n, 1, rcache, 2)
  {
  }

  lemma WelcomeSound(n: Node, log: Log, ibase: nat, rcache: set<ReqId>)
    requires 0 < ibase < n.ihole && (forall i :: i in log ==> ibase <= i && !log[i].cached && !log[i].learned)
    requires (forall i :: ibase <= i < n.ihole ==> CommittedIn(log, i)) && !CommittedIn(log, n.ihole)
    requires n.log == TakenAsLearned(log, ibase, n.ihole) && n.learns == [] && n.prep.None?
    ensures Sound(n, ibase, rcache, n.ihole)
  {
    forall i | ibase <= i < n.ihole ensures Ready(n.log, i) { assert CommittedIn(log, i); }
    assert CommittedIn(log, ibase);
    assert Ready(n.log, n.ihole) ==> CommittedIn(log, n.ihole);
    forall i | i in n.log ensures (n.log[i].learned <==> i < n.ihole) && (n.log[i].cached ==> n.log[i].committed) {
      assert i < n.ihole ==> CommittedIn(log, i);
    }
  }

  /** The instance `istart` names is listed, and no later than the hole. */
  lemma StartInLog(n: Node, ibase: nat, rcache: set<ReqId>, first: nat)
    requires Sound(n, ibase, rcache, first)
    ensures n.ihole > ibase > 0 && StartOf(n.log, n.ihole) >= ibase
    ensures var start: nat := StartOf(n.log, n.ihole); start in n.log && start <= n.ihole
  {
    assert Ready(n.log, n.ihole - 1);
  }

  /** Instances unpacked from a message carry neither flag. */
  lemma Unpacked(s: seq<Instance>)
    requires Sorted(s) && s != [] && forall k :: 0 <= k < |s| ==> !s[k].entry.cached && !s[k].entry.learned
    ensures forall i :: i in LogOf(s) ==> s[0].inum <= i && !LogOf(s)[i].cached && !LogOf(s)[i].learned
  {
  }

  /** The invariant does not mention the ballot, the water mark or liveness. */
  lemma SoundElsewhere(n: Node, m: Node, ibase: nat, rcache: set<ReqId>, first: nat)
    requires Sound(n, ibase, rcache, first)
    requires m == n.(ballot := m.ballot, genHigh := m.genHigh, alive := m.alive)
    ensures Sound(m, ibase, rcache, first)
  {
  }

  /** The list starts at the base. */
  lemma BaseFirst(s: seq<Instance>, n: Node, ibase: nat, rcache: set<ReqId>, first: nat)
    requires Sorted(s) && Sound(n, ibase, rcache, first) && n.log == LogOf(s)
    ensures s != [] && s[0].inum == ibase
  {
    var k :| 0 <= k < |s| && s[k].inum == ibase;
    Listed(s, 0);
  }

  lemma PrepSound(n: Node, ibase: nat, rcache: set<ReqId>, first: nat)
    requires Sound(n, ibase, rcache, first) && n.prep.Some?
    ensures IsProposer(n) && n.prep.value.istart in n.log && n.prep.value.istart <= n.ihole
    ensures n.log != map[]
  {
  }

  lemma HoleInReach(s: seq<Instance>, n: Node, ibase: nat, rcache: set<ReqId>, first: nat)
    requires Sorted(s) && Sound(n, ibase, rcache, first) && n.log == LogOf(s)
    ensures s != [] && n.ihole <= s[|s| - 1].inum + 1
  {
    assert Ready(n.log, n.ihole - 1);
    var k :| 0 <= k < |s| && s[k].inum == n.ihole - 1;
  }

  lemma MergeStart(log: Log, report: Log, ihole: nat)
    ensures StartOf(Merge(log, report), ihole) == if ihole in report && ihole !in log then ihole else StartOf(log, ihole)
  {
  }

  lemma RedecreedStart(n: Node, b: Ballot)
    requires n.log != map[]
    ensures var log := RedecreeLog(n, b);
      StartOf(log, n.ihole) == if n.ihole in log && n.ihole !in n.log then n.ihole else StartOf(n.log, n.ihole)
  {
  }

  lemma HasBase(n: Node, ibase: nat, rcache: set<ReqId>, first: nat)
    requires Sound(n, ibase, rcache, first)
    ensures n.log != map[]
  {
  }

  /** Below the hole everything from the base on is ready. */
  lemma OpenPastHole(n: Node, i: nat, ibase: nat, rcache: set<ReqId>, first: nat)
    requires Sound(n, ibase, rcache, first) && !Ready(n.log, i)
    ensures ibase < n.ihole && (ibase <= i ==> n.ihole <= i)
  {
  }

  lemma AboveBase(s: seq<Instance>, k: nat, n: Node, ibase: nat, rcache: set<ReqId>, first: nat)
    requires Sorted(s) && k < |s| && Sound(n, ibase, rcache, first) && n.log == LogOf(s)
    ensures ibase <= s[k].inum
  {
    Listed(s, k);
  }

  lemma PrepareSound(n: Node, acceptors: set<NodeId>, reqId: nat, ibase: nat, rcache: set<ReqId>, first: nat)
    requires Sound(n, ibase, rcache, first)
    ensures n.ihole > 0 && Sound(StartPrepare(n, acceptors).node.(reqId := reqId), ibase, rcache, first)
    ensures Sound(n.(proposer := n.id, alive := false), ibase, rcache, first)
  {
    StartInLog(n, ibase, rcache, first);
    hide HoleOK, LearnLogOK, Available, StartOf;
  }
}
