/** Merging a promise, and completing a prepare, keep the invariant. */
module PreservationPromise {
  import opened Types
  import opened Quorums
  import opened Voting
  import opened Node
  import opened Protocol
  import opened Invariant
  import opened Preservation
  import opened PreservationCommit
  import opened PreservationVote
  import opened PreservationDecree

  // ---- Merging.

  /** The merge keeps what is committed and never lowers a label. */
  lemma MergeEffect(log: Log, report: Log)
    ensures var m := Merge(log, report);
      && (forall i :: i in log && log[i].committed ==> m[i] == log[i])
      && (forall i :: i in log ==> i in m && m[i].committed == log[i].committed && AtMost(log[i].ballot, m[i].ballot))
      && (forall i :: i in report ==> i in m && (m[i].committed || AtMost(report[i].ballot, m[i].ballot)))
      && (forall i :: i in m ==>
            || (i in log && m[i].ballot == log[i].ballot && m[i].value == log[i].value)
            || (i in report && m[i].ballot == report[i].ballot && m[i].value == report[i].value && !m[i].committed))
  {
  }

  lemma MergedLogOK(h: History, a: NodeId, log: Log, report: Log)
    requires LogOK(h, a, log) && 0 !in report
    requires forall i :: i in report ==> Backed(h, i, report[i].ballot, report[i].value)
    ensures LogOK(h, a, Merge(log, report))
  {
    hide Backed, Chosen;
    MergeEffect(log, report);
    hide Merge;
    var m := Merge(log, report);
    forall i | i in m ensures Backed(h, i, m[i].ballot, m[i].value) {
      assert i in log ==> Backed(h, i, log[i].ballot, log[i].value);
    }
  }

  lemma MergerOK(h: History, acked: set<NodeId>, n: Node, src: NodeId, start: nat, report: Log)
    requires NodeOK(h, n) && PrepOK(h, acked, n) && n.prep.Some? && src in h.promised
    requires src !in acked && src != n.id && 0 !in report && start <= n.ihole
    requires AtMost(n.prep.value.ballot, h.promised[src])
    requires ReportCovers(h, src, n.prep.value.ballot, start, report)
    requires forall i :: i in report ==> Backed(h, i, report[i].ballot, report[i].value)
    requires forall x :: x in h.votes ==> x.inum > 0
    requires h.strong <= h.votes
    ensures var n' := Merged(n, report);
      NodeOK(h, n') && PrepOK(h, acked + {src}, n') && Evolves(n, n')
  {
    hide Backed, Chosen, Covers, ReportCovers;
    var n', b := Merged(n, report), n.prep.value.ballot;
    MergedLogOK(h, n.id, n.log, report);
    MergedPrefix(n.log, n.ihole, n.learns, report);
    MergedCovers(h, acked, n.log, n.ihole, b, src, start, report);
    hide LogOK, LearnsOK;
    MergeEffect(n.log, report);
    hide Merge;
    assert |acked + {src}| == |acked| + 1;
  }

  lemma MergedPrefix(log: Log, ihole: nat, learns: seq<Value>, report: Log)
    requires LearnsOK(log, ihole, learns)
    ensures LearnsOK(Merge(log, report), ihole, learns)
  {
    MergeEffect(log, report);
    hide Merge;
    forall i | 1 <= i < ihole ensures Ready(Merge(log, report), i) && Merge(log, report)[i] == log[i] { assert Ready(log, i); }
  }

  lemma MergedCovers(h: History, acked: set<NodeId>, log: Log, ihole: nat, b: Ballot, src: NodeId, start: nat, report: Log)
    requires Covers(h, acked, b, log) && ReportCovers(h, src, b, start, report) && start <= ihole
    requires forall i :: 1 <= i < ihole ==> Ready(log, i)
    requires h.strong <= h.votes && forall x :: x in h.votes ==> x.inum > 0
    ensures Covers(h, acked + {src}, b, Merge(log, report))
  {
    MergeEffect(log, report);
    hide Merge;
    forall x | x in h.votes && x.voter == src && x.inum < start ensures Ready(Merge(log, report), x.inum) {
      assert Ready(log, x.inum);
    }
  }

  /** Instance 0 is a sentinel: no vote names it, no promise reports it. */
  ghost predicate NoSentinel(h: History) {
    forall k :: k in h.decreed ==> k.1 > 0
  }

  lemma SentinelFree(s: State)
    requires Inv(s)
    ensures NoSentinel(s.hist)
    ensures forall x :: x in s.hist.votes ==> x.inum > 0
    ensures s.hist.strong <= s.hist.votes
  {
    hide DecreesSafe, PreparesLawful, NodesOK, RecordsOK, NetOK;
    assert VotesLawful(s.hist);
    forall k | k in s.hist.decreed ensures k.1 > 0 {
      assert Genuine(s.hist, k.1, k.0, s.hist.decreed[(k.0, k.1)]);
      DecreeIsPositive(s, k.0, k.1, s.hist.decreed[k]);
    }
    forall x | x in s.hist.votes ensures x.inum > 0 {
      assert (x.ballot, x.inum) in s.hist.decreed;
    }
  }

  lemma BackedIsPositive(h: History, i: nat, b: Ballot, v: Value)
    requires Backed(h, i, b, v) && NoSentinel(h)
    requires forall x :: x in h.votes ==> x.inum > 0
    requires h.strong <= h.votes
    ensures i > 0
  {
    if Genuine(h, i, b, v) {
      assert (b, i) in h.decreed && (b, i).1 > 0;
    } else {
      var c :| StronglyChosenAt(h, i, c, v);
      var q :| IsQuorum(h.promised.Keys, q) && AllVoted(h.strong, q, i, c, v);
      var a := QuorumsMeet(h.promised.Keys, q, q);
      assert Vote(a, i, c, v) in h.strong;
    }
  }

  predicate CanMerge(s: State, m: Message) {
    m.Promise? && Preparing(s, m.ballot)
  }

  /** The state once a promise has been merged and counted, before the prepare completes. */
  function Merging(s: State, m: Message): State
    requires CanMerge(s, m)
  {
    var a := m.ballot.id;
    s.(nodes := s.nodes[a := Merged(s.nodes[a], m.report)],
       net := s.net - multiset{m},
       acked := s.acked[a := s.acked[a] + {m.src}])
  }

  lemma MergeOnce(s: State, m: Message)
    requires forall k :: k in s.net ==> PromiseOnce(s, k) && VoteOnce(s, k)
    requires CanMerge(s, m) && m in s.net
    ensures forall k :: k in Merging(s, m).net ==> PromiseOnce(Merging(s, m), k) && VoteOnce(Merging(s, m), k)
  {
    hide Merge;
    var s' := Merging(s, m);
    assert PromiseOnce(s, m);
    forall k | k in s'.net ensures PromiseOnce(s', k) && VoteOnce(s', k) {
      assert PromiseOnce(s, k) && VoteOnce(s, k);
    }
  }

  lemma ReportPositive(h: History, report: Log)
    requires NoSentinel(h) && h.strong <= h.votes && forall x :: x in h.votes ==> x.inum > 0
    requires forall i :: i in report ==> Backed(h, i, report[i].ballot, report[i].value)
    ensures 0 !in report
  {
    hide Backed;
    if 0 in report { BackedIsPositive(h, 0, report[0].ballot, report[0].value); }
  }

  lemma MergeKeepsInv(s: State, m: Message)
    requires Inv(s) && CanMerge(s, m) && m in s.net
    ensures Inv(Merging(s, m))
  {
    hide Lawful, NodeOK, PrepOK, EstablishedOK, RecordsOK, PromiseOnce, VoteOnce, NodesOK, Evolves,
      Merged, ReportCovers, Backed, GrowsBy;
    var a, s' := m.ballot.id, Merging(s, m);
    var n := s.nodes[a];
    assert ParticipantOK(s, a) by { IsParticipant(s, a); }
    assert MessageOK(s.hist, s.nodes, m);
    assert PromiseOnce(s, m);
    NotCountedYet(s, m);
    SentinelFree(s);
    ReportPositive(s.hist, m.report);
    MergerOK(s.hist, s.acked[a], n, m.src, m.start, m.report);
    MergedRole(n, m.report);
    Unestablished(s.hist, s.counted, s'.nodes[a]);
    MergeOnce(s, m);
    QuietGrows(s.hist, a);
    hide MessageOK, NoSentinel;
    RecordsKept(s, s', a);
    Finish(s, s', a);
  }

  lemma NotCountedYet(s: State, m: Message)
    requires PromiseOnce(s, m) && CanMerge(s, m)
    ensures m.src !in s.acked[m.ballot.id]
  {
  }

  lemma MergedRole(n: Node, report: Log)
    requires n.prep.Some?
    ensures var n' := Merged(n, report);
      n'.id == n.id && n'.prep.Some? && n'.prep.value.ballot == n.prep.value.ballot && n'.ballot == n.ballot
  {
  }

  lemma Unestablished(h: History, counted: map<(Ballot, nat), set<NodeId>>, n: Node)
    requires n.prep.Some?
    ensures EstablishedOK(h, counted, n)
  {
  }
}
