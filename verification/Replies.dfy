/** What the protocol's handlers answer, and that the answers add up: a decree
    with enough willing acceptors is committed by all of them, and a prepare
    with enough willing acceptors is completed. */
module Replies {
  import opened Types
  import opened Quorums
  import opened Node

  /** The logs differ at instance `i` at most. */
  ghost predicate SameBut(log: Log, log': Log, i: nat) {
    forall j :: j != i ==> (j in log' <==> j in log) && (j in log ==> log'[j] == log[j])
  }

  // ---- Voting.

  /** An acceptor in the decree's ballot that takes the decreer for its proposer. */
  predicate FollowsIn(n: Node, b: Ballot) {
    !IsProposer(n) && n.ballot == b && n.proposer == b.id
  }

  /** The instance is unknown, or open under a ballot no higher than `b`. */
  predicate IsFree(log: Log, i: nat, b: Ballot) {
    i in log ==> !log[i].committed && !Below(b, log[i].ballot)
  }

  /** Such an acceptor votes exactly for what is free to it, and for what it has
      committed with the same value.  A vote for what is free makes the
      instance an open entry with the decree's ballot and value; no other entry
      changes, and one accept goes out.  On an open entry it is silent if and
      only if that has a higher ballot; a committed entry with another value is
      fatal. */
  lemma DecreeAnswered(n: Node, b: Ballot, i: nat, v: Value)
    requires FollowsIn(n, b)
    ensures var o := AckDecree(n, b, i, v);
      && o.node == n.(alive := o.node.alive, log := o.node.log) && SameBut(n.log, o.node.log, i)
      && (IsFree(n.log, i, b) ==>
            && o.sent == {Accept(n.id, b, i)} && o.node.alive == n.alive
            && i in o.node.log && o.node.log[i].ballot == b && o.node.log[i].value == v && !o.node.log[i].committed)
      && (i in n.log && !n.log[i].committed ==> (o.sent == {} <==> Below(b, n.log[i].ballot)))
      && (!IsFree(n.log, i, b) ==> o.node.log == n.log)
      && (CommittedIn(n.log, i) ==>
            if SameDecree(n.log[i].value, v) then o.sent == {Accept(n.id, b, i)} && o.node == n
            else o.sent == {} && !o.node.alive)
  {
  }

  /** The same decree again is answered again, and changes nothing more. */
  lemma DecreeAnsweredTwice(n: Node, b: Ballot, i: nat, v: Value)
    requires FollowsIn(n, b) && IsFree(n.log, i, b)
    ensures var o := AckDecree(n, b, i, v); AckDecree(o.node, b, i, v) == o
  {
    var o := AckDecree(n, b, i, v);
    assert o.node.log[i := o.node.log[i]] == o.node.log;
  }

  /** Another value under the ballot of an open entry takes its place. */
  lemma DecreeReplaces(n: Node, b: Ballot, i: nat, v: Value, w: Value)
    requires FollowsIn(n, b) && IsFree(n.log, i, b)
    ensures var o := AckDecree(AckDecree(n, b, i, v).node, b, i, w);
      o.sent == {Accept(n.id, b, i)} && o.node == AckDecree(n, b, i, w).node
  {
    var m := AckDecree(n, b, i, v).node;
    assert m.log[i := m.log[i].(ballot := b, value := w)] == n.log[i := m.log[i].(ballot := b, value := w)];
  }

  /** Nobody else does anything with a decree, and one that follows another proposer in that ballot stops. */
  lemma DecreeIgnored(n: Node, b: Ballot, i: nat, v: Value)
    requires !FollowsIn(n, b)
    ensures var o := AckDecree(n, b, i, v);
      && o.sent == {} && o.node == n.(alive := o.node.alive)
      && (o.node.alive <==> n.alive && (IsProposer(n) || b != n.ballot))
  {
  }

  // ---- Promising.

  /** An acceptor promises exactly a higher ballot of the participant it takes
      for the proposer: it then holds that ballot, and its generation as the
      highest seen, and reports what it holds from `start` on, and the last
      entry before that if it has none at `start`.  The ballots and values
      reported are its own. */
  lemma PrepareAnswered(n: Node, b: Ballot, start: nat)
    ensures var o := AckPrepare(n, b, start);
      if !IsProposer(n) && Below(n.ballot, b) && n.proposer == b.id then
        && o.node == n.(ballot := b, genHigh := b.gen)
        && exists report :: o.sent == {Promise(n.id, b, start, report)} && Reports(n.log, start, report)
      else
        o.node == n && o.sent == {}
  {
    ReportReports(n.log, start);
    hide Report, Reports;
  }

  ghost predicate Reports(log: Log, start: nat, report: Log) {
    && (forall i :: i in report ==> i in log && report[i].ballot == log[i].ballot && report[i].value == log[i].value
                                    && report[i].committed == log[i].committed)
    && (forall i :: i in log && start <= i ==> i in report)
    && (forall i :: i in report && i < start ==> start !in log && forall j :: i < j < start ==> j !in log)
    && (forall i :: i in log && i < start && start !in log && (forall j :: i < j < start ==> j !in log) ==> i in report)
  }

  lemma ReportReports(log: Log, start: nat)
    ensures Reports(log, start, Report(log, start))
  {
    forall i | i in Report(log, start) && i < start
      ensures start !in log && forall j :: i < j < start ==> j !in log
    {
      assert Reported(log, start, i);
    }
  }

  /** A new prepare asks everyone else, under a ballot of our own past every generation seen, from our hole on. */
  lemma PrepareAsks(n: Node, acceptors: set<NodeId>)
    requires n.ihole > 0
    ensures var o := StartPrepare(n, acceptors);
      && IsProposer(o.node) && o.node.prep.Some? && o.node.prep.value.acks == 1
      && var b := o.node.prep.value.ballot;
      && b.id == n.id && b.gen > n.genHigh && o.node.genHigh == b.gen
      && o.node == n.(proposer := n.id, genHigh := b.gen, prep := o.node.prep)
      && forall m :: m in o.sent <==> m.Prepare? && m.dst in acceptors && m.dst != n.id && m.ballot == b && m.start == n.ihole
  {
  }

  // ---- Counting promises.

  /** Merging a report leaves what is committed, and otherwise takes a reported
      entry over if and only if ours is missing or has a lower ballot; what is
      taken over counts as undecided. */
  lemma ReportTaken(log: Log, report: Log, i: nat)
    ensures var m := Merge(log, report);
      && (i in m <==> i in log || i in report)
      && (i in log && (log[i].committed || i !in report || !Below(log[i].ballot, report[i].ballot)) ==> m[i] == log[i])
      && (i in report && (i !in log || (!log[i].committed && Below(log[i].ballot, report[i].ballot))) ==>
            m[i] == report[i].(committed := false, cached := false, learned := false))
  {
  }

  /** The preparer the promise is for, which finds nothing in it below its cursor. */
  predicate Awaits(n: Node, b: Ballot, report: Log) {
    && IsProposer(n) && n.prep.Some? && n.prep.value.ballot == b
    && forall i :: i in report ==> n.prep.value.istart <= i
  }

  /** `i` is open at or past the hole, or a gap before the last entry. */
  predicate StillOpen(log: Log, ihole: nat, i: nat)
    requires log != map[]
  {
    ihole <= i <= Last(log) && !CommittedIn(log, i)
  }

  /** A promise counts once, whatever it reports.  Short of a majority the
      preparer goes on; with it, it takes its ballot, is established, and asks
      everyone else for exactly the instances still open, with the values it
      now holds. */
  lemma PromiseAnswered(n: Node, b: Ballot, report: Log, acceptors: set<NodeId>)
    requires n.log != map[] && Awaits(n, b, report)
    ensures var o, m := AckPromise(n, b, report, acceptors), Merge(n.log, report);
      && m != map[]
      && if n.prep.value.acks + 1 < Majority(|acceptors|) then
           && o.sent == {} && o.node.prep.Some? && o.node.prep.value.acks == n.prep.value.acks + 1
           && o.node == n.(log := m, prep := Some(n.prep.value.(acks := n.prep.value.acks + 1)))
         else
           && Established(o.node) && o.node.ballot == b && o.node.alive == n.alive && o.node.ihole == n.ihole
           && Asked(n, b, m, o, acceptors)
  {
    hide Merge, Merged, CompletePrepare, Last, Asked, AckPromise;
    AwaitedPromise(n, b, report, acceptors);
    var merged := Merged(n, report);
    CompletionAsks(merged, b, acceptors);
    CompletionLeads(merged, b, acceptors);
    AskedAlike(n, b, merged.log, CompletePrepare(merged, b, acceptors), acceptors, merged);
  }

  lemma AwaitedPromise(n: Node, b: Ballot, report: Log, acceptors: set<NodeId>)
    requires n.log != map[] && Awaits(n, b, report)
    ensures var m := Merged(n, report);
      && m.log != map[] && m == n.(log := Merge(n.log, report), prep := Some(n.prep.value.(acks := n.prep.value.acks + 1)))
      && AckPromise(n, b, report, acceptors) ==
         if n.prep.value.acks + 1 < Majority(|acceptors|) then Outcome(m, {}) else CompletePrepare(m, b, acceptors)
  {
    assert Last(n.log) in Merge(n.log, report);
    hide Merge, CompletePrepare, Last;
  }

  lemma CompletionLeads(n: Node, b: Ballot, acceptors: set<NodeId>)
    requires n.log != map[]
    ensures var o := CompletePrepare(n, b, acceptors).node;
      o.prep.None? && o.proposer == n.proposer && o.id == n.id && o.ballot == b && o.alive == n.alive && o.ihole == n.ihole
  {
    hide Last, RedecreeLog;
  }

  /** What is asked does not depend on the prepare. */
  lemma AskedAlike(n: Node, b: Ballot, m: Log, o: Outcome, acceptors: set<NodeId>, n': Node)
    requires m != map[] && n' == n.(log := m, prep := n'.prep) && Asked(n', b, m, o, acceptors)
    ensures Asked(n, b, m, o, acceptors)
  {
    hide StillOpen, HolesBelow;
    assert forall i :: NullValue(n'.(log := m), i) == NullValue(n.(log := m), i);
  }

  /** Exactly the instances of `m` still open are entered under `b` with one vote, and asked for. */
  ghost predicate Asked(n: Node, b: Ballot, m: Log, o: Outcome, acceptors: set<NodeId>)
    requires m != map[]
  {
    AskedEntries(n, b, m, o.node.log) && AskedSent(n, b, m, o, acceptors)
  }

  ghost predicate AskedEntries(n: Node, b: Ballot, m: Log, log: Log)
    requires m != map[]
  {
    && (forall i :: StillOpen(m, n.ihole, i) ==>
          && i in log && log[i].ballot == b && log[i].votes == 1 && !log[i].committed
          && log[i].value == if i in m then m[i].value else NullValue(n.(log := m), i))
    && (forall i :: !StillOpen(m, n.ihole, i) ==> (i in log <==> i in m) && (i in m ==> log[i] == m[i]))
  }

  ghost predicate AskedSent(n: Node, b: Ballot, m: Log, o: Outcome, acceptors: set<NodeId>)
    requires m != map[]
  {
    && (forall a, i, v :: Decree(a, b, i, v) in o.sent <==>
          a in acceptors && a != n.id && StillOpen(m, n.ihole, i) && i in o.node.log && v == o.node.log[i].value)
    && (forall x :: x in o.sent ==> x.Decree? && x.ballot == b)
  }

  lemma OpenIsRedecreed(n: Node)
    requires n.log != map[]
    ensures forall i :: Redecreed(n, i) <==> StillOpen(n.log, n.ihole, i)
  {
    hide Last;
  }

  lemma CompletionEntries(n: Node, b: Ballot)
    requires n.log != map[]
    ensures var log := RedecreeLog(n, b);
      && (forall i :: Redecreed(n, i) ==> i in log && log[i] == RedecreeEntry(n, b, i))
      && (forall i :: !Redecreed(n, i) ==> (i in log <==> i in n.log) && (i in n.log ==> log[i] == n.log[i]))
  {
    hide RedecreeEntry;
  }

  lemma EntriesAsked(n: Node, b: Ballot, log: Log)
    requires n.log != map[]
    requires forall i :: Redecreed(n, i) <==> StillOpen(n.log, n.ihole, i)
    requires forall i :: Redecreed(n, i) ==> i in log && log[i] == RedecreeEntry(n, b, i)
    requires forall i :: !Redecreed(n, i) ==> (i in log <==> i in n.log) && (i in n.log ==> log[i] == n.log[i])
    ensures AskedEntries(n, b, n.log, log)
  {
    assert n.(log := n.log) == n;
    hide Redecreed, StillOpen, NullValue;
  }

  lemma MessagesAsked(n: Node, b: Ballot, acceptors: set<NodeId>)
    requires n.log != map[]
    requires forall i :: Redecreed(n, i) <==> StillOpen(n.log, n.ihole, i)
    ensures AskedSent(n, b, n.log, CompletePrepare(n, b, acceptors), acceptors)
  {
    hide Redecreed, StillOpen, RedecreeLog, Last, HolesBelow;
  }

  lemma CompletionAsks(n: Node, b: Ballot, acceptors: set<NodeId>)
    requires n.log != map[]
    ensures Asked(n, b, n.log, CompletePrepare(n, b, acceptors), acceptors)
  {
    OpenIsRedecreed(n);
    CompletionEntries(n, b);
    hide Last, RedecreeLog, Redecreed, RedecreeEntry, StillOpen, HolesBelow, AskedEntries, AskedSent;
    EntriesAsked(n, b, RedecreeLog(n, b));
    MessagesAsked(n, b, acceptors);
  }

  /** Anyone else ignores it; a report from below the cursor is fatal. */
  lemma PromiseIgnored(n: Node, b: Ballot, report: Log, acceptors: set<NodeId>)
    requires n.log != map[] && !Awaits(n, b, report)
    ensures var o := AckPromise(n, b, report, acceptors);
      && o.sent == {} && o.node == n.(alive := o.node.alive)
      && (o.node.alive <==> n.alive && (!IsProposer(n) || n.prep.None? || n.prep.value.ballot != b))
  {
    hide CompletePrepare, Merge, Last;
  }

  // ---- Committing.

  /** An instance that a commit has yet to make ready. */
  predicate Waits(n: Node, i: nat) {
    i in n.log && !Ready(n.log, i) && !n.log[i].cached && n.ihole <= i
  }

  predicate Lacks(n: Node, i: nat, have: bool)
    requires i in n.log
  {
    NeedsCached(n.log[i].value.kind) && !have
  }

  /** A commit at or past the hole marks the instance committed and changes no
      value or ballot.  It asks for the data exactly when data is needed and
      not at hand; otherwise the instance is ready. */
  lemma CommitAnswered(n: Node, i: nat, have: bool)
    requires Waits(n, i)
    ensures var o := CommitInstance(n, i, have);
      && o.sent == (if Lacks(n, i, have) then {Resend(n.id, i)} else {})
      && o.node == n.(log := o.node.log, ihole := o.node.ihole, learns := o.node.learns)
      && o.node.log.Keys == n.log.Keys
      && (forall j :: j in n.log ==> o.node.log[j].value == n.log[j].value && o.node.log[j].ballot == n.log[j].ballot)
      && (forall j :: CommittedIn(o.node.log, j) <==> CommittedIn(n.log, j) || j == i)
      && (forall j :: Ready(o.node.log, j) <==> Ready(n.log, j) || (j == i && !Lacks(n, i, have)))
  {
    hide HoleAfter, Values;
  }

  /** If the hole has become ready, it moves to the first instance that is not;
      else nothing is learned. */
  lemma CommitLearns(n: Node, i: nat, have: bool)
    requires Waits(n, i)
    ensures var m := CommitInstance(n, i, have).node;
      if Lacks(n, i, have) || i != n.ihole then m.ihole == n.ihole && m.learns == n.learns
      else
        && n.ihole < m.ihole && !Ready(m.log, m.ihole) && |m.learns| == |n.learns| + (m.ihole - n.ihole) && n.learns <= m.learns
        && forall j :: n.ihole <= j < m.ihole ==> Ready(m.log, j) && m.log[j].learned && m.learns[|n.learns| + j - n.ihole] == m.log[j].value
  {
    hide LearnRun;
    if !Lacks(n, i, have) && i == n.ihole {
      RunAnswered(n.(log := n.log[i := n.log[i].(committed := true, cached := true)]));
    }
  }

  lemma RunAnswered(x: Node)
    requires Ready(x.log, x.ihole)
    ensures var m := LearnRun(x);
      && x.ihole < m.ihole && !Ready(m.log, m.ihole) && |m.learns| == |x.learns| + (m.ihole - x.ihole) && x.learns <= m.learns
      && forall j :: x.ihole <= j < m.ihole ==> Ready(m.log, j) && m.log[j].learned && m.learns[|x.learns| + j - x.ihole] == m.log[j].value
  {
    var m, h := LearnRun(x), HoleAfter(x.log, x.ihole);
    forall j | x.ihole <= j < h
      ensures Ready(m.log, j) && m.log[j].learned && m.learns[|x.learns| + j - x.ihole] == m.log[j].value
    {
      assert Ready(x.log, j);
      assert m.learns[|x.learns| + j - x.ihole] == Values(x.log, x.ihole, h)[j - x.ihole];
    }
  }

  /** A proposer's commit goes out to everyone else, under the entry's ballot. */
  lemma ProposerCommitAnswered(n: Node, i: nat, have: bool, acceptors: set<NodeId>)
    requires i in n.log
    ensures var o, c := ProposerCommit(n, i, have, acceptors), CommitInstance(n, i, have);
      && o.node == c.node
      && forall m :: m in o.sent <==>
           m in c.sent || (m.Commit? && m.dst in acceptors && m.dst != n.id
                           && m.ballot == n.log[i].ballot && m.inum == i && m.value == n.log[i].value)
  {
    hide CommitInstance;
  }

  /** A new value gets the next free number, one vote, and is asked of everyone
      else; if that vote is a majority it is committed at once, and otherwise not. */
  lemma ValueDecreed(n: Node, v: Value, have: bool, acceptors: set<NodeId>)
    ensures var o, i := NewDecree(n, v, have, acceptors), NextInstance(n.log);
      && i !in n.log && (forall j :: j in n.log ==> j < i) && i in o.node.log
      && o.node.log[i].value == v && o.node.log[i].ballot == n.ballot && o.node.log[i].votes == 1
      && (forall a :: Decree(a, n.ballot, i, v) in o.sent <==> a in acceptors && a != n.id)
      && (CommittedIn(o.node.log, i) <==> Majority(|acceptors|) <= 1)
  {
    hide ProposerCommit, CommitInstance, NextInstance;
    NextIsFree(n.log);
    var i, e := NextInstance(n.log), EnterDecree(n, v, acceptors).node;
    if Majority(|acceptors|) <= 1 { AloneCommits(e, i, have, acceptors); }
  }

  lemma AloneCommits(n: Node, i: nat, have: bool, acceptors: set<NodeId>)
    requires i in n.log
    ensures var o := ProposerCommit(n, i, have, acceptors);
      && CommittedIn(o.node.log, i) && o.node.log[i].value == n.log[i].value && o.node.log[i].ballot == n.log[i].ballot
      && o.node.log[i].votes == n.log[i].votes && forall m :: m in o.sent ==> !m.Decree?
  {
    hide HoleAfter, Values;
  }

  lemma NextIsFree(log: Log)
    ensures NextInstance(log) !in log && forall j :: j in log ==> j < NextInstance(log)
  {
  }

  // ---- Counting votes.

  /** A vote for a listed instance of the proposer's ballot counts once.  The one
      that makes a majority of an open instance commits it, and exactly that
      one tells everyone else. */
  lemma AcceptAnswered(n: Node, i: nat, have: bool, acceptors: set<NodeId>)
    requires IsProposer(n) && i in n.log && (n.log[i].committed || n.ihole <= i)
    ensures var o := AckAccept(n, n.ballot, i, have, acceptors);
      var commits := !n.log[i].committed && n.log[i].votes + 1 >= Majority(|acceptors|);
      && o.node == n.(log := o.node.log, ihole := o.node.ihole, learns := o.node.learns) && o.node.log.Keys == n.log.Keys
      && o.node.log[i].votes == n.log[i].votes + 1
      && (forall j :: j in n.log ==> o.node.log[j].value == n.log[j].value && o.node.log[j].ballot == n.log[j].ballot)
      && (forall j :: j in n.log && j != i ==> o.node.log[j].votes == n.log[j].votes)
      && (forall j :: CommittedIn(o.node.log, j) <==> CommittedIn(n.log, j) || (j == i && commits))
      && (forall a, c, k, v :: Commit(a, c, k, v) in o.sent <==>
            commits && a in acceptors && a != n.id && c == n.log[i].ballot && k == i && v == n.log[i].value)
  {
    var c := CountVote(n, i);
    hide ProposerCommit, CommitInstance;
    if !c.log[i].committed && c.log[i].votes >= Majority(|acceptors|) {
      ProposerCommitAnswered(c, i, have, acceptors);
      CommitMarks(c, i, have);
    }
  }

  /** A commit marks its instance, whatever its data, and changes no value, ballot or count. */
  lemma CommitMarks(n: Node, i: nat, have: bool)
    requires i in n.log && n.ihole <= i
    ensures var o := CommitInstance(n, i, have);
      && (forall m :: m in o.sent ==> m == Resend(n.id, i))
      && o.node == n.(log := o.node.log, ihole := o.node.ihole, learns := o.node.learns) && o.node.log.Keys == n.log.Keys
      && (forall j :: j in n.log ==> o.node.log[j].value == n.log[j].value && o.node.log[j].ballot == n.log[j].ballot
                                     && o.node.log[j].votes == n.log[j].votes)
      && (forall j :: CommittedIn(o.node.log, j) <==> CommittedIn(n.log, j) || j == i)
  {
    hide HoleAfter, Values;
  }

  /** An accept for another ballot, or an instance not listed, is fatal; an acceptor ignores it. */
  lemma AcceptMisses(n: Node, b: Ballot, i: nat, have: bool, acceptors: set<NodeId>)
    requires !IsProposer(n) || n.ballot != b || i !in n.log
    ensures var o := AckAccept(n, b, i, have, acceptors);
      o.sent == {} && o.node == n.(alive := o.node.alive) && (o.node.alive <==> n.alive && !IsProposer(n))
  {
  }

  /** An acceptor that has not committed the instance commits the value it is
      told, under the ballot its entry has, or the commit's if it has none. */
  lemma CommitTaken(n: Node, b: Ballot, i: nat, v: Value, have: bool)
    requires !IsProposer(n) && !CommittedIn(n.log, i) && n.ihole <= i
    ensures var m := AckCommit(n, b, i, v, have).node;
      && CommittedIn(m.log, i) && m.log[i].value == v && m.log[i].ballot == (if i in n.log then n.log[i].ballot else b)
      && (forall j :: j != i && j in n.log ==> j in m.log && m.log[j].value == n.log[j].value)
    ensures var m := AckRecommit(n, b, i, v, have).node;
      && CommittedIn(m.log, i) && m.log[i].value == v && m.log[i].ballot == b
      && (forall j :: j != i && j in n.log ==> j in m.log && m.log[j].value == n.log[j].value)
  {
    hide CommitInstance;
    var e := if i in n.log then n.log[i].(value := v) else Entry(b, v, false, false, false, 0);
    var r := if i in n.log then n.log[i].(ballot := b, value := v) else Entry(b, v, false, false, false, 0);
    CommitMarks(n.(log := n.log[i := e]), i, have);
    CommitMarks(n.(log := n.log[i := r]), i, have);
  }

  /** A proposer ignores every commit, and anyone one of what it has committed. */
  lemma CommitIgnored(n: Node, b: Ballot, i: nat, v: Value, have: bool)
    requires IsProposer(n) || CommittedIn(n.log, i)
    ensures AckCommit(n, b, i, v, have) == Outcome(n, {}) && AckRecommit(n, b, i, v, have) == Outcome(n, {})
  {
    hide CommitInstance;
  }

  /** A commit below the hole is fatal once its data is at hand. */
  lemma CommitBelowFails(n: Node, i: nat, have: bool)
    requires i in n.log && i < n.ihole && n.alive
    ensures var o := CommitInstance(n, i, have); o.node.alive <==> Lacks(n, i, have)
  {
  }

  /** Late data makes exactly the instance that waits for it ready. */
  lemma DataTaken(n: Node, i: nat)
    requires i in n.log && !n.log[i].cached ==> n.ihole <= i
    ensures var o := AckResend(n, i);
      && o.sent == {}
      && forall j :: Ready(o.node.log, j) <==> Ready(n.log, j) || (j == i && i in n.log && !n.log[i].cached)
  {
    hide CommitInstance;
    if i in n.log && !n.log[i].cached { CommitAnswered(n, i, true); }
  }

  // ---- What the answers add up to.

  /** The proposer once `k` votes for instance `i` have reached it. */
  function Counted(n: Node, i: nat, have: bool, acceptors: set<NodeId>, k: nat): Node {
    if k == 0 then n
    else
      var m := Counted(n, i, have, acceptors, k - 1);
      AckAccept(m, m.ballot, i, have, acceptors).node
  }

  /** Votes add up: the instance is committed exactly from the vote on that
      makes a majority, with the value decreed. */
  lemma {:induction false} VotesAddUp(n: Node, i: nat, have: bool, acceptors: set<NodeId>, k: nat)
    requires IsProposer(n) && i in n.log && !n.log[i].committed && n.ihole <= i && n.log[i].votes < Majority(|acceptors|)
    ensures var m := Counted(n, i, have, acceptors, k);
      && IsProposer(m) && m.ballot == n.ballot && m.id == n.id && m.alive == n.alive && i in m.log
      && m.log[i].value == n.log[i].value && m.log[i].ballot == n.log[i].ballot && m.log[i].votes == n.log[i].votes + k
      && (m.log[i].committed || m.ihole == n.ihole)
      && (CommittedIn(m.log, i) <==> n.log[i].votes + k >= Majority(|acceptors|))
  {
    hide AckAccept, Majority;
    if k > 0 {
      VotesAddUp(n, i, have, acceptors, k - 1);
      var m := Counted(n, i, have, acceptors, k - 1);
      AcceptAnswered(m, i, have, acceptors);
      OpenKeepsHole(m, i, have, acceptors);
    }
  }

  lemma OpenKeepsHole(n: Node, i: nat, have: bool, acceptors: set<NodeId>)
    requires IsProposer(n) && i in n.log && (n.log[i].committed || n.ihole <= i)
    ensures var m := AckAccept(n, n.ballot, i, have, acceptors).node;
      i in m.log && (m.log[i].committed || m.ihole == n.ihole)
  {
    AcceptAnswered(n, i, have, acceptors);
    hide ProposerCommit;
  }

  /** A follower that can vote for the next instance of a proposer in ballot `b`. */
  predicate Willing(f: Node, b: Ballot, i: nat) {
    FollowsIn(f, b) && IsFree(f.log, i, b) && f.ihole <= i
  }

  /** A decree is committed by the proposer, and by every willing follower, as
      soon as the willing are a majority with the proposer, and not before:
      each answers the decree with one accept, the accepts commit it, everyone
      else is told, and each that is told commits the value decreed. */
  lemma DecreeSucceeds(p: Node, v: Value, fs: seq<Node>, acceptors: set<NodeId>, have: bool)
    requires Established(p) && p.ihole <= NextInstance(p.log) && Majority(|acceptors|) > 1
    requires forall k :: 0 <= k < |fs| ==> Willing(fs[k], p.ballot, NextInstance(p.log))
    ensures var i, e := NextInstance(p.log), EnterDecree(p, v, acceptors).node;
      && (forall k :: 0 <= k < |fs| ==> AckDecree(fs[k], p.ballot, i, v).sent == {Accept(fs[k].id, p.ballot, i)})
      && var m := Counted(e, i, have, acceptors, |fs|);
      && (CommittedIn(m.log, i) <==> |fs| + 1 >= Majority(|acceptors|)) && i in m.log && m.log[i].value == v
      && (forall k :: 0 <= k < |fs| ==>
            var f := AckCommit(AckDecree(fs[k], p.ballot, i, v).node, p.ballot, i, v, have).node;
            CommittedIn(f.log, i) && f.log[i].value == v)
  {
    hide AckDecree, AckCommit, Majority, NextInstance;
    var i, e := NextInstance(p.log), EnterDecree(p, v, acceptors).node;
    VotesAddUp(e, i, have, acceptors, |fs|);
    forall k | 0 <= k < |fs|
      ensures AckDecree(fs[k], p.ballot, i, v).sent == {Accept(fs[k].id, p.ballot, i)}
      ensures var f := AckCommit(AckDecree(fs[k], p.ballot, i, v).node, p.ballot, i, v, have).node;
        CommittedIn(f.log, i) && f.log[i].value == v
    {
      FollowerCommits(fs[k], p.ballot, i, v, have);
    }
  }

  lemma FollowerCommits(f: Node, b: Ballot, i: nat, v: Value, have: bool)
    requires Willing(f, b, i)
    ensures AckDecree(f, b, i, v).sent == {Accept(f.id, b, i)}
    ensures var g := AckCommit(AckDecree(f, b, i, v).node, b, i, v, have).node; CommittedIn(g.log, i) && g.log[i].value == v
  {
    hide AckDecree, AckCommit;
    DecreeAnswered(f, b, i, v);
    CommitTaken(AckDecree(f, b, i, v).node, b, i, v, have);
  }

  /** The preparer once these reports have reached it in promises. */
  function Collected(n: Node, b: Ballot, reports: seq<Log>, acceptors: set<NodeId>): (m: Node)
    requires n.log != map[]
    ensures m.log != map[]
  {
    if reports == [] then n
    else
      var p := Collected(n, b, reports[..|reports| - 1], acceptors);
      KeepsEntries(p, b, reports[|reports| - 1], acceptors);
      AckPromise(p, b, reports[|reports| - 1], acceptors).node
  }

  lemma KeepsEntries(n: Node, b: Ballot, report: Log, acceptors: set<NodeId>)
    requires n.log != map[]
    ensures AckPromise(n, b, report, acceptors).node.log != map[]
  {
    if Awaits(n, b, report) {
      AwaitedPromise(n, b, report, acceptors);
      CompletionKeepsEntries(Merged(n, report), b, acceptors);
      hide AckPromise, CompletePrepare, Merge;
    } else {
      PromiseIgnored(n, b, report, acceptors);
      hide AckPromise;
    }
  }

  lemma CompletionKeepsEntries(n: Node, b: Ballot, acceptors: set<NodeId>)
    requires n.log != map[]
    ensures CompletePrepare(n, b, acceptors).node.log != map[]
  {
    CompletionEntries(n, b);
    var i :| i in n.log;
    assert i in RedecreeLog(n, b);
    hide RedecreeLog;
  }

  /** Promises add up: whatever they report from the cursor on, the preparer is
      established in its ballot exactly from the promise on that makes a
      majority. */
  lemma {:induction false} PromisesAddUp(n: Node, b: Ballot, reports: seq<Log>, acceptors: set<NodeId>)
    requires n.log != map[] && IsProposer(n) && n.prep.Some? && n.prep.value.ballot == b
    requires n.prep.value.acks < Majority(|acceptors|)
    requires forall k, i :: 0 <= k < |reports| && i in reports[k] ==> n.prep.value.istart <= i
    ensures var m := Collected(n, b, reports, acceptors);
      && IsProposer(m) && m.id == n.id && m.alive == n.alive
      && (Established(m) <==> n.prep.value.acks + |reports| >= Majority(|acceptors|))
      && (Established(m) ==> m.ballot == b)
      && (!Established(m) ==> m.prep == Some(n.prep.value.(acks := n.prep.value.acks + |reports|)))
  {
    hide AckPromise, Majority, Merge;
    if reports != [] {
      var last := |reports| - 1;
      PromisesAddUp(n, b, reports[..last], acceptors);
      var p, report := Collected(n, b, reports[..last], acceptors), reports[last];
      if Established(p) {
        PromiseIgnored(p, b, report, acceptors);
      } else {
        assert Awaits(p, b, report);
        PromiseRole(p, b, report, acceptors);
      }
    }
  }

  lemma PromiseRole(n: Node, b: Ballot, report: Log, acceptors: set<NodeId>)
    requires n.log != map[] && Awaits(n, b, report)
    ensures var m := AckPromise(n, b, report, acceptors).node;
      && m.proposer == n.proposer && m.id == n.id && m.alive == n.alive
      && if n.prep.value.acks + 1 < Majority(|acceptors|) then m.prep == Some(n.prep.value.(acks := n.prep.value.acks + 1))
         else m.prep.None? && m.ballot == b
  {
    hide AckPromise, Merge, CompletePrepare;
    AwaitedPromise(n, b, report, acceptors);
    CompletionLeads(Merged(n, report), b, acceptors);
  }
}
