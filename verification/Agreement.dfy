/** The guarantees of the protocol, over every run. */
module Agreement {
  import opened Types
  import opened Quorums
  import opened Voting
  import opened Node
  import opened Protocol
  import opened Invariant
  import opened Preservation
  import opened PreservationCommit
  import opened PreservationVote
  import opened PreservationDecree
  import opened PreservationPromise
  import opened PreservationComplete

  // ---- The invariant holds in every reachable state.

  lemma InitLawful(s: State, first: NodeId, join: Value)
    requires Init(s, first, join)
    ensures Lawful(s.hist) && Chosen(s.hist, 1, join)
  {
    var h, b := s.hist, Ballot(first, 1);
    var q := s.nodes.Keys;
    assert AllVoted(h.strong, q, 1, b, join);
    assert first in q && |q| > 0 && h.promised.Keys == q;
    assert IsQuorum(h.promised.Keys, q);
    assert StronglyChosenAt(h, 1, b, join);
    forall c, i | (c, i) in h.decreed ensures SafeAt(h, i, c, h.decreed[(c, i)]) {
      forall d, u | Below(d, c) ensures !Choosable(h, i, d, u) {
        forall r | IsQuorum(h.promised.Keys, r) ensures !Open(h, r, i, d, u) {
          var a := QuorumsMeet(h.promised.Keys, r, r);
        }
      }
    }
  }

  lemma InitInv(s: State, first: NodeId, join: Value)
    requires Init(s, first, join)
    ensures Inv(s)
  {
    hide Lawful, Chosen, NodeOK, PrepOK, EstablishedOK;
    InitLawful(s, first, join);
    forall a | a in s.nodes ensures ParticipantOK(s, a) {
      assert s.nodes[a] == StartNode(a, first, join);
      StartOK(s.hist, s.counted, a, first, join);
    }
    InitRecords(s, first, join);
  }

  lemma StartOK(h: History, counted: map<(Ballot, nat), set<NodeId>>, a: NodeId, first: NodeId, join: Value)
    requires a in h.promised && h.promised[a] == Ballot(first, 1) && Ballot(first, 1) in h.prepared
    requires forall x :: x in h.votes ==> x.inum == 1 && x.ballot == Ballot(first, 1)
    requires h.strong == h.votes && Chosen(h, 1, join)
    ensures var n := StartNode(a, first, join);
      NodeOK(h, n) && PrepOK(h, {}, n) && EstablishedOK(h, counted, n)
  {
    hide Chosen;
  }

  lemma InitRecords(s: State, first: NodeId, join: Value)
    requires Init(s, first, join)
    ensures RecordsOK(s)
  {
    var b := Ballot(first, 1);
    assert s.nodes[first] == StartNode(first, first, join);
    assert OwnerOK(s.nodes, b);
    assert DecreedOK(s.hist, s.nodes, s.counted, b, 1);
  }

  lemma ReceiveKeepsInv(s: State, m: Message, have: bool)
    requires Inv(s) && Enabled(s, Receive(m, have))
    ensures Inv(ApplyReceive(s, m, have))
  {
    hide Inv, AckPrepare, AckCommit, AckResend, ApplyPromise, ApplyDecree, ApplyAccept, Install;
    match m
    case Prepare(a, b, start) => AckPrepareKeepsInv(s, a, b, start);
    case Promise(_, _, _, _) => AckPromiseKeepsInv(s, m);
    case Decree(a, b, i, v) => AckDecreeKeepsInv(s, a, b, i, v);
    case Accept(a, b, i) => AckAcceptKeepsInv(s, a, b, i, have);
    case Commit(a, b, i, v) => AckCommitKeepsInv(s, a, b, i, v, have);
    case Resend(a, i) => AckResendKeepsInv(s, a, i);
  }

  lemma CrashKeepsInv(s: State, a: NodeId)
    requires Inv(s) && a in s.nodes
    ensures Inv(s.(nodes := s.nodes[a := s.nodes[a].(alive := false)]))
  {
    hide Inv;
    assert s.net - multiset{} == s.net;
    DropKeepsInv(s, s.(nodes := s.nodes[a := s.nodes[a].(alive := false)]), a, s.nodes[a].(alive := false), multiset{});
  }

  lemma StepKeepsInv(s: State, step: Step)
    requires Inv(s) && Enabled(s, step)
    ensures Inv(Apply(s, step))
  {
    hide Inv, ApplyReceive, ApplyRequest, Install, StartPrepare;
    match step
    case Elect(a, to) => ElectKeepsInv(s, a, to);
    case BeginPrepare(a) =>
      PromisedInState(s, a);
      BeginPrepareKeepsInv(s, a);
    case Request(a, v, have) => RequestKeepsInv(s, a, v, have);
    case Receive(m, have) => ReceiveKeepsInv(s, m, have);
    case Lose(m) => LoseKeepsInv(s, m);
    case Crash(a) => CrashKeepsInv(s, a);
  }

  lemma {:induction false} RunInv(run: seq<State>, first: NodeId, join: Value, k: nat)
    requires IsRun(run, first, join) && k < |run|
    ensures Inv(run[k])
  {
    hide Inv, Init, Apply, Enabled;
    if k == 0 {
      InitInv(run[0], first, join);
    } else {
      RunInv(run, first, join, k - 1);
      assert Next(run[k - 1], run[k]);
      var step :| Enabled(run[k - 1], step) && run[k] == Apply(run[k - 1], step);
      StepKeepsInv(run[k - 1], step);
    }
  }

  // ---- Agreement.

  /** Participant `a` has committed `v` for instance `i`. */
  predicate HasCommitted(s: State, a: NodeId, i: nat, v: Value) {
    a in s.nodes && i in s.nodes[a].log && s.nodes[a].log[i].committed && s.nodes[a].log[i].value == v
  }

  lemma InvAgreement(s: State, a: NodeId, b: NodeId, i: nat, v: Value, w: Value)
    requires Inv(s) && HasCommitted(s, a, i, v) && HasCommitted(s, b, i, w)
    ensures v == w
  {
    hide Lawful, NetOK, RecordsOK, PrepOK, EstablishedOK, NodeOK;
    assert ParticipantOK(s, a) && ParticipantOK(s, b);
    CommittedIsChosen(s.hist, s.nodes[a], i);
    CommittedIsChosen(s.hist, s.nodes[b], i);
    ChosenAgree(s.hist, i, v, w);
  }

  // ---- Commits are permanent.

  predicate KeepsCommits(log: Log, log': Log) {
    forall i :: i in log && log[i].committed ==> i in log' && log'[i].committed && log'[i].value == log[i].value
  }

  lemma CommitKeeps(n: Node, i: nat, have: bool)
    requires i in n.log
    ensures KeepsCommits(n.log, CommitInstance(n, i, have).node.log)
  {
  }

  lemma AckCommitKeeps(n: Node, b: Ballot, i: nat, v: Value, have: bool)
    ensures KeepsCommits(n.log, AckCommit(n, b, i, v, have).node.log)
  {
    if !IsProposer(n) && (i in n.log ==> !n.log[i].committed) {
      var e := if i in n.log then n.log[i].(value := v) else Entry(b, v, false, false, false, 0);
      CommitKeeps(n.(log := n.log[i := e]), i, have);
    }
    hide CommitInstance;
  }

  lemma AckAcceptKeeps(n: Node, b: Ballot, i: nat, have: bool, acceptors: set<NodeId>)
    ensures KeepsCommits(n.log, AckAccept(n, b, i, have, acceptors).node.log)
  {
    if i in n.log { CommitKeeps(CountVote(n, i), i, have); }
    hide CommitInstance;
  }

  lemma NewDecreeKeeps(n: Node, v: Value, have: bool, acceptors: set<NodeId>)
    ensures KeepsCommits(n.log, NewDecree(n, v, have, acceptors).node.log)
  {
    var o, i := EnterDecree(n, v, acceptors), NextInstance(n.log);
    assert i !in n.log && i in o.node.log;
    CommitKeeps(o.node, i, have);
    hide CommitInstance, NextInstance, KeepsCommits;
    AddKeeps(n.log, i, o.node.log[i]);
    KeepsChain(n.log, o.node.log, NewDecree(n, v, have, acceptors).node.log);
  }

  lemma AddKeeps(log: Log, i: nat, e: Entry)
    requires i !in log
    ensures KeepsCommits(log, log[i := e])
  {
  }

  lemma CompleteKeeps(n: Node, b: Ballot, acceptors: set<NodeId>)
    requires n.log != map[]
    ensures KeepsCommits(n.log, CompletePrepare(n, b, acceptors).node.log)
  {
    RedecreeRewrites(n, b);
    OpenIsRewritten(n);
    hide RedecreeLog, Redecreed, Last;
  }

  lemma KeepsChain(log: Log, log': Log, log'': Log)
    requires KeepsCommits(log, log') && KeepsCommits(log', log'')
    ensures KeepsCommits(log, log'')
  {
  }

  lemma MergeKeeps(log: Log, report: Log)
    ensures KeepsCommits(log, Merge(log, report))
  {
    MergeEffect(log, report);
    hide Merge;
  }

  lemma MergeNonempty(log: Log, report: Log)
    requires log != map[]
    ensures Merge(log, report) != map[]
  {
    assert Last(log) in Merge(log, report);
  }

  lemma AckPromiseKeeps(n: Node, b: Ballot, report: Log, acceptors: set<NodeId>)
    requires n.log != map[]
    ensures KeepsCommits(n.log, AckPromise(n, b, report, acceptors).node.log)
  {
    hide Merge, CompletePrepare, Last, KeepsCommits;
    Keeps(n.log);
    MergeKeeps(n.log, report);
    MergeNonempty(n.log, report);
    if n.prep.Some? {
      var merged := Merged(n, report);
      CompleteKeeps(merged, b, acceptors);
      KeepsChain(n.log, merged.log, CompletePrepare(merged, b, acceptors).node.log);
    }
  }

  lemma ReceiveKeeps(s: State, m: Message, have: bool, a: NodeId)
    requires Enabled(s, Receive(m, have)) && a in s.nodes && s.nodes[Receiver(m)].id == Receiver(m)
    ensures a in ApplyReceive(s, m, have).nodes && KeepsCommits(s.nodes[a].log, ApplyReceive(s, m, have).nodes[a].log)
  {
    hide KeepsCommits, Handle, ApplyReceive, Last;
    Keeps(s.nodes[a].log);
    ReceiveHandles(s, m, have);
    HandleKeeps(s.nodes[Receiver(m)], m, have, s.nodes.Keys);
  }

  lemma HandleKeeps(n: Node, m: Message, have: bool, members: set<NodeId>)
    requires n.log != map[]
    ensures KeepsCommits(n.log, Handle(n, m, have, members).node.log)
  {
    hide KeepsCommits, AckPromise, AckDecree, AckAccept, AckCommit, CommitInstance, Report;
    Keeps(n.log);
    match m
    case Prepare(_, b, start) =>
    case Promise(_, b, _, report) => AckPromiseKeeps(n, b, report, members);
    case Decree(_, b, i, v) => AckDecreeKeeps(n, b, i, v);
    case Accept(_, b, i) => AckAcceptKeeps(n, b, i, have, members);
    case Commit(_, b, i, v) => AckCommitKeeps(n, b, i, v, have);
    case Resend(_, i) => if i in n.log { CommitKeeps(n, i, true); }
  }

  lemma Keeps(log: Log)
    ensures KeepsCommits(log, log)
  {
  }

  lemma AckDecreeKeeps(n: Node, b: Ballot, i: nat, v: Value)
    ensures KeepsCommits(n.log, AckDecree(n, b, i, v).node.log)
  {
  }

  lemma StepKeeps(s: State, step: Step, a: NodeId)
    requires NodesOK(s) && Enabled(s, step) && a in s.nodes
    ensures a in Apply(s, step).nodes && KeepsCommits(s.nodes[a].log, Apply(s, step).nodes[a].log)
  {
    hide KeepsCommits, NodeOK, PrepOK, EstablishedOK;
    Keeps(s.nodes[a].log);
    match step
    case Elect(c, to) =>
    case BeginPrepare(c) =>
    case Request(c, v, have) => NewDecreeKeeps(s.nodes[c], v, have, s.nodes.Keys);
      assert ParticipantOK(s, c);
      hide NewDecree, NextInstance;
    case Receive(m, have) =>
      assert ParticipantOK(s, Receiver(m));
      ReceiveKeeps(s, m, have, a);
      hide ApplyReceive;
    case Lose(m) =>
    case Crash(c) =>
  }

  lemma NodesInv(s: State)
    requires Inv(s)
    ensures NodesOK(s)
  {
    hide NodesOK, Lawful, RecordsOK, NetOK;
  }

  // ---- Main results.

  lemma {:induction false} CommitsPersist(run: seq<State>, first: NodeId, join: Value, j: nat, k: nat, a: NodeId, i: nat, v: Value)
    requires IsRun(run, first, join) && j <= k < |run| && HasCommitted(run[j], a, i, v)
    ensures HasCommitted(run[k], a, i, v)
  {
    hide Apply, Enabled, Inv, Init, NodesOK;
    if j < k {
      CommitsPersist(run, first, join, j, k - 1, a, i, v);
      RunInv(run, first, join, k - 1);
      assert Next(run[k - 1], run[k]);
      var step :| Enabled(run[k - 1], step) && run[k] == Apply(run[k - 1], step);
      NodesInv(run[k - 1]);
      StepKeeps(run[k - 1], step, a);
    }
  }

  /** Agreement over all runs and across time: whatever any two participants
      ever commit for one instance is the same value. */
  lemma Agreement(run: seq<State>, first: NodeId, join: Value, j: nat, a: NodeId, v: Value, k: nat, b: NodeId, w: Value, i: nat)
    requires IsRun(run, first, join) && j < |run| && k < |run|
    requires HasCommitted(run[j], a, i, v) && HasCommitted(run[k], b, i, w)
    ensures v == w
  {
    var last := |run| - 1;
    CommitsPersist(run, first, join, j, last, a, i, v);
    CommitsPersist(run, first, join, k, last, b, i, w);
    RunInv(run, first, join, last);
    InvAgreement(run[last], a, b, i, v, w);
  }

  lemma LearnedIsCommitted(s: State, a: NodeId, k: nat)
    requires NodesOK(s) && a in s.nodes && k < |s.nodes[a].learns|
    ensures HasCommitted(s, a, k + 2, s.nodes[a].learns[k])
  {
    hide LogOK, PrepOK, EstablishedOK;
    assert ParticipantOK(s, a);
    assert Ready(s.nodes[a].log, k + 2);
    assert s.nodes[a].learns[(k + 2) - 2] == s.nodes[a].log[k + 2].value;
  }

  /** The chat is totally ordered: of any two participants' learned values,
      taken at any two moments of a run, one is a prefix of the other. */
  lemma TotalOrder(run: seq<State>, first: NodeId, join: Value, j: nat, a: NodeId, k: nat, b: NodeId)
    requires IsRun(run, first, join) && j < |run| && k < |run|
    requires a in run[j].nodes && b in run[k].nodes
    ensures var x, y := run[j].nodes[a].learns, run[k].nodes[b].learns; x <= y || y <= x
  {
    hide IsRun, Inv, NodesOK, HasCommitted;
    var x, y := run[j].nodes[a].learns, run[k].nodes[b].learns;
    RunInv(run, first, join, j);
    RunInv(run, first, join, k);
    NodesInv(run[j]);
    NodesInv(run[k]);
    forall n: nat | n < |x| && n < |y| ensures x[n] == y[n] {
      LearnedIsCommitted(run[j], a, n);
      LearnedIsCommitted(run[k], b, n);
      Agreement(run, first, join, j, a, x[n], k, b, y[n], n + 2);
    }
  }

  /** Decree safety over all runs: a decree agrees with every value that was or
      could still be chosen in a lower ballot, unless its instance has already
      been chosen in a higher one. */
  lemma DecreeSafety(run: seq<State>, first: NodeId, join: Value, k: nat, b: Ballot, i: nat, c: Ballot, u: Value)
    requires IsRun(run, first, join) && k < |run|
    requires (b, i) in run[k].hist.decreed
    requires Below(c, b) && Choosable(run[k].hist, i, c, u)
    ensures || u == run[k].hist.decreed[(b, i)]
            || exists d, w :: Below(b, d) && ChosenAt(run[k].hist, i, d, w)
  {
    RunInv(run, first, join, k);
    var h := run[k].hist;
    hide NodesOK, RecordsOK, NetOK;
    if !SafeAt(h, i, b, h.decreed[(b, i)]) {
      var d, w :| Below(b, d) && StronglyChosenAt(h, i, d, w) && SafeAt(h, i, d, w);
      StrongIsChosen(h, i, d, w);
    }
  }

  /** Exactly when a decree agrees with everything that was or could still be
      chosen below it: its instance has not been chosen above it, or has been
      with the very value decreed, or nothing is choosable below it. */
  lemma DecreeSafetyExactly(run: seq<State>, first: NodeId, join: Value, k: nat, b: Ballot, i: nat)
    requires IsRun(run, first, join) && k < |run| && (b, i) in run[k].hist.decreed
    ensures var h, v := run[k].hist, run[k].hist.decreed[(b, i)];
      SafeAt(h, i, b, v) <==> !Overtaken(h, i, b) || Chosen(h, i, v) || NothingBelow(h, i, b)
  {
    RunInv(run, first, join, k);
    hide NodesOK, RecordsOK, NetOK;
    SafeExactly(run[k].hist, i, b, run[k].hist.decreed[(b, i)]);
  }

  /** An established proposer's log ends past everything that was or could
      still be chosen below its ballot, and so do its gaps. */
  lemma NothingPastTheEnd(run: seq<State>, first: NodeId, join: Value, k: nat, p: NodeId, i: nat, c: Ballot, u: Value)
    requires IsRun(run, first, join) && k < |run| && p in run[k].nodes
    requires Established(run[k].nodes[p]) && i !in run[k].nodes[p].log && Below(c, run[k].nodes[p].ballot)
    ensures !Choosable(run[k].hist, i, c, u)
  {
    RunInv(run, first, join, k);
    hide IsRun;
    UnlistedInState(run[k], p, i, c, u);
  }

  lemma UnlistedInState(s: State, p: NodeId, i: nat, c: Ballot, u: Value)
    requires Inv(s) && p in s.nodes && Established(s.nodes[p]) && i !in s.nodes[p].log && Below(c, s.nodes[p].ballot)
    ensures !Choosable(s.hist, i, c, u)
  {
    hide NetOK, RecordsOK, NodeOK, PrepOK, DecreesSafe, VotesLawful;
    assert ParticipantOK(s, p);
    var h, b := s.hist, s.nodes[p].ballot;
    forall q | IsQuorum(h.promised.Keys, q) ensures !Open(h, q, i, c, u) {
      var a := QuorumsMeet(h.promised.Keys, h.prepared[b], q);
      assert Vote(a, i, c, u) !in h.votes;
    }
  }
}
