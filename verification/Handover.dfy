/** From agreement to synchronization: what the latest proposer to prepare
    knows, and that a group which has just started satisfies what the
    synchronization results assume. */
module Handover {
  import opened Types
  import opened Quorums
  import opened Voting
  import opened Node
  import opened Protocol
  import opened Invariant
  import opened PreservationCommit
  import opened Agreement
  import Sync = SyncModel
  import SyncInvariant
  import Truncation
  import Soundness

  /** No participant has completed a prepare above `b`. */
  ghost predicate Latest(h: History, b: Ballot) {
    forall c :: c in h.prepared ==> AtMost(c, b)
  }

  lemma ChosenWasPrepared(h: History, i: nat, d: Ballot, v: Value)
    requires Lawful(h) && StronglyChosenAt(h, i, d, v)
    ensures Genuine(h, i, d, v) && d in h.prepared && ChosenAt(h, i, d, v)
  {
    StrongIsChosen(h, i, d, v);
    ChosenWasDecreed(h, i, d, v);
  }

  /** In the latest ballot, a decree agrees with everything chosen below it. */
  lemma LatestDecreeAgrees(h: History, i: nat, b: Ballot, w: Value, d: Ballot, v: Value)
    requires Lawful(h) && Latest(h, b) && Genuine(h, i, b, w) && StronglyChosenAt(h, i, d, v)
    ensures w == v
  {
    ChosenWasPrepared(h, i, d, v);
    ChosenIsChoosable(h, i, d, v);
    forall e, z | Below(b, e) ensures !StronglyChosenAt(h, i, e, z) {
      if StronglyChosenAt(h, i, e, z) { ChosenWasPrepared(h, i, e, z); }
    }
    assert SafeAt(h, i, b, w);
  }

  /** The quorum that prepared the latest ballot has reported everything chosen below it. */
  lemma LatestHasVotes(h: History, i: nat, b: Ballot, d: Ballot, v: Value, log: Log)
    requires Lawful(h) && b in h.prepared && Below(d, b) && StronglyChosenAt(h, i, d, v)
    requires forall x :: x in h.votes && x.voter in h.prepared[b] && Below(x.ballot, b) ==> x.inum in log
    ensures i in log
  {
    var q :| IsQuorum(h.promised.Keys, q) && AllVoted(h.strong, q, i, d, v);
    var a := QuorumsMeet(h.promised.Keys, h.prepared[b], q);
    assert Vote(a, i, d, v) in h.votes;
  }

  lemma LatestKnowsInState(s: State, p: NodeId, a: NodeId, i: nat, v: Value)
    requires Inv(s) && p in s.nodes && Established(s.nodes[p]) && Latest(s.hist, s.nodes[p].ballot)
    requires HasCommitted(s, a, i, v)
    ensures i in s.nodes[p].log && s.nodes[p].log[i].value == v
  {
    hide Lawful, NetOK, LearnsOK, PrepOK, StronglyChosenAt;
    var h, n := s.hist, s.nodes[p];
    assert ParticipantOK(s, a) && ParticipantOK(s, p);
    CommittedIsChosen(h, s.nodes[a], i);
    var d :| StronglyChosenAt(h, i, d, v);
    ChosenWasPrepared(h, i, d, v);
    if d == n.ballot {
      assert DecreedOK(h, s.nodes, s.counted, d, i);
    } else {
      LatestHasVotes(h, i, n.ballot, d, v, n.log);
    }
    if n.log[i].committed {
      CommittedIsChosen(h, n, i);
      ChosenAgree(h, i, v, n.log[i].value);
    } else {
      LatestDecreeAgrees(h, i, n.ballot, n.log[i].value, d, v);
    }
  }

  /** The latest proposer to complete a prepare holds, with the same value,
      every instance that anybody has committed. */
  lemma LatestProposerKnows(run: seq<State>, first: NodeId, join: Value, k: nat, p: NodeId, a: NodeId, i: nat, v: Value)
    requires IsRun(run, first, join) && k < |run| && p in run[k].nodes
    requires Established(run[k].nodes[p]) && Latest(run[k].hist, run[k].nodes[p].ballot)
    requires HasCommitted(run[k], a, i, v)
    ensures i in run[k].nodes[p].log && run[k].nodes[p].log[i].value == v
  {
    RunInv(run, first, join, k);
    hide Inv, IsRun;
    LatestKnowsInState(run[k], p, a, i, v);
  }

  // ---- A group that has just started.

  /** Everyone lists everyone, and is connected to everyone else. */
  function Met(self: NodeId, members: set<NodeId>): map<NodeId, bool> {
    map c | c in members :: c != self
  }

  /** Everyone has the first participant's join, and nothing is in flight. */
  function Started(first: NodeId, others: set<NodeId>, join: Value): Sync.State {
    var members := others + {first};
    Sync.State(
      StartNode(first, first, join), 1, Sync.Syncing(0, 0, None),
      map a | a in others :: Sync.Peer(StartNode(a, first, join), 1, [], [], 1, 0, Met(a, members), false),
      1, map[1 := join], Met(first, members), false)
  }

  lemma StartHolds(a: NodeId, first: NodeId, join: Value)
    ensures var n := StartNode(a, first, join);
      Soundness.HoleOK(n.log, 1, n.ihole) && n.log != map[] && Types.Last(n.log) == 1
  {
    var n := StartNode(a, first, join);
    assert 1 in n.log;
  }

  /** Such a group meets what the synchronization results assume of a system's first state. */
  lemma StartedSynchronizes(first: NodeId, others: set<NodeId>, join: Value)
    requires first !in others
    ensures Truncation.Init(Started(first, others, join))
  {
    hide Soundness.HoleOK, Types.Last;
    var s := Started(first, others, join);
    StartHolds(first, first, join);
    forall a | a in s.peers ensures Truncation.Joined(SyncInvariant.ViewOf(s), s.peers[a]) {
      StartHolds(a, first, join);
    }
  }
}
