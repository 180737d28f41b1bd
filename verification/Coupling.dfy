/** The two halves of a participant: its session of `Session` and its roster of
    `Roster` agree on everything they both hold, and the steps that change
    both keep them in agreement. */
module Coupling {
  import opened Types
  import opened Quorums
  import opened Seqs
  import opened Node
  import Handlers = Node
  import opened InstanceList
  import opened Soundness
  import opened Session
  import opened Membership
  import opened Leadership
  import opened Roster

  function Ids(l: seq<Acceptor>): set<NodeId> {
    set k | 0 <= k < |l| :: l[k].id
  }

  lemma {:induction false} IdsSize(l: seq<Acceptor>)
    requires Ranked(l)
    ensures |Ids(l)| == |l|
  {
    if l != [] {
      var front, x := l[..|l| - 1], l[|l| - 1];
      IdsSize(front);
      assert Ids(l) == Ids(front) + {x.id};
    }
  }

  /** Neither is preparing, or both prepare the same ballot with the same promises counted. */
  predicate SamePrepare(n: Node, g: Group) {
    if n.prep.None? then g.prep.None?
    else g.prep.Some? && g.prep.value.ballot == n.prep.value.ballot && g.prep.value.acks == n.prep.value.acks
  }

  /** `n`, with `queue` put off and `acceptors` listed, and `g` are one participant. */
  predicate Agree(n: Node, queue: seq<Value>, acceptors: set<NodeId>, g: Group) {
    && g.self == n.id && g.alive == n.alive && g.proposer == n.proposer
    && g.ballot == n.ballot && g.genHigh == n.genHigh && g.reqId == n.reqId
    && SamePrepare(n, g) && g.queue == queue && Ids(g.alist) == acceptors
  }

  // ---- The functions.

  lemma PrepareAgrees(n: Node, queue: seq<Value>, acceptors: set<NodeId>, g: Group, anew: bool)
    requires Agree(n, queue, acceptors, g) && Ranked(g.alist) && Leads(g) && n.ihole > 0
    ensures var r, parts := Membership.Prepare(g, anew), if anew then Parts(g.alist, g.self, g.reqId) else [];
      if n.prep.Some? || g.live < Majority(|acceptors|) then Agree(n.(alive := false), queue, acceptors, r)
      else Agree(StartPrepare(n, acceptors).node.(reqId := n.reqId + |parts|), queue + parts, acceptors, r)
  {
    IdsSize(g.alist);
    hide Parts, Ids, StartOf;
  }

  lemma DeferAgrees(n: Node, queue: seq<Value>, acceptors: set<NodeId>, g: Group, k: nat, peer: nat)
    requires Agree(n, queue, acceptors, g) && k < |g.alist| && g.alist[k].id < g.proposer
    ensures Agree(Defer(n, g.alist[k].id), [], acceptors, Membership.Attach(g, k, peer).(queue := []))
  {
    SamePeople(g.alist, k, Some(peer));
    hide Ids, SetPeer;
  }

  lemma SamePeople(l: seq<Acceptor>, k: nat, peer: Option<nat>)
    requires k < |l|
    ensures Ids(SetPeer(l, k, peer)) == Ids(l)
  {
    var m := SetPeer(l, k, peer);
    assert forall j :: 0 <= j < |l| ==> m[j].id == l[j].id;
    forall id | id in Ids(l) ensures id in Ids(m) {
      var j :| 0 <= j < |l| && l[j].id == id;
      assert m[j].id == id;
    }
  }

  lemma PledgeAgrees(n: Node, queue: seq<Value>, acceptors: set<NodeId>, g: Group, b: Ballot, start: nat)
    requires Agree(n, queue, acceptors, g)
    ensures Agree(AckPrepare(n, b, start).node, queue, acceptors, Membership.Promise(g, b))
  {
    hide Ids, Report;
  }

  /** What decreeing leaves as it was. */
  predicate SameStanding(n: Node, m: Node) {
    m.id == n.id && m.alive == n.alive && m.proposer == n.proposer && m.ballot == n.ballot
    && m.genHigh == n.genHigh && m.reqId == n.reqId && m.prep == n.prep
  }

  lemma NewDecreeStands(n: Node, v: Value, acceptors: set<NodeId>, ibase: nat, rcache: set<ReqId>, first: nat)
    requires Sound(n, ibase, rcache, first)
    ensures var m := NewDecree(n, v, v.req in rcache, acceptors).node;
      Sound(m, ibase, rcache, first) && SameStanding(n, m)
  {
    hide Sound;
    EnterSound(n, v, acceptors, ibase, rcache, first);
    var e, i := EnterDecree(n, v, acceptors).node, NextInstance(n.log);
    EnteredValue(n, v, acceptors);
    CommitSound(e, i, ibase, rcache, first);
    hide NextInstance;
  }

  lemma EnteredValue(n: Node, v: Value, acceptors: set<NodeId>)
    ensures var e, i := EnterDecree(n, v, acceptors).node, NextInstance(n.log);
      i in e.log && e.log[i].value == v && e.ihole == n.ihole && SameStanding(n, e)
  {
    hide NextInstance;
  }

  lemma {:induction false} DecreeAllStands(n: Node, queue: seq<Value>, acceptors: set<NodeId>, ibase: nat, rcache: set<ReqId>, first: nat)
    requires Sound(n, ibase, rcache, first)
    ensures SameStanding(n, DecreeAll(n, queue, rcache, acceptors).node)
    decreases |queue|
  {
    hide Sound, NewDecree;
    if queue != [] {
      NewDecreeStands(n, queue[0], acceptors, ibase, rcache, first);
      DecreeAllStands(NewDecree(n, queue[0], queue[0].req in rcache, acceptors).node, queue[1..], acceptors, ibase, rcache, first);
    }
  }

  predicate Completed(n: Node, b: Ballot, report: Log, acceptors: set<NodeId>)
    requires n.log != map[]
  {
    n.prep.Some? && AckPromise(n, b, report, acceptors).node.prep.None?
  }

  /** What a participant is after counting a promise, its queue drained if that completes the prepare. */
  function Counted(n: Node, queue: seq<Value>, b: Ballot, report: Log, rcache: set<ReqId>, acceptors: set<NodeId>): Node
    requires n.log != map[]
  {
    var o := AckPromise(n, b, report, acceptors);
    if Completed(n, b, report, acceptors) then DecreeAll(o.node, queue, rcache, acceptors).node else o.node
  }

  lemma CompletionStands(n: Node, b: Ballot, acceptors: set<NodeId>)
    requires n.log != map[]
    ensures var m := CompletePrepare(n, b, acceptors).node;
      && m.reqId >= n.reqId && m.prep.None? && m.id == n.id && m.alive == n.alive && m.proposer == n.proposer
      && m.ballot == b && m.genHigh == n.genHigh
  {
    hide RedecreeLog, Last;
  }

  /** Counting a promise that is merged keeps the halves in agreement, the
      request numbers of the nulls included; the queue is what is decreed. */
  lemma CountAgrees(n: Node, queue: seq<Value>, b: Ballot, report: Log, acceptors: set<NodeId>, g: Group,
                    ibase: nat, rcache: set<ReqId>, first: nat)
    requires Agree(n, queue, acceptors, g) && Ranked(g.alist) && Sound(n, ibase, rcache, first) && n.log != map[]
    requires n.prep.Some? ==> forall i :: i in report ==> n.prep.value.istart <= i
    ensures var m := Counted(n, queue, b, report, rcache, acceptors);
      && m.reqId >= n.reqId
      && var r := Membership.CountPromise(g, b, m.reqId - n.reqId);
         var completed := Completed(n, b, report, acceptors);
         Agree(m, if completed then [] else queue, acceptors, r)
         && r.decreed == g.decreed + if completed then queue else []
  {
    hide Sound, Merge, CompletePrepare, Last, Ids, DecreeAll;
    IdsSize(g.alist);
    PromiseCases(n, b, report, acceptors);
    assert g.decreed + [] == g.decreed;
    hide AckPromise;
    if IsProposer(n) && n.prep.Some? && n.prep.value.ballot == b && n.prep.value.acks + 1 >= Majority(|acceptors|) {
      var merged := Handlers.Merged(n, report);
      MergeSound(n, report, n.prep.value.acks + 1, ibase, rcache, first);
      CompleteSound(merged, b, acceptors, ibase, rcache, first);
      CompletionStands(merged, b, acceptors);
      DecreeAllStands(CompletePrepare(merged, b, acceptors).node, queue, acceptors, ibase, rcache, first);
    }
  }

  lemma LaggardAgrees(n: Node, queue: seq<Value>, b: Ballot, report: Log, acceptors: set<NodeId>, g: Group, rcache: set<ReqId>)
    requires Agree(n, queue, acceptors, g) && n.log != map[] && n.alive
    ensures var m := Counted(n, queue, b, report, rcache, acceptors);
      !m.alive && (n.prep.Some? && IsProposer(n) && n.prep.value.ballot == b && exists i :: i in report && i < n.prep.value.istart) ==>
        Agree(m, queue, acceptors, Failed(g))
  {
    hide Ids, Last, Merge, CompletePrepare;
  }

  /** A promise is either fatal, or counted in agreement. */
  lemma PromiseLives(n: Node, queue: seq<Value>, b: Ballot, report: Log, acceptors: set<NodeId>, g: Group,
                     ibase: nat, rcache: set<ReqId>, first: nat)
    requires Agree(n, queue, acceptors, g) && Ranked(g.alist) && Sound(n, ibase, rcache, first) && n.log != map[] && n.alive
    ensures var m := Counted(n, queue, b, report, rcache, acceptors);
      if m.alive then
        && m.reqId >= n.reqId
        && Agree(m, if Completed(n, b, report, acceptors) then [] else queue, acceptors, Membership.CountPromise(g, b, m.reqId - n.reqId))
      else Agree(m, queue, acceptors, Failed(g)) && !Completed(n, b, report, acceptors)
  {
    hide Sound, Merge, CompletePrepare, Last, Ids, DecreeAll, Agree;
    PromiseCases(n, b, report, acceptors);
    LaggardAgrees(n, queue, b, report, acceptors, g, rcache);
    if IsProposer(n) && n.prep.Some? && n.prep.value.ballot == b && exists i :: i in report && i < n.prep.value.istart {
      hide Failed;
    } else if n.prep.None? || forall i :: i in report ==> n.prep.value.istart <= i {
      CountAgrees(n, queue, b, report, acceptors, g, ibase, rcache, first);
      CountedLives(n, queue, b, report, acceptors, ibase, rcache, first);
    } else {
      IgnoredAgrees(n, queue, b, acceptors, g);
    }
  }

  lemma IgnoredAgrees(n: Node, queue: seq<Value>, b: Ballot, acceptors: set<NodeId>, g: Group)
    requires Agree(n, queue, acceptors, g) && (!IsProposer(n) || n.prep.None? || n.prep.value.ballot != b)
    ensures Membership.CountPromise(g, b, 0) == g
  {
    hide Ids;
  }

  lemma CountedLives(n: Node, queue: seq<Value>, b: Ballot, report: Log, acceptors: set<NodeId>, ibase: nat, rcache: set<ReqId>, first: nat)
    requires Sound(n, ibase, rcache, first) && n.log != map[] && n.alive
    requires n.prep.Some? ==> forall i :: i in report ==> n.prep.value.istart <= i
    ensures Counted(n, queue, b, report, rcache, acceptors).alive
  {
    hide Sound, Merge, CompletePrepare, Last, DecreeAll;
    PromiseCases(n, b, report, acceptors);
    hide AckPromise;
    if IsProposer(n) && n.prep.Some? && n.prep.value.ballot == b && n.prep.value.acks + 1 >= Majority(|acceptors|) {
      var merged := Handlers.Merged(n, report);
      MergeSound(n, report, n.prep.value.acks + 1, ibase, rcache, first);
      CompleteSound(merged, b, acceptors, ibase, rcache, first);
      CompletionStands(merged, b, acceptors);
      DecreeAllStands(CompletePrepare(merged, b, acceptors).node, queue, acceptors, ibase, rcache, first);
    }
  }

  // ---- The objects.

  /** A session and a roster that are one participant. */
  ghost predicate Together(s: Session, r: Roster)
    reads s, r
  {
    Sorted(s.ilist) && Agree(s.Core(), s.idefer, s.acceptors, r.View())
  }

  /** Prepare, having found ourselves the proposer. */
  method BeginPrepare(s: Session, r: Roster, anew: bool) returns (sent: set<Message>)
    requires s.Valid() && r.Valid() && r.alive && r.proposer == r.self && Together(s, r)
    modifies s, r
    ensures s.Valid() && Together(s, r)
  {
    hide Sound, LogOf, Sorted, Parts, Ids, StartOf, Agree, Ranked;
    ghost var n, g := s.Core(), r.View();
    var queued := r.queue;
    RosterRanked(g);
    StartInLog(n, s.ibase, s.rcache, s.firstLearn);
    PrepareAgrees(n, s.idefer, s.acceptors, g, anew);
    AgreeStands(n, s.idefer, s.acceptors, g);
    r.Prepare(anew);
    PrepareQueues(g, anew);
    sent := s.BeginPrepare(r.live, r.queue[|queued|..]);
  }

  lemma RosterRanked(g: Group)
    requires Sane(g)
    ensures Ranked(g.alist)
  {
  }

  lemma AgreeStands(n: Node, queue: seq<Value>, acceptors: set<NodeId>, g: Group)
    requires Agree(n, queue, acceptors, g) && Ranked(g.alist)
    ensures g.self == n.id && g.alive == n.alive && g.proposer == n.proposer && g.reqId == n.reqId && g.queue == queue
    ensures (g.prep.Some? <==> n.prep.Some?) && |g.alist| == |acceptors|
  {
    IdsSize(g.alist);
  }

  lemma PrepareQueues(g: Group, anew: bool)
    ensures var r, parts := Membership.Prepare(g, anew), if anew then Parts(g.alist, g.self, g.reqId) else [];
      && r.live == g.live && |g.queue| <= |r.queue|
      && r.queue[|g.queue|..] == if g.prep.Some? || g.live < Majority(|g.alist|) then [] else parts
  {
    hide Parts;
  }

  /** Defer to the acceptor at `k`, which outranks the proposer, over a new connection. */
  method DeferTo(s: Session, r: Roster, k: nat, peer: nat)
    requires s.Valid() && r.Valid() && r.alive && k < |r.alist| && r.alist[k].id < r.proposer && Together(s, r)
    modifies s, r
    ensures s.Valid() && Together(s, r) && r.proposer == old(r.alist[k].id)
  {
    hide Sound, LogOf, Sorted, Ids, Ranked, Leadership.Lists, SetPeer;
    DeferAgrees(s.Core(), s.idefer, s.acceptors, r.View(), k, peer);
    var id := r.alist[k].id;
    s.DeferTo(id);
    r.Attach(k, peer);
    r.queue := [];
  }

  /** Count a promise: the session merges it and, at a majority, decrees what is
      open and what was queued; the roster completes with it. */
  method CountPromise(s: Session, r: Roster, b: Ballot, report: seq<Instance>) returns (sent: set<Message>)
    requires s.Valid() && r.Valid() && r.alive && Sorted(report) && Together(s, r)
    modifies s, r
    ensures s.Valid() && Together(s, r)
  {
    hide Sound, LogOf, Sorted, Ids, Ranked, Leadership.Lists, Agree, DecreeAll, AckPromise;
    ghost var n, g, queue := s.Core(), r.View(), s.idefer;
    RosterRanked(g);
    AgreeStands(n, queue, s.acceptors, g);
    HasBase(n, s.ibase, s.rcache, s.firstLearn);
    LaggardAgrees(n, queue, b, LogOf(report), s.acceptors, g, s.rcache);
    PromiseLives(n, queue, b, LogOf(report), s.acceptors, g, s.ibase, s.rcache, s.firstLearn);
    var before := s.reqId;
    sent := s.AckPromise(b, report);
    if s.alive {
      r.CountPromise(b, s.reqId - before);
    } else {
      r.alive, r.failed := false, true;
    }
  }
}
