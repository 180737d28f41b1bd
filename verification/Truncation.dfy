/** The results about synchronization over whole runs. */
module Truncation {
  import opened Types
  import opened Node
  import opened InstanceList
  import opened Loops
  import opened Soundness
  import opened Listing
  import opened SyncModel
  import opened SyncInvariant
  import opened SyncPreservation
  import opened SyncSafety

  /** An acceptor when the proposer has just completed its prepare: on the way
      down are that prepare and its decrees, on the way up at most retries. */
  ghost predicate Joined(w: View, q: Peer) {
    && MemberOK(w, q) && q.seen == w.floor && q.got == w.syncId
    && (forall u :: u in q.up ==> u.Retry? && w.floor < u.inum <= w.last)
    && (forall d :: d in q.down ==>
          d.Prepare? || (d.Decree? && w.floor < d.inum && Decided(w, d.inum, d.value)))
  }

  /** A proposer has just been established.  Its log has no gap past its base
      and holds everything the acceptors have committed, and nobody's base is
      past anybody's last contiguous learn. */
  ghost predicate Init(s: State) {
    && ProposerOK(s.p, s.ibase, s.floor, s.decided) && s.p.alive && !s.failed
    && s.p.id !in s.peers
    && s.syncing.round.None?
    && (forall a :: a in s.peers ==> !s.peers[a].failed)
    && forall a :: a in s.peers ==> Joined(ViewOf(s), s.peers[a])
  }

  ghost predicate IsRun(run: seq<State>) {
    && |run| > 0
    && Init(run[0])
    && forall k :: 0 <= k < |run| - 1 ==> Next(run[k], run[k + 1])
  }

  ghost predicate Next(s: State, s': State) {
    exists step :: Enabled(s, step) && s' == Apply(s, step)
  }

  lemma JoinedOK(w: View, q: Peer)
    requires Joined(w, q)
    ensures PeerOK(w, q)
  {
    hide HoleOK, LogAgrees;
    assert forall k :: 0 <= k < |q.up| ==> q.up[k] in q.up;
    assert forall k :: 0 <= k < |q.down| ==> q.down[k] in q.down;
  }

  lemma InitInv(s: State)
    requires Init(s)
    ensures Inv(s)
  {
    hide PeerOK, MemberOK;
    FloorIsPositive(s.p, s.ibase, s.floor, s.decided);
    forall a | a in s.peers ensures PeerOK(ViewOf(s), s.peers[a]) { JoinedOK(ViewOf(s), s.peers[a]); }
  }

  lemma {:induction false} RunInv(run: seq<State>, k: nat)
    requires IsRun(run) && k < |run|
    ensures Inv(run[k])
  {
    hide Inv, Init, Apply;
    if k == 0 {
      InitInv(run[0]);
    } else {
      RunInv(run, k - 1);
      assert Next(run[k - 1], run[k]);
      var step :| Enabled(run[k - 1], step) && run[k] == Apply(run[k - 1], step);
      StepKeepsInv(run[k - 1], step);
    }
  }

  // ---- Members.

  datatype Member = Member(node: Node, ibase: nat)

  ghost predicate IsMember(s: State, x: Member) {
    x == Member(s.p, s.ibase) || exists a :: a in s.peers && x == Member(s.peers[a].node, s.peers[a].ibase)
  }

  /** The log starts at the base with a learned instance and has no gap below the hole. */
  predicate StartsAtBase(x: Member) {
    && 0 < x.ibase < x.node.ihole
    && (forall i :: i in x.node.log ==> x.ibase <= i)
    && (forall i :: x.ibase <= i < x.node.ihole ==> i in x.node.log && x.node.log[i].committed && x.node.log[i].learned)
  }

  lemma HoleMeans(x: Member)
    requires HoleOK(x.node.log, x.ibase, x.node.ihole)
    ensures StartsAtBase(x)
  {
    forall i | x.ibase <= i < x.node.ihole ensures i in x.node.log && x.node.log[i].committed && x.node.log[i].learned {
      assert Ready(x.node.log, i);
    }
  }

  lemma MemberFacts(s: State, x: Member)
    requires Inv(s) && IsMember(s, x)
    ensures HoleOK(x.node.log, x.ibase, x.node.ihole) && x.ibase <= s.floor < x.node.ihole
  {
    hide HoleOK, UpsOK, DownsOK, ChannelsCross, LogAgrees, Last;
    FloorIsPositive(s.p, s.ibase, s.floor, s.decided);
    assert forall a :: a in s.peers ==> PeerOK(ViewOf(s), s.peers[a]);
  }

  lemma TruncatesBelowFloor(w: View, q: Peer)
    requires PeerOK(w, q)
    ensures forall d :: d in q.down && d.Truncate? ==> q.ibase <= d.base <= w.floor
  {
    forall d | d in q.down && d.Truncate? ensures q.ibase <= d.base <= w.floor {
      var k :| 0 <= k < |q.down| && q.down[k] == d;
      assert DownAt(w, q.ibase, q.seen, q.got, q.down[k]);
    }
  }

  // ---- Main results.

  /** In every reachable state, every member's log starts at its base and is
      whole up to its hole, and nobody has dropped, or is about to be told to
      drop, an instance that some member has not learned. */
  lemma TruncationSafety(run: seq<State>, k: nat)
    requires IsRun(run) && k < |run|
    ensures forall x :: IsMember(run[k], x) ==> StartsAtBase(x)
    ensures forall x, y :: IsMember(run[k], x) && IsMember(run[k], y) ==> x.ibase <= y.node.ihole - 1
    ensures forall a, d, y :: a in run[k].peers && d in run[k].peers[a].down && d.Truncate? && IsMember(run[k], y) ==>
              run[k].peers[a].ibase <= d.base <= y.node.ihole - 1
  {
    var s := run[k];
    RunInv(run, k);
    hide IsMember, StartsAtBase, HoleOK, Inv;
    forall x | IsMember(s, x) ensures StartsAtBase(x) && x.ibase <= s.floor < x.node.ihole {
      MemberFacts(s, x);
      HoleMeans(x);
    }
    forall a, d | a in s.peers && d in s.peers[a].down && d.Truncate? ensures s.peers[a].ibase <= d.base <= s.floor {
      PeerInState(s, a);
      TruncatesBelowFloor(ViewOf(s), s.peers[a]);
    }
  }

  lemma PeerInState(s: State, a: NodeId)
    requires Inv(s) && a in s.peers
    ensures s.p.log != map[] && PeerOK(ViewOf(s), s.peers[a])
  {
    hide PeerOK, ProposerOK, RoundOK;
    FloorIsPositive(s.p, s.ibase, s.floor, s.decided);
  }

  /** Between the handlers of every run, a member's hole is the least number
      from its base on that is not both committed and cached, and exactly what
      lies below the hole is learned. */
  lemma HoleIsLeast(run: seq<State>, k: nat, x: Member, h: nat)
    requires IsRun(run) && k < |run| && IsMember(run[k], x)
    ensures h == x.node.ihole <==>
              x.ibase <= h && !Ready(x.node.log, h) && forall i :: x.ibase <= i < h ==> Ready(x.node.log, i)
    ensures h in x.node.log ==> (x.node.log[h].learned <==> h < x.node.ihole)
  {
    RunInv(run, k);
    hide IsMember, Inv;
    MemberFacts(run[k], x);
    assert h < x.node.ihole && x.ibase <= h ==> Ready(x.node.log, h);
    assert x.node.ihole < h ==> !Ready(x.node.log, x.node.ihole);
  }

  /** The instance `istart` names survives every truncation. */
  lemma StartSurvives(run: seq<State>, k: nat, x: Member)
    requires IsRun(run) && k < |run| && IsMember(run[k], x)
    ensures StartOf(x.node.log, x.node.ihole) >= x.ibase
    ensures var start: nat := StartOf(x.node.log, x.node.ihole); start in x.node.log
  {
    TruncationSafety(run, k);
    hide IsMember;
    assert StartsAtBase(x);
  }

  /** Should any member prepare from its hole, the backward walk of any other's
      list stops inside it: the promise packs exactly the count it announces. */
  lemma PromiseScanStops(run: seq<State>, k: nat, x: Member, y: Member, list: seq<Instance>)
    requires IsRun(run) && k < |run| && IsMember(run[k], x) && IsMember(run[k], y)
    requires Sorted(list) && LogOf(list) == x.node.log
    ensures list != [] && list[0].inum == x.ibase && list[0].inum <= y.node.ihole
  {
    TruncationSafety(run, k);
    hide IsMember;
    assert StartsAtBase(x) && x.ibase in LogOf(list);
    var j :| 0 <= j < |list| && list[j].inum == x.ibase;
    assert list[0].inum in LogOf(list);
  }

  /** No late message misses: a vote or a retry reaching the proposer names a
      listed instance, a reply of the current round finds the round still on,
      and what reaches an acceptor names an instance above its base. */
  lemma LateMessagesFind(run: seq<State>, k: nat, a: NodeId)
    requires IsRun(run) && k < |run| && a in run[k].peers
    ensures var s, q := run[k], run[k].peers[a];
      && (q.up != [] && q.up[0].Accept? ==> q.up[0].inum in s.p.log)
      && (q.up != [] && q.up[0].Retry? ==> q.up[0].inum in s.p.log)
      && (q.up != [] && q.up[0].LastLearn? && q.up[0].id == s.syncing.id ==> s.syncing.round.Some?)
      && (q.down != [] && (q.down[0].Decree? || q.down[0].Commit? || q.down[0].Recommit?) ==> q.ibase < q.down[0].inum)
  {
    RunInv(run, k);
    var s, q := run[k], run[k].peers[a];
    PeerInState(s, a);
    FloorIsPositive(s.p, s.ibase, s.floor, s.decided);
    if q.up != [] {
      TakenFacts(s, a);
      hide Last, HoleOK;
      match q.up[0]
      case Accept(i) => AboveFloorIsListed(s.p, s.ibase, s.floor, s.decided, i);
      case Retry(_, i) => AboveFloorIsListed(s.p, s.ibase, s.floor, s.decided, i);
      case LastLearn(id, last) => HearLastOK(s, a, id, last);
    }
    if q.down != [] { HeadAt(ViewOf(s), q); }
  }

  /** The values `vs` of the instances from `from` on are all learned with the
      session going on. */
  ghost predicate Survives(listed: map<NodeId, bool>, self: NodeId, proposer: NodeId, vs: seq<Value>, from: nat) {
    forall j :: 0 <= j < |vs| ==> FateAt(listed, self, proposer, vs, from, j) == Stays
  }

  /** The first of them that is not is a chat from someone not listed by then. */
  ghost predicate FailsOn(listed: map<NodeId, bool>, self: NodeId, proposer: NodeId, vs: seq<Value>, from: nat) {
    exists j: nat :: DecidesAt(listed, self, proposer, vs, from, j) && vs[j].kind == DecChat
  }

  lemma FatesMean(listed: map<NodeId, bool>, self: NodeId, proposer: NodeId, vs: seq<Value>, from: nat)
    ensures FateAfter(listed, self, proposer, vs, from) == Stays <==> Survives(listed, self, proposer, vs, from)
    ensures FateAfter(listed, self, proposer, vs, from) == Fails <==> FailsOn(listed, self, proposer, vs, from)
  {
    FirstDecides(listed, self, proposer, vs, from);
  }

  /** The proposer goes on in a step, and fails in it. */
  ghost predicate ProposerStops(s: State, step: Step, t: State)
    requires Enabled(s, step)
  {
    var vs := ProposerLearns(s, step);
    && (t.p.alive <==> s.p.alive && Survives(s.listed, s.p.id, s.p.proposer, vs, s.p.ihole))
    && (t.failed <==> s.failed || FailsOn(s.listed, s.p.id, s.p.proposer, vs, s.p.ihole))
  }

  /** Acceptor `a` goes on in a step, and fails in it. */
  ghost predicate PeerStops(s: State, step: Step, t: State, a: NodeId)
    requires Enabled(s, step) && a in s.peers
  {
    var q, vs := s.peers[a], PeerLearns(s, step, a);
    && a in t.peers
    && (t.peers[a].node.alive <==>
          q.node.alive && !Misses(s, step, a) && Survives(q.listed, q.node.id, q.node.proposer, vs, q.node.ihole))
    && (t.peers[a].failed <==>
          q.failed || Misses(s, step, a) || FailsOn(q.listed, q.node.id, q.node.proposer, vs, q.node.ihole))
  }

  /** Who stops in a step, and why.  An acceptor fails exactly when asked, in its
      ballot, for the part of someone it does not list, and any member exactly
      when it learns a chat from someone it no longer lists; a member leaves
      when it learns its own part, or an acceptor its proposer's.  Nothing
      else, and no late or repeated message, stops anyone. */
  lemma StopsExactly(run: seq<State>, k: nat, step: Step)
    requires IsRun(run) && k < |run| && Enabled(run[k], step) && !step.Crash?
    ensures ProposerStops(run[k], step, Apply(run[k], step))
    ensures forall a :: a in run[k].peers ==> PeerStops(run[k], step, Apply(run[k], step), a)
  {
    hide Apply, Inv, StopsAsListed, ProposerStops, PeerStops;
    RunInv(run, k);
    StepKeepsInv(run[k], step);
    ProposerStopsSo(run[k], step, Apply(run[k], step));
    forall a | a in run[k].peers ensures PeerStops(run[k], step, Apply(run[k], step), a) {
      PeerStopsSo(run[k], step, Apply(run[k], step), a);
    }
  }

  lemma ProposerStopsSo(s: State, step: Step, t: State)
    requires Enabled(s, step) && StopsAsListed(s, step, t)
    ensures ProposerStops(s, step, t)
  {
    hide Survives, FailsOn, PeerFate, PeerLearns, ProposerLearns, Misses;
    FatesMean(s.listed, s.p.id, s.p.proposer, ProposerLearns(s, step), s.p.ihole);
  }

  lemma PeerStopsSo(s: State, step: Step, t: State, a: NodeId)
    requires Enabled(s, step) && StopsAsListed(s, step, t) && a in s.peers
    ensures PeerStops(s, step, t, a)
  {
    hide Survives, FailsOn, ProposerFate, PeerLearns, ProposerLearns, Misses;
    var q := s.peers[a];
    FatesMean(q.listed, q.node.id, q.node.proposer, PeerLearns(s, step, a), q.node.ihole);
  }

  /** Under one established proposer, whatever any member has committed is what
      the proposer decided, recommits included. */
  lemma MembersAgree(run: seq<State>, k: nat, x: Member, y: Member, i: nat)
    requires IsRun(run) && k < |run| && IsMember(run[k], x) && IsMember(run[k], y)
    requires CommittedIn(x.node.log, i) && CommittedIn(y.node.log, i)
    ensures x.node.log[i].value == y.node.log[i].value
  {
    RunInv(run, k);
    DecidedInState(run[k], x, i);
    DecidedInState(run[k], y, i);
  }

  lemma DecidedInState(s: State, x: Member, i: nat)
    requires Inv(s) && IsMember(s, x) && CommittedIn(x.node.log, i)
    ensures i in s.decided && s.decided[i] == x.node.log[i].value
  {
    FloorIsPositive(s.p, s.ibase, s.floor, s.decided);
    if x != Member(s.p, s.ibase) {
      var a :| a in s.peers && x == Member(s.peers[a].node, s.peers[a].ibase);
      PeerInState(s, a);
    }
    hide HoleOK, UpsOK, DownsOK, ChannelsCross, Last, RoundOK;
  }
}
