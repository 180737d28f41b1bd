/** What a sync round comes to: the base it ends with, the sync point it leaves,
    and when the next one starts. */
module Rounds {
  import opened Types
  import opened Quorums
  import opened Node
  import opened Loops
  import opened InstanceList
  import opened Listing
  import opened SyncModel
  import opened SyncInvariant
  import opened SyncPreservation
  import opened SyncSafety
  import opened Truncation
  import opened Replies

  // ---- Waiting for a round.

  /** The sync state after so many ticks of the timer with nothing else happening. */
  function Ticks(y: Syncing, ihole: nat, total: nat, n: nat): Syncing {
    if n == 0 then y else BeginRound(Ticks(y, ihole, total, n - 1), ihole, total)
  }

  /** A tick that finds something learned since the last sync point, and no
      round on, starts one that nobody but ourselves has answered. */
  lemma RoundStarts(y: Syncing, ihole: nat, total: nat)
    requires ihole - 1 != y.prev && y.round.None?
    ensures BeginRound(y, ihole, total) == Syncing(y.id + 1, y.prev, Some(Round(total, 1, 0, 0)))
  {
  }

  /** A round just started is waited for over twenty-nine ticks, which neither
      start another nor forget what it has heard; the thirtieth replaces it. */
  lemma {:induction false} RoundIsAwaited(y: Syncing, ihole: nat, total: nat, n: nat)
    requires y.round.Some? && y.round.value.skips == 0 && ihole - 1 != y.prev
    ensures var z := Ticks(y, ihole, total, n);
      && z.prev == y.prev
      && (n < 30 ==> z.id == y.id && z.round == Some(y.round.value.(skips := n)))
      && (n == 30 ==> z.id == y.id + 1 && z.round == Some(Round(total, 1, 0, 0)))
  {
    if n > 0 { RoundIsAwaited(y, ihole, total, n - 1); }
  }

  /** With nothing learned since the last sync point, no tick does anything. */
  lemma {:induction false} NothingToSync(y: Syncing, ihole: nat, total: nat, n: nat)
    requires ihole - 1 == y.prev
    ensures Ticks(y, ihole, total, n) == y
  {
    if n > 0 { NothingToSync(y, ihole, total, n - 1); }
  }

  // ---- Hearing a round.

  /** The sync state once these replies to the current round have arrived, and the base, if they were enough. */
  function AllHeard(y: Syncing, lasts: seq<nat>, ihole: nat): (Syncing, Option<nat>)
    requires ihole > 0
  {
    if lasts == [] then (y, None)
    else
      var (z, base) := AllHeard(y, lasts[..|lasts| - 1], ihole);
      if base.Some? || z.round.None? then (z, base) else TakeLast(z, z.id, lasts[|lasts| - 1], ihole)
  }

  ghost predicate IsLeast(m: nat, s: seq<nat>) {
    m in s && forall x :: x in s ==> m <= x
  }

  /** A round ends exactly with the reply of the last member still to answer.
      Its base is the least last learn, ours included, and is the new sync point. */
  lemma {:induction false} RepliesAddUp(y: Syncing, lasts: seq<nat>, ihole: nat)
    requires ihole > 0 && y.round.Some? && y.round.value.acks == 1 && y.round.value.last == 0
    requires |lasts| < y.round.value.total && forall x :: x in lasts ==> x > 0
    ensures var (z, base) := AllHeard(y, lasts, ihole);
      && z.id == y.id
      && (base.Some? <==> lasts != [] && |lasts| + 1 == y.round.value.total)
      && (base.None? ==> z.round.Some? && z.prev == y.prev && z.round.value.acks == |lasts| + 1
                         && z.round.value.total == y.round.value.total
                         && (if lasts == [] then z.round.value.last == 0 else IsLeast(z.round.value.last, lasts)))
      && (base.Some? ==> z == Syncing(y.id, base.value, None) && IsLeast(base.value, lasts + [(ihole - 1) as nat]))
  {
    if lasts != [] {
      var front, x := lasts[..|lasts| - 1], lasts[|lasts| - 1];
      assert lasts == front + [x] && forall u :: u in front ==> u in lasts;
      RepliesAddUp(y, front, ihole);
      LeastOfMore(front, x, ihole - 1);
    }
  }

  lemma LeastOfMore(front: seq<nat>, x: nat, own: nat)
    ensures front == [] ==> IsLeast(x, front + [x])
    ensures forall m :: IsLeast(m, front) ==> IsLeast(if x < m then x else m, front + [x])
    ensures forall m :: IsLeast(m, front + [x]) ==> IsLeast(if own < m then own else m, front + [x] + [own])
  {
  }

  // ---- Over a whole run.

  /** A round that was on is over at the next state. */
  ghost predicate Ends(run: seq<State>, j: nat) {
    j + 1 < |run| && run[j].syncing.round.Some? && run[j + 1].syncing.round.None?
  }

  /** `base` is the least of our own last learn and of those that the members have replied with. */
  ghost predicate IsBase(s: State, base: nat) {
    && base < s.p.ihole && (forall a :: a in s.peers ==> base <= s.peers[a].seen)
    && (base == s.p.ihole - 1 || exists a :: a in s.peers && s.peers[a].seen == base)
  }

  /** Everyone has been told to truncate to the base, as the last thing. */
  ghost predicate AllTold(s: State, t: State, base: nat) {
    && t.peers.Keys == s.peers.Keys
    && forall a :: a in s.peers ==> t.peers[a].down == s.peers[a].down + [Truncate(base)]
  }

  /** The sync point, our own base and the base everyone has been told are one. */
  predicate AtSyncPoint(s: State) {
    s.syncing.prev == s.ibase == s.floor
  }

  lemma {:induction false} HeardEnds(y: Syncing, peers: map<NodeId, Peer>, floor: nat, a: NodeId, id: nat, last: nat, ihole: nat)
    requires RoundOK(y, peers, floor) && a in peers && 0 < floor <= peers[a].seen <= last && peers[a].got < id <= y.id
    requires floor < ihole && TakeLast(y, id, last, ihole).1.Some?
    ensures y.round.Some? && id == y.id
    ensures var (z, base) := TakeLast(y, id, last, ihole);
      var peers' := peers[a := peers[a].(seen := last, got := id)];
      && z == Syncing(y.id, base.value, None)
      && (forall c :: c in peers' ==> peers'[c].got == y.id && base.value <= peers'[c].seen) && base.value < ihole
      && (base.value == ihole - 1 || exists c :: c in peers' && peers'[c].seen == base.value)
  {
    hide Replied, HeardLeast;
    var peers' := peers[a := peers[a].(seen := last, got := id)];
    RepliedNext(peers, a, y, id, last);
    LeastBounds(y, peers, floor, a, last, peers');
    AllReplied(peers', y.id);
    LeastOfAll(peers', floor, Least(last, y.round.value.last));
    LeastIsSeen(peers', floor, Least(last, y.round.value.last));
    RepliedAre(peers', y.id);
  }

  lemma LeastIsSeen(peers: map<NodeId, Peer>, floor: nat, m: nat)
    requires HeardLeast(peers, peers.Keys, floor, m)
    ensures exists c :: c in peers && peers[c].seen == m
  {
  }

  /** In the step that ends a round, everyone has replied to that round, and the
      least last learn of all becomes the base, of which everyone is told. */
  lemma RoundEnds(run: seq<State>, j: nat)
    requires IsRun(run) && Ends(run, j)
    ensures var s, t := run[j], run[j + 1];
      && AtSyncPoint(t) && t.syncing.id == s.syncing.id && IsBase(t, t.ibase)
      && (forall a :: a in t.peers ==> t.peers[a].got == t.syncing.id)
      && AllTold(s, t, t.ibase)
  {
    var s := run[j];
    RunInv(run, j);
    assert Next(run[j], run[j + 1]);
    var step :| Enabled(s, step) && run[j + 1] == Apply(s, step);
    hide Inv, IsRun;
    StepEnds(s, step);
  }

  lemma StepEnds(s: State, step: Step)
    requires Inv(s) && Enabled(s, step) && s.syncing.round.Some? && Apply(s, step).syncing.round.None?
    ensures var t := Apply(s, step);
      && AtSyncPoint(t) && t.syncing.id == s.syncing.id && IsBase(t, t.ibase)
      && (forall a :: a in t.peers ==> t.peers[a].got == t.syncing.id)
      && AllTold(s, t, t.ibase)
  {
    hide Inv, TakeDown, Heeds, HearUp, ProposerHeeds, AckResend, NewDecree, NextInstance, IsBase, AllTold, AtSyncPoint;
    OnlyLastsEnd(s, step);
    HeedsKeeps(s, Handle(s, step));
    HeardBase(s, step.peer, step.have);
    HeedsBase(s, Handle(s, step), s);
  }

  /** Only hearing a last learn can end a round. */
  lemma OnlyLastsEnd(s: State, step: Step)
    requires Enabled(s, step)
    ensures Apply(s, step).syncing != s.syncing ==> step.BeginSync? || (step.Hear? && s.peers[step.peer].up[0].LastLearn?)
    ensures step.BeginSync? ==> Apply(s, step).syncing == s.syncing || Apply(s, step).syncing.round.Some?
    ensures step.Hear? ==> Apply(s, step) == ProposerHeeds(s, HearUp(s, step.peer, step.have))
    ensures step.Hear? ==> Handle(s, step) == HearUp(s, step.peer, step.have)
  {
    hide TakeDown, Heeds, AckResend, ProposeNext, HearUp, BeginSyncing, ProposerHeeds;
    match step
    case Hear(a, have) =>
      HearSyncing(s, a, have);
      HeedsKeeps(s, HearUp(s, a, have));
    case Propose(v, have) =>
      ProposeSyncing(s, v, have);
      HeedsKeeps(s, ProposeNext(s, v, have));
    case BeginSync =>
      BeginsSyncing(s);
      HeedsKeeps(s, BeginSyncing(s));
    case ProposerResend(i) => HeedsKeeps(s, s.(p := AckResend(s.p, i).node));
    case Take(_, _) =>
    case PeerResend(_, _) =>
    case Relink(_, _, _) =>
    case Crash(_) =>
  }

  lemma HearSyncing(s: State, a: NodeId, have: bool)
    requires s.p.ihole > 0 && a in s.peers && s.peers[a].up != []
    ensures HearUp(s, a, have).syncing != s.syncing ==> s.peers[a].up[0].LastLearn?
  {
    hide AckAccept, HearLast;
  }

  lemma ProposeSyncing(s: State, v: Value, have: bool)
    ensures ProposeNext(s, v, have).syncing == s.syncing
  {
    hide NewDecree, NextInstance;
  }

  lemma BeginsSyncing(s: State)
    ensures BeginSyncing(s).syncing == s.syncing || BeginSyncing(s).syncing.round.Some?
  {
    hide Members;
  }

  lemma HeedsKeeps(s: State, t: State)
    ensures ProposerHeeds(s, t).syncing == t.syncing
  {
    hide FateOn, ListAfter, Learned;
  }

  lemma GoesOn(y: Syncing, id: nat, last: nat, ihole: nat)
    requires y.round.Some? && ihole > 0
    ensures TakeLast(y, id, last, ihole).1.None? ==> TakeLast(y, id, last, ihole).0.round.Some?
  {
  }

  lemma HeardBase(s: State, a: NodeId, have: bool)
    requires Inv(s) && s.p.ihole > 0 && a in s.peers && s.peers[a].up != [] && s.peers[a].up[0].LastLearn?
    requires s.syncing.round.Some? && HearUp(s, a, have).syncing.round.None?
    ensures var t := HearUp(s, a, have);
      && AtSyncPoint(t) && t.syncing.id == s.syncing.id && IsBase(t, t.ibase)
      && (forall c :: c in t.peers ==> t.peers[c].got == t.syncing.id)
      && AllTold(s, t, t.ibase)
  {
    hide ProposerOK, PeersOK, PeerOK, From, Last, TakeLast, RoundOK, HearUp;
    var id, last := s.peers[a].up[0].id, s.peers[a].up[0].last;
    FloorIsPositive(s.p, s.ibase, s.floor, s.decided);
    BaseUnderFloor(s.p, s.ibase, s.floor, s.decided);
    FromPeers(ViewOf(s), s.peers, a);
    FromMember(ViewOf(s), s.peers[a]);
    HeardOK(ViewOf(s), s.peers[a]);
    RoundHears(s.syncing, s.peers, s.floor, a, id, last, s.p.ihole);
    GoesOn(s.syncing, id, last, s.p.ihole);
    LastHeard(s, a, have);
    HeardEnds(s.syncing, s.peers, s.floor, a, id, last, s.p.ihole);
    BaseCarries(s, HearUp(s, a, have), s.peers[a := s.peers[a].(seen := last, got := id)], TakeLast(s.syncing, id, last, s.p.ihole).1.value);
  }

  /** What hearing a last learn makes of the proposer, in terms of what is counted. */
  lemma LastHeard(s: State, a: NodeId, have: bool)
    requires s.p.ihole > 0 && a in s.peers && s.peers[a].up != [] && s.peers[a].up[0].LastLearn? && s.syncing.round.Some?
    ensures var u, t := s.peers[a].up[0], HearUp(s, a, have);
      var (z, base) := TakeLast(s.syncing, u.id, u.last, s.p.ihole);
      && (base.None? ==> t.syncing == z)
      && (base.Some? && s.ibase <= base.value ==>
            && t.syncing == z && t.ibase == base.value && t.floor == base.value && t.p.ihole == s.p.ihole
            && t.peers.Keys == s.peers.Keys
            && forall c :: c in s.peers ==>
                 && t.peers[c].down == s.peers[c].down + [Truncate(base.value)]
                 && t.peers[c].seen == (if c == a then u.last else s.peers[c].seen)
                 && t.peers[c].got == (if c == a then u.id else s.peers[c].got))
  {
    hide TakeLast, From;
  }

  lemma BaseCarries(s: State, t: State, peers': map<NodeId, Peer>, base: nat)
    requires t.ibase == base && t.p.ihole == s.p.ihole && t.peers.Keys == peers'.Keys && base < s.p.ihole
    requires forall c :: c in peers' ==> t.peers[c].seen == peers'[c].seen && base <= peers'[c].seen
    requires base == s.p.ihole - 1 || exists c :: c in peers' && peers'[c].seen == base
    ensures IsBase(t, t.ibase)
  {
    if base != s.p.ihole - 1 {
      var c :| c in peers' && peers'[c].seen == base;
      assert c in t.peers && t.peers[c].seen == base;
    }
  }

  /** Acting on what is learned touches neither round nor channels. */
  lemma HeedsBase(s: State, t: State, r: State)
    ensures var u := ProposerHeeds(s, t);
      && (AtSyncPoint(t) ==> AtSyncPoint(u)) && u.syncing == t.syncing && u.ibase == t.ibase && u.peers == t.peers
      && (IsBase(t, t.ibase) ==> IsBase(u, u.ibase)) && (AllTold(r, t, t.ibase) ==> AllTold(r, u, u.ibase))
  {
    hide FateOn, ListAfter, Learned;
  }

  /** A step that ends no round leaves the sync point and the base alone. */
  lemma StepKeepsPoint(s: State, step: Step)
    requires Inv(s) && Enabled(s, step) && (s.syncing.round.None? || Apply(s, step).syncing.round.Some?)
    ensures var t := Apply(s, step); t.syncing.prev == s.syncing.prev && t.ibase == s.ibase && t.floor == s.floor
  {
    hide Inv, TakeDown, Heeds, ProposerHeeds, AckResend, NewDecree, NextInstance, AckAccept, HearUp;
    match step
    case Hear(a, have) =>
      HearKeepsPoint(s, a, have);
      HeedsPoint(s, HearUp(s, a, have));
    case Propose(v, have) => HeedsPoint(s, ProposeNext(s, v, have));
    case BeginSync => HeedsPoint(s, BeginSyncing(s));
    case ProposerResend(i) => HeedsPoint(s, s.(p := AckResend(s.p, i).node));
    case Take(_, _) =>
    case PeerResend(_, _) =>
    case Relink(_, _, _) =>
    case Crash(_) =>
  }

  lemma HeedsPoint(s: State, t: State)
    ensures var u := ProposerHeeds(s, t); u.syncing == t.syncing && u.ibase == t.ibase && u.floor == t.floor
  {
    hide FateOn, ListAfter, Learned;
  }

  lemma HearKeepsPoint(s: State, a: NodeId, have: bool)
    requires Inv(s) && s.p.ihole > 0 && a in s.peers && s.peers[a].up != []
    ensures var t := HearUp(s, a, have);
      s.syncing.round.None? || t.syncing.round.Some? ==>
        t.syncing.prev == s.syncing.prev && t.ibase == s.ibase && t.floor == s.floor
  {
    hide ProposerOK, PeersOK, PeerOK, From, Last, RoundOK, AckAccept;
    if s.peers[a].up[0].LastLearn? {
      FloorIsPositive(s.p, s.ibase, s.floor, s.decided);
      FromPeers(ViewOf(s), s.peers, a);
      FromMember(ViewOf(s), s.peers[a]);
      HeardOK(ViewOf(s), s.peers[a]);
      RoundHears(s.syncing, s.peers, s.floor, a, s.peers[a].up[0].id, s.peers[a].up[0].last, s.p.ihole);
    }
  }

  /** Once a round has ended in a run, the sync point is the proposer's base and
      the base everyone was last told, in every later state. */
  lemma {:induction false} SyncPointIsBase(run: seq<State>, j: nat, k: nat)
    requires IsRun(run) && Ends(run, j) && j < k < |run|
    ensures AtSyncPoint(run[k])
  {
    hide IsBase, AllTold, Truncation.Init, Inv, Apply, Enabled, AtSyncPoint;
    if k == j + 1 {
      RoundEnds(run, j);
    } else {
      SyncPointIsBase(run, j, k - 1);
      if Ends(run, k - 1) {
        RoundEnds(run, k - 1);
      } else {
        RunInv(run, k - 1);
        assert Next(run[k - 1], run[k]);
        var step :| Enabled(run[k - 1], step) && run[k] == Apply(run[k - 1], step);
        StepKeepsPoint(run[k - 1], step);
        SamePoint(run[k - 1], run[k]);
      }
    }
  }

  lemma SamePoint(s: State, t: State)
    requires AtSyncPoint(s) && t.syncing.prev == s.syncing.prev && t.ibase == s.ibase && t.floor == s.floor
    ensures AtSyncPoint(t)
  {
  }

  /** With no round on after one has ended, a tick changes nothing and sends
      nothing if and only if the proposer has learned nothing past the base;
      otherwise it starts a round and asks everyone for their last learn. */
  lemma NextRound(run: seq<State>, j: nat, k: nat)
    requires IsRun(run) && Ends(run, j) && j < k < |run| && run[k].syncing.round.None? && run[k].p.alive
    ensures var s, t := run[k], Apply(run[k], BeginSync);
      && (t == s <==> s.p.ihole - 1 == s.ibase)
      && (t != s ==>
            && t.syncing == Syncing(s.syncing.id + 1, s.ibase, Some(Round(|s.peers| + 1, 1, 0, 0)))
            && t.peers.Keys == s.peers.Keys
            && forall a :: a in s.peers ==> t.peers[a] == s.peers[a].(down := s.peers[a].down + [Sync(t.syncing.id)]))
  {
    hide IsRun, Ends, Inv, Apply;
    SyncPointIsBase(run, j, k);
    RunInv(run, k);
    PeersAreOthers(run[k]);
    TickAnswered(run[k]);
  }

  lemma PeersAreOthers(s: State)
    requires Inv(s)
    ensures s.p.id !in s.peers
  {
  }

  lemma TickAnswered(s: State)
    requires s.syncing.round.None? && s.p.alive && s.syncing.prev == s.ibase && s.p.id !in s.peers
    ensures var t := Apply(s, BeginSync);
      && (t == s <==> s.p.ihole - 1 == s.ibase)
      && (t != s ==>
            && t.syncing == Syncing(s.syncing.id + 1, s.ibase, Some(Round(|s.peers| + 1, 1, 0, 0)))
            && t.peers.Keys == s.peers.Keys
            && forall a :: a in s.peers ==> t.peers[a] == s.peers[a].(down := s.peers[a].down + [Sync(t.syncing.id)]))
  {
    hide ProposerHeeds;
    MemberCount(s);
    HeedsNothing(s, BeginSyncing(s));
    hide Members;
  }

  lemma HeedsNothing(s: State, t: State)
    requires t.p == s.p && t.listed == s.listed && t.failed == s.failed && s.p.alive
    ensures ProposerHeeds(s, t) == t
  {
    NothingLearned(s.listed, s.p);
  }

  // ---- What each message is answered with.

  /** A sync of the ballot an acceptor holds is answered with its last learn, and
      no other sync is answered; neither changes the acceptor. */
  lemma SyncAnswered(q: Peer, b: Ballot, have: bool)
    requires q.down != [] && q.node.ihole > 0 && q.down[0].Sync?
    ensures var r := TakeDown(q, b, have);
      && r == q.(down := q.down[1..], up := r.up, node := r.node) && r.node.log == q.node.log && r.node == q.node
      && r.up == if q.node.ballot == b then q.up + [LastLearn(q.down[0].id, q.node.ihole - 1)] else q.up
  {
    NothingLearned(q.listed, q.node);
    assert ListAfter(q.listed, [], q.node.ihole) == q.listed;
  }

  /** A truncation removes exactly what lies below the base, and is not answered. */
  lemma TruncateAnswered(q: Peer, b: Ballot, have: bool)
    requires q.down != [] && q.node.ihole > 0 && q.down[0].Truncate?
    ensures var r := TakeDown(q, b, have);
      && r.ibase == q.down[0].base && r.up == q.up && r.node == q.node.(log := r.node.log)
      && (forall i :: i in r.node.log <==> i in q.node.log && q.down[0].base <= i)
      && (forall i :: i in r.node.log ==> r.node.log[i] == q.node.log[i])
  {
    NothingLearned(q.listed, q.node);
    var m := q.node.(log := From(q.node.log, q.down[0].base));
    assert Learned(q.node, m) == [] && FateOn(q.listed, q.node, m) == Stays;
  }

  /** An acceptor retries exactly when a commit, new to it and ready to be
      learned, finds a hole that is missing or undecided; it then names the
      hole, and its own ballot. */
  lemma CommitsAnswered(q: Peer, b: Ballot, have: bool)
    requires q.down != [] && q.node.ihole > 0 && (q.down[0].Commit? || q.down[0].Recommit?)
    requires q.node.ihole < q.down[0].inum && !CommittedIn(q.node.log, q.down[0].inum) && !IsProposer(q.node)
    requires q.down[0].inum in q.node.log ==> !q.node.log[q.down[0].inum].cached
    ensures var r, i := TakeDown(q, b, have), q.down[0].inum;
      r.up == if (NeedsCached(q.down[0].value.kind) ==> have) && !CommittedIn(q.node.log, q.node.ihole)
              then q.up + [Retry(q.node.ballot, q.node.ihole)] else q.up
  {
  }

  /** The members `peers` have had `m` sent to them, or nothing if there is none. */
  ghost predicate AllSent(s: State, t: State, m: Option<Down>) {
    && t.peers.Keys == s.peers.Keys
    && forall c :: c in s.peers ==> t.peers[c].down == s.peers[c].down + if m.Some? then [m.value] else []
  }

  /** A vote makes the proposer tell everyone of a commit exactly if it makes a
      majority for an open instance. */
  lemma VoteAnswered(s: State, a: NodeId, have: bool)
    requires s.p.ihole > 0 && a in s.peers && s.peers[a].up != [] && s.peers[a].up[0].Accept? && IsProposer(s.p)
    requires var i := s.peers[a].up[0].inum; i in s.p.log && (s.p.log[i].committed || s.p.ihole <= i)
    ensures var i, t := s.peers[a].up[0].inum, HearUp(s, a, have);
      AllSent(s, t, if !s.p.log[i].committed && s.p.log[i].votes + 1 >= Majority(|Members(s)|)
                    then Some(Down.Commit(i, s.p.log[i].value)) else None)
  {
    hide HearAccept, Majority;
    var i, u := s.peers[a].up[0].inum, Taken(s, a);
    assert Members(u) == Members(s);
    hide Members;
    AcceptSent(u, i, have);
    assert HearUp(s, a, have) == HearAccept(u, i, have);
    SentFrom(s, u, HearAccept(u, i, have));
  }

  lemma AcceptSent(s: State, i: nat, have: bool)
    requires IsProposer(s.p) && i in s.p.log && (s.p.log[i].committed || s.p.ihole <= i)
    ensures AllSent(s, HearAccept(s, i, have),
              if !s.p.log[i].committed && s.p.log[i].votes + 1 >= Majority(|Members(s)|)
              then Some(Down.Commit(i, s.p.log[i].value)) else None)
  {
    hide AckAccept, Majority, Members;
    AcceptAnswered(s.p, i, have, Members(s));
    var m := AckAccept(s.p, s.p.ballot, i, have, Members(s)).node;
    assert i in m.log && m.log[i].value == s.p.log[i].value;
    assert CommittedIn(m.log, i) <==> m.log[i].committed;
  }

  lemma SentFrom(s: State, u: State, t: State)
    requires u.peers.Keys == s.peers.Keys && forall c :: c in s.peers ==> u.peers[c].down == s.peers[c].down
    ensures forall m :: AllSent(u, t, m) ==> AllSent(s, t, m)
  {
  }

  /** A retry makes it tell everyone the value again exactly if it has committed it. */
  lemma RetryAnswered(s: State, a: NodeId, have: bool)
    requires s.p.ihole > 0 && a in s.peers && s.peers[a].up != [] && s.peers[a].up[0].Retry?
    requires s.peers[a].up[0].inum in s.p.log
    ensures var u, t := s.peers[a].up[0], HearUp(s, a, have);
      t.p == s.p && AllSent(s, t, if s.p.log[u.inum].committed then Some(Recommit(u.ballot, u.inum, s.p.log[u.inum].value)) else None)
  {
  }

  /** A proposal goes to everyone under the next number. */
  lemma ProposalSent(s: State, v: Value, have: bool)
    ensures AllSent(s, ProposeNext(s, v, have), Some(Down.Decree(NextInstance(s.p.log), v)))
  {
    hide NewDecree, NextInstance;
  }

  /** Asked for the part of someone in its ballot, an acceptor votes if and only
      if it lists that acceptor, is not connected to it, and has not committed
      another value or voted in a higher ballot.  Connected, it takes the
      decree without a vote or any other effect. */
  lemma PartAnswered(q: Peer, b: Ballot, have: bool)
    requires q.down != [] && q.node.ihole > 0 && Judges(q, b)
    ensures var r, id := TakeDown(q, b, have), q.down[0].value.extra;
      && (id in q.listed && q.listed[id] ==> r == q.(down := q.down[1..]))
      && (id in q.listed && !q.listed[id] && IsFree(q.node.log, q.down[0].inum, b) ==>
            r.up == q.up + [Up.Accept(q.down[0].inum)] && r.listed == q.listed && r.node.alive == q.node.alive)
      && (id !in q.listed ==> r.up == q.up && !r.node.alive && r.node.log == q.node.log)
  {
    DecreeTeachesNothing(q, b, have);
    var n, m := q.node, Handled(q, b, have).node;
    assert Learned(n, m) == [];
    assert ListAfter(q.listed, [], n.ihole) == q.listed;
    hide FateAfter;
  }

  /** Whom an acceptor lists after a message: whom it listed or has just learned
      to have joined, unless it has learned of their part since. */
  lemma ListAnswered(q: Peer, b: Ballot, have: bool, id: NodeId)
    requires q.down != [] && q.node.ihole > 0 && !Judges(q, b)
    ensures var vs := Learned(q.node, Handled(q, b, have).node);
      id in TakeDown(q, b, have).listed <==>
        (id in q.listed && NeverRemoved(vs, 0, id)) || exists k: nat :: ListedSince(vs, q.node.ihole, id, k)
  {
    hide Handled, FateOn, ListAfter, Learned;
    ListedAfter(q.listed, Learned(q.node, Handled(q, b, have).node), q.node.ihole, id);
  }
}
