/** Every step of synchronization keeps the invariant, and none fails an assertion. */
module SyncPreservation {
  import opened Types
  import opened Quorums
  import opened Node
  import opened InstanceList
  import opened Loops
  import opened Soundness
  import opened Listing
  import opened SyncModel
  import opened SyncInvariant

  // ---- What the handlers do to a log and its hole.

  /** `m` follows `n`: the hole only moves up, and the same values are kept;
      `i`, if anything, is newly committed. */
  ghost predicate Follows(n: Node, m: Node, ibase: nat, i: nat) {
    && HoleOK(m.log, ibase, m.ihole) && n.ihole <= m.ihole
    && m.id == n.id && m.proposer == n.proposer && m.alive == n.alive
    && (forall j :: CommittedIn(m.log, j) ==> CommittedIn(n.log, j) || j == i)
    && (forall j :: CommittedIn(n.log, j) ==> CommittedIn(m.log, j) && m.log[j].value == n.log[j].value)
  }

  lemma CommitFollows(n: Node, i: nat, have: bool, ibase: nat)
    requires HoleOK(n.log, ibase, n.ihole) && i in n.log && !Ready(n.log, i)
    ensures var m := CommitInstance(n, i, have).node;
      && Follows(n, m, ibase, i)
      && m.log.Keys == n.log.Keys && CommittedIn(m.log, i) && m.ballot == n.ballot && m.prep == n.prep
      && (forall j :: j in n.log ==> m.log[j].value == n.log[j].value)
      && (n.ihole < i ==> m.ihole == n.ihole)
    ensures n.ihole <= i
  {
    hide HoleOK, CommitInstance;
    CommitMovesHole(n, i, have, ibase);
    CommitChanges(n, i, have);
  }

  lemma CommitMovesHole(n: Node, i: nat, have: bool, ibase: nat)
    requires HoleOK(n.log, ibase, n.ihole) && i in n.log && !Ready(n.log, i)
    ensures var m := CommitInstance(n, i, have).node; HoleOK(m.log, ibase, m.ihole) && n.ihole <= m.ihole
    ensures n.ihole <= i
  {
    assert i < n.ihole ==> Ready(n.log, i);
    assert !Ready(n.log, n.ihole);
    var m := CommitInstance(n, i, have).node;
    var x := n.(log := n.log[i := n.log[i].(committed := true, cached := true)]);
    forall j | ibase <= j < n.ihole ensures Ready(m.log, j) && Ready(x.log, j) { assert Ready(n.log, j); }
    if i == n.ihole && (NeedsCached(n.log[i].value.kind) ==> have) { RunReachesHole(x, ibase); }
  }

  lemma CommitChanges(n: Node, i: nat, have: bool)
    requires i in n.log && n.ihole <= i
    ensures var m := CommitInstance(n, i, have).node;
      && m.id == n.id && m.proposer == n.proposer && m.alive == n.alive
      && m.log.Keys == n.log.Keys && m.ballot == n.ballot && m.prep == n.prep
      && (forall j :: j in n.log ==> m.log[j].value == n.log[j].value)
      && (forall j :: CommittedIn(m.log, j) <==> CommittedIn(n.log, j) || j == i)
      && (n.ihole < i ==> m.ihole == n.ihole)
  {
  }

  lemma RunReachesHole(n: Node, ibase: nat)
    requires ibase in n.log && 0 < ibase < n.ihole && forall i :: i in n.log ==> ibase <= i
    requires forall i :: ibase <= i < n.ihole ==> Ready(n.log, i)
    requires forall i :: i in n.log ==> (n.log[i].learned <==> i < n.ihole) && (n.log[i].cached ==> n.log[i].committed)
    ensures var m := LearnRun(n); HoleOK(m.log, ibase, m.ihole) && n.ihole <= m.ihole
  {
    var m := LearnRun(n);
    forall j | ibase <= j < m.ihole ensures Ready(m.log, j) { assert Ready(n.log, j); }
    assert !Ready(n.log, m.ihole);
  }

  lemma WriteFollows(n: Node, i: nat, e: Entry, ibase: nat)
    requires HoleOK(n.log, ibase, n.ihole) && ibase <= i && !CommittedIn(n.log, i)
    requires !e.committed && !e.learned && !e.cached
    ensures Follows(n, n.(log := n.log[i := e]), ibase, i)
    ensures forall j :: CommittedIn(n.log[i := e], j) <==> CommittedIn(n.log, j)
    ensures n.ihole <= i
  {
    assert i < n.ihole ==> Ready(n.log, i);
    var m := n.log[i := e];
    forall j | ibase <= j < n.ihole ensures Ready(m, j) { assert Ready(n.log, j); }
  }

  lemma UncommittedOpen(n: Node, i: nat, ibase: nat)
    requires HoleOK(n.log, ibase, n.ihole) && i in n.log && !CommittedIn(n.log, i)
    ensures !n.log[i].learned && !n.log[i].cached
  {
    assert i < n.ihole ==> Ready(n.log, i);
  }

  lemma CommittedBelow(log: Log, ibase: nat, ihole: nat, i: nat)
    requires HoleOK(log, ibase, ihole) && ibase <= i < ihole
    ensures CommittedIn(log, i)
  {
    assert Ready(log, i);
  }

  // ---- Acceptors.

  lemma StaysInView(w: View, n: Node, m: Node, ibase: nat, i: nat)
    requires LogAgrees(w, n.log) && Follows(n, m, ibase, i)
    requires CommittedIn(m.log, i) && !CommittedIn(n.log, i) ==> Decided(w, i, m.log[i].value)
    ensures LogAgrees(w, m.log)
  {
    hide HoleOK, Decided;
    forall j | CommittedIn(m.log, j) ensures Decided(w, j, m.log[j].value) {
      assert j == i || CommittedIn(n.log, j);
      assert CommittedIn(n.log, j) ==> m.log[j].value == n.log[j].value;
    }
  }

  /** A decree of our ballot, or of any other, is never fatal, and is answered only with an accept. */
  lemma DecreeFollows(w: View, n: Node, ibase: nat, i: nat, v: Value)
    requires HoleOK(n.log, ibase, n.ihole) && !IsProposer(n) && n.proposer == w.ballot.id && LogAgrees(w, n.log)
    requires ibase < i && Decided(w, i, v)
    ensures var m := AckDecree(n, w.ballot, i, v).node;
      Follows(n, m, ibase, i) && forall j :: CommittedIn(m.log, j) <==> CommittedIn(n.log, j)
  {
    hide HoleOK;
    if w.ballot == n.ballot && !CommittedIn(n.log, i) {
      if i in n.log {
        UncommittedOpen(n, i, ibase);
        WriteFollows(n, i, n.log[i].(ballot := w.ballot, value := v), ibase);
      } else {
        WriteFollows(n, i, Entry(w.ballot, v, false, false, false, 0), ibase);
      }
    }
  }

  /** A commit above our base is never fatal. */
  lemma CommitOrRecommitFollows(w: View, n: Node, ibase: nat, i: nat, v: Value, e: Entry, have: bool)
    requires HoleOK(n.log, ibase, n.ihole) && ibase < i && !CommittedIn(n.log, i)
    requires LogAgrees(w, n.log) && Decided(w, i, v) && e.value == v && !e.committed && !e.cached && !e.learned
    ensures var m := CommitInstance(n.(log := n.log[i := e]), i, have).node;
      Follows(n, m, ibase, i) && LogAgrees(w, m.log) && (n.ihole < i ==> m.ihole == n.ihole)
  {
    var x := n.(log := n.log[i := e]);
    WriteFollows(n, i, e, ibase);
    CommitFollows(x, i, have, ibase);
    var m := CommitInstance(x, i, have).node;
    hide HoleOK, CommitInstance, Decided, LogAgrees;
    assert Follows(n, m, ibase, i);
    StaysInView(w, n, m, ibase, i);
  }

  lemma AckCommitFollows(w: View, n: Node, ibase: nat, c: Ballot, i: nat, v: Value, have: bool)
    requires HoleOK(n.log, ibase, n.ihole) && ibase < i && !IsProposer(n)
    requires LogAgrees(w, n.log) && Decided(w, i, v)
    ensures var m := AckCommit(n, c, i, v, have).node;
      Follows(n, m, ibase, i) && LogAgrees(w, m.log) && (n.ihole < i ==> m.ihole == n.ihole)
    ensures var m := AckRecommit(n, c, i, v, have).node;
      Follows(n, m, ibase, i) && LogAgrees(w, m.log) && (n.ihole < i ==> m.ihole == n.ihole)
  {
    hide HoleOK, LogAgrees, CommitInstance, Follows;
    if CommittedIn(n.log, i) {
      NoMove(n, ibase, i);
    } else {
      if i in n.log {
        UncommittedOpen(n, i, ibase);
        CommitOrRecommitFollows(w, n, ibase, i, v, n.log[i].(value := v), have);
        CommitOrRecommitFollows(w, n, ibase, i, v, n.log[i].(ballot := c, value := v), have);
      } else {
        CommitOrRecommitFollows(w, n, ibase, i, v, Entry(c, v, false, false, false, 0), have);
      }
    }
  }

  lemma NoMove(n: Node, ibase: nat, i: nat)
    requires HoleOK(n.log, ibase, n.ihole)
    ensures Follows(n, n, ibase, i)
  {
  }

  lemma TruncatedHole(log: Log, ibase: nat, ihole: nat, base: nat)
    requires HoleOK(log, ibase, ihole) && ibase <= base < ihole
    ensures HoleOK(From(log, base), base, ihole)
    ensures forall i :: CommittedIn(From(log, base), i) ==> CommittedIn(log, i)
  {
    assert Ready(log, base);
    forall i | base <= i < ihole ensures Ready(From(log, base), i) { assert Ready(log, i); }
    assert !Ready(log, ihole);
  }

  /** The hole is past everything released, and what follows it is known to the proposer. */
  lemma RetryFits(w: View, q: Peer, i: nat, m: Node)
    requires PeerOK(w, q) && Asks(q.node, i, m) && m.ihole == q.node.ihole && LogAgrees(w, m.log)
    ensures UpAt(w, m.ihole, q.seen, q.got, Retry(m.ballot, m.ihole))
    ensures forall k :: 0 <= k < |q.up| ==> UpAfter(q.up[k], Retry(m.ballot, m.ihole))
  {
    hide HoleOK, DownsOK;
    assert CommittedIn(m.log, i);
    forall k | 0 <= k < |q.up| ensures UpAfter(q.up[k], Retry(m.ballot, m.ihole)) {
      assert UpAt(w, q.node.ihole, q.seen, q.got, q.up[k]);
    }
  }

  /** Committing, with a retry if the hole keeps the commit from being learned. */
  lemma CommittedOK(w: View, q: Peer, r: Peer, i: nat, m: Node)
    requires PeerOK(w, q) && PeerOK(w, r.(node := m)) && r.node == q.node && r.up == q.up && r.seen == q.seen && r.got == q.got
    requires (q.node.ihole < i ==> m.ihole == q.node.ihole)
    ensures PeerOK(w, Committed(r, i, m))
  {
    if Asks(q.node, i, m) {
      RetryFits(w, q, i, m);
      hide PeerOK;
      AppendUp(w, r.(node := m), Retry(m.ballot, m.ihole));
    }
  }

  lemma MovesOn(w: View, q: Peer, m: Node, i: nat)
    requires PeerOK(w, q) && q.down != [] && !q.down[0].Truncate?
    requires Follows(q.node, m, q.ibase, i) && LogAgrees(w, m.log)
    requires Commits(q.down[0], i) || forall j :: CommittedIn(m.log, j) ==> CommittedIn(q.node.log, j)
    ensures PeerOK(w, q.(down := q.down[1..], node := m))
  {
    hide HoleOK, LogAgrees, UpsOK, DownsOK, ChannelsCross;
    assert Moves(w, q, m, q.ibase);
    TakenOK(w, q, m, q.ibase);
    assert q.(down := q.down[1..], node := m) == q.(down := q.down[1..], node := m, ibase := q.ibase);
  }

  lemma HeadAt(w: View, q: Peer)
    requires PeerOK(w, q) && q.down != []
    ensures DownAt(w, q.ibase, q.seen, q.got, q.down[0])
    ensures forall k :: 0 <= k < |q.up| ==> Across(q.up[k], q.down[0])
    ensures forall k :: 0 < k < |q.down| ==> DownAfter(q.node.log, q.down[0], q.down[k])
  {
  }

  lemma TakeDecreeOK(w: View, q: Peer, have: bool)
    requires PeerOK(w, q) && q.down != [] && q.node.ihole > 0 && q.down[0].Decree?
    ensures PeerOK(w, Handled(q, w.ballot, have)) && Handled(q, w.ballot, have).node.alive == q.node.alive
  {
    HeadAt(w, q);
    var i, v := q.down[0].inum, q.down[0].value;
    var o := AckDecree(q.node, w.ballot, i, v);
    DecreeFollows(w, q.node, q.ibase, i, v);
    StaysInView(w, q.node, o.node, q.ibase, i);
    MovesOn(w, q, o.node, i);
    if o.sent != {} {
      hide PeerOK;
      AppendUp(w, q.(down := q.down[1..], node := o.node), Up.Accept(i));
    }
  }

  lemma TakeCommitOK(w: View, q: Peer, have: bool)
    requires PeerOK(w, q) && q.down != [] && q.node.ihole > 0 && (q.down[0].Commit? || q.down[0].Recommit?)
    ensures PeerOK(w, Handled(q, w.ballot, have)) && Handled(q, w.ballot, have).node.alive == q.node.alive
  {
    HeadAt(w, q);
    var i, v := q.down[0].inum, q.down[0].value;
    var m := if q.down[0].Commit? then AckCommit(q.node, w.ballot, i, v, have).node
             else AckRecommit(q.node, q.down[0].ballot, i, v, have).node;
    AckCommitFollows(w, q.node, q.ibase, if q.down[0].Commit? then w.ballot else q.down[0].ballot, i, v, have);
    hide AckCommit, AckRecommit;
    assert Commits(q.down[0], i);
    MovesOn(w, q, m, i);
    hide PeerOK, Asks;
    CommittedOK(w, q, q.(down := q.down[1..]), i, m);
  }

  lemma TakeSyncOK(w: View, q: Peer, have: bool)
    requires PeerOK(w, q) && q.down != [] && q.node.ihole > 0 && q.down[0].Sync?
    ensures PeerOK(w, Handled(q, w.ballot, have)) && Handled(q, w.ballot, have).node.alive == q.node.alive
  {
    HeadAt(w, q);
    NoMove(q.node, q.ibase, 0);
    MovesOn(w, q, q.node, 0);
    var r := q.(down := q.down[1..]);
    assert r == q.(down := q.down[1..], node := q.node);
    var u := LastLearn(q.down[0].id, q.node.ihole - 1);
    forall k | 0 <= k < |r.down| ensures Across(u, r.down[k]) {
      assert r.down[k] == q.down[k + 1];
      assert DownAt(w, q.ibase, q.seen, q.got, q.down[k + 1]);
      if r.down[k].Decree? && r.down[k].inum < q.node.ihole {
        CommittedBelow(q.node.log, q.ibase, q.node.ihole, r.down[k].inum);
      }
    }
    forall k | 0 <= k < |r.up| ensures UpAfter(r.up[k], u) {
      assert UpAt(w, q.node.ihole, q.seen, q.got, q.up[k]);
    }
    hide PeerOK;
    if q.node.ballot == w.ballot { AppendUp(w, r, u); }
  }

  lemma TakeTruncateOK(w: View, q: Peer, have: bool)
    requires PeerOK(w, q) && q.down != [] && q.node.ihole > 0 && q.down[0].Truncate?
    ensures PeerOK(w, Handled(q, w.ballot, have)) && Handled(q, w.ballot, have).node.alive == q.node.alive
  {
    HeadAt(w, q);
    var n, base := q.node, q.down[0].base;
    TruncatedHole(n.log, q.ibase, n.ihole, base);
    var m := n.(log := From(n.log, base));
    assert LogAgrees(w, m.log);
    hide HoleOK, LogAgrees, UpsOK, DownsOK, ChannelsCross;
    TakenOK(w, q, m, base);
  }

  lemma PrepareFollows(w: View, q: Peer, start: nat)
    requires PeerOK(w, q)
    ensures var m := AckPrepare(q.node, w.ballot, start).node;
      Follows(q.node, m, q.ibase, 0) && m.log == q.node.log
  {
    hide UpsOK, DownsOK, ChannelsCross, Report;
  }

  /** On log and channels alone, no message is fatal to an acceptor. */
  lemma HandledOK(w: View, q: Peer, have: bool)
    requires PeerOK(w, q) && q.down != [] && q.node.ihole > 0
    ensures PeerOK(w, Handled(q, w.ballot, have)) && Handled(q, w.ballot, have).node.alive == q.node.alive
  {
    match q.down[0]
    case Prepare(start) =>
      PrepareFollows(w, q, start);
      var m := AckPrepare(q.node, w.ballot, start).node;
      hide AckPrepare;
      assert LogAgrees(w, m.log);
      hide HoleOK, LogAgrees, UpsOK, DownsOK, ChannelsCross;
      MovesOn(w, q, m, 0);
      assert m.alive == q.node.alive;
    case Decree(_, _) => TakeDecreeOK(w, q, have);
    case Commit(_, _) => TakeCommitOK(w, q, have);
    case Recommit(_, _, _) => TakeCommitOK(w, q, have);
    case Sync(_) => TakeSyncOK(w, q, have);
    case Truncate(_) => TakeTruncateOK(w, q, have);
  }

  lemma DroppedOK(w: View, q: Peer)
    requires PeerOK(w, q) && q.down != [] && !q.down[0].Truncate?
    ensures PeerOK(w, q.(down := q.down[1..]))
  {
    NoMove(q.node, q.ibase, 0);
    MovesOn(w, q, q.node, 0);
    assert q.(down := q.down[1..]) == q.(down := q.down[1..], node := q.node);
  }

  /** The decree of somebody's part in our ballot, when we do not list that acceptor. */
  predicate MissesAcceptor(q: Peer, b: Ballot)
    requires q.down != []
  {
    Judges(q, b) && q.down[0].value.extra !in q.listed
  }

  /** What the values that an acceptor learns in taking a message do to it. */
  function TakenFate(q: Peer, b: Ballot, have: bool): Fate
    requires q.down != [] && q.node.ihole > 0
  {
    FateOn(q.listed, q.node, Handled(q, b, have).node)
  }

  lemma DecreeTeachesNothing(q: Peer, b: Ballot, have: bool)
    requires q.down != [] && q.node.ihole > 0 && q.down[0].Decree?
    ensures TakenFate(q, b, have) == Stays
  {
    assert Learned(q.node, Handled(q, b, have).node) == [];
  }

  /** An acceptor survives a message exactly if it can find the acceptor whose
      part it is asked to vote for, and survives what it learns. */
  lemma TakeOK(w: View, q: Peer, have: bool)
    requires PeerOK(w, q) && q.down != [] && q.node.ihole > 0 && q.node.alive
    ensures var r := TakeDown(q, w.ballot, have);
      && PeerOK(w, r)
      && (r.node.alive <==> !MissesAcceptor(q, w.ballot) && TakenFate(q, w.ballot, have) == Stays)
      && (r.failed <==> q.failed || MissesAcceptor(q, w.ballot) || TakenFate(q, w.ballot, have) == Fails)
  {
    hide PeerOK, Handled, FateAfter, ListAfter, Learned;
    HandledOK(w, q, have);
    HandledFrame(q, w.ballot, have);
    ListedElsewhere(w, Handled(q, w.ballot, have), Heeds(q, Handled(q, w.ballot, have)));
    if Judges(q, w.ballot) {
      DecreeTeachesNothing(q, w.ballot, have);
      DroppedOK(w, q);
      ListedElsewhere(w, q.(down := q.down[1..]), q.(down := q.down[1..], node := q.node.(alive := false), failed := true));
    }
  }

  lemma HandledFrame(q: Peer, b: Ballot, have: bool)
    requires q.down != [] && q.node.ihole > 0
    ensures var r := Handled(q, b, have);
      r.listed == q.listed && r.failed == q.failed && r.seen == q.seen && r.got == q.got
  {
    hide AckPrepare, AckDecree, AckCommit, AckRecommit, From;
  }

  // ---- Data that arrives late.

  lemma ResendFollows(n: Node, ibase: nat, i: nat)
    requires HoleOK(n.log, ibase, n.ihole) && CommittedIn(n.log, i)
    ensures var m := AckResend(n, i).node;
      && Follows(n, m, ibase, i) && m.log.Keys == n.log.Keys && m.ballot == n.ballot && m.prep == n.prep
      && (forall j :: j in n.log ==> m.log[j].value == n.log[j].value)
      && (n.ihole < i ==> m.ihole == n.ihole)
      && forall j :: CommittedIn(m.log, j) ==> CommittedIn(n.log, j)
  {
    if n.log[i].cached {
      NoMove(n, ibase, i);
    } else {
      CommitFollows(n, i, true, ibase);
      hide HoleOK, CommitInstance;
    }
  }

  /** A participant learns more without taking a message. */
  lemma LearnsMore(w: View, q: Peer, m: Node)
    requires PeerOK(w, q) && HoleOK(m.log, q.ibase, m.ihole) && q.node.ihole <= m.ihole && LogAgrees(w, m.log)
    requires m.id == q.node.id && m.proposer == q.node.proposer
    requires forall j :: CommittedIn(m.log, j) ==> CommittedIn(q.node.log, j)
    ensures PeerOK(w, q.(node := m))
  {
    hide HoleOK, LogAgrees, Across, UpAfter, Decided;
  }

  lemma PeerResendOK(w: View, q: Peer, i: nat)
    requires PeerOK(w, q) && CommittedIn(q.node.log, i) && q.node.alive
    ensures var r := Heeds(q, Committed(q, i, AckResend(q.node, i).node));
      var fate := FateOn(q.listed, q.node, AckResend(q.node, i).node);
      && PeerOK(w, r) && r.seen == q.seen && r.got == q.got
      && (r.node.alive <==> fate == Stays) && (r.failed <==> q.failed || fate == Fails)
  {
    hide PeerOK, AckResend, Asks, FateAfter, ListAfter, Learned;
    ResentOK(w, q, i);
    var r := Committed(q, i, AckResend(q.node, i).node);
    ListedElsewhere(w, r, Heeds(q, r));
  }

  lemma ResentOK(w: View, q: Peer, i: nat)
    requires PeerOK(w, q) && CommittedIn(q.node.log, i)
    ensures var m := AckResend(q.node, i).node;
      PeerOK(w, Committed(q, i, m)) && m.alive == q.node.alive
  {
    ResendFollows(q.node, q.ibase, i);
    var m := AckResend(q.node, i).node;
    hide AckResend;
    StaysInView(w, q.node, m, q.ibase, i);
    LearnsMore(w, q, m);
    hide PeerOK, Asks;
    CommittedOK(w, q, q, i, m);
  }
}
