/** Learning in order: what is learned is available, and the final learn log
    does not depend on the order in which commits arrive. */
module Learning {
  import opened Types
  import opened Node
  import opened Soundness

  /** When the instance at the hole is committed with its data at hand, every
      value the learning loop then reaches is unlearned and has its data cached. */
  lemma LearnedIsAvailable(n: Node, ibase: nat, rcache: set<ReqId>, first: nat, i: nat)
    requires Sound(n, ibase, rcache, first) && n.ihole in n.log
    requires NeedsCached(n.log[n.ihole].value.kind) ==> n.log[n.ihole].value.req in rcache
    requires var log := n.log[n.ihole := n.log[n.ihole].(committed := true, cached := true)];
      n.ihole <= i < HoleAfter(log, n.ihole)
    ensures i in n.log && !n.log[i].learned
    ensures NeedsCached(n.log[i].value.kind) ==> n.log[i].value.req in rcache
  {
    var log := n.log[n.ihole := n.log[n.ihole].(committed := true, cached := true)];
    assert Ready(log, i);
  }

  /** After any handler that keeps the invariant, the hole is the least number
      from the base on that is not both committed and cached. */
  lemma HoleIsLeast(n: Node, ibase: nat, rcache: set<ReqId>, first: nat, h: nat)
    requires Sound(n, ibase, rcache, first)
    requires ibase <= h && !Ready(n.log, h) && forall i :: ibase <= i < h ==> Ready(n.log, i)
    ensures h == n.ihole
  {
    assert h < n.ihole ==> Ready(n.log, h);
    assert n.ihole < h ==> Ready(n.log, n.ihole);
  }

  // ---- The order of commits.

  datatype Choice = Choice(inum: nat, value: Value)

  /** An acceptor after the given commits, in the order they arrive. */
  function CommitAll(n: Node, b: Ballot, cs: seq<Choice>, rcache: set<ReqId>): Node {
    if cs == [] then n
    else
      var c := cs[|cs| - 1];
      AckCommit(CommitAll(n, b, cs[..|cs| - 1], rcache), b, c.inum, c.value, c.value.req in rcache).node
  }

  /** `cs` names the value of no instance twice differently. */
  predicate Consistent(cs: seq<Choice>) {
    forall c, d :: c in cs && d in cs && c.inum == d.inum ==> c == d
  }

  ghost predicate Names(cs: seq<Choice>, i: nat) {
    exists c :: c in cs && c.inum == i
  }

  /** How the participant `m` stands once the commits `cs` have reached `n`, in whatever order. */
  ghost predicate Settled(n: Node, cs: seq<Choice>, m: Node) {
    && n.learns <= m.learns
    && (forall i :: CommittedIn(n.log, i) ==> CommittedIn(m.log, i) && m.log[i].value == n.log[i].value)
    && (forall i :: CommittedIn(m.log, i) <==> CommittedIn(n.log, i) || Names(cs, i))
    && (forall i :: Ready(m.log, i) <==> Ready(n.log, i) || (!CommittedIn(n.log, i) && Names(cs, i)))
    && (forall c :: c in cs && !CommittedIn(n.log, c.inum) ==> m.log[c.inum].value == c.value)
  }

  function Written(n: Node, b: Ballot, c: Choice): Node {
    var e := if c.inum in n.log then n.log[c.inum].(value := c.value) else Entry(b, c.value, false, false, false, 0);
    n.(log := n.log[c.inum := e])
  }

  lemma AckCommitSound(n: Node, b: Ballot, c: Choice, ibase: nat, rcache: set<ReqId>, first: nat)
    requires Sound(n, ibase, rcache, first) && ibase <= c.inum && c.value.req in rcache && !CommittedIn(n.log, c.inum)
    ensures var w := Written(n, b, c);
      && Sound(CommitInstance(w, c.inum, true).node, ibase, rcache, first)
      && n.ihole <= c.inum
  {
    hide Sound, CommitInstance;
    var i := c.inum;
    if i in n.log { UncachedOpen(n, i, ibase, rcache, first); }
    var w := Written(n, b, c);
    WriteSound(n, i, w.log[i], ibase, rcache, first);
    CommitSound(w, i, ibase, rcache, first);
  }

  /** Only the one choice has been committed in going from `n` to `m`. */
  ghost predicate CommitsOne(n: Node, c: Choice, m: Node) {
    && n.learns <= m.learns && m.log.Keys == n.log.Keys + {c.inum} && m.log[c.inum].value == c.value
    && (forall j :: j in n.log && j != c.inum ==> m.log[j].value == n.log[j].value)
    && (forall j :: CommittedIn(m.log, j) <==> CommittedIn(n.log, j) || j == c.inum)
    && (forall j :: Ready(m.log, j) <==> Ready(n.log, j) || j == c.inum)
  }

  lemma OneChoice(n: Node, c: Choice, m: Node)
    requires !CommittedIn(n.log, c.inum) && CommitsOne(n, c, m)
    ensures Settled(n, [c], m)
  {
    assert c in [c];
    assert forall j :: Names([c], j) <==> j == c.inum;
  }

  lemma WrittenIs(n: Node, b: Ballot, c: Choice)
    requires !CommittedIn(n.log, c.inum)
    ensures var w := Written(n, b, c);
      && w.ihole == n.ihole && w.learns == n.learns && w.log.Keys == n.log.Keys + {c.inum} && w.log[c.inum].value == c.value
      && (forall j :: j in n.log && j != c.inum ==> w.log[j] == n.log[j])
      && (forall j :: CommittedIn(w.log, j) <==> CommittedIn(n.log, j))
      && (forall j :: Ready(w.log, j) <==> Ready(n.log, j))
  {
  }

  lemma AckCommitSettles(n: Node, b: Ballot, c: Choice)
    requires n.ihole <= c.inum && !CommittedIn(n.log, c.inum)
    ensures Settled(n, [c], CommitInstance(Written(n, b, c), c.inum, true).node)
  {
    hide CommitInstance, Settled, Written, CommittedIn, Ready;
    WrittenIs(n, b, c);
    CommitEffect(Written(n, b, c), c.inum);
    OneChoice(n, c, CommitInstance(Written(n, b, c), c.inum, true).node);
  }

  lemma NothingNew(n: Node, c: Choice)
    requires CommittedIn(n.log, c.inum)
    ensures Settled(n, [c], n)
  {
    assert forall j :: Names([c], j) <==> j == c.inum;
  }

  /** One commit whose data is cached. */
  lemma CommitSettles(n: Node, b: Ballot, c: Choice, ibase: nat, rcache: set<ReqId>, first: nat)
    requires Sound(n, ibase, rcache, first) && !IsProposer(n) && ibase <= c.inum && c.value.req in rcache
    ensures var m := AckCommit(n, b, c.inum, c.value, true).node;
      Sound(m, ibase, rcache, first) && m.proposer == n.proposer && m.id == n.id && Settled(n, [c], m)
  {
    hide Sound, CommitInstance, Settled;
    if CommittedIn(n.log, c.inum) {
      NothingNew(n, c);
    } else {
      AckCommitSound(n, b, c, ibase, rcache, first);
      AckCommitSettles(n, b, c);
      CommitEffect(Written(n, b, c), c.inum);
    }
  }

  lemma CommitEffect(n: Node, i: nat)
    requires i in n.log && n.ihole <= i
    ensures var m := CommitInstance(n, i, true).node;
      && m.proposer == n.proposer && m.id == n.id && n.learns <= m.learns && m.log.Keys == n.log.Keys
      && (forall j :: j in n.log ==> m.log[j].value == n.log[j].value)
      && (forall j :: CommittedIn(m.log, j) <==> CommittedIn(n.log, j) || j == i)
      && (forall j :: Ready(m.log, j) <==> Ready(n.log, j) || j == i)
  {
  }

  lemma SettledNext(n: Node, cs: seq<Choice>, m: Node, c: Choice, m': Node)
    requires Settled(n, cs, m) && Settled(m, [c], m') && Consistent(cs + [c])
    ensures Settled(n, cs + [c], m')
  {
    assert forall d :: d in cs + [c] <==> d in cs || d == c;
    forall i ensures Names(cs + [c], i) <==> Names(cs, i) || i == c.inum {
      if Names(cs, i) { var d :| d in cs && d.inum == i; assert d in cs + [c]; }
      if i == c.inum { assert c in cs + [c]; }
    }
    assert c in [c];
    assert forall i :: Names([c], i) <==> i == c.inum;
    if Names(cs, c.inum) {
      var d :| d in cs && d.inum == c.inum;
      assert d in cs + [c];
    }
    forall d | d in cs + [c] && !CommittedIn(n.log, d.inum) ensures m'.log[d.inum].value == d.value {
      if d in cs { assert Names(cs, d.inum); }
    }
  }

  lemma {:induction false} CommitsSettle(n: Node, b: Ballot, cs: seq<Choice>, ibase: nat, rcache: set<ReqId>, first: nat)
    requires Sound(n, ibase, rcache, first) && !IsProposer(n) && Consistent(cs)
    requires forall c :: c in cs ==> ibase <= c.inum && c.value.req in rcache
    ensures var m := CommitAll(n, b, cs, rcache);
      Sound(m, ibase, rcache, first) && m.proposer == n.proposer && m.id == n.id && Settled(n, cs, m)
  {
    hide Sound, Settled, AckCommit;
    if cs == [] {
      SettledNone(n);
    } else {
      var k := |cs| - 1;
      assert cs[..k] + [cs[k]] == cs;
      assert Consistent(cs[..k]);
      CommitsSettle(n, b, cs[..k], ibase, rcache, first);
      var m := CommitAll(n, b, cs[..k], rcache);
      CommitSettles(m, b, cs[k], ibase, rcache, first);
      SettledNext(n, cs[..k], m, cs[k], CommitAll(n, b, cs, rcache));
    }
  }

  lemma SettledNone(n: Node)
    ensures Settled(n, [], n)
  {
  }

  /** The same instances are ready in both logs, with the same values. */
  ghost predicate Alike(x: Log, y: Log) {
    && (forall i :: Ready(x, i) <==> Ready(y, i))
    && (forall i :: Ready(x, i) && i in y ==> x[i].value == y[i].value)
  }

  lemma SettledAlike(n: Node, cs: seq<Choice>, ds: seq<Choice>, x: Node, y: Node)
    requires Settled(n, cs, x) && Settled(n, ds, y) && forall c :: c in cs <==> c in ds
    ensures Alike(x.log, y.log)
  {
    forall i ensures Names(cs, i) <==> Names(ds, i) {
      if Names(cs, i) { var c :| c in cs && c.inum == i; assert c in ds; }
      if Names(ds, i) { var c :| c in ds && c.inum == i; assert c in cs; }
    }
    forall i | Ready(x.log, i) && i in y.log ensures x.log[i].value == y.log[i].value {
      assert CommittedIn(x.log, i);
      if !CommittedIn(n.log, i) { var c :| c in cs && c.inum == i; }
    }
  }

  lemma LearnLogsAlike(n: Node, x: Node, y: Node, ibase: nat, rcache: set<ReqId>, first: nat)
    requires Sound(n, ibase, rcache, first) && Sound(x, ibase, rcache, first) && Sound(y, ibase, rcache, first)
    requires n.learns <= x.learns && n.learns <= y.learns
    requires Alike(x.log, y.log)
    ensures x.ihole == y.ihole && x.learns == y.learns
  {
    assert x.ihole == y.ihole by {
      forall i | ibase <= i < x.ihole ensures Ready(y.log, i) { assert Ready(x.log, i); }
      HoleIsLeast(y, ibase, rcache, first, x.ihole);
    }
    forall k: nat | k < |x.learns| ensures x.learns[k] == y.learns[k] {
      var i := k + first;
      if ibase <= i {
        assert Ready(x.log, i) && Ready(y.log, i);
        assert x.learns[i - first] == x.log[i].value && y.learns[i - first] == y.log[i].value;
      } else {
        assert x.learns[k] == n.learns[k] == y.learns[k];
      }
    }
  }

  /** With all requests already cached, a participant ends with the same learn
      log whatever the order, or repetition, in which the same commits reach it. */
  lemma CommitOrderIrrelevant(n: Node, b: Ballot, cs: seq<Choice>, ds: seq<Choice>,
                              ibase: nat, rcache: set<ReqId>, first: nat)
    requires Sound(n, ibase, rcache, first) && !IsProposer(n) && Consistent(cs)
    requires forall c :: c in cs ==> ibase <= c.inum && c.value.req in rcache
    requires forall c :: c in cs <==> c in ds
    ensures var x, y := CommitAll(n, b, cs, rcache), CommitAll(n, b, ds, rcache);
      x.learns == y.learns && x.ihole == y.ihole
  {
    assert Consistent(ds);
    CommitsSettle(n, b, cs, ibase, rcache, first);
    CommitsSettle(n, b, ds, ibase, rcache, first);
    var x, y := CommitAll(n, b, cs, rcache), CommitAll(n, b, ds, rcache);
    SettledAlike(n, cs, ds, x, y);
    assert n.learns <= x.learns && n.learns <= y.learns;
    hide Sound, Settled;
    LearnLogsAlike(n, x, y, ibase, rcache, first);
  }
}
