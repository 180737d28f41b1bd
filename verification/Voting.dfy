/** The history of promises, votes and decrees behind a run, and why no two
    values are ever chosen for one instance.

    A vote is `strong` when the voter relabelled its entry with the ballot it
    voted in.  An acceptor that has already committed an instance accepts a
    later decree for it without relabelling; that vote is not strong, and a
    later promise by this acceptor understates its ballot.  So a decree need
    not be safe at its ballot in the textbook sense, and the invariant kept
    here is that it is safe or has been overtaken by a choice at a higher ballot. */
module Voting {
  import opened Types
  import opened Quorums

  datatype Vote = Vote(voter: NodeId, inum: nat, ballot: Ballot, value: Value)

  /** `promised`: the ballot each acceptor has promised; its keys are the
      acceptor list.  `decreed`: the value decreed in a ballot for an instance.
      `prepared`: the quorum each completed prepare was completed with. */
  datatype History = History(
    promised: map<NodeId, Ballot>,
    votes: set<Vote>,
    strong: set<Vote>,
    decreed: map<(Ballot, nat), Value>,
    prepared: map<Ballot, set<NodeId>>)

  ghost predicate AllVoted(votes: set<Vote>, q: set<NodeId>, i: nat, b: Ballot, v: Value) {
    forall a :: a in q ==> Vote(a, i, b, v) in votes
  }

  /** A majority voted for `v` in ballot `b`. */
  ghost predicate ChosenAt(h: History, i: nat, b: Ballot, v: Value) {
    exists q :: IsQuorum(h.promised.Keys, q) && AllVoted(h.votes, q, i, b, v)
  }

  ghost predicate StronglyChosenAt(h: History, i: nat, b: Ballot, v: Value) {
    exists q :: IsQuorum(h.promised.Keys, q) && AllVoted(h.strong, q, i, b, v)
  }

  ghost predicate Chosen(h: History, i: nat, v: Value) {
    exists b :: StronglyChosenAt(h, i, b, v)
  }

  ghost predicate AnyChosen(h: History, i: nat) {
    exists v :: Chosen(h, i, v)
  }

  /** Every member of `q` voted for `v` in `b` or is still free to. */
  ghost predicate Open(h: History, q: set<NodeId>, i: nat, b: Ballot, v: Value) {
    forall a :: a in q ==> Vote(a, i, b, v) in h.votes || (a in h.promised && AtMost(h.promised[a], b))
  }

  /** `v` was chosen in `b` or could still be. */
  ghost predicate Choosable(h: History, i: nat, b: Ballot, v: Value) {
    exists q :: IsQuorum(h.promised.Keys, q) && Open(h, q, i, b, v)
  }

  /** Nothing but `v` was or could still be chosen below `b`. */
  ghost predicate SafeAt(h: History, i: nat, b: Ballot, v: Value) {
    forall c, u :: Below(c, b) && Choosable(h, i, c, u) ==> u == v
  }

  /** The instance was chosen at a ballot above `b` at which it was safe. */
  ghost predicate Overtaken(h: History, i: nat, b: Ballot) {
    exists d, w :: Below(b, d) && StronglyChosenAt(h, i, d, w) && SafeAt(h, i, d, w)
  }

  ghost predicate Genuine(h: History, i: nat, b: Ballot, v: Value) {
    (b, i) in h.decreed && h.decreed[(b, i)] == v
  }

  /** What a stored (ballot, value) pair means: the value was decreed in that
      ballot, or the ballot is stale and the value has been chosen. */
  ghost predicate Backed(h: History, i: nat, b: Ballot, v: Value) {
    Genuine(h, i, b, v) || Chosen(h, i, v)
  }

  ghost predicate VotesLawful(h: History) {
    && h.strong <= h.votes
    && forall x :: x in h.votes ==>
         && x.voter in h.promised
         && AtMost(x.ballot, h.promised[x.voter])
         && Genuine(h, x.inum, x.ballot, x.value)
         && (x in h.strong || AnyChosen(h, x.inum))
  }

  ghost predicate PreparesLawful(h: History) {
    && (forall b :: b in h.prepared ==>
          IsQuorum(h.promised.Keys, h.prepared[b])
          && forall a :: a in h.prepared[b] ==> AtMost(b, h.promised[a]))
    && (forall b, i :: (b, i) in h.decreed ==> b in h.prepared)
  }

  ghost predicate DecreesSafe(h: History) {
    forall b, i :: (b, i) in h.decreed ==> SafeAt(h, i, b, h.decreed[(b, i)]) || Overtaken(h, i, b)
  }

  ghost predicate Lawful(h: History) {
    VotesLawful(h) && PreparesLawful(h) && DecreesSafe(h)
  }

  // ---- What is chosen stays the same.

  lemma ChosenIsChoosable(h: History, i: nat, b: Ballot, v: Value)
    requires ChosenAt(h, i, b, v)
    ensures Choosable(h, i, b, v)
  {
    var q :| IsQuorum(h.promised.Keys, q) && AllVoted(h.votes, q, i, b, v);
    assert Open(h, q, i, b, v);
  }

  lemma StrongIsChosen(h: History, i: nat, b: Ballot, v: Value)
    requires h.strong <= h.votes && StronglyChosenAt(h, i, b, v)
    ensures ChosenAt(h, i, b, v)
  {
    var q :| IsQuorum(h.promised.Keys, q) && AllVoted(h.strong, q, i, b, v);
    assert AllVoted(h.votes, q, i, b, v);
  }

  lemma ChosenWasDecreed(h: History, i: nat, b: Ballot, v: Value)
    requires VotesLawful(h) && ChosenAt(h, i, b, v)
    ensures Genuine(h, i, b, v)
  {
    var q :| IsQuorum(h.promised.Keys, q) && AllVoted(h.votes, q, i, b, v);
    var a := QuorumsMeet(h.promised.Keys, q, q);
    assert Vote(a, i, b, v) in h.votes;
  }

  /** A choice can be traded for one at a ballot no lower, where it was safe. */
  lemma SafeChoice(h: History, i: nat, b: Ballot, v: Value) returns (d: Ballot)
    requires Lawful(h) && ChosenAt(h, i, b, v)
    ensures AtMost(b, d) && ChosenAt(h, i, d, v) && SafeAt(h, i, d, v)
    ensures d == b || StronglyChosenAt(h, i, d, v)
  {
    ChosenWasDecreed(h, i, b, v);
    ChosenIsChoosable(h, i, b, v);
    if SafeAt(h, i, b, v) {
      d := b;
    } else {
      var e, w :| Below(b, e) && StronglyChosenAt(h, i, e, w) && SafeAt(h, i, e, w);
      StrongIsChosen(h, i, e, w);
      d := e;
    }
  }

  /** Two majorities never agree on different values for one instance. */
  lemma ChosenUnique(h: History, i: nat, b: Ballot, v: Value, c: Ballot, w: Value)
    requires Lawful(h) && ChosenAt(h, i, b, v) && ChosenAt(h, i, c, w)
    ensures v == w
  {
    var d := SafeChoice(h, i, b, v);
    var e := SafeChoice(h, i, c, w);
    ChosenIsChoosable(h, i, d, v);
    ChosenIsChoosable(h, i, e, w);
    ChosenWasDecreed(h, i, d, v);
    ChosenWasDecreed(h, i, e, w);
    assert Below(d, e) || Below(e, d) || d == e;
  }

  /** A majority of votes, strong or not, means the value is strongly chosen. */
  lemma MajorityChooses(h: History, i: nat, b: Ballot, v: Value)
    requires Lawful(h) && ChosenAt(h, i, b, v)
    ensures Chosen(h, i, v)
  {
    var q :| IsQuorum(h.promised.Keys, q) && AllVoted(h.votes, q, i, b, v);
    if AllVoted(h.strong, q, i, b, v) {
      assert StronglyChosenAt(h, i, b, v);
    } else {
      var a :| a in q && Vote(a, i, b, v) !in h.strong;
      assert Vote(a, i, b, v) in h.votes;
      var w :| Chosen(h, i, w);
      var c :| StronglyChosenAt(h, i, c, w);
      StrongIsChosen(h, i, c, w);
      ChosenUnique(h, i, b, v, c, w);
    }
  }

  lemma ChosenAgree(h: History, i: nat, v: Value, w: Value)
    requires Lawful(h) && Chosen(h, i, v) && Chosen(h, i, w)
    ensures v == w
  {
    var b :| StronglyChosenAt(h, i, b, v);
    var c :| StronglyChosenAt(h, i, c, w);
    StrongIsChosen(h, i, b, v);
    StrongIsChosen(h, i, c, w);
    ChosenUnique(h, i, b, v, c, w);
  }

  // ---- How a history grows.

  ghost predicate Grows(h: History, h': History) {
    && h'.promised.Keys == h.promised.Keys
    && (forall a :: a in h.promised ==> AtMost(h.promised[a], h'.promised[a]))
    && h.votes <= h'.votes
    && h.strong <= h'.strong
    && (forall x :: x in h'.votes && x !in h.votes ==> x.voter in h.promised && AtMost(h.promised[x.voter], x.ballot))
    && (forall x :: x in h'.strong && x !in h.strong ==> x.voter in h.promised && AtMost(h.promised[x.voter], x.ballot))
    && (forall k :: k in h.decreed ==> k in h'.decreed && h'.decreed[k] == h.decreed[k])
    && (forall b :: b in h.prepared ==> b in h'.prepared && h'.prepared[b] == h.prepared[b])
  }

  lemma ChoosableShrinks(h: History, h': History, i: nat, b: Ballot, v: Value)
    requires Grows(h, h') && Choosable(h', i, b, v)
    ensures Choosable(h, i, b, v)
  {
    var q :| IsQuorum(h'.promised.Keys, q) && Open(h', q, i, b, v);
    forall a | a in q
      ensures Vote(a, i, b, v) in h.votes || (a in h.promised && AtMost(h.promised[a], b))
    {
      assert Vote(a, i, b, v) in h'.votes || (a in h'.promised && AtMost(h'.promised[a], b));
    }
    assert Open(h, q, i, b, v);
  }

  lemma StronglyChosenStays(h: History, h': History, i: nat, b: Ballot, v: Value)
    requires Grows(h, h') && StronglyChosenAt(h, i, b, v)
    ensures StronglyChosenAt(h', i, b, v)
  {
    var q :| IsQuorum(h.promised.Keys, q) && AllVoted(h.strong, q, i, b, v);
    assert AllVoted(h'.strong, q, i, b, v);
  }

  lemma ChosenStays(h: History, h': History, i: nat, v: Value)
    requires Grows(h, h') && Chosen(h, i, v)
    ensures Chosen(h', i, v)
  {
    var b :| StronglyChosenAt(h, i, b, v);
    StronglyChosenStays(h, h', i, b, v);
  }

  lemma BackedStays(h: History, h': History, i: nat, b: Ballot, v: Value)
    requires Grows(h, h') && Backed(h, i, b, v)
    ensures Backed(h', i, b, v)
  {
    if Chosen(h, i, v) { ChosenStays(h, h', i, v); }
  }

  lemma SafeStays(h: History, h': History, i: nat, b: Ballot, v: Value)
    requires Grows(h, h') && SafeAt(h, i, b, v)
    ensures SafeAt(h', i, b, v)
  {
    forall c, u | Below(c, b) && Choosable(h', i, c, u) ensures u == v {
      ChoosableShrinks(h, h', i, c, u);
    }
  }

  lemma OvertakenStays(h: History, h': History, i: nat, b: Ballot)
    requires Grows(h, h') && Overtaken(h, i, b)
    ensures Overtaken(h', i, b)
  {
    var d, w :| Below(b, d) && StronglyChosenAt(h, i, d, w) && SafeAt(h, i, d, w);
    StronglyChosenStays(h, h', i, d, w);
    SafeStays(h, h', i, d, w);
  }

  lemma DecreesStaySafe(h: History, h': History)
    requires DecreesSafe(h) && Grows(h, h')
    ensures forall b, i :: (b, i) in h.decreed ==> SafeAt(h', i, b, h.decreed[(b, i)]) || Overtaken(h', i, b)
  {
    forall b, i | (b, i) in h.decreed
      ensures SafeAt(h', i, b, h.decreed[(b, i)]) || Overtaken(h', i, b)
    {
      if SafeAt(h, i, b, h.decreed[(b, i)]) {
        SafeStays(h, h', i, b, h.decreed[(b, i)]);
      } else {
        OvertakenStays(h, h', i, b);
      }
    }
  }

  /** Promises and votes, without a new decree, keep a history lawful. */
  lemma VotingKeepsLawful(h: History, h': History)
    requires Lawful(h) && Grows(h, h')
    requires h'.decreed == h.decreed && h'.prepared == h.prepared && h'.strong <= h'.votes
    requires forall x :: x in h'.votes && x !in h.votes ==>
               && AtMost(x.ballot, h'.promised[x.voter])
               && Genuine(h, x.inum, x.ballot, x.value)
               && (x in h'.strong || AnyChosen(h, x.inum))
    ensures Lawful(h')
  {
    DecreesStaySafe(h, h');
    forall x | x in h'.votes
      ensures AtMost(x.ballot, h'.promised[x.voter]) && (x in h'.strong || AnyChosen(h', x.inum))
    {
      if x !in h'.strong {
        var v :| Chosen(h, x.inum, v);
        ChosenStays(h, h', x.inum, v);
      }
    }
  }

  // ---- Section 2.2 of "Paxos Made Simple": what a quorum's reports permit.

  /** No strong vote of `q` below `b` lies above the ballot `m`. */
  ghost predicate LabelCovers(h: History, q: set<NodeId>, i: nat, b: Ballot, m: Ballot) {
    forall x :: x in h.strong && x.voter in q && x.inum == i && Below(x.ballot, b) ==> AtMost(x.ballot, m)
  }

  ghost predicate NeverVoted(h: History, q: set<NodeId>, i: nat, b: Ballot) {
    forall x :: x in h.votes && x.voter in q && x.inum == i ==> !Below(x.ballot, b)
  }

  /** What licenses decreeing `v` in `b` after hearing from `q`. */
  ghost predicate Licensed(h: History, q: set<NodeId>, i: nat, b: Ballot, v: Value) {
    || NeverVoted(h, q, i, b)
    || exists m :: LabelCovers(h, q, i, b, m) && Backed(h, i, m, v)
  }

  /** `h'` follows `h`, its new votes are all in `b`, and `q` has left every ballot below `b`. */
  ghost predicate Prepared(h: History, h': History, q: set<NodeId>, b: Ballot) {
    && Grows(h, h')
    && IsQuorum(h.promised.Keys, q)
    && (forall a :: a in q ==> AtMost(b, h'.promised[a]))
    && (forall x :: x in h'.votes && x !in h.votes ==> x.ballot == b)
  }

  /** Anything choosable below `b` has the vote of a member of `q`. */
  lemma ChoosableHasVoter(h: History, h': History, q: set<NodeId>, i: nat, b: Ballot, c: Ballot, u: Value) returns (x: Vote)
    requires Prepared(h, h', q, b) && Below(c, b) && Choosable(h', i, c, u)
    ensures x in h.votes && x.voter in q && x.inum == i && x.ballot == c && x.value == u
  {
    var r :| IsQuorum(h'.promised.Keys, r) && Open(h', r, i, c, u);
    var a := QuorumsMeet(h.promised.Keys, q, r);
    x := Vote(a, i, c, u);
    assert AtMost(b, h'.promised[a]);
  }

  lemma UnvotedIsSafe(h: History, h': History, q: set<NodeId>, i: nat, b: Ballot, v: Value)
    requires Prepared(h, h', q, b) && NeverVoted(h, q, i, b)
    ensures SafeAt(h', i, b, v)
  {
    forall c, u | Below(c, b) ensures !Choosable(h', i, c, u) {
      if Choosable(h', i, c, u) {
        var x := ChoosableHasVoter(h, h', q, i, b, c, u);
      }
    }
  }

  /** While nothing is chosen every vote is strong, and the classic argument applies. */
  lemma HighestVoteIsSafe(h: History, h': History, q: set<NodeId>, i: nat, b: Ballot, m: Ballot, v: Value)
    requires Lawful(h) && Prepared(h, h', q, b)
    requires !AnyChosen(h, i)
    requires LabelCovers(h, q, i, b, m) && Genuine(h, i, m, v)
    ensures SafeAt(h', i, b, v)
  {
    assert SafeAt(h, i, m, v) by {
      if Overtaken(h, i, m) {
        var d, w :| Below(m, d) && StronglyChosenAt(h, i, d, w) && SafeAt(h, i, d, w);
        assert Chosen(h, i, w);
      }
    }
    forall c, u | Below(c, b) && Choosable(h', i, c, u) ensures u == v {
      var x := ChoosableHasVoter(h, h', q, i, b, c, u);
      assert x in h.strong;
      ChoosableShrinks(h, h', i, c, u);
      assert Genuine(h, i, c, u);
    }
  }

  /** A choice below `b` is what the highest reported vote carries. */
  lemma ReportCarriesChoice(h: History, h': History, q: set<NodeId>, i: nat, b: Ballot, m: Ballot, v: Value, d: Ballot, w: Value)
    requires Lawful(h) && Prepared(h, h', q, b)
    requires LabelCovers(h, q, i, b, m) && Backed(h, i, m, v)
    requires Below(d, b) && StronglyChosenAt(h, i, d, w)
    requires (b, i) !in h.decreed
    ensures v == w || Overtaken(h, i, b)
  {
    if Chosen(h, i, v) {
      assert Chosen(h, i, w);
      ChosenAgree(h, i, v, w);
    } else {
      LabelCoversChoice(h, q, i, b, m, d, w);
      StrongIsChosen(h, i, d, w);
      ChosenIsChoosable(h, i, d, w);
      ChosenWasDecreed(h, i, d, w);
      if Below(d, m) && !SafeAt(h, i, m, v) {
        var e, z :| Below(m, e) && StronglyChosenAt(h, i, e, z) && SafeAt(h, i, e, z);
        StrongIsChosen(h, i, e, z);
        ChosenWasDecreed(h, i, e, z);
        if Below(e, b) {
          LabelCoversChoice(h, q, i, b, m, e, z);
          assert false;
        }
      }
    }
  }

  lemma LabelCoversChoice(h: History, q: set<NodeId>, i: nat, b: Ballot, m: Ballot, d: Ballot, w: Value)
    requires IsQuorum(h.promised.Keys, q) && LabelCovers(h, q, i, b, m)
    requires Below(d, b) && StronglyChosenAt(h, i, d, w)
    ensures AtMost(d, m)
  {
    var r :| IsQuorum(h.promised.Keys, r) && AllVoted(h.strong, r, i, d, w);
    var a := QuorumsMeet(h.promised.Keys, q, r);
    assert Vote(a, i, d, w) in h.strong;
  }

  /** Once chosen below `b`, the chosen value is safe at `b`. */
  lemma ChoiceIsSafe(h: History, h': History, q: set<NodeId>, i: nat, b: Ballot, d: Ballot, w: Value)
    requires Lawful(h) && Prepared(h, h', q, b)
    requires Below(d, b) && StronglyChosenAt(h, i, d, w) && SafeAt(h, i, d, w)
    ensures SafeAt(h', i, b, w)
  {
    StrongIsChosen(h, i, d, w);
    ChosenIsChoosable(h, i, d, w);
    ChosenWasDecreed(h, i, d, w);
    forall c, u | Below(c, b) && Choosable(h', i, c, u) ensures u == w {
      var x := ChoosableHasVoter(h, h', q, i, b, c, u);
      ChoosableShrinks(h, h', i, c, u);
      assert Genuine(h, i, c, u);
      if Below(d, c) && !SafeAt(h, i, c, u) {
        var e, z :| Below(c, e) && StronglyChosenAt(h, i, e, z) && SafeAt(h, i, e, z);
        StrongIsChosen(h, i, e, z);
        ChosenUnique(h, i, d, w, e, z);
      }
    }
  }

  /** Decree safety.  Whatever is licensed by a quorum's reports agrees with
      everything choosable below, unless the instance has already been chosen
      above. */
  lemma LicensedIsSafe(h: History, h': History, q: set<NodeId>, i: nat, b: Ballot, v: Value)
    requires Lawful(h) && Prepared(h, h', q, b)
    requires Licensed(h, q, i, b, v) && (b, i) !in h.decreed
    ensures SafeAt(h', i, b, v) || Overtaken(h', i, b)
  {
    if NeverVoted(h, q, i, b) {
      UnvotedIsSafe(h, h', q, i, b, v);
      return;
    }
    var m :| LabelCovers(h, q, i, b, m) && Backed(h, i, m, v);
    if !AnyChosen(h, i) {
      HighestVoteIsSafe(h, h', q, i, b, m, v);
      return;
    }
    var w :| Chosen(h, i, w);
    var d0 :| StronglyChosenAt(h, i, d0, w);
    StrongIsChosen(h, i, d0, w);
    var d := SafeChoice(h, i, d0, w);
    ChosenWasDecreed(h, i, d, w);
    if Below(b, d) {
      assert Overtaken(h, i, b);
      OvertakenStays(h, h', i, b);
    } else {
      assert Below(d, b);
      ReportCarriesChoice(h, h', q, i, b, m, v, d, w);
      if v == w {
        ChoiceIsSafe(h, h', q, i, b, d, w);
      } else {
        OvertakenStays(h, h', i, b);
      }
    }
  }

  /** New decrees in `b`, each licensed by the quorum that prepared `b`, and
      the decreer's own votes for them keep a history lawful. */
  lemma DecreeingKeepsLawful(h: History, h': History, q: set<NodeId>, b: Ballot)
    requires Lawful(h) && Prepared(h, h', q, b)
    requires h'.prepared == h.prepared[b := q]
    requires forall c, i :: (c, i) in h'.decreed && (c, i) !in h.decreed ==>
               c == b && Licensed(h, q, i, b, h'.decreed[(c, i)])
    requires h'.strong <= h'.votes
    requires forall x :: x in h'.votes && x !in h.votes ==>
               x in h'.strong && AtMost(b, h'.promised[x.voter]) && Genuine(h', x.inum, b, x.value)
    ensures Lawful(h')
  {
    DecreesStaySafe(h, h');
    forall c, i | (c, i) in h'.decreed
      ensures SafeAt(h', i, c, h'.decreed[(c, i)]) || Overtaken(h', i, c)
    {
      if (c, i) !in h.decreed {
        LicensedIsSafe(h, h', q, i, b, h'.decreed[(c, i)]);
      }
    }
    forall x | x in h'.votes && x !in h'.strong ensures AnyChosen(h', x.inum) {
      var v :| Chosen(h, x.inum, v);
      ChosenStays(h, h', x.inum, v);
    }
  }

  // ---- Exactly when a decree is safe.

  /** No value was or could still be chosen below `b`. */
  ghost predicate NothingBelow(h: History, i: nat, b: Ballot) {
    forall c, u :: Below(c, b) ==> !Choosable(h, i, c, u)
  }

  /** A decree is unsafe exactly if its instance has been chosen above it, with
      another value, and some value is choosable below it. */
  lemma SafeExactly(h: History, i: nat, b: Ballot, v: Value)
    requires Lawful(h) && Genuine(h, i, b, v)
    ensures SafeAt(h, i, b, v) <==> !Overtaken(h, i, b) || Chosen(h, i, v) || NothingBelow(h, i, b)
  {
    if Overtaken(h, i, b) {
      var d, w :| Below(b, d) && StronglyChosenAt(h, i, d, w) && SafeAt(h, i, d, w);
      assert Chosen(h, i, w);
      if Chosen(h, i, v) { ChosenAgree(h, i, v, w); }
      assert forall c, u :: Below(c, b) && Choosable(h, i, c, u) ==> u == w;
    }
  }
}
