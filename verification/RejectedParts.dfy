/** A run of five participants in which two of them commit different values.

    Participant 1 decrees the part of 5; 2 votes for it, 3 and 4 reject it.  With
    5 out of reach that makes a majority, so 1 reconnects to 5 and decrees a null
    in place of the part, under the same ballot.  The vote of 2 was for the part,
    but arrives after that and is counted for the null; with 3's, the null is
    committed.  Now 2 takes over with the promises of 3 and 4.  They report
    the null under the ballot under which 2 has the part, so 2 keeps the part,
    decrees it, and commits it. */
module RejectedParts {
  import opened Types
  import opened Quorums
  import opened Voting
  import opened Node
  import opened Protocol
  import opened Answers
  import opened Scenes
  import opened StaleLabels
  import opened Agreement

  const Loss := Value(DecPart, ReqId(1, 2), 5)
  const Nothing := Value(DecNull, ReqId(1, 2), 0)

  function Open(b: Ballot, v: Value, votes: nat): Entry {
    Entry(b, v, false, false, false, votes)
  }

  function Done(b: Ballot, v: Value, votes: nat): Entry {
    Entry(b, v, true, true, true, votes)
  }

  /** A participant with `e` as instance 2. */
  function Holder(a: NodeId, b: Ballot, proposer: NodeId, e: Entry): Node {
    Node(a, true, b, b.gen, proposer, None, Bare[2 := e], 2, 0, [])
  }

  /** A participant that has learned `e` as instance 2. */
  function Learner(a: NodeId, b: Ballot, e: Entry): Node {
    Node(a, true, b, b.gen, a, None, Bare[2 := e], 3, 0, [e.value])
  }

  function Bidder(acks: nat): Node {
    Node(2, true, Low, 2, 2, Some(Prep(Mid, acks, 2)), Bare[2 := Open(Low, Loss, 0)], 2, 0, [])
  }

  lemma Five(ns: map<NodeId, Node>)
    requires ns.Keys == {1, 2, 3, 4, 5}
    ensures |ns.Keys| == 5 && Majority(|ns.Keys|) == 3
  {
    assert |{1, 2, 3, 4, 5}| == 5;
  }

  lemma LogAt(e: Entry)
    ensures Bare[2 := e] != map[] && Types.Last(Bare[2 := e]) == 2
  {
    assert 2 in Bare[2 := e];
  }

  /** Everyone but those given holds nothing past instance 1. */
  function All(n1: Node, n2: Node, n3: Node, n4: Node): map<NodeId, Node> {
    map[1 := n1, 2 := n2, 3 := n3, 4 := n4, 5 := Under(5, Low, Bare)]
  }

  // ---- What the handlers do.

  lemma Decreed()
    ensures var o := EnterDecree(Under(1, Low, Bare), Loss, {1, 2, 3, 4, 5});
      && o.node == Holder(1, Low, 1, Open(Low, Loss, 1))
      && Decree(2, Low, 2, Loss) in o.sent && Decree(3, Low, 2, Loss) in o.sent && Decree(4, Low, 2, Loss) in o.sent
  {
    LogFacts();
  }

  /** A first vote at instance 2. */
  lemma FirstVote2(a: NodeId, v: Value)
    requires a != 1
    ensures AckDecree(Under(a, Low, Bare), Low, 2, v) == Outcome(Holder(a, Low, 1, Open(Low, v, 0)), {Accept(a, Low, 2)})
  {
  }

  lemma Counted(votes: nat, acceptors: set<NodeId>)
    requires votes + 1 < Majority(|acceptors|)
    ensures forall p, b, v :: AckAccept(Holder(p, b, p, Open(b, v, votes)), b, 2, true, acceptors)
              == Outcome(Holder(p, b, p, Open(b, v, votes + 1)), {})
  {
    hide ProposerCommit;
    forall p, b, v
      ensures AckAccept(Holder(p, b, p, Open(b, v, votes)), b, 2, true, acceptors) == Outcome(Holder(p, b, p, Open(b, v, votes + 1)), {})
    {
      var n := Holder(p, b, p, Open(b, v, votes));
      assert n.log[2 := Open(b, v, votes + 1)] == Bare[2 := Open(b, v, votes + 1)];
    }
  }

  lemma Runs(p: NodeId, b: Ballot, v: Value, votes: nat)
    ensures LearnRun(Holder(p, b, p, Entry(b, v, true, true, false, votes))) == Learner(p, b, Done(b, v, votes))
  {
    var x := Holder(p, b, p, Entry(b, v, true, true, false, votes));
    assert Ready(x.log, 2) && !Ready(x.log, 3);
    assert HoleAfter(x.log, 3) == 3 && HoleAfter(x.log, 2) == 3;
    assert Values(x.log, 2, 3) == [v];
    assert LearnRun(x).log == Bare[2 := Done(b, v, votes)];
  }

  /** The vote that makes three commits instance 2. */
  lemma Committed3(p: NodeId, b: Ballot, v: Value, acceptors: set<NodeId>)
    requires Majority(|acceptors|) == 3 && !NeedsCached(v.kind)
    ensures AckAccept(Holder(p, b, p, Open(b, v, 2)), b, 2, true, acceptors).node == Learner(p, b, Done(b, v, 3))
  {
    hide LearnRun;
    var n := Holder(p, b, p, Open(b, v, 2));
    Runs(p, b, v, 3);
    assert CountVote(n, 2).log[2 := Entry(b, v, true, true, false, 3)] == Bare[2 := Entry(b, v, true, true, false, 3)];
  }

  lemma Asking()
    ensures var o := StartPrepare(Holder(2, Low, 1, Open(Low, Loss, 0)), {1, 2, 3, 4, 5});
      o.node == Bidder(1) && Prepare(3, Mid, 2) in o.sent && Prepare(4, Mid, 2) in o.sent
  {
    LogAt(Open(Low, Loss, 0));
  }

  lemma Pledging(a: NodeId)
    requires a != 2
    ensures var log := Bare[2 := Open(Low, Nothing, 0)];
      AckPrepare(Holder(a, Low, 2, Open(Low, Nothing, 0)), Mid, 2)
      == Outcome(Holder(a, Mid, 2, Open(Low, Nothing, 0)), {Promise(a, Mid, 2, Report(log, 2))})
  {
    hide Report;
  }

  /** The null is reported under the ballot of our part, and does not replace it. */
  lemma KeepsPart(acks: nat, report: Log)
    requires report == Report(Bare[2 := Open(Low, Nothing, 0)], 2)
    ensures Merged(Bidder(acks), report) == Bidder(acks + 1) && Bidder(acks).log != map[]
    ensures forall i :: i in report ==> i >= 2
  {
    LogAt(Open(Low, Nothing, 0));
    LogAt(Open(Low, Loss, 0));
    assert forall i :: i in report ==> i == 2 && report[i].ballot == Low;
    assert Merge(Bare[2 := Open(Low, Loss, 0)], report) == Bare[2 := Open(Low, Loss, 0)];
  }

  lemma FirstPromise(report: Log)
    requires report == Report(Bare[2 := Open(Low, Nothing, 0)], 2)
    ensures Bidder(1).log != map[] && AckPromise(Bidder(1), Mid, report, {1, 2, 3, 4, 5}) == Outcome(Bidder(2), {})
  {
    hide Report, CompletePrepare, Merged, Bidder;
    KeepsPart(1, report);
    assert |{1, 2, 3, 4, 5}| == 5;
    Bidding2(1);
    Bidding2(2);
  }

  lemma Bidding2(acks: nat)
    ensures var n := Bidder(acks);
      n.alive && IsProposer(n) && n.prep == Some(Prep(Mid, acks, 2)) && n.log == Bare[2 := Open(Low, Loss, 0)]
  {
  }

  lemma SecondPromise(report: Log)
    requires report == Report(Bare[2 := Open(Low, Nothing, 0)], 2)
    ensures Bidder(2).log != map[]
    ensures var o := AckPromise(Bidder(2), Mid, report, {1, 2, 3, 4, 5});
      && o.node == Holder(2, Mid, 2, Open(Mid, Loss, 1))
      && Decree(3, Mid, 2, Loss) in o.sent && Decree(4, Mid, 2, Loss) in o.sent
  {
    hide Report, CompletePrepare, Merged, Bidder, Holder;
    KeepsPart(2, report);
    assert |{1, 2, 3, 4, 5}| == 5;
    Bidding2(2);
    Bidding2(3);
    PartOnceMore();
  }

  lemma PartRewritten()
    ensures Bidder(3).log != map[]
    ensures RedecreeLog(Bidder(3), Mid) == Bare[2 := Open(Mid, Loss, 1)] && Redecreed(Bidder(3), 2)
    ensures HolesBelow(Bidder(3).log, 2, Types.Last(Bidder(3).log)) == {}
  {
    LogAt(Open(Low, Loss, 0));
    hide Types.Last;
    assert HolesBelow(Bidder(3).log, 2, 2) == {};
  }

  lemma PartOnceMore()
    ensures Bidder(3).log != map[]
    ensures var o := CompletePrepare(Bidder(3), Mid, {1, 2, 3, 4, 5});
      && o.node == Holder(2, Mid, 2, Open(Mid, Loss, 1))
      && Decree(3, Mid, 2, Loss) in o.sent && Decree(4, Mid, 2, Loss) in o.sent
  {
    PartRewritten();
    hide Types.Last, RedecreeLog, Redecreed, HolesBelow;
  }

  lemma Revotes(a: NodeId)
    requires a != 2
    ensures AckDecree(Holder(a, Mid, 2, Open(Low, Nothing, 0)), Mid, 2, Loss)
            == Outcome(Holder(a, Mid, 2, Open(Mid, Loss, 0)), {Accept(a, Mid, 2)})
  {
    var n := Holder(a, Mid, 2, Open(Low, Nothing, 0));
    assert n.log[2 := Open(Mid, Loss, 0)] == Bare[2 := Open(Mid, Loss, 0)];
  }

  // ---- The run.

  const None2 := Under(2, Low, Bare)
  const None3 := Under(3, Low, Bare)
  const None4 := Under(4, Low, Bare)
  const Part1 := Holder(1, Low, 1, Open(Low, Loss, 1))
  const Part2 := Holder(2, Low, 1, Open(Low, Loss, 0))
  const Null3 := Holder(3, Low, 1, Open(Low, Nothing, 0))
  const Null4 := Holder(4, Low, 1, Open(Low, Nothing, 0))
  const Null1 := Learner(1, Low, Done(Low, Nothing, 3))

  const OnlyRepeats := Leave(true, false)
  const Clean := Ledger(map[], OnlyRepeats)
  const Once := Ledger(map[(1, 2) := 1], OnlyRepeats)
  const Never := Ledger(map[(1, 2) := 0], OnlyRepeats)

  function First5(): State {
    var ids: set<NodeId> := {1, 2, 3, 4, 5};
    var votes := set a | a in ids :: Vote(a, 1, Low, Founding);
    State(
      map a | a in ids :: StartNode(a, Founder, Founding), multiset{},
      History(map a | a in ids :: Low, votes, votes, map[(Low, 1) := Founding], map[Low := ids]),
      map a | a in ids :: {}, map[(Low, 1) := ids])
  }

  lemma First5Initial()
    ensures Init(First5(), Founder, Founding)
    ensures First5().nodes == All(Under(1, Low, Bare), None2, None3, None4) && First5().acked.Keys == First5().nodes.Keys
  {
    var s := First5();
    assert s.nodes.Keys == {1, 2, 3, 4, 5};
    assert s.nodes == map a | a in s.nodes :: StartNode(a, Founder, Founding);
    assert s.hist.promised == map a | a in s.nodes :: Low;
    assert s.acked == map a | a in s.nodes :: {};
  }

  lemma Opens() returns (f: Full)
    ensures Scene(f, All(Under(1, Low, Bare), None2, None3, None4), {}, {}, Clean)
  {
    hide Init;
    First5Initial();
    f := Full(First5(), multiset{}, map[]);
    assert IsFullRun([f], Founder, Founding, OnlyRepeats);
    assert [f][|[f]| - 1] == f;
  }

  lemma AllAre(n1: Node, n2: Node, n3: Node, n4: Node)
    ensures var ns := All(n1, n2, n3, n4);
      && ns.Keys == {1, 2, 3, 4, 5} && |ns.Keys| == 5 && Majority(|ns.Keys|) == 3
      && ns[1] == n1 && ns[2] == n2 && ns[3] == n3 && ns[4] == n4
  {
    Five(All(n1, n2, n3, n4));
  }

  lemma LowWith(n1: Node, n2: Node, n3: Node, n4: Node, n: Node)
    ensures All(n1, n2, n3, n4)[1 := n] == All(n, n2, n3, n4) && All(n1, n2, n3, n4)[2 := n] == All(n1, n, n3, n4)
  {
    hide Under;
  }

  lemma HighWith(n1: Node, n2: Node, n3: Node, n4: Node, n: Node)
    ensures All(n1, n2, n3, n4)[3 := n] == All(n1, n2, n, n4) && All(n1, n2, n3, n4)[4 := n] == All(n1, n2, n3, n)
  {
  }

  /** Participant 1 decrees the part. */
  lemma DecreesPart() returns (f: Full)
    ensures Scene(f, All(Part1, None2, None3, None4), {Decree(2, Low, 2, Loss), Decree(3, Low, 2, Loss), Decree(4, Low, 2, Loss)}, {}, Clean)
  {
    hide Scene, EnterDecree, All, Majority;
    f := Opens();
    AllAre(Under(1, Low, Bare), None2, None3, None4);
    LowWith(Under(1, Low, Bare), None2, None3, None4, Part1);
    Decreed();
    var sent := {Decree(2, Low, 2, Loss), Decree(3, Low, 2, Loss), Decree(4, Low, 2, Loss)};
    f := Decides(f, All(Under(1, Low, Bare), None2, None3, None4), {}, {}, Clean, 1, Loss, Part1, sent);
    assert {} + sent == sent;
  }

  /** Participant 2 votes for it. */
  lemma VotesForPart() returns (f: Full)
    ensures Scene(f, All(Part1, Part2, None3, None4), {Decree(3, Low, 2, Loss), Decree(4, Low, 2, Loss), Accept(2, Low, 2)}, {}, Clean)
  {
    hide Scene, AckDecree, All;
    f := DecreesPart();
    AllAre(Part1, None2, None3, None4);
    LowWith(Part1, None2, None3, None4, Part2);
    FirstVote2(2, Loss);
    LogFacts();
    var mail := {Decree(2, Low, 2, Loss), Decree(3, Low, 2, Loss), Decree(4, Low, 2, Loss)};
    f := Takes(f, All(Part1, None2, None3, None4), mail, {}, Clean, 2, Decree(2, Low, 2, Loss), Part2, {Accept(2, Low, 2)});
    assert mail - {Decree(2, Low, 2, Loss)} + {Accept(2, Low, 2)} == {Decree(3, Low, 2, Loss), Decree(4, Low, 2, Loss), Accept(2, Low, 2)};
  }

  /** Participants 3 and 4 reject it. */
  lemma RejectPart() returns (f: Full)
    ensures Scene(f, All(Part1, Part2, None3, None4), {Accept(2, Low, 2)}, {Reject(3, Low, 2), Reject(4, Low, 2)}, Clean)
  {
    hide Scene, All;
    f := VotesForPart();
    var ns := All(Part1, Part2, None3, None4);
    AllAre(Part1, Part2, None3, None4);
    var mail := {Decree(3, Low, 2, Loss), Decree(4, Low, 2, Loss), Accept(2, Low, 2)};
    f := Rejects(f, ns, mail, {}, Clean, Decree(3, Low, 2, Loss));
    f := Rejects(f, ns, mail - {Decree(3, Low, 2, Loss)}, {} + {Reject(3, Low, 2)}, Clean, Decree(4, Low, 2, Loss));
    assert mail - {Decree(3, Low, 2, Loss)} - {Decree(4, Low, 2, Loss)} == {Accept(2, Low, 2)};
    assert {} + {Reject(3, Low, 2)} + {Reject(4, Low, 2)} == {Reject(3, Low, 2), Reject(4, Low, 2)};
  }

  lemma Reactions()
    ensures React(Part1, Low, 2, 1, 1, true, 5) == Noted && React(Part1, Low, 2, 2, 1, true, 5) == Again(Nothing, true)
  {
  }

  /** Participant 1 hears of both rejects, and decrees a null instead. */
  lemma Nulls() returns (f: Full)
    ensures Scene(f, All(Holder(1, Low, 1, Open(Low, Nothing, 1)), Part2, None3, None4),
                  {Accept(2, Low, 2), Decree(3, Low, 2, Nothing), Decree(4, Low, 2, Nothing)}, {}, Never)
  {
    hide Scene, All, React;
    f := RejectPart();
    var ns, n := All(Part1, Part2, None3, None4), Holder(1, Low, 1, Open(Low, Nothing, 1));
    AllAre(Part1, Part2, None3, None4);
    LowWith(Part1, Part2, None3, None4, n);
    Reactions();
    var told := {Reject(3, Low, 2), Reject(4, Low, 2)};
    f := Notes(f, ns, {Accept(2, Low, 2)}, told, Clean, HearReject(Reject(3, Low, 2), 1, true), 1);
    var sent := {Decree(3, Low, 2, Nothing), Decree(4, Low, 2, Nothing)};
    assert Part1.log[2 := Open(Low, Nothing, 1)] == n.log;
    assert Note(Clean, 1, 2, 1) == Once;
    f := Nullifies(f, ns, {Accept(2, Low, 2)}, told - {Reject(3, Low, 2)}, Once, HearReject(Reject(4, Low, 2), 1, true), 2, Nothing, n, sent);
    assert {Accept(2, Low, 2)} + sent == {Accept(2, Low, 2), Decree(3, Low, 2, Nothing), Decree(4, Low, 2, Nothing)};
    assert told - {Reject(3, Low, 2)} - {Reject(4, Low, 2)} == {};
    assert Note(Once, 1, 2, 0) == Never;
  }

  const NullOnce := Holder(1, Low, 1, Open(Low, Nothing, 1))
  const NullTwice := Holder(1, Low, 1, Open(Low, Nothing, 2))

  /** Participants 3 and 4 vote for the null. */
  lemma VoteForNull() returns (f: Full)
    ensures Scene(f, All(NullOnce, Part2, Null3, Null4), {Accept(2, Low, 2), Accept(3, Low, 2)}, {}, Never)
  {
    hide Scene, AckDecree, All;
    f := Nulls();
    AllAre(NullOnce, Part2, None3, None4);
    HighWith(NullOnce, Part2, None3, None4, Null3);
    FirstVote2(3, Nothing);
    LogFacts();
    var mail := {Accept(2, Low, 2), Decree(3, Low, 2, Nothing), Decree(4, Low, 2, Nothing)};
    f := Takes(f, All(NullOnce, Part2, None3, None4), mail, {}, Never, 3, Decree(3, Low, 2, Nothing), Null3, {Accept(3, Low, 2)});
    AllAre(NullOnce, Part2, Null3, None4);
    HighWith(NullOnce, Part2, Null3, None4, Null4);
    FirstVote2(4, Nothing);
    mail := mail - {Decree(3, Low, 2, Nothing)} + {Accept(3, Low, 2)};
    f := Takes(f, All(NullOnce, Part2, Null3, None4), mail, {}, Never, 4, Decree(4, Low, 2, Nothing), Null4, {Accept(4, Low, 2)});
    mail := mail - {Decree(4, Low, 2, Nothing)} + {Accept(4, Low, 2)};
    LessMail(f, All(NullOnce, Part2, Null3, Null4), mail, {}, Never, {Accept(2, Low, 2), Accept(3, Low, 2)});
  }

  /** The vote of 2, for the part, and that of 3 commit the null. */
  lemma CommitsNull() returns (f: Full)
    ensures Scene(f, All(Null1, Part2, Null3, Null4), {}, {}, Never)
  {
    hide Scene, AckAccept, All;
    f := VoteForNull();
    var mail := {Accept(2, Low, 2), Accept(3, Low, 2)};
    AllAre(NullOnce, Part2, Null3, Null4);
    LowWith(NullOnce, Part2, Null3, Null4, NullTwice);
    LogAt(Open(Low, Nothing, 1));
    LogAt(Open(Low, Nothing, 2));
    Counted(1, All(NullOnce, Part2, Null3, Null4).Keys);
    f := Takes(f, All(NullOnce, Part2, Null3, Null4), mail, {}, Never, 1, Accept(2, Low, 2), NullTwice, {});
    mail := mail - {Accept(2, Low, 2)} + {};
    var ns := All(NullTwice, Part2, Null3, Null4);
    AllAre(NullTwice, Part2, Null3, Null4);
    LowWith(NullTwice, Part2, Null3, Null4, Null1);
    Committed3(1, Low, Nothing, ns.Keys);
    var sent := AckAccept(NullTwice, Low, 2, true, ns.Keys).sent;
    f := Takes(f, ns, mail, {}, Never, 1, Accept(3, Low, 2), Null1, sent);
    LessMail(f, All(Null1, Part2, Null3, Null4), mail - {Accept(3, Low, 2)} + sent, {}, Never, {});
  }

  const Turned3 := Holder(3, Low, 2, Open(Low, Nothing, 0))
  const Turned4 := Holder(4, Low, 2, Open(Low, Nothing, 0))
  const Pledged3 := Holder(3, Mid, 2, Open(Low, Nothing, 0))
  const Pledged4 := Holder(4, Mid, 2, Open(Low, Nothing, 0))

  /** Participant 2 prepares, and 3 and 4 turn to it. */
  lemma Succeeds() returns (f: Full)
    ensures Scene(f, All(Null1, Bidder(1), Turned3, Turned4), {Prepare(3, Mid, 2), Prepare(4, Mid, 2)}, {}, Never)
  {
    hide Scene, StartPrepare, All;
    f := CommitsNull();
    AllAre(Null1, Part2, Null3, Null4);
    LowWith(Null1, Part2, Null3, Null4, Bidder(1));
    Asking();
    var mail := {Prepare(3, Mid, 2), Prepare(4, Mid, 2)};
    f := Bids(f, All(Null1, Part2, Null3, Null4), {}, {}, Never, 2, Bidder(1), mail);
    assert {} + mail == mail;
    AllAre(Null1, Bidder(1), Null3, Null4);
    HighWith(Null1, Bidder(1), Null3, Null4, Turned3);
    f := Turns(f, All(Null1, Bidder(1), Null3, Null4), mail, {}, Never, 3, 2);
    AllAre(Null1, Bidder(1), Turned3, Null4);
    HighWith(Null1, Bidder(1), Turned3, Null4, Turned4);
    f := Turns(f, All(Null1, Bidder(1), Turned3, Null4), mail, {}, Never, 4, 2);
  }

  /** Participants 3 and 4 promise. */
  lemma Promise2(report: Log) returns (f: Full)
    requires report == Report(Bare[2 := Open(Low, Nothing, 0)], 2)
    ensures Scene(f, All(Null1, Bidder(1), Pledged3, Pledged4), {Promise(3, Mid, 2, report), Promise(4, Mid, 2, report)}, {}, Never)
  {
    hide Scene, AckPrepare, Report, All, Bidder;
    f := Succeeds();
    LogAt(Open(Low, Nothing, 0));
    var mail := {Prepare(3, Mid, 2), Prepare(4, Mid, 2)};
    AllAre(Null1, Bidder(1), Turned3, Turned4);
    HighWith(Null1, Bidder(1), Turned3, Turned4, Pledged3);
    Pledging(3);
    f := Takes(f, All(Null1, Bidder(1), Turned3, Turned4), mail, {}, Never, 3, Prepare(3, Mid, 2), Pledged3, {Promise(3, Mid, 2, report)});
    mail := mail - {Prepare(3, Mid, 2)} + {Promise(3, Mid, 2, report)};
    AllAre(Null1, Bidder(1), Pledged3, Turned4);
    HighWith(Null1, Bidder(1), Pledged3, Turned4, Pledged4);
    Pledging(4);
    f := Takes(f, All(Null1, Bidder(1), Pledged3, Turned4), mail, {}, Never, 4, Prepare(4, Mid, 2), Pledged4, {Promise(4, Mid, 2, report)});
    mail := mail - {Prepare(4, Mid, 2)} + {Promise(4, Mid, 2, report)};
    LessMail(f, All(Null1, Bidder(1), Pledged3, Pledged4), mail, {}, Never, {Promise(3, Mid, 2, report), Promise(4, Mid, 2, report)});
  }

  const Again2 := Holder(2, Mid, 2, Open(Mid, Loss, 1))
  const Again3 := Holder(3, Mid, 2, Open(Mid, Loss, 0))
  const Again4 := Holder(4, Mid, 2, Open(Mid, Loss, 0))

  /** Participant 2 counts both promises, and decrees its part again. */
  lemma CompletesBid() returns (f: Full)
    ensures Scene(f, All(Null1, Again2, Pledged3, Pledged4), {Decree(3, Mid, 2, Loss), Decree(4, Mid, 2, Loss)}, {}, Never)
  {
    hide Scene, AckPromise, Report, All, Bidder;
    var report := Report(Bare[2 := Open(Low, Nothing, 0)], 2);
    f := Promise2(report);
    var mail := {Promise(3, Mid, 2, report), Promise(4, Mid, 2, report)};
    AllAre(Null1, Bidder(1), Pledged3, Pledged4);
    LowWith(Null1, Bidder(1), Pledged3, Pledged4, Bidder(2));
    Bidding2(1);
    FirstPromise(report);
    f := Takes(f, All(Null1, Bidder(1), Pledged3, Pledged4), mail, {}, Never, 2, Promise(3, Mid, 2, report), Bidder(2), {});
    mail := mail - {Promise(3, Mid, 2, report)} + {};
    var ns := All(Null1, Bidder(2), Pledged3, Pledged4);
    AllAre(Null1, Bidder(2), Pledged3, Pledged4);
    LowWith(Null1, Bidder(2), Pledged3, Pledged4, Again2);
    Bidding2(2);
    SecondPromise(report);
    var sent := AckPromise(Bidder(2), Mid, report, ns.Keys).sent;
    f := Takes(f, ns, mail, {}, Never, 2, Promise(4, Mid, 2, report), Again2, sent);
    LessMail(f, All(Null1, Again2, Pledged3, Pledged4), mail - {Promise(4, Mid, 2, report)} + sent, {}, Never,
             {Decree(3, Mid, 2, Loss), Decree(4, Mid, 2, Loss)});
  }

  /** Participants 3 and 4, which have lost 5 by now, vote for it. */
  lemma VoteForPart() returns (f: Full)
    ensures Scene(f, All(Null1, Again2, Again3, Again4), {Accept(3, Mid, 2), Accept(4, Mid, 2)}, {}, Never)
  {
    hide Scene, AckDecree, All;
    f := CompletesBid();
    LogAt(Open(Low, Nothing, 0));
    var mail := {Decree(3, Mid, 2, Loss), Decree(4, Mid, 2, Loss)};
    AllAre(Null1, Again2, Pledged3, Pledged4);
    HighWith(Null1, Again2, Pledged3, Pledged4, Again3);
    Revotes(3);
    f := Takes(f, All(Null1, Again2, Pledged3, Pledged4), mail, {}, Never, 3, Decree(3, Mid, 2, Loss), Again3, {Accept(3, Mid, 2)});
    mail := mail - {Decree(3, Mid, 2, Loss)} + {Accept(3, Mid, 2)};
    AllAre(Null1, Again2, Again3, Pledged4);
    HighWith(Null1, Again2, Again3, Pledged4, Again4);
    Revotes(4);
    f := Takes(f, All(Null1, Again2, Again3, Pledged4), mail, {}, Never, 4, Decree(4, Mid, 2, Loss), Again4, {Accept(4, Mid, 2)});
    mail := mail - {Decree(4, Mid, 2, Loss)} + {Accept(4, Mid, 2)};
    LessMail(f, All(Null1, Again2, Again3, Again4), mail, {}, Never, {Accept(3, Mid, 2), Accept(4, Mid, 2)});
  }

  const Parted2 := Learner(2, Mid, Done(Mid, Loss, 3))

  lemma CommitsPart() returns (f: Full)
    ensures Scene(f, All(Null1, Parted2, Again3, Again4), {}, {}, Never)
  {
    hide Scene, AckAccept, All;
    f := VoteForPart();
    var mail := {Accept(3, Mid, 2), Accept(4, Mid, 2)};
    var twice := Holder(2, Mid, 2, Open(Mid, Loss, 2));
    AllAre(Null1, Again2, Again3, Again4);
    LowWith(Null1, Again2, Again3, Again4, twice);
    LogAt(Open(Mid, Loss, 1));
    LogAt(Open(Mid, Loss, 2));
    Counted(1, All(Null1, Again2, Again3, Again4).Keys);
    f := Takes(f, All(Null1, Again2, Again3, Again4), mail, {}, Never, 2, Accept(3, Mid, 2), twice, {});
    mail := mail - {Accept(3, Mid, 2)} + {};
    var ns := All(Null1, twice, Again3, Again4);
    AllAre(Null1, twice, Again3, Again4);
    LowWith(Null1, twice, Again3, Again4, Parted2);
    Committed3(2, Mid, Loss, ns.Keys);
    var sent := AckAccept(twice, Mid, 2, true, ns.Keys).sent;
    f := Takes(f, ns, mail, {}, Never, 2, Accept(4, Mid, 2), Parted2, sent);
    LessMail(f, All(Null1, Parted2, Again3, Again4), mail - {Accept(4, Mid, 2)} + sent, {}, Never, {});
  }

  /** Agreement does not survive a rejected part: a run of the code's steps after
      which 1 has committed a null for instance 2, and 2 the part of 5. */
  lemma RejectedPartsDisagree() returns (run: seq<Full>)
    ensures IsFullRun(run, Founder, Founding, OnlyRepeats)
    ensures var s := run[|run| - 1].core;
      HasCommitted(s, 1, 2, Nothing) && HasCommitted(s, 2, 2, Loss) && Nothing != Loss
  {
    var f := CommitsPart();
    hide IsFullRun;
    AllAre(Null1, Parted2, Again3, Again4);
    run := Ending(f, OnlyRepeats);
  }
}
