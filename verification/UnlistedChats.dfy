/** A run in which the members fail on a chat.  The proposer decrees the part of
    3, whom it has lost, and 3 reconnects and has a chat decreed before the
    part has passed; by the time the chat is learned, nobody lists 3. */
module UnlistedChats {
  import opened Types
  import opened Quorums
  import opened Node
  import opened Listing
  import opened SyncModel
  import opened StaleLabels
  import Truncation
  import Handover
  import Protocol

  const Loss := Value(DecPart, ReqId(1, 2), 3)
  const Chat := Value(DecChat, ReqId(3, 1), 0)

  ghost predicate Reaches(s: State) {
    exists run :: Truncation.IsRun(run) && run[0] == Handover.Started(1, {2, 3}, Founding) && run[|run| - 1] == s
  }

  lemma ReachesNext(s: State, step: Step)
    requires Reaches(s) && Enabled(s, step)
    ensures Reaches(Apply(s, step))
  {
    hide Apply, Enabled, Truncation.Init;
    var run :| Truncation.IsRun(run) && run[0] == Handover.Started(1, {2, 3}, Founding) && run[|run| - 1] == s;
    var longer := run + [Apply(s, step)];
    forall k | 0 <= k < |longer| - 1 ensures Truncation.Next(longer[k], longer[k + 1]) {
      if k < |run| - 1 {
        assert longer[k] == run[k] && longer[k + 1] == run[k + 1];
        assert Truncation.Next(run[k], run[k + 1]);
      } else {
        assert longer[k] == s && longer[k + 1] == Apply(s, step);
      }
    }
    assert Truncation.IsRun(longer);
    assert longer[|longer| - 1] == Apply(s, step);
  }

  /** An undecided decree of participant 1 with this many votes counted. */
  function Open(v: Value, votes: nat): Entry {
    Entry(Low, v, false, false, false, votes)
  }

  function Lead(log: Log, ihole: nat, learns: seq<Value>): Node {
    Node(1, true, Low, 1, 1, None, log, ihole, 0, learns)
  }

  function Second(log: Log, down: seq<Down>, up: seq<Up>, linked: bool): Peer {
    Peer(Node(2, true, Low, 1, 1, None, log, 2, 0, []), 1, down, up, 1, 0, map[1 := true, 2 := false, 3 := linked], false)
  }

  /** Participant 1, listing everyone, and participant 2 as given. */
  ghost predicate At(s: State, p: Node, q: Peer) {
    && Reaches(s) && s.p == p && s.listed == map[1 := false, 2 := true, 3 := true] && !s.failed
    && s.peers.Keys == {2, 3} && s.peers[2] == q
  }

  lemma StartIs()
    ensures var s := Handover.Started(1, {2, 3}, Founding);
      && s.p == Lead(Bare, 2, []) && s.listed == map[1 := false, 2 := true, 3 := true] && !s.failed
      && s.peers.Keys == {2, 3} && s.peers[2] == Second(Bare, [], [], true)
  {
    assert Handover.Met(1, {2, 3} + {1}) == map[1 := false, 2 := true, 3 := true];
    assert Handover.Met(2, {2, 3} + {1}) == map[1 := true, 2 := false, 3 := true];
    hide Handover.Met;
    assert Protocol.StartNode(1, 1, Founding) == Lead(Bare, 2, []);
  }

  lemma Starts() returns (s: State)
    ensures At(s, Lead(Bare, 2, []), Second(Bare, [], [], true))
  {
    hide Truncation.Init, Handover.Started;
    s := Handover.Started(1, {2, 3}, Founding);
    Handover.StartedSynchronizes(1, {2, 3}, Founding);
    StartIs();
    assert Truncation.IsRun([s]) && [s][0] == s && [s][|[s]| - 1] == s;
  }

  lemma Unchanged(listed: map<NodeId, bool>, n: Node, m: Node)
    requires m.learns == n.learns
    ensures Learned(n, m) == [] && ListAfter(listed, [], n.ihole) == listed && FateOn(listed, n, m) == Stays
  {
  }

  /** Participant 1 decrees `v` as instance `i`. */
  lemma Proposes(s: State, log: Log, q: Peer, i: nat, v: Value) returns (t: State)
    requires At(s, Lead(log, 2, []), q) && NextInstance(log) == i
    ensures At(t, Lead(log[i := Open(v, 1)], 2, []), q.(down := q.down + [Down.Decree(i, v)]))
  {
    hide Reaches, NextInstance;
    t := Apply(s, Propose(v, true));
    ReachesNext(s, Propose(v, true));
    assert Members(s) == {1, 2, 3};
    Unchanged(s.listed, s.p, ProposeNext(s, v, true).p);
  }

  /** Participant 2 votes for the decree at the head of its channel. */
  lemma Votes(s: State, p: Node, log: Log, i: nat, v: Value, rest: seq<Down>, up: seq<Up>) returns (t: State)
    requires At(s, p, Second(log, [Down.Decree(i, v)] + rest, up, false)) && p.ballot == Low
    requires i !in log && (v.kind == DecPart ==> v.extra == 3)
    ensures At(t, p, Second(log[i := Open(v, 0)], rest, up + [Up.Accept(i)], false))
  {
    hide Reaches;
    t := Apply(s, Take(2, true));
    ReachesNext(s, Take(2, true));
    var q := s.peers[2];
    assert q.down[0] == Down.Decree(i, v) && q.down[1..] == rest;
    Unchanged(q.listed, q.node, Handled(q, Low, true).node);
  }

  // ---- The proposer counts the votes.

  const Decreed: Log := Bare[2 := Open(Loss, 1)][3 := Open(Chat, 1)]
  const Gone: Log := Bare[2 := Entry(Low, Loss, true, true, true, 2)][3 := Open(Chat, 1)]
  const Heard: Log := Gone[3 := Entry(Low, Chat, true, true, true, 2)]

  lemma PartRuns(x: Node)
    requires x == Lead(Bare[2 := Entry(Low, Loss, true, true, false, 2)][3 := Open(Chat, 1)], 2, [])
    ensures LearnRun(x) == Lead(Gone, 3, [Loss])
  {
    assert Ready(x.log, 2) && !Ready(x.log, 3);
    assert HoleAfter(x.log, 3) == 3 && HoleAfter(x.log, 2) == 3;
    assert Values(x.log, 2, 3) == [Loss];
    assert LearnRun(x).log == Gone;
  }

  lemma ChatRuns(x: Node)
    requires x == Lead(Gone[3 := Entry(Low, Chat, true, true, false, 2)], 3, [Loss])
    ensures LearnRun(x) == Lead(Heard, 4, [Loss, Chat])
  {
    assert Ready(x.log, 3) && !Ready(x.log, 4);
    assert HoleAfter(x.log, 4) == 4 && HoleAfter(x.log, 3) == 4;
    assert Values(x.log, 3, 4) == [Chat];
    assert LearnRun(x).log == Heard;
  }

  lemma PartLearned()
    ensures AckAccept(Lead(Decreed, 2, []), Low, 2, true, {1, 2, 3}).node == Lead(Gone, 3, [Loss])
  {
    hide LearnRun;
    var x := Lead(Bare[2 := Entry(Low, Loss, true, true, false, 2)][3 := Open(Chat, 1)], 2, []);
    PartRuns(x);
    assert CountVote(Lead(Decreed, 2, []), 2).log[2 := Entry(Low, Loss, true, true, false, 2)] == x.log;
    assert |{1, 2, 3}| == 3;
  }

  lemma ChatLearned()
    ensures AckAccept(Lead(Gone, 3, [Loss]), Low, 3, true, {1, 2, 3}).node == Lead(Heard, 4, [Loss, Chat])
  {
    hide LearnRun;
    var x := Lead(Gone[3 := Entry(Low, Chat, true, true, false, 2)], 3, [Loss]);
    ChatRuns(x);
    assert CountVote(Lead(Gone, 3, [Loss]), 3).log[3 := Entry(Low, Chat, true, true, false, 2)] == x.log;
    assert |{1, 2, 3}| == 3;
  }

  const Everybody: map<NodeId, bool> := map[1 := false, 2 := true, 3 := true]

  /** Participant 1 has learned the part of 3, and waits for one more vote for its chat. */
  ghost predicate Bereft(s: State) {
    && Reaches(s) && s.p == Lead(Gone, 3, [Loss]) && s.listed == Everybody - {3} && !s.failed
    && s.peers.Keys == {2, 3} && s.peers[2].up == [Up.Accept(3)]
  }

  lemma OneValue(listed: map<NodeId, bool>, self: NodeId, proposer: NodeId, v: Value, from: nat)
    ensures ListAfter(listed, [v], from) == Heeded(listed, v, from)
    ensures FateAfter(listed, self, proposer, [v], from) == FateOf(listed, self, proposer, v)
  {
    assert [v][..0] == [];
    assert FateAt(listed, self, proposer, [v], from, 0) == FateOf(listed, self, proposer, v);
  }

  lemma PartTakesOff()
    ensures Learned(Lead(Decreed, 2, []), Lead(Gone, 3, [Loss])) == [Loss]
    ensures ListAfter(Everybody, [Loss], 2) == Everybody - {3}
    ensures FateOn(Everybody, Lead(Decreed, 2, []), Lead(Gone, 3, [Loss])) == Stays
  {
    OneValue(Everybody, 1, 1, Loss, 2);
    hide ListAfter, FateAfter;
  }

  lemma ChatIsFatal()
    ensures Learned(Lead(Gone, 3, [Loss]), Lead(Heard, 4, [Loss, Chat])) == [Chat]
    ensures FateOn(Everybody - {3}, Lead(Gone, 3, [Loss]), Lead(Heard, 4, [Loss, Chat])) == Fails
  {
    OneValue(Everybody - {3}, 1, 1, Chat, 3);
    hide ListAfter, FateAfter;
  }

  /** What hearing the vote makes of the system, when it leads the proposer to `m`. */
  lemma VoteHeard(s: State, i: nat, m: Node)
    requires s.p.alive && s.p.ihole > 0 && s.peers.Keys == {2, 3} && s.peers[2].up != [] && s.peers[2].up[0] == Up.Accept(i)
    requires s.p.id == 1 && m == AckAccept(s.p, s.p.ballot, i, true, {1, 2, 3}).node
    ensures var t := HearUp(s, 2, true);
      && t.p == m && t.listed == s.listed && t.failed == s.failed
      && t.peers.Keys == s.peers.Keys && t.peers[2].up == s.peers[2].up[1..]
  {
    hide AckAccept;
    var q := s.peers[2];
    var u := s.(peers := s.peers[2 := q.(up := q.up[1..])]);
    assert Members(u) == {1, 2, 3};
    assert HearUp(s, 2, true) == HearAccept(u, i, true);
  }

  lemma PartPasses(s: State, log: Log) returns (t: State)
    requires At(s, Lead(Decreed, 2, []), Second(log, [], [Up.Accept(2), Up.Accept(3)], false))
    ensures Bereft(t)
  {
    hide Reaches, AckAccept, Learned, ListAfter, FateOn, HearUp;
    PartLearned();
    PartTakesOff();
    t := Apply(s, Hear(2, true));
    ReachesNext(s, Hear(2, true));
    VoteHeard(s, 2, Lead(Gone, 3, [Loss]));
  }

  lemma ChatPasses(s: State) returns (t: State)
    requires Bereft(s)
    ensures Reaches(t) && t.failed && !t.p.alive
  {
    hide Reaches, AckAccept, Learned, ListAfter, FateOn, HearUp;
    ChatLearned();
    ChatIsFatal();
    t := Apply(s, Hear(2, true));
    ReachesNext(s, Hear(2, true));
    VoteHeard(s, 3, Lead(Heard, 4, [Loss, Chat]));
  }

  lemma Unlinks(s: State, log: Log) returns (t: State)
    requires At(s, Lead(log, 2, []), Second(Bare, [Down.Decree(2, Loss)] + [Down.Decree(3, Chat)], [], true))
    ensures At(t, Lead(log, 2, []), Second(Bare, [Down.Decree(2, Loss)] + [Down.Decree(3, Chat)], [], false))
  {
    hide Reaches;
    t := Apply(s, Relink(2, 3, false));
    ReachesNext(s, Relink(2, 3, false));
    assert map[1 := true, 2 := false, 3 := true][3 := false] == map[1 := true, 2 := false, 3 := false];
  }

  lemma NextNumbers()
    ensures NextInstance(Bare) == 2 && NextInstance(Bare[2 := Open(Loss, 1)]) == 3
  {
    LogFacts();
    assert 2 in Bare[2 := Open(Loss, 1)];
    assert Last(Bare[2 := Open(Loss, 1)]) == 2;
  }

  /** The part and the chat are decreed, and 2, which loses its connection to 3, votes for both. */
  lemma BothDecreed() returns (s: State)
    ensures At(s, Lead(Decreed, 2, []), Second(Bare, [Down.Decree(2, Loss)] + [Down.Decree(3, Chat)], [], false))
  {
    hide At, NextInstance, Open, Lead;
    NextNumbers();
    s := Starts();
    s := Proposes(s, Bare, Second(Bare, [], [], true), 2, Loss);
    Downs(Bare, true);
    s := Proposes(s, Bare[2 := Open(Loss, 1)], Second(Bare, [Down.Decree(2, Loss)], [], true), 3, Chat);
    s := Unlinks(s, Decreed);
  }

  lemma Downs(log: Log, linked: bool)
    ensures Second(log, [], [], linked).(down := [] + [Down.Decree(2, Loss)]) == Second(log, [Down.Decree(2, Loss)], [], linked)
    ensures Second(log, [], [], linked).down == [] && Second(log, [Down.Decree(2, Loss)], [], linked).down == [Down.Decree(2, Loss)]
    ensures Second(log, [Down.Decree(2, Loss)], [], linked).(down := [Down.Decree(2, Loss)] + [Down.Decree(3, Chat)]) ==
            Second(log, [Down.Decree(2, Loss)] + [Down.Decree(3, Chat)], [], linked)
  {
  }

  lemma BothVoted() returns (s: State)
    ensures At(s, Lead(Decreed, 2, []), Second(Bare[2 := Open(Loss, 0)][3 := Open(Chat, 0)], [], [Up.Accept(2), Up.Accept(3)], false))
  {
    hide At, Second;
    s := BothDecreed();
    s := Votes(s, Lead(Decreed, 2, []), Bare, 2, Loss, [Down.Decree(3, Chat)], []);
    assert [] + [Up.Accept(2)] == [Up.Accept(2)] && [Down.Decree(3, Chat)] + [] == [Down.Decree(3, Chat)];
    s := Votes(s, Lead(Decreed, 2, []), Bare[2 := Open(Loss, 0)], 3, Chat, [], [Up.Accept(2)]);
    assert [Up.Accept(2)] + [Up.Accept(3)] == [Up.Accept(2), Up.Accept(3)];
  }

  /** Members do fail when they learn: a run from a group just started ends with
      the proposer learning a chat from someone it has parted. */
  lemma UnlistedChatIsReached() returns (run: seq<State>)
    ensures Truncation.IsRun(run) && run[0] == Handover.Started(1, {2, 3}, Founding)
    ensures var t := run[|run| - 1]; t.failed && !t.p.alive
  {
    hide At, Truncation.Init, Truncation.Next, Bereft;
    var s := BothVoted();
    s := PartPasses(s, Bare[2 := Open(Loss, 0)][3 := Open(Chat, 0)]);
    s := ChatPasses(s);
    run :| Truncation.IsRun(run) && run[0] == Handover.Started(1, {2, 3}, Founding) && run[|run| - 1] == s;
  }
}
