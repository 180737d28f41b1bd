/** A run of nine participants in which a recommit makes two of them commit
    different values.

    Participant 1 decrees `W`, and 3, 8 and 9 vote.  Participant 2 prepares with
    4 to 7, which know nothing of it, decrees `V` and then `X`, and commits both
    with their votes.  Participant 3 hears of the commit of `X` only, and retries
    the hole before it, under the old ballot, which is the only one it has
    promised.  The recommit reaches 4 and 5, which commit `V` and put the
    retrier's ballot on the entry.  Now 3 prepares above everyone, and 4, 5, 8
    and 9 promise.  They report `V` and `W` under one ballot, so 3 keeps `W`,
    decrees it, and commits it with 6 to 9. */
module LoweredLabels {
  import opened Types
  import opened Quorums
  import opened Voting
  import opened Node
  import opened Protocol
  import opened Answers
  import opened Scenes
  import opened StaleLabels
  import opened Agreement

  const Word := Value(DecChat, ReqId(3, 1), 0)
  const Kill := Value(DecKill, ReqId(2, 1), 1)
  const Next3 := Value(DecChat, ReqId(4, 1), 0)

  const OnlyRelabels := Leave(false, true)
  const Clean := Ledger(map[], OnlyRelabels)

  const Nine: set<NodeId> := {1, 2, 3, 4, 5, 6, 7, 8, 9}

  function Open(b: Ballot, v: Value, votes: nat): Entry {
    Entry(b, v, false, false, false, votes)
  }

  const WordLog: Log := Bare[2 := Open(Low, Word, 0)]
  const KillLog: Log := Bare[2 := Open(Mid, Kill, 0)]
  const BothLog: Log := KillLog[3 := Open(Mid, Next3, 0)]
  const Lowered: Log := Bare[2 := Entry(Low, Kill, true, true, true, 0)][3 := Open(Mid, Next3, 0)]
  const AheadLog: Log := WordLog[3 := Entry(Mid, Next3, true, true, false, 0)]

  /** A follower but for its id. */
  datatype Mold = Mold(ballot: Ballot, proposer: NodeId, log: Log, ihole: nat, learns: seq<Value>)

  function Make(a: NodeId, m: Mold): Node {
    Node(a, true, m.ballot, m.ballot.gen, m.proposer, None, m.log, m.ihole, 0, m.learns)
  }

  const Fresh0 := Mold(Low, 1, Bare, 2, [])
  const WithWord := Mold(Low, 1, WordLog, 2, [])
  const Turned2 := Mold(Low, 2, Bare, 2, [])
  const Pledged2 := Mold(Mid, 2, Bare, 2, [])
  const WithKill := Mold(Mid, 2, KillLog, 2, [])
  const WithBoth := Mold(Mid, 2, BothLog, 2, [])
  const Relabelled := Mold(Mid, 2, Lowered, 3, [Kill])

  function Bid2(acks: nat): Node {
    Node(2, true, Low, 2, 2, Some(Prep(Mid, acks, 1)), Bare, 2, 0, [])
  }

  function Lead2(log: Log, ihole: nat, learns: seq<Value>): Node {
    Node(2, true, Mid, 2, 2, None, log, ihole, 0, learns)
  }

  function Bid3(b: Ballot, acks: nat): Node {
    Node(3, true, Low, b.gen, 3, Some(Prep(b, acks, 2)), AheadLog, 2, 0, [])
  }

  function Lead3(votes: nat): Node {
    Node(3, true, Late, 3, 3, None, Bare[2 := Open(Late, Word, votes)][3 := Entry(Mid, Next3, true, true, false, 0)], 2, 0, [])
  }

  /** Participants 4 and 5 are made in the mold `p`, 6 and 7 in `q`, 8 and 9 in `r`. */
  function Cast9(n1: Node, n2: Node, n3: Node, p: Mold, q: Mold, r: Mold): map<NodeId, Node> {
    map[1 := n1, 2 := n2, 3 := n3, 4 := Make(4, p), 5 := Make(5, p), 6 := Make(6, q), 7 := Make(7, q), 8 := Make(8, r), 9 := Make(9, r)]
  }

  lemma NineAre()
    ensures |Nine| == 9 && Majority(|Nine|) == 5 && 3 in Nine
  {
  }

  lemma CastAre(n1: Node, n2: Node, n3: Node, p: Mold, q: Mold, r: Mold)
    ensures var ns := Cast9(n1, n2, n3, p, q, r);
      && ns.Keys == Nine && ns[1] == n1 && ns[2] == n2 && ns[3] == n3
      && (forall c :: c in {4, 5} ==> ns[c] == Make(c, p))
      && (forall c :: c in {6, 7} ==> ns[c] == Make(c, q))
      && (forall c :: c in {8, 9} ==> ns[c] == Make(c, r))
  {
    hide Make;
  }

  lemma CastFirst(n1: Node, n2: Node, n3: Node, p: Mold, q: Mold, r: Mold, n: Node)
    ensures Cast9(n1, n2, n3, p, q, r)[1 := n] == Cast9(n, n2, n3, p, q, r)
  {
    hide Make;
  }

  lemma CastSecond(n1: Node, n2: Node, n3: Node, p: Mold, q: Mold, r: Mold, n: Node)
    ensures Cast9(n1, n2, n3, p, q, r)[2 := n] == Cast9(n1, n, n3, p, q, r)
  {
    hide Make;
  }

  lemma CastThird(n1: Node, n2: Node, n3: Node, p: Mold, q: Mold, r: Mold, n: Node)
    ensures Cast9(n1, n2, n3, p, q, r)[3 := n] == Cast9(n1, n2, n, p, q, r)
  {
    hide Make;
  }

  lemma CastMoved(n1: Node, n2: Node, n3: Node, p: Mold, q: Mold, r: Mold, movers: set<NodeId>, after: NodeId -> Node, m: Mold)
    requires forall c :: c in movers ==> after(c) == Make(c, m)
    ensures movers == {4, 5} ==> Moved(Cast9(n1, n2, n3, p, q, r), movers, after) == Cast9(n1, n2, n3, m, q, r)
    ensures movers == {6, 7} ==> Moved(Cast9(n1, n2, n3, p, q, r), movers, after) == Cast9(n1, n2, n3, p, m, r)
    ensures movers == {8, 9} ==> Moved(Cast9(n1, n2, n3, p, q, r), movers, after) == Cast9(n1, n2, n3, p, q, m)
  {
    hide Make;
  }

  lemma CastDeferring(n1: Node, n2: Node, n3: Node, p: Mold, q: Mold, r: Mold, to: NodeId)
    ensures Deferring(Cast9(n1, n2, n3, p, q, r), {4, 5, 6, 7}, to)
            == Cast9(n1, n2, n3, p.(proposer := to), q.(proposer := to), r)
    ensures Deferring(Cast9(n1, n2, n3, p, q, r), {4, 5, 6, 7, 8, 9}, to)
            == Cast9(n1, n2, n3, p.(proposer := to), q.(proposer := to), r.(proposer := to))
  {
    forall c, m ensures Defer(Make(c, m), to) == Make(c, m.(proposer := to)) { }
    hide Make, Defer;
  }

  /** One made in the mold `m` handles a message, and is then one made in `m'`. */
  predicate Handles(c: NodeId, m: Mold, letter: Message, m': Mold, reply: Message) {
    && m.log != map[] && Receiver(letter) == c
    && Handle(Make(c, m), letter, true, Nine) == Outcome(Make(c, m'), {reply})
  }

  /** Both of a pair, made in one mold, handle a message alike. */
  lemma PairTakes(f: Full, ns: map<NodeId, Node>, mail: set<Message>, told: set<Answer>,
                  pair: set<NodeId>, m: Mold, letter: NodeId -> Message, m': Mold, reply: NodeId -> Message) returns (g: Full)
    requires Scene(f, ns, mail, told, Clean) && ns.Keys == Nine
    requires forall c :: c in pair ==>
               c in Nine && ns[c] == Make(c, m) && letter(c) in mail && Handles(c, m, letter(c), m', reply(c)) && Receiver(reply(c)) !in pair
    ensures Scene(g, Moved(ns, pair, (c: NodeId) => Make(c, m')), mail - MailOf(pair, letter) + MailOf(pair, reply), told, Clean)
  {
    hide Scene, Handles, Moved, MailOf, CanTake, Make;
    forall c | c in pair ensures CanTake(ns, c, letter(c), Make(c, m'), reply(c)) { PairCan(ns, c, m, letter(c), m', reply(c)); }
    g := TakesEach(f, ns, mail, told, Clean, pair, letter, (c: NodeId) => Make(c, m'), reply);
  }

  lemma PairCan(ns: map<NodeId, Node>, c: NodeId, m: Mold, letter: Message, m': Mold, reply: Message)
    requires ns.Keys == Nine && c in Nine && ns[c] == Make(c, m) && Handles(c, m, letter, m', reply)
    ensures CanTake(ns, c, letter, Make(c, m'), reply)
  {
    hide Handle;
  }

  /** What is on its way after a pair has handled `letter` and sent `reply`. */
  predicate MailAfter(mail: set<Message>, pair: set<NodeId>, reply: NodeId -> Message, mail': set<Message>) {
    && (forall c :: c in pair ==> reply(c) in mail')
    && (forall x :: x in mail && Receiver(x) !in pair ==> x in mail')
  }

  lemma MailGoesOn(mail: set<Message>, pair: set<NodeId>, letter: NodeId -> Message, reply: NodeId -> Message)
    requires forall c :: c in pair ==> Receiver(letter(c)) == c
    ensures MailAfter(mail, pair, reply, mail - MailOf(pair, letter) + MailOf(pair, reply))
  {
  }

  lemma Receivers(pair: set<NodeId>, m: Mold, letter: NodeId -> Message, m': Mold, reply: NodeId -> Message)
    requires forall c :: c in pair ==> Handles(c, m, letter(c), m', reply(c))
    ensures forall c :: c in pair ==> Receiver(letter(c)) == c
  {
  }

  lemma Pair45(f: Full, n1: Node, n2: Node, n3: Node, p: Mold, q: Mold, r: Mold, mail: set<Message>, told: set<Answer>,
               letter: NodeId -> Message, m: Mold, reply: NodeId -> Message) returns (g: Full, mail': set<Message>)
    requires Scene(f, Cast9(n1, n2, n3, p, q, r), mail, told, Clean)
    requires forall c :: c in {4, 5} ==> letter(c) in mail && Handles(c, p, letter(c), m, reply(c)) && Receiver(reply(c)) !in {4, 5}
    ensures Scene(g, Cast9(n1, n2, n3, m, q, r), mail', told, Clean) && MailAfter(mail, {4, 5}, reply, mail')
  {
    hide Scene, Handles, Moved, MailOf, Make, Cast9, MailAfter;
    CastAre(n1, n2, n3, p, q, r);
    var pair: set<NodeId> := {4, 5};
    var after := (c: NodeId) => Make(c, m);
    g := PairTakes(f, Cast9(n1, n2, n3, p, q, r), mail, told, pair, p, letter, m, reply);
    CastMoved(n1, n2, n3, p, q, r, pair, (c: NodeId) => Make(c, m), m);
    Receivers(pair, p, letter, m, reply);
    MailGoesOn(mail, pair, letter, reply);
    mail' := mail - MailOf(pair, letter) + MailOf(pair, reply);
  }

  lemma Pair67(f: Full, n1: Node, n2: Node, n3: Node, p: Mold, q: Mold, r: Mold, mail: set<Message>, told: set<Answer>,
               letter: NodeId -> Message, m: Mold, reply: NodeId -> Message) returns (g: Full, mail': set<Message>)
    requires Scene(f, Cast9(n1, n2, n3, p, q, r), mail, told, Clean)
    requires forall c :: c in {6, 7} ==> letter(c) in mail && Handles(c, q, letter(c), m, reply(c)) && Receiver(reply(c)) !in {6, 7}
    ensures Scene(g, Cast9(n1, n2, n3, p, m, r), mail', told, Clean) && MailAfter(mail, {6, 7}, reply, mail')
  {
    hide Scene, Handles, Moved, MailOf, Make, Cast9, MailAfter;
    CastAre(n1, n2, n3, p, q, r);
    var pair: set<NodeId> := {6, 7};
    g := PairTakes(f, Cast9(n1, n2, n3, p, q, r), mail, told, pair, q, letter, m, reply);
    CastMoved(n1, n2, n3, p, q, r, pair, (c: NodeId) => Make(c, m), m);
    Receivers(pair, q, letter, m, reply);
    MailGoesOn(mail, pair, letter, reply);
    mail' := mail - MailOf(pair, letter) + MailOf(pair, reply);
  }

  lemma Pair89(f: Full, n1: Node, n2: Node, n3: Node, p: Mold, q: Mold, r: Mold, mail: set<Message>, told: set<Answer>,
               letter: NodeId -> Message, m: Mold, reply: NodeId -> Message) returns (g: Full, mail': set<Message>)
    requires Scene(f, Cast9(n1, n2, n3, p, q, r), mail, told, Clean)
    requires forall c :: c in {8, 9} ==> letter(c) in mail && Handles(c, r, letter(c), m, reply(c)) && Receiver(reply(c)) !in {8, 9}
    ensures Scene(g, Cast9(n1, n2, n3, p, q, m), mail', told, Clean) && MailAfter(mail, {8, 9}, reply, mail')
  {
    hide Scene, Handles, Moved, MailOf, Make, Cast9, MailAfter;
    CastAre(n1, n2, n3, p, q, r);
    var pair: set<NodeId> := {8, 9};
    g := PairTakes(f, Cast9(n1, n2, n3, p, q, r), mail, told, pair, r, letter, m, reply);
    CastMoved(n1, n2, n3, p, q, r, pair, (c: NodeId) => Make(c, m), m);
    Receivers(pair, r, letter, m, reply);
    MailGoesOn(mail, pair, letter, reply);
    mail' := mail - MailOf(pair, letter) + MailOf(pair, reply);
  }

  // ---- What the handlers do.

  lemma Logs()
    ensures Bare != map[] && WordLog != map[] && KillLog != map[] && BothLog != map[] && Lowered != map[] && AheadLog != map[]
    ensures Types.Last(Bare) == 1 && Types.Last(KillLog) == 2 && Types.Last(AheadLog) == 3
  {
    LogFacts();
    assert 2 in WordLog && 2 in KillLog && 3 in BothLog && 3 in Lowered && 3 in AheadLog;
  }

  lemma WordDecreed()
    ensures var o := EnterDecree(Under(1, Low, Bare), Word, Nine);
      && o.node == Make(1, Mold(Low, 1, Bare[2 := Open(Low, Word, 1)], 2, []))
      && forall c :: c in {3, 8, 9} ==> Decree(c, Low, 2, Word) in o.sent
  {
    Logs();
  }

  lemma WordVoted(c: NodeId)
    requires c != 1
    ensures Handles(c, Fresh0, Decree(c, Low, 2, Word), WithWord, Accept(c, Low, 2))
  {
    Logs();
  }

  lemma Asked2()
    ensures var o := StartPrepare(Under(2, Low, Bare), Nine);
      o.node == Bid2(1) && forall c :: c in {4, 5, 6, 7} ==> Prepare(c, Mid, 2) in o.sent
  {
  }

  lemma Pledged(c: NodeId, report: Log)
    requires c != 2 && report == Report(Bare, 2)
    ensures Handles(c, Turned2, Prepare(c, Mid, 2), Pledged2, Promise(c, Mid, 2, report))
  {
    hide Report;
    Logs();
  }

  lemma BareAddsNothing2(acks: nat)
    ensures AddsNothing(Bid2(acks), Report(Bare, 2))
  {
    BareAddsNothing(Bid2(acks));
  }

  lemma Promised2(report: Log)
    requires report == Report(Bare, 2)
    ensures Bid2(4).log != map[] && AckPromise(Bid2(4), Mid, report, Nine).node == Lead2(Bare, 2, [])
  {
    hide CompletePrepare, Merge, Report;
    NineAre();
    Logs();
    BareAddsNothing2(4);
    NothingOpen(Bid2(5), Mid, Nine);
    assert Merged(Bid2(4), report) == Bid2(5);
  }

  // ---- Participant 1 decrees.

  const After1 := Make(1, Mold(Low, 1, Bare[2 := Open(Low, Word, 1)], 2, []))
  const Start2 := Under(2, Low, Bare)
  const Start3 := Under(3, Low, Bare)

  function First9(): State {
    var votes := set a | a in Nine :: Vote(a, 1, Low, Founding);
    State(
      map a | a in Nine :: StartNode(a, Founder, Founding), multiset{},
      History(map a | a in Nine :: Low, votes, votes, map[(Low, 1) := Founding], map[Low := Nine]),
      map a | a in Nine :: {}, map[(Low, 1) := Nine])
  }

  lemma First9Initial()
    ensures Init(First9(), Founder, Founding)
  {
    hide Majority;
    var s := First9();
    assert s.nodes.Keys == Nine;
    assert s.nodes == map a | a in s.nodes :: StartNode(a, Founder, Founding);
    assert s.hist.promised == map a | a in s.nodes :: Low;
    assert s.acked == map a | a in s.nodes :: {};
  }

  lemma First9Cast()
    ensures First9().nodes == Cast9(Under(1, Low, Bare), Start2, Start3, Fresh0, Fresh0, Fresh0)
    ensures First9().acked.Keys == First9().nodes.Keys
  {
  }

  lemma Opens9() returns (f: Full)
    ensures Scene(f, Cast9(Under(1, Low, Bare), Start2, Start3, Fresh0, Fresh0, Fresh0), {}, {}, Clean)
  {
    hide Init, Cast9;
    First9Initial();
    First9Cast();
    hide First9;
    f := Full(First9(), multiset{}, map[]);
    assert IsFullRun([f], Founder, Founding, OnlyRelabels);
    assert [f][|[f]| - 1] == f;
  }

  /** Participant 1 decrees `Word`. */
  lemma DecreesWord() returns (f: Full, mail: set<Message>)
    ensures Scene(f, Cast9(After1, Start2, Start3, Fresh0, Fresh0, Fresh0), mail, {}, Clean)
    ensures forall c :: c in {3, 8, 9} ==> Decree(c, Low, 2, Word) in mail
  {
    hide Scene, EnterDecree, Cast9, Majority;
    f := Opens9();
    CastAre(Under(1, Low, Bare), Start2, Start3, Fresh0, Fresh0, Fresh0);
    CastFirst(Under(1, Low, Bare), Start2, Start3, Fresh0, Fresh0, Fresh0, After1);
    NineAre();
    WordDecreed();
    mail := EnterDecree(Under(1, Low, Bare), Word, Nine).sent;
    f := Decides(f, Cast9(Under(1, Low, Bare), Start2, Start3, Fresh0, Fresh0, Fresh0), {}, {}, Clean, 1, Word, After1, mail);
    assert {} + mail == mail;
  }

  /** Participants 3, 8 and 9 vote for it. */
  lemma VoteForWord() returns (f: Full)
    ensures Scene(f, Cast9(After1, Start2, Make(3, WithWord), Fresh0, Fresh0, WithWord), {}, {}, Clean)
  {
    hide Scene, AckDecree, Cast9, MailAfter;
    var mail;
    f, mail := DecreesWord();
    CastAre(After1, Start2, Start3, Fresh0, Fresh0, Fresh0);
    CastThird(After1, Start2, Start3, Fresh0, Fresh0, Fresh0, Make(3, WithWord));
    WordVoted(3);
    assert Start3 == Make(3, Fresh0);
    f := Takes(f, Cast9(After1, Start2, Start3, Fresh0, Fresh0, Fresh0), mail, {}, Clean,
               3, Decree(3, Low, 2, Word), Make(3, WithWord), {Accept(3, Low, 2)});
    mail := mail - {Decree(3, Low, 2, Word)} + {Accept(3, Low, 2)};
    WordVoted(8);
    WordVoted(9);
    hide Handles;
    f, mail := Pair89(f, After1, Start2, Make(3, WithWord), Fresh0, Fresh0, Fresh0, mail, {},
                      (c: NodeId) => Decree(c, Low, 2, Word), WithWord, (c: NodeId) => Accept(c, Low, 2));
    LessMail(f, Cast9(After1, Start2, Make(3, WithWord), Fresh0, Fresh0, WithWord), mail, {}, Clean, {});
  }

  const Word3 := Make(3, WithWord)

  // ---- Participant 2 takes over.

  /** Participant 2 prepares, and 4 to 7 turn to it. */
  lemma Asks2() returns (f: Full, mail: set<Message>)
    ensures Scene(f, Cast9(After1, Bid2(1), Word3, Turned2, Turned2, WithWord), mail, {}, Clean)
    ensures forall c :: c in {4, 5, 6, 7} ==> Prepare(c, Mid, 2) in mail
  {
    hide Scene, StartPrepare, Cast9;
    f := VoteForWord();
    CastAre(After1, Start2, Word3, Fresh0, Fresh0, WithWord);
    CastSecond(After1, Start2, Word3, Fresh0, Fresh0, WithWord, Bid2(1));
    Asked2();
    mail := StartPrepare(Start2, Nine).sent;
    f := Bids(f, Cast9(After1, Start2, Word3, Fresh0, Fresh0, WithWord), {}, {}, Clean, 2, Bid2(1), mail);
    assert {} + mail == mail;
    CastAre(After1, Bid2(1), Word3, Fresh0, Fresh0, WithWord);
    f := TurnsEach(f, Cast9(After1, Bid2(1), Word3, Fresh0, Fresh0, WithWord), mail, {}, Clean, {4, 5, 6, 7}, 2);
    CastDeferring(After1, Bid2(1), Word3, Fresh0, Fresh0, WithWord, 2);
  }

  /** They promise. */
  lemma Promise4(report: Log) returns (f: Full, mail: set<Message>)
    requires report == Report(Bare, 2)
    ensures Scene(f, Cast9(After1, Bid2(1), Word3, Pledged2, Pledged2, WithWord), mail, {}, Clean)
    ensures forall c :: c in {4, 5, 6, 7} ==> Promise(c, Mid, 2, report) in mail
  {
    hide Scene, Handles, Cast9, Report;
    f, mail := Asks2();
    forall c: NodeId | c in {4, 5, 6, 7} ensures Handles(c, Turned2, Prepare(c, Mid, 2), Pledged2, Promise(c, Mid, 2, report)) { Pledged(c, report); }
    f, mail := Pair45(f, After1, Bid2(1), Word3, Turned2, Turned2, WithWord, mail, {},
                      (c: NodeId) => Prepare(c, Mid, 2), Pledged2, (c: NodeId) => Promise(c, Mid, 2, report));
    f, mail := Pair67(f, After1, Bid2(1), Word3, Pledged2, Turned2, WithWord, mail, {},
                      (c: NodeId) => Prepare(c, Mid, 2), Pledged2, (c: NodeId) => Promise(c, Mid, 2, report));
  }

  /** Participant 2 counts the promises. */
  lemma Leads2() returns (f: Full)
    ensures Scene(f, Cast9(After1, Lead2(Bare, 2, []), Word3, Pledged2, Pledged2, WithWord), {}, {}, Clean)
  {
    hide Scene, AckPromise, Cast9, Report, AddsNothing;
    var report, mail := Report(Bare, 2), {};
    f, mail := Promise4(report);
    CastAre(After1, Bid2(1), Word3, Pledged2, Pledged2, WithWord);
    CastSecond(After1, Bid2(1), Word3, Pledged2, Pledged2, WithWord, Bid2(4));
    NineAre();
    Logs();
    BareAddsNothing2(1);
    assert |{4, 5, 6}| == 3;
    f := CollectsEach(f, Cast9(After1, Bid2(1), Word3, Pledged2, Pledged2, WithWord), mail, {}, Clean, 2, {4, 5, 6}, 2, report);
    mail := mail - PromisesFrom({4, 5, 6}, Mid, 2, report);
    assert WithAcks(Bid2(1), 3) == Bid2(4);
    CastAre(After1, Bid2(4), Word3, Pledged2, Pledged2, WithWord);
    CastSecond(After1, Bid2(4), Word3, Pledged2, Pledged2, WithWord, Lead2(Bare, 2, []));
    Promised2(report);
    var sent := AckPromise(Bid2(4), Mid, report, Nine).sent;
    f := Takes(f, Cast9(After1, Bid2(4), Word3, Pledged2, Pledged2, WithWord), mail, {}, Clean,
               2, Promise(7, Mid, 2, report), Lead2(Bare, 2, []), sent);
    LessMail(f, Cast9(After1, Lead2(Bare, 2, []), Word3, Pledged2, Pledged2, WithWord),
             mail - {Promise(7, Mid, 2, report)} + sent, {}, Clean, {});
  }

  // ---- Participant 2 decrees and commits.

  function Two(kill: Entry, next: Entry): Log {
    Bare[2 := kill][3 := next]
  }

  const Killed := Entry(Mid, Kill, true, true, true, 5)

  lemma KillDecreed()
    ensures var o := EnterDecree(Lead2(Bare, 2, []), Kill, Nine);
      && o.node == Lead2(Bare[2 := Open(Mid, Kill, 1)], 2, [])
      && forall c :: c in {4, 5, 6, 7} ==> Decree(c, Mid, 2, Kill) in o.sent
  {
    Logs();
  }

  lemma NextDecreed()
    ensures var o := EnterDecree(Lead2(Bare[2 := Open(Mid, Kill, 1)], 2, []), Next3, Nine);
      && o.node == Lead2(Two(Open(Mid, Kill, 1), Open(Mid, Next3, 1)), 2, [])
      && forall c :: c in {4, 5, 6, 7} ==> Decree(c, Mid, 3, Next3) in o.sent
  {
    assert 2 in Bare[2 := Open(Mid, Kill, 1)];
    assert Types.Last(Bare[2 := Open(Mid, Kill, 1)]) == 2;
  }

  lemma KillVoted(c: NodeId)
    requires c != 2
    ensures Handles(c, Pledged2, Decree(c, Mid, 2, Kill), WithKill, Accept(c, Mid, 2))
    ensures Handles(c, WithKill, Decree(c, Mid, 3, Next3), WithBoth, Accept(c, Mid, 3))
  {
    Logs();
  }

  const Kill1 := Lead2(Bare[2 := Open(Mid, Kill, 1)], 2, [])

  lemma DecreesKill() returns (f: Full, mail: set<Message>)
    ensures Scene(f, Cast9(After1, Kill1, Word3, Pledged2, Pledged2, WithWord), mail, {}, Clean)
    ensures forall c :: c in {4, 5, 6, 7} ==> Decree(c, Mid, 2, Kill) in mail
  {
    hide Scene, EnterDecree, Cast9, Make, Majority;
    f := Leads2();
    NineAre();
    CastAre(After1, Lead2(Bare, 2, []), Word3, Pledged2, Pledged2, WithWord);
    CastSecond(After1, Lead2(Bare, 2, []), Word3, Pledged2, Pledged2, WithWord, Kill1);
    KillDecreed();
    mail := EnterDecree(Lead2(Bare, 2, []), Kill, Nine).sent;
    f := Decides(f, Cast9(After1, Lead2(Bare, 2, []), Word3, Pledged2, Pledged2, WithWord), {}, {}, Clean, 2, Kill, Kill1, mail);
    assert {} + mail == mail;
  }

  lemma VoteForKill() returns (f: Full, mail: set<Message>)
    ensures Scene(f, Cast9(After1, Kill1, Word3, WithKill, WithKill, WithWord), mail, {}, Clean)
    ensures forall c :: c in {4, 5, 6, 7} ==> Accept(c, Mid, 2) in mail
  {
    hide Scene, Cast9, Handles;
    f, mail := DecreesKill();
    forall c: NodeId | c in {4, 5, 6, 7} ensures Handles(c, Pledged2, Decree(c, Mid, 2, Kill), WithKill, Accept(c, Mid, 2)) { KillVoted(c); }
    f, mail := Pair45(f, After1, Kill1, Word3, Pledged2, Pledged2, WithWord, mail, {},
                      (c: NodeId) => Decree(c, Mid, 2, Kill), WithKill, (c: NodeId) => Accept(c, Mid, 2));
    f, mail := Pair67(f, After1, Kill1, Word3, WithKill, Pledged2, WithWord, mail, {},
                      (c: NodeId) => Decree(c, Mid, 2, Kill), WithKill, (c: NodeId) => Accept(c, Mid, 2));
  }

  const Both1 := Lead2(Two(Open(Mid, Kill, 1), Open(Mid, Next3, 1)), 2, [])

  lemma DecreesNext() returns (f: Full, mail: set<Message>)
    ensures Scene(f, Cast9(After1, Both1, Word3, WithKill, WithKill, WithWord), mail, {}, Clean)
    ensures forall c :: c in {4, 5, 6, 7} ==> Accept(c, Mid, 2) in mail && Decree(c, Mid, 3, Next3) in mail
  {
    hide Scene, EnterDecree, Cast9, Make, Majority, Two;
    f, mail := VoteForKill();
    NineAre();
    CastAre(After1, Kill1, Word3, WithKill, WithKill, WithWord);
    CastSecond(After1, Kill1, Word3, WithKill, WithKill, WithWord, Both1);
    NextDecreed();
    var sent := EnterDecree(Kill1, Next3, Nine).sent;
    f := Decides(f, Cast9(After1, Kill1, Word3, WithKill, WithKill, WithWord), mail, {}, Clean, 2, Next3, Both1, sent);
    mail := mail + sent;
  }

  lemma VoteForNext() returns (f: Full, mail: set<Message>)
    ensures Scene(f, Cast9(After1, Both1, Word3, WithBoth, WithBoth, WithWord), mail, {}, Clean)
    ensures forall c :: c in {4, 5, 6, 7} ==> Accept(c, Mid, 2) in mail && Accept(c, Mid, 3) in mail
  {
    hide Scene, Cast9, Handles, Two;
    f, mail := DecreesNext();
    forall c: NodeId | c in {4, 5, 6, 7} ensures Handles(c, WithKill, Decree(c, Mid, 3, Next3), WithBoth, Accept(c, Mid, 3)) { KillVoted(c); }
    f, mail := Pair45(f, After1, Both1, Word3, WithKill, WithKill, WithWord, mail, {},
                      (c: NodeId) => Decree(c, Mid, 3, Next3), WithBoth, (c: NodeId) => Accept(c, Mid, 3));
    f, mail := Pair67(f, After1, Both1, Word3, WithBoth, WithKill, WithWord, mail, {},
                      (c: NodeId) => Decree(c, Mid, 3, Next3), WithBoth, (c: NodeId) => Accept(c, Mid, 3));
  }

  lemma TwoAre(kill: Entry, next: Entry)
    ensures var log := Two(kill, next);
      log.Keys == {1, 2, 3} && log != map[] && log[1] == Bare[1] && log[2] == kill && log[3] == next
    ensures forall e :: Two(kill, next)[2 := e] == Two(e, next)
    ensures forall e :: Two(kill, next)[3 := e] == Two(kill, e)
  {
    assert 2 in Two(kill, next);
    forall e ensures Two(kill, next)[2 := e] == Two(e, next) { }
    forall e ensures Two(kill, next)[3 := e] == Two(kill, e) { }
  }

  lemma KillLearned()
    ensures var n := Lead2(Two(Open(Mid, Kill, 4), Open(Mid, Next3, 1)), 2, []);
      AckAccept(n, Mid, 2, true, Nine).node == Lead2(Two(Killed, Open(Mid, Next3, 1)), 3, [Kill])
  {
    hide LearnRun, Two, Nine;
    assert Majority(|Nine|) == 5 by { NineAre(); }
    TwoAre(Open(Mid, Kill, 4), Open(Mid, Next3, 1));
    TwoAre(Open(Mid, Kill, 5), Open(Mid, Next3, 1));
    KillRuns(Lead2(Two(Entry(Mid, Kill, true, true, false, 5), Open(Mid, Next3, 1)), 2, []));
  }

  lemma KillRuns(x: Node)
    requires x == Lead2(Two(Entry(Mid, Kill, true, true, false, 5), Open(Mid, Next3, 1)), 2, [])
    ensures LearnRun(x) == Lead2(Two(Killed, Open(Mid, Next3, 1)), 3, [Kill])
  {
    assert Ready(x.log, 2) && !Ready(x.log, 3);
    assert HoleAfter(x.log, 3) == 3 && HoleAfter(x.log, 2) == 3;
    assert Values(x.log, 2, 3) == [Kill];
    assert LearnRun(x).log == Two(Killed, Open(Mid, Next3, 1));
  }

  /** The second commit: the kill stays committed, and the commit goes out. */
  lemma NextCommitted()
    ensures var o := AckAccept(Lead2(Two(Killed, Open(Mid, Next3, 4)), 3, [Kill]), Mid, 3, true, Nine);
      && o.node.alive && IsProposer(o.node) && CommittedIn(o.node.log, 2) && o.node.log[2].value == Kill
      && Commit(3, Mid, 3, Next3) in o.sent
  {
    hide HoleAfter, Values, Two, Nine;
    assert Majority(|Nine|) == 5 && 3 in Nine by { NineAre(); }
    TwoAre(Killed, Open(Mid, Next3, 4));
    TwoAre(Killed, Open(Mid, Next3, 5));
  }

  lemma CountedKills()
    ensures WithVotes(Both1, 2, 3) == Lead2(Two(Open(Mid, Kill, 4), Open(Mid, Next3, 1)), 2, [])
    ensures var n := Lead2(Two(Killed, Open(Mid, Next3, 1)), 3, [Kill]);
      3 in n.log && WithVotes(n, 3, 3) == Lead2(Two(Killed, Open(Mid, Next3, 4)), 3, [Kill])
  {
    hide Two;
    TwoAre(Open(Mid, Kill, 1), Open(Mid, Next3, 1));
    TwoAre(Killed, Open(Mid, Next3, 1));
  }

  const Four2 := Lead2(Two(Open(Mid, Kill, 4), Open(Mid, Next3, 1)), 2, [])
  const Five2 := Lead2(Two(Killed, Open(Mid, Next3, 1)), 3, [Kill])

  lemma BothOpen()
    ensures Both1.alive && IsProposer(Both1) && Both1.ballot == Mid && 2 in Both1.log && Both1.log[2] == Open(Mid, Kill, 1)
    ensures Four2.alive && Four2.log != map[] && WithVotes(Both1, 2, 3) == Four2
    ensures AckAccept(Four2, Mid, 2, true, Nine).node == Five2
  {
    hide Two, WithVotes, AckAccept;
    TwoAre(Open(Mid, Kill, 1), Open(Mid, Next3, 1));
    TwoAre(Open(Mid, Kill, 4), Open(Mid, Next3, 1));
    CountedKills();
    KillLearned();
  }

  lemma CountsKills() returns (f: Full, mail: set<Message>)
    ensures Scene(f, Cast9(After1, Four2, Word3, WithBoth, WithBoth, WithWord), mail, {}, Clean)
    ensures forall c :: c in {4, 5, 6, 7} ==> Accept(c, Mid, 3) in mail
    ensures Accept(7, Mid, 2) in mail
  {
    hide Scene, AckAccept, Cast9, WithVotes, Both1, Four2, Five2;
    f, mail := VoteForNext();
    NineAre();
    BothOpen();
    assert |{4, 5, 6}| == 3;
    CastAre(After1, Both1, Word3, WithBoth, WithBoth, WithWord);
    CastSecond(After1, Both1, Word3, WithBoth, WithBoth, WithWord, Four2);
    f := CountsEach(f, Cast9(After1, Both1, Word3, WithBoth, WithBoth, WithWord), mail, {}, Clean, 2, {4, 5, 6}, 2);
    mail := mail - AcceptsOf({4, 5, 6}, Mid, 2);
  }

  /** Participant 2 commits the kill. */
  lemma CommitsKill() returns (f: Full, mail: set<Message>)
    ensures Scene(f, Cast9(After1, Five2, Word3, WithBoth, WithBoth, WithWord), mail, {}, Clean)
    ensures forall c :: c in {4, 5, 6, 7} ==> Accept(c, Mid, 3) in mail
  {
    hide Scene, AckAccept, Cast9, WithVotes, Both1, Four2, Five2;
    f, mail := CountsKills();
    NineAre();
    BothOpen();
    CastAre(After1, Four2, Word3, WithBoth, WithBoth, WithWord);
    CastSecond(After1, Four2, Word3, WithBoth, WithBoth, WithWord, Five2);
    var sent := AckAccept(Four2, Mid, 2, true, Nine).sent;
    f := Takes(f, Cast9(After1, Four2, Word3, WithBoth, WithBoth, WithWord), mail, {}, Clean, 2, Accept(7, Mid, 2), Five2, sent);
    mail := mail - {Accept(7, Mid, 2)} + sent;
  }

  /** A proposer that has committed the kill. */
  predicate HasKilled(n: Node) {
    n.alive && IsProposer(n) && CommittedIn(n.log, 2) && n.log[2].value == Kill
  }

  /** It commits the other too, and its commit is on its way to 3. */
  lemma CommitsNext() returns (f: Full, mail: set<Message>, n2: Node)
    ensures Scene(f, Cast9(After1, n2, Word3, WithBoth, WithBoth, WithWord), mail, {}, Clean)
    ensures HasKilled(n2) && Commit(3, Mid, 3, Next3) in mail
  {
    hide Scene, AckAccept, Cast9, Two, WithVotes;
    f, mail := CommitsKill();
    NineAre();
    CountedKills();
    assert |{4, 5, 6}| == 3;
    var one := Lead2(Two(Killed, Open(Mid, Next3, 1)), 3, [Kill]);
    var four := Lead2(Two(Killed, Open(Mid, Next3, 4)), 3, [Kill]);
    TwoAre(Killed, Open(Mid, Next3, 1));
    CastAre(After1, one, Word3, WithBoth, WithBoth, WithWord);
    CastSecond(After1, one, Word3, WithBoth, WithBoth, WithWord, four);
    f := CountsEach(f, Cast9(After1, one, Word3, WithBoth, WithBoth, WithWord), mail, {}, Clean, 2, {4, 5, 6}, 3);
    mail := mail - AcceptsOf({4, 5, 6}, Mid, 3);
    TwoAre(Killed, Open(Mid, Next3, 4));
    var o := AckAccept(four, Mid, 3, true, Nine);
    n2 := o.node;
    CastAre(After1, four, Word3, WithBoth, WithBoth, WithWord);
    CastSecond(After1, four, Word3, WithBoth, WithBoth, WithWord, n2);
    NextCommitted();
    f := Takes(f, Cast9(After1, four, Word3, WithBoth, WithBoth, WithWord), mail, {}, Clean, 2, Accept(7, Mid, 3), n2, o.sent);
    mail := mail - {Accept(7, Mid, 3)} + o.sent;
  }

  // ---- Participant 3 retries the hole.

  const Turned3 := Make(3, Mold(Low, 2, WordLog, 2, []))
  const Ahead3 := Make(3, Mold(Low, 2, AheadLog, 2, []))

  lemma Ahead()
    ensures AckCommit(Turned3, Mid, 3, Next3, true) == Outcome(Ahead3, {})
    ensures !IsProposer(Ahead3) && Ready(Ahead3.log, 3) && !CommittedIn(Ahead3.log, 2) && Ahead3.ihole == 2 && Ahead3.ballot == Low
    ensures Word3.alive && !Established(Word3) && Defer(Word3, 2) == Turned3
  {
    assert WordLog[3 := Open(Mid, Next3, 0)][3 := Entry(Mid, Next3, true, true, false, 0)] == AheadLog;
  }

  /** Participant 3 turns to 2, hears of the later commit, and retries. */
  lemma Retries3() returns (f: Full, n2: Node)
    ensures Scene(f, Cast9(After1, n2, Ahead3, WithBoth, WithBoth, WithWord), {}, {Retry(3, 2, Low, 2)}, Clean)
    ensures HasKilled(n2)
  {
    hide Scene, AckCommit, Cast9, HasKilled, Ready, CommittedIn;
    var mail;
    f, mail, n2 := CommitsNext();
    Ahead();
    Logs();
    CastAre(After1, n2, Word3, WithBoth, WithBoth, WithWord);
    CastThird(After1, n2, Word3, WithBoth, WithBoth, WithWord, Turned3);
    f := Turns(f, Cast9(After1, n2, Word3, WithBoth, WithBoth, WithWord), mail, {}, Clean, 3, 2);
    CastAre(After1, n2, Turned3, WithBoth, WithBoth, WithWord);
    CastThird(After1, n2, Turned3, WithBoth, WithBoth, WithWord, Ahead3);
    f := Takes(f, Cast9(After1, n2, Turned3, WithBoth, WithBoth, WithWord), mail, {}, Clean, 3, Commit(3, Mid, 3, Next3), Ahead3, {});
    mail := mail - {Commit(3, Mid, 3, Next3)} + {};
    CastAre(After1, n2, Ahead3, WithBoth, WithBoth, WithWord);
    f := Retries(f, Cast9(After1, n2, Ahead3, WithBoth, WithBoth, WithWord), mail, {}, Clean, 3, 3);
    assert {} + {Retry(3, 2, Low, 2)} == {Retry(3, 2, Low, 2)};
    LessMail(f, Cast9(After1, n2, Ahead3, WithBoth, WithBoth, WithWord), mail, {Retry(3, 2, Low, 2)}, Clean, {});
  }

  /** Participant 2 recommits. */
  lemma Recommits2() returns (f: Full, n2: Node, told: set<Answer>)
    ensures Scene(f, Cast9(After1, n2, Ahead3, WithBoth, WithBoth, WithWord), {}, told, Clean)
    ensures HasKilled(n2) && Recommit(4, 2, Low, 2, Kill) in told && Recommit(5, 2, Low, 2, Kill) in told
  {
    hide Scene, Cast9;
    f, n2 := Retries3();
    var ns := Cast9(After1, n2, Ahead3, WithBoth, WithBoth, WithWord);
    CastAre(After1, n2, Ahead3, WithBoth, WithBoth, WithWord);
    f := AnswersRetry(f, ns, {}, {Retry(3, 2, Low, 2)}, Clean, Retry(3, 2, Low, 2));
    told := {Retry(3, 2, Low, 2)} - {Retry(3, 2, Low, 2)}
            + set c | c in ns && c != 2 :: Recommit(c, 2, Low, 2, ns[2].log[2].value);
  }

  lemma Lowers(c: NodeId)
    requires c != 2
    ensures AckRecommit(Make(c, WithBoth), Low, 2, Kill, true).node == Make(c, Relabelled)
  {
    hide LearnRun;
    assert BothLog[2 := Open(Low, Kill, 0)][2 := Entry(Low, Kill, true, true, false, 0)]
           == Two(Entry(Low, Kill, true, true, false, 0), Open(Mid, Next3, 0));
    LoweredRuns(Make(c, Mold(Mid, 2, Two(Entry(Low, Kill, true, true, false, 0), Open(Mid, Next3, 0)), 2, [])), c);
  }

  lemma LoweredRuns(x: Node, c: NodeId)
    requires x == Make(c, Mold(Mid, 2, Two(Entry(Low, Kill, true, true, false, 0), Open(Mid, Next3, 0)), 2, []))
    ensures LearnRun(x) == Make(c, Relabelled)
  {
    assert Ready(x.log, 2) && !Ready(x.log, 3);
    assert HoleAfter(x.log, 3) == 3 && HoleAfter(x.log, 2) == 3;
    assert Values(x.log, 2, 3) == [Kill];
    assert LearnRun(x).log == Lowered;
  }

  lemma CastBoth45(n1: Node, n2: Node, n3: Node, p: Mold, q: Mold, r: Mold, m: Mold)
    ensures Cast9(n1, n2, n3, p, q, r)[4 := Make(4, m)][5 := Make(5, m)] == Cast9(n1, n2, n3, m, q, r)
  {
    hide Make;
  }

  /** The recommit reaches 4 and 5. */
  lemma Relabels45() returns (f: Full, n2: Node)
    ensures Scene(f, Cast9(After1, n2, Ahead3, Relabelled, WithBoth, WithWord), {}, {}, Clean)
    ensures HasKilled(n2)
  {
    hide Scene, Cast9, AckRecommit, Make, HasKilled;
    var told;
    f, n2, told := Recommits2();
    var ns := Cast9(After1, n2, Ahead3, WithBoth, WithBoth, WithWord);
    CastAre(After1, n2, Ahead3, WithBoth, WithBoth, WithWord);
    CastBoth45(After1, n2, Ahead3, WithBoth, WithBoth, WithWord, Relabelled);
    Lowers(4);
    Lowers(5);
    MakeAlive(4, WithBoth);
    MakeAlive(5, WithBoth);
    f := TakesRecommit(f, ns, {}, told, Clean, Recommit(4, 2, Low, 2, Kill), Make(4, Relabelled));
    told := told - {Recommit(4, 2, Low, 2, Kill)};
    f := TakesRecommit(f, ns[4 := Make(4, Relabelled)], {}, told, Clean, Recommit(5, 2, Low, 2, Kill), Make(5, Relabelled));
    LessTold(f, Cast9(After1, n2, Ahead3, Relabelled, WithBoth, WithWord), {}, told - {Recommit(5, 2, Low, 2, Kill)}, Clean);
  }

  lemma MakeAlive(c: NodeId, m: Mold)
    ensures Make(c, m).alive && Make(c, m).log == m.log
  {
  }

  lemma LessTold(f: Full, ns: map<NodeId, Node>, mail: set<Message>, told: set<Answer>, ledger: Ledger)
    requires Scene(f, ns, mail, told, ledger)
    ensures Scene(f, ns, mail, {}, ledger)
  {
    hide Arrived;
  }

  // ---- Participant 3 takes over.

  const Held45 := Relabelled.(proposer := 3)
  const Held67 := WithBoth.(proposer := 3)
  const Held89 := WithWord.(proposer := 3)
  const Pledged45 := Mold(Late, 3, Lowered, 3, [Kill])
  const Pledged67 := Mold(Late, 3, BothLog, 2, [])
  const Pledged89 := Mold(Late, 3, WordLog, 2, [])

  lemma Asks3()
    ensures Ahead3.alive && !Established(Ahead3) && Ahead3.ihole > 0
    ensures StartPrepare(Ahead3, Nine).node == Bid3(Ballot(3, 2), 1)
    ensures var o := StartPrepare(Bid3(Ballot(3, 2), 1), Nine);
      o.node == Bid3(Late, 1) && forall c :: c in {4, 5, 6, 7, 8, 9} ==> Prepare(c, Late, 2) in o.sent
  {
    Logs();
  }

  /** Participant 3 prepares twice, and everyone below it turns to it. */
  lemma Bids3() returns (f: Full, mail: set<Message>, n2: Node)
    ensures Scene(f, Cast9(After1, n2, Bid3(Late, 1), Held45, Held67, Held89), mail, {}, Clean)
    ensures HasKilled(n2) && forall c :: c in {4, 5, 6, 7, 8, 9} ==> Prepare(c, Late, 2) in mail
  {
    hide Scene, Cast9, StartPrepare, HasKilled, Ahead3, Established;
    f, n2 := Relabels45();
    Asks3();
    var first := Bid3(Ballot(3, 2), 1);
    CastAre(After1, n2, Ahead3, Relabelled, WithBoth, WithWord);
    CastThird(After1, n2, Ahead3, Relabelled, WithBoth, WithWord, first);
    f := Bids(f, Cast9(After1, n2, Ahead3, Relabelled, WithBoth, WithWord), {}, {}, Clean, 3, first, {});
    CastAre(After1, n2, first, Relabelled, WithBoth, WithWord);
    CastThird(After1, n2, first, Relabelled, WithBoth, WithWord, Bid3(Late, 1));
    var sent := StartPrepare(first, Nine).sent;
    StillBidding();
    f := Bids(f, Cast9(After1, n2, first, Relabelled, WithBoth, WithWord), {} + {}, {}, Clean, 3, Bid3(Late, 1), sent);
    mail := {} + {} + sent;
    f := TurnAll(f, n2, mail);
  }

  lemma StillBidding()
    ensures var n := Bid3(Ballot(3, 2), 1); n.alive && !Established(n) && n.ihole > 0
  {
  }

  lemma TurnAll(f: Full, n2: Node, mail: set<Message>) returns (g: Full)
    requires Scene(f, Cast9(After1, n2, Bid3(Late, 1), Relabelled, WithBoth, WithWord), mail, {}, Clean)
    ensures Scene(g, Cast9(After1, n2, Bid3(Late, 1), Held45, Held67, Held89), mail, {}, Clean)
  {
    hide Scene, Cast9;
    var ns := Cast9(After1, n2, Bid3(Late, 1), Relabelled, WithBoth, WithWord);
    CastAre(After1, n2, Bid3(Late, 1), Relabelled, WithBoth, WithWord);
    g := TurnsEach(f, ns, mail, {}, Clean, {4, 5, 6, 7, 8, 9}, 3);
    CastDeferring(After1, n2, Bid3(Late, 1), Relabelled, WithBoth, WithWord, 3);
  }

  lemma Pledges(c: NodeId)
    requires c > 3
    ensures Handles(c, Held45, Prepare(c, Late, 2), Pledged45, Promise(c, Late, 2, Report(Lowered, 2)))
    ensures Handles(c, Held67, Prepare(c, Late, 2), Pledged67, Promise(c, Late, 2, Report(BothLog, 2)))
    ensures Handles(c, Held89, Prepare(c, Late, 2), Pledged89, Promise(c, Late, 2, Report(WordLog, 2)))
  {
    hide Report;
    Logs();
  }

  /** They promise. */
  lemma Promise3() returns (f: Full, mail: set<Message>, n2: Node)
    ensures Scene(f, Cast9(After1, n2, Bid3(Late, 1), Pledged45, Pledged67, Pledged89), mail, {}, Clean)
    ensures HasKilled(n2)
    ensures forall c :: c in {4, 5} ==> Promise(c, Late, 2, Report(Lowered, 2)) in mail
    ensures forall c :: c in {8, 9} ==> Promise(c, Late, 2, Report(WordLog, 2)) in mail
  {
    hide Scene, Handles, Cast9, Report, HasKilled;
    f, mail, n2 := Bids3();
    forall c: NodeId | c in {4, 5, 6, 7, 8, 9}
      ensures Handles(c, Held45, Prepare(c, Late, 2), Pledged45, Promise(c, Late, 2, Report(Lowered, 2)))
      ensures Handles(c, Held67, Prepare(c, Late, 2), Pledged67, Promise(c, Late, 2, Report(BothLog, 2)))
      ensures Handles(c, Held89, Prepare(c, Late, 2), Pledged89, Promise(c, Late, 2, Report(WordLog, 2)))
    {
      Pledges(c);
    }
    f, mail := Pair45(f, After1, n2, Bid3(Late, 1), Held45, Held67, Held89, mail, {},
                      (c: NodeId) => Prepare(c, Late, 2), Pledged45, (c: NodeId) => Promise(c, Late, 2, Report(Lowered, 2)));
    f, mail := Pair67(f, After1, n2, Bid3(Late, 1), Pledged45, Held67, Held89, mail, {},
                      (c: NodeId) => Prepare(c, Late, 2), Pledged67, (c: NodeId) => Promise(c, Late, 2, Report(BothLog, 2)));
    f, mail := Pair89(f, After1, n2, Bid3(Late, 1), Pledged45, Pledged67, Held89, mail, {},
                      (c: NodeId) => Prepare(c, Late, 2), Pledged89, (c: NodeId) => Promise(c, Late, 2, Report(WordLog, 2)));
  }

  lemma ReportedFrom(log: Log, report: Log)
    requires 2 in log && report == Report(log, 2)
    ensures forall i :: i in report ==> 2 <= i && i in log && report[i].ballot == log[i].ballot
  {
  }

  lemma EntriesOf()
    ensures 2 in Lowered && Lowered[2].ballot == Low && forall i :: i in Lowered ==> i in {1, 2, 3}
    ensures 2 in WordLog && WordLog[2].ballot == Low && forall i :: i in WordLog ==> i in {1, 2, 3}
    ensures AheadLog.Keys == {1, 2, 3} && AheadLog[3].committed && AheadLog[2].ballot == Low
  {
  }

  /** What is reported of instance 2 has the ballot that our own entry has. */
  lemma NothingHigher(log: Log, report: Log)
    requires log == Lowered || log == WordLog
    requires report == Report(log, 2)
    ensures Merge(AheadLog, report) == AheadLog && forall i :: i in report ==> 2 <= i
  {
    EntriesOf();
    ReportedFrom(log, report);
    hide Report, Lowered, WordLog, AheadLog;
  }

  lemma AddsNothing3(acks: nat)
    ensures AddsNothing(Bid3(Late, acks), Report(Lowered, 2)) && AddsNothing(Bid3(Late, acks), Report(WordLog, 2))
    ensures var n := Bid3(Late, acks); n.alive && IsProposer(n) && n.log != map[] && n.prep == Some(Prep(Late, acks, 2))
    ensures forall more: nat :: WithAcks(Bid3(Late, acks), more) == Bid3(Late, acks + more)
  {
    hide Merge, Report;
    Logs();
    NothingHigher(Lowered, Report(Lowered, 2));
    NothingHigher(WordLog, Report(WordLog, 2));
  }

  lemma WordAgain()
    ensures Bid3(Late, 5).log != map[]
    ensures var o := CompletePrepare(Bid3(Late, 5), Late, Nine);
      o.node == Lead3(1) && forall c :: c in {6, 7, 8, 9} ==> Decree(c, Late, 2, Word) in o.sent
  {
    WordRewritten();
    hide Types.Last, RedecreeLog, Redecreed, HolesBelow;
  }

  lemma WordRewritten()
    ensures var n := Bid3(Late, 5);
      && n.log != map[] && HolesBelow(n.log, 2, Types.Last(n.log)) == {} && Redecreed(n, 2)
      && RedecreeLog(n, Late) == Lead3(1).log && 2 in Lead3(1).log && Lead3(1).log[2].value == Word
  {
    Logs();
    hide Types.Last;
    var n := Bid3(Late, 5);
    assert HolesBelow(n.log, 2, 3) == {};
  }

  lemma FifthAck(report: Log)
    requires report == Report(Lowered, 2)
    ensures Bid3(Late, 4).log != map[]
    ensures var o := AckPromise(Bid3(Late, 4), Late, report, Nine);
      o.node == Lead3(1) && forall c :: c in {6, 7, 8, 9} ==> Decree(c, Late, 2, Word) in o.sent
  {
    hide CompletePrepare, Merge, Report, Nine;
    assert Majority(|Nine|) == 5 by { NineAre(); }
    AddsNothing3(4);
    WordAgain();
    assert Merged(Bid3(Late, 4), report) == Bid3(Late, 5);
  }

  /** Participant 3 counts the promises of 8, 9 and 4. */
  lemma Collects3() returns (f: Full, mail: set<Message>, n2: Node)
    ensures Scene(f, Cast9(After1, n2, Bid3(Late, 4), Pledged45, Pledged67, Pledged89), mail, {}, Clean)
    ensures HasKilled(n2) && Promise(5, Late, 2, Report(Lowered, 2)) in mail
  {
    hide Scene, Cast9, Report, AddsNothing, HasKilled, Bid3, Majority;
    f, mail, n2 := Promise3();
    assert Majority(|Nine|) == 5 by { NineAre(); }
    AddsNothing3(1);
    AddsNothing3(3);
    assert |{8, 9}| == 2 && |{4}| == 1;
    CastAre(After1, n2, Bid3(Late, 1), Pledged45, Pledged67, Pledged89);
    CastThird(After1, n2, Bid3(Late, 1), Pledged45, Pledged67, Pledged89, Bid3(Late, 3));
    f := CollectsEach(f, Cast9(After1, n2, Bid3(Late, 1), Pledged45, Pledged67, Pledged89), mail, {}, Clean, 3, {8, 9}, 2, Report(WordLog, 2));
    mail := mail - PromisesFrom({8, 9}, Late, 2, Report(WordLog, 2));
    CastAre(After1, n2, Bid3(Late, 3), Pledged45, Pledged67, Pledged89);
    CastThird(After1, n2, Bid3(Late, 3), Pledged45, Pledged67, Pledged89, Bid3(Late, 4));
    f := CollectsEach(f, Cast9(After1, n2, Bid3(Late, 3), Pledged45, Pledged67, Pledged89), mail, {}, Clean, 3, {4}, 2, Report(Lowered, 2));
    mail := mail - PromisesFrom({4}, Late, 2, Report(Lowered, 2));
  }

  /** The promise of 5 completes the prepare, with `Word`. */
  lemma Leads3() returns (f: Full, mail: set<Message>, n2: Node)
    ensures Scene(f, Cast9(After1, n2, Lead3(1), Pledged45, Pledged67, Pledged89), mail, {}, Clean)
    ensures HasKilled(n2) && forall c :: c in {6, 7, 8, 9} ==> Decree(c, Late, 2, Word) in mail
  {
    hide Scene, Cast9, Report, HasKilled, AckPromise, Bid3, Lead3;
    f, mail, n2 := Collects3();
    AddsNothing3(4);
    FifthAck(Report(Lowered, 2));
    CastAre(After1, n2, Bid3(Late, 4), Pledged45, Pledged67, Pledged89);
    CastThird(After1, n2, Bid3(Late, 4), Pledged45, Pledged67, Pledged89, Lead3(1));
    var sent := AckPromise(Bid3(Late, 4), Late, Report(Lowered, 2), Nine).sent;
    f := Takes(f, Cast9(After1, n2, Bid3(Late, 4), Pledged45, Pledged67, Pledged89), mail, {}, Clean,
               3, Promise(5, Late, 2, Report(Lowered, 2)), Lead3(1), sent);
    mail := mail - {Promise(5, Late, 2, Report(Lowered, 2))} + sent;
  }

  const Worded67 := Mold(Late, 3, Two(Open(Late, Word, 0), Open(Mid, Next3, 0)), 2, [])
  const Worded89 := Mold(Late, 3, Bare[2 := Open(Late, Word, 0)], 2, [])

  lemma WordRevoted(c: NodeId)
    requires c != 3
    ensures Handles(c, Pledged67, Decree(c, Late, 2, Word), Worded67, Accept(c, Late, 2))
    ensures Handles(c, Pledged89, Decree(c, Late, 2, Word), Worded89, Accept(c, Late, 2))
  {
    Logs();
    assert BothLog[2 := Open(Late, Word, 0)] == Worded67.log;
    assert WordLog[2 := Open(Late, Word, 0)] == Worded89.log;
  }

  /** Participants 6 to 9 vote for it. */
  lemma RevoteForWord() returns (f: Full, mail: set<Message>, n2: Node)
    ensures Scene(f, Cast9(After1, n2, Lead3(1), Pledged45, Worded67, Worded89), mail, {}, Clean)
    ensures HasKilled(n2) && forall c :: c in {6, 7, 8, 9} ==> Accept(c, Late, 2) in mail
  {
    hide Scene, Handles, Cast9, HasKilled, Lead3;
    f, mail, n2 := Leads3();
    forall c: NodeId | c in {6, 7, 8, 9}
      ensures Handles(c, Pledged67, Decree(c, Late, 2, Word), Worded67, Accept(c, Late, 2))
      ensures Handles(c, Pledged89, Decree(c, Late, 2, Word), Worded89, Accept(c, Late, 2))
    {
      WordRevoted(c);
    }
    f, mail := Pair67(f, After1, n2, Lead3(1), Pledged45, Pledged67, Pledged89, mail, {},
                      (c: NodeId) => Decree(c, Late, 2, Word), Worded67, (c: NodeId) => Accept(c, Late, 2));
    f, mail := Pair89(f, After1, n2, Lead3(1), Pledged45, Worded67, Pledged89, mail, {},
                      (c: NodeId) => Decree(c, Late, 2, Word), Worded89, (c: NodeId) => Accept(c, Late, 2));
  }

  lemma Leading3(votes: nat)
    ensures var n := Lead3(votes);
      && n.alive && IsProposer(n) && n.ballot == Late && n.log != map[] && 2 in n.log && n.log[2] == Open(Late, Word, votes)
    ensures forall more: nat :: WithVotes(Lead3(votes), 2, more) == Lead3(votes + more)
  {
    var n := Lead3(votes);
    assert 2 in n.log;
    forall more: nat ensures WithVotes(n, 2, more) == Lead3(votes + more) {
      assert n.log[2 := Open(Late, Word, votes + more)] == Lead3(votes + more).log;
    }
  }

  lemma WordCommitted()
    ensures Lead3(4).log != map[]
    ensures var o := AckAccept(Lead3(4), Late, 2, true, Nine); CommittedIn(o.node.log, 2) && o.node.log[2].value == Word
  {
    hide HoleAfter, Values, Nine;
    assert Majority(|Nine|) == 5 by { NineAre(); }
    Leading3(4);
  }

  lemma CountsWord() returns (f: Full, mail: set<Message>, n2: Node)
    ensures Scene(f, Cast9(After1, n2, Lead3(4), Pledged45, Worded67, Worded89), mail, {}, Clean)
    ensures HasKilled(n2) && Accept(9, Late, 2) in mail
  {
    hide Scene, Cast9, HasKilled, Lead3, AckAccept, WithVotes, Majority, CommittedIn;
    f, mail, n2 := RevoteForWord();
    assert Majority(|Nine|) == 5 by { NineAre(); }
    Leading3(1);
    assert |{6, 7, 8}| == 3;
    CastAre(After1, n2, Lead3(1), Pledged45, Worded67, Worded89);
    CastThird(After1, n2, Lead3(1), Pledged45, Worded67, Worded89, Lead3(4));
    f := CountsEach(f, Cast9(After1, n2, Lead3(1), Pledged45, Worded67, Worded89), mail, {}, Clean, 3, {6, 7, 8}, 2);
    mail := mail - AcceptsOf({6, 7, 8}, Late, 2);
  }

  /** Participant 3 commits `Word`, where 2 has committed the kill. */
  lemma CommitsWord() returns (f: Full, n2: Node, n3: Node)
    ensures Scene(f, Cast9(After1, n2, n3, Pledged45, Worded67, Worded89), {}, {}, Clean)
    ensures HasKilled(n2) && CommittedIn(n3.log, 2) && n3.log[2].value == Word
  {
    hide Scene, Cast9, HasKilled, Lead3, AckAccept, Majority, CommittedIn;
    var mail;
    f, mail, n2 := CountsWord();
    Leading3(4);
    WordCommitted();
    var o := AckAccept(Lead3(4), Late, 2, true, Nine);
    n3 := o.node;
    CastAre(After1, n2, Lead3(4), Pledged45, Worded67, Worded89);
    CastThird(After1, n2, Lead3(4), Pledged45, Worded67, Worded89, n3);
    f := Takes(f, Cast9(After1, n2, Lead3(4), Pledged45, Worded67, Worded89), mail, {}, Clean, 3, Accept(9, Late, 2), n3, o.sent);
    LessMail(f, Cast9(After1, n2, n3, Pledged45, Worded67, Worded89), mail - {Accept(9, Late, 2)} + o.sent, {}, Clean, {});
  }

  /** Agreement does not survive a recommit that lowers a ballot: a run of the
      code's steps, without a reject, after which 2 has committed the kill of 1
      for instance 2, and 3 a chat. */
  lemma LoweredLabelsDisagree() returns (run: seq<Full>)
    ensures IsFullRun(run, Founder, Founding, OnlyRelabels)
    ensures var s := run[|run| - 1].core;
      HasCommitted(s, 2, 2, Kill) && HasCommitted(s, 3, 2, Word) && Kill != Word
  {
    var f, n2, n3 := CommitsWord();
    hide IsFullRun, Cast9;
    CastAre(After1, n2, n3, Pledged45, Worded67, Worded89);
    run := Ending(f, OnlyRelabels);
  }
}
