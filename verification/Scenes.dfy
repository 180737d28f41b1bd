/** Building runs of the agreement model with answers, one handler at a time. */
module Scenes {
  import opened Types
  import opened Quorums
  import opened Node
  import opened Protocol
  import opened Answers
  import opened StaleLabels

  ghost predicate Arrived(f: Full, x: Leave) {
    exists run :: IsFullRun(run, Founder, Founding, x) && run[|run| - 1] == f
  }

  lemma ArrivedNext(f: Full, t: Turn, x: Leave)
    requires Arrived(f, x) && Can(f, t) && Permitted(f, t, x)
    ensures Arrived(Turned(f, t), x)
  {
    hide Turned, Can, Permitted, Answers.Starts;
    var run :| IsFullRun(run, Founder, Founding, x) && run[|run| - 1] == f;
    var longer := run + [Turned(f, t)];
    forall k | 0 <= k < |longer| - 1 ensures Follows(longer[k], longer[k + 1], x) {
      if k < |run| - 1 {
        assert longer[k] == run[k] && longer[k + 1] == run[k + 1];
        assert Follows(run[k], run[k + 1], x);
      } else {
        assert longer[k] == f && longer[k + 1] == Turned(f, t);
      }
    }
    assert IsFullRun(longer, Founder, Founding, x);
    assert longer[|longer| - 1] == Turned(f, t);
  }

  lemma Ending(f: Full, x: Leave) returns (run: seq<Full>)
    requires Arrived(f, x)
    ensures IsFullRun(run, Founder, Founding, x) && run[|run| - 1] == f
  {
    hide Answers.Starts, Follows;
    run :| IsFullRun(run, Founder, Founding, x) && run[|run| - 1] == f;
  }

  /** The rejects counted so far, and what the run may do. */
  datatype Ledger = Ledger(rejects: map<(NodeId, nat), nat>, leave: Leave)

  function Note(l: Ledger, a: NodeId, i: nat, count: nat): Ledger {
    l.(rejects := l.rejects[(a, i) := count])
  }

  /** A state that has arrived, with the participants `ns`, and at least `mail` and `told` on the way. */
  ghost predicate Scene(f: Full, ns: map<NodeId, Node>, mail: set<Message>, told: set<Answer>, ledger: Ledger) {
    && Arrived(f, ledger.leave) && f.core.nodes == ns && f.core.acked.Keys == ns.Keys && f.rejects == ledger.rejects
    && (forall m :: m in mail ==> m in f.core.net)
    && (forall x :: x in told ==> x in f.answers)
  }

  lemma LessMail(f: Full, ns: map<NodeId, Node>, mail: set<Message>, told: set<Answer>, ledger: Ledger, less: set<Message>)
    requires Scene(f, ns, mail, told, ledger) && less <= mail
    ensures Scene(f, ns, less, told, ledger)
  {
  }

  /** Participant `a` handles a message. */
  lemma Takes(f: Full, ns: map<NodeId, Node>, mail: set<Message>, told: set<Answer>, ledger: Ledger,
              a: NodeId, m: Message, n: Node, sent: set<Message>) returns (g: Full)
    requires Scene(f, ns, mail, told, ledger) && m in mail && Receiver(m) == a && a in ns && ns[a].alive && ns[a].log != map[]
    requires Handle(ns[a], m, true, ns.Keys) == Outcome(n, sent)
    ensures Scene(g, ns[a := n], mail - {m} + sent, told, ledger)
  {
    hide Arrived, Handle, ApplyReceive;
    var t := Plain(Receive(m, true));
    ArrivedNext(f, t, ledger.leave);
    g := Turned(f, t);
    ReceiveHandles(f.core, m, true);
    KeysKept(f.core, m);
    TakenMail(f.core.net, mail, m, sent, g.core.net);
  }

  lemma TakenMail(net: multiset<Message>, mail: set<Message>, m: Message, sent: set<Message>, net': multiset<Message>)
    requires (forall x :: x in mail ==> x in net) && net' == net - multiset{m} + multiset(sent)
    ensures forall x :: x in mail - {m} + sent ==> x in net'
  {
  }

  lemma KeysKept(s: State, m: Message)
    requires Enabled(s, Receive(m, true)) && s.acked.Keys == s.nodes.Keys
    ensures ApplyReceive(s, m, true).acked.Keys == s.acked.Keys
  {
    hide Handle, AckPrepare, AckPromise, AckDecree, AckAccept, AckCommit, AckResend, OwnDecrees, CompletedHistory, Merge, Last;
    if !m.Promise? { ReceiveHandles(s, m, true); hide ApplyReceive; }
  }

  /** Participant `a` defers to `to`. */
  lemma Turns(f: Full, ns: map<NodeId, Node>, mail: set<Message>, told: set<Answer>, ledger: Ledger,
              a: NodeId, to: NodeId) returns (g: Full)
    requires Scene(f, ns, mail, told, ledger) && a in ns && ns[a].alive && !Established(ns[a]) && to < a
    ensures Scene(g, ns[a := Defer(ns[a], to)], mail, told, ledger)
  {
    hide Arrived;
    var t := Plain(Elect(a, to));
    ArrivedNext(f, t, ledger.leave);
    g := Turned(f, t);
  }

  lemma Bids(f: Full, ns: map<NodeId, Node>, mail: set<Message>, told: set<Answer>, ledger: Ledger,
             a: NodeId, n: Node, sent: set<Message>) returns (g: Full)
    requires Scene(f, ns, mail, told, ledger) && a in ns && ns[a].alive && !Established(ns[a]) && ns[a].ihole > 0
    requires StartPrepare(ns[a], ns.Keys).node == n && sent <= StartPrepare(ns[a], ns.Keys).sent
    ensures Scene(g, ns[a := n], mail + sent, told, ledger)
  {
    hide Arrived, StartPrepare;
    var t := Plain(BeginPrepare(a));
    ArrivedNext(f, t, ledger.leave);
    g := Turned(f, t);
  }

  lemma Decides(f: Full, ns: map<NodeId, Node>, mail: set<Message>, told: set<Answer>, ledger: Ledger,
                a: NodeId, v: Value, n: Node, sent: set<Message>) returns (g: Full)
    requires Scene(f, ns, mail, told, ledger) && a in ns && ns[a].alive && Established(ns[a]) && Majority(|ns.Keys|) > 1
    requires EnterDecree(ns[a], v, ns.Keys).node == n && sent <= EnterDecree(ns[a], v, ns.Keys).sent
    ensures Scene(g, ns[a := n], mail + sent, told, ledger)
  {
    hide Arrived, EnterDecree, NextInstance;
    var t := Plain(Request(a, v, true));
    ArrivedNext(f, t, ledger.leave);
    g := Turned(f, t);
  }

  /** Participant `a` rejects a part. */
  lemma Rejects(f: Full, ns: map<NodeId, Node>, mail: set<Message>, told: set<Answer>, ledger: Ledger,
                m: Message) returns (g: Full)
    requires Scene(f, ns, mail, told, ledger) && m in mail && m.Decree? && m.dst in ns && ns[m.dst].alive && Judges(ns[m.dst], m)
    ensures Scene(g, ns, mail - {m}, told + {Reject(m.dst, m.ballot, m.inum)}, ledger)
  {
    hide Arrived;
    ArrivedNext(f, Refuse(m), ledger.leave);
    g := Turned(f, Refuse(m));
  }

  /** The proposer takes note of a reject. */
  lemma Notes(f: Full, ns: map<NodeId, Node>, mail: set<Message>, told: set<Answer>, ledger: Ledger,
              t: Turn, count: nat) returns (g: Full)
    requires Scene(f, ns, mail, told, ledger) && t.HearReject? && t.answer.Reject? && t.answer in told
    requires var a, i := t.answer.ballot.id, t.answer.inum;
      && a in ns && ns[a].alive && count == (if (a, i) in ledger.rejects then ledger.rejects[(a, i)] else 0) + 1
      && React(ns[a], t.answer.ballot, i, count, t.deaths, t.connected, |ns.Keys|) == Noted
    ensures Scene(g, ns, mail, told - {t.answer}, Note(ledger, t.answer.ballot.id, t.answer.inum, count))
  {
    hide Arrived, React;
    ArrivedNext(f, t, ledger.leave);
    g := Turned(f, t);
  }

  /** The last reject it takes makes the proposer decree a null in place of the part. */
  lemma Nullifies(f: Full, ns: map<NodeId, Node>, mail: set<Message>, told: set<Answer>, ledger: Ledger,
                  t: Turn, count: nat, v: Value, n: Node, sent: set<Message>) returns (g: Full)
    requires Scene(f, ns, mail, told, ledger) && t.HearReject? && t.answer.Reject? && t.answer in told && t.connected && ledger.leave.repeats
    requires var a, i := t.answer.ballot.id, t.answer.inum;
      && a in ns && ns[a].alive && i in ns[a].log && count == (if (a, i) in ledger.rejects then ledger.rejects[(a, i)] else 0) + 1
      && React(ns[a], t.answer.ballot, i, count, t.deaths, true, |ns.Keys|) == Again(v, true)
      && n == ns[a].(log := ns[a].log[i := ns[a].log[i].(value := v, votes := 1)])
      && forall m :: m in sent ==> m.Decree? && m.dst in ns && m.dst != a && m == Decree(m.dst, ns[a].ballot, i, v)
    ensures Scene(g, ns[t.answer.ballot.id := n], mail + sent, told - {t.answer}, Note(ledger, t.answer.ballot.id, t.answer.inum, 0))
  {
    hide Arrived, React;
    ArrivedNext(f, t, ledger.leave);
    g := Turned(f, t);
    var a, i := t.answer.ballot.id, t.answer.inum;
    assert Reacts(f, t) == Again(v, true);
    assert g.core == Redecree(f.core, a, i, v, true);
    hide Turned, Reacts, ApplyReject;
  }

  // ---- The same step by several participants.

  function Moved(ns: map<NodeId, Node>, movers: set<NodeId>, after: NodeId -> Node): map<NodeId, Node> {
    map c | c in ns :: if c in movers then after(c) else ns[c]
  }

  function MailOf(movers: set<NodeId>, letter: NodeId -> Message): set<Message> {
    set c | c in movers :: letter(c)
  }

  lemma MovedFirst(ns: map<NodeId, Node>, movers: set<NodeId>, after: NodeId -> Node, a: NodeId)
    requires a in movers && movers <= ns.Keys
    ensures Moved(ns[a := after(a)], movers - {a}, after) == Moved(ns, movers, after)
  {
  }

  lemma MovedNone(ns: map<NodeId, Node>, after: NodeId -> Node)
    ensures Moved(ns, {}, after) == ns
  {
  }

  /** What it takes for `a` to handle its message with one reply. */
  predicate CanTake(ns: map<NodeId, Node>, a: NodeId, m: Message, n: Node, reply: Message) {
    && a in ns && ns[a].alive && ns[a].log != map[] && Receiver(m) == a
    && Handle(ns[a], m, true, ns.Keys) == Outcome(n, {reply})
  }

  lemma TakesOne(f: Full, ns: map<NodeId, Node>, mail: set<Message>, told: set<Answer>, ledger: Ledger,
                 a: NodeId, m: Message, n: Node, reply: Message) returns (g: Full)
    requires Scene(f, ns, mail, told, ledger) && m in mail && CanTake(ns, a, m, n, reply)
    ensures a in ns && Scene(g, ns[a := n], mail - {m} + {reply}, told, ledger)
  {
    hide Scene, Handle;
    g := Takes(f, ns, mail, told, ledger, a, m, n, {reply});
  }

  lemma StillCan(ns: map<NodeId, Node>, a: NodeId, n: Node, c: NodeId, m: Message, n': Node, reply: Message)
    requires a in ns && c != a && CanTake(ns, c, m, n', reply)
    ensures CanTake(ns[a := n], c, m, n', reply)
  {
    hide Handle;
    assert ns[a := n].Keys == ns.Keys;
  }

  lemma TakerListed(ns: map<NodeId, Node>, a: NodeId, m: Message, n: Node, reply: Message)
    requires CanTake(ns, a, m, n, reply)
    ensures a in ns && Receiver(m) == a
  {
  }

  lemma MailWithout(mail: set<Message>, movers: set<NodeId>, a: NodeId, letter: NodeId -> Message, reply: NodeId -> Message)
    requires a in movers && Receiver(letter(a)) == a && (forall c :: c in movers ==> Receiver(letter(c)) == c)
    requires Receiver(reply(a)) !in movers
    ensures mail - MailOf(movers, letter) + MailOf(movers, reply)
            <= mail - {letter(a)} + {reply(a)} - MailOf(movers - {a}, letter) + MailOf(movers - {a}, reply)
  {
  }

  /** Each of `movers` handles a message of its own, and replies to somebody else. */
  lemma TakesEach(f: Full, ns: map<NodeId, Node>, mail: set<Message>, told: set<Answer>, ledger: Ledger,
                  movers: set<NodeId>, letter: NodeId -> Message, after: NodeId -> Node, reply: NodeId -> Message) returns (g: Full)
    requires Scene(f, ns, mail, told, ledger)
    requires forall a :: a in movers ==>
               letter(a) in mail && CanTake(ns, a, letter(a), after(a), reply(a)) && Receiver(reply(a)) !in movers
    ensures Scene(g, Moved(ns, movers, after), mail - MailOf(movers, letter) + MailOf(movers, reply), told, ledger)
    decreases |movers|
  {
    hide Scene, Moved, CanTake, MailOf;
    if movers == {} {
      g := f;
      MovedNone(ns, after);
      NoMail(mail, letter, reply);
    } else {
      var a :| a in movers;
      assert CanTake(ns, a, letter(a), after(a), reply(a));
      forall c | c in movers ensures c in ns && Receiver(letter(c)) == c { TakerListed(ns, c, letter(c), after(c), reply(c)); }
      var rest, ns', mail' := movers - {a}, ns[a := after(a)], mail - {letter(a)} + {reply(a)};
      var h := TakesOne(f, ns, mail, told, ledger, a, letter(a), after(a), reply(a));
      forall c | c in rest
        ensures letter(c) in mail' && CanTake(ns', c, letter(c), after(c), reply(c)) && Receiver(reply(c)) !in rest
      {
        StillCan(ns, a, after(a), c, letter(c), after(c), reply(c));
      }
      g := TakesEach(h, ns', mail', told, ledger, rest, letter, after, reply);
      MovedFirst(ns, movers, after, a);
      MailWithout(mail, movers, a, letter, reply);
      LessMail(g, Moved(ns', rest, after), mail' - MailOf(rest, letter) + MailOf(rest, reply), told, ledger,
               mail - MailOf(movers, letter) + MailOf(movers, reply));
    }
  }

  lemma NoMail(mail: set<Message>, letter: NodeId -> Message, reply: NodeId -> Message)
    ensures mail - MailOf({}, letter) + MailOf({}, reply) == mail
  {
  }

  function Deferring(ns: map<NodeId, Node>, movers: set<NodeId>, to: NodeId): map<NodeId, Node> {
    map c | c in ns :: if c in movers then Defer(ns[c], to) else ns[c]
  }

  lemma DeferringFirst(ns: map<NodeId, Node>, movers: set<NodeId>, to: NodeId, a: NodeId)
    requires a in movers && a in ns
    ensures Deferring(ns[a := Defer(ns[a], to)], movers - {a}, to) == Deferring(ns, movers, to)
  {
  }

  lemma DeferringNone(ns: map<NodeId, Node>, to: NodeId)
    ensures Deferring(ns, {}, to) == ns
  {
  }

  /** Each of `movers` defers to `to`. */
  lemma TurnsEach(f: Full, ns: map<NodeId, Node>, mail: set<Message>, told: set<Answer>, ledger: Ledger,
                  movers: set<NodeId>, to: NodeId) returns (g: Full)
    requires Scene(f, ns, mail, told, ledger)
    requires forall a :: a in movers ==> a in ns && ns[a].alive && !Established(ns[a]) && to < a
    ensures Scene(g, Deferring(ns, movers, to), mail, told, ledger)
    decreases |movers|
  {
    hide Scene, Deferring;
    if movers == {} {
      g := f;
      DeferringNone(ns, to);
    } else {
      var a :| a in movers;
      var h := Turns(f, ns, mail, told, ledger, a, to);
      g := TurnsEach(h, ns[a := Defer(ns[a], to)], mail, told, ledger, movers - {a}, to);
      DeferringFirst(ns, movers, to, a);
    }
  }

  function PromisesFrom(from: set<NodeId>, b: Ballot, start: nat, report: Log): set<Message> {
    set a | a in from :: Promise(a, b, start, report)
  }

  /** The preparer `p` counts promises that add nothing to its log, short of a majority. */
  lemma CollectsEach(f: Full, ns: map<NodeId, Node>, mail: set<Message>, told: set<Answer>, ledger: Ledger,
                     p: NodeId, from: set<NodeId>, start: nat, report: Log) returns (g: Full)
    requires Scene(f, ns, mail, told, ledger) && p in ns && ns[p].alive && IsProposer(ns[p]) && ns[p].log != map[]
    requires AddsNothing(ns[p], report) && ns[p].prep.value.ballot.id == p
    requires forall a :: a in from ==> Promise(a, ns[p].prep.value.ballot, start, report) in mail
    requires ns[p].prep.value.acks + |from| < Majority(|ns.Keys|)
    ensures Scene(g, ns[p := WithAcks(ns[p], |from|)],
                  mail - PromisesFrom(from, ns[p].prep.value.ballot, start, report), told, ledger)
    decreases |from|
  {
    hide Scene, Merge, CompletePrepare;
    var n, b := ns[p], ns[p].prep.value.ballot;
    if from == {} {
      g := f;
      assert ns[p := WithAcks(n, 0)] == ns;
      assert mail - PromisesFrom(from, b, start, report) == mail;
    } else {
      var a :| a in from;
      var m, rest := Promise(a, b, start, report), from - {a};
      assert Last(n.log) in Merge(n.log, report);
      var h := Takes(f, ns, mail, told, ledger, p, m, WithAcks(n, 1), {});
      var ns' := ns[p := WithAcks(n, 1)];
      assert ns'.Keys == ns.Keys;
      g := CollectsEach(h, ns', mail - {m} + {}, told, ledger, p, rest, start, report);
      assert ns'[p := WithAcks(WithAcks(n, 1), |rest|)] == ns[p := WithAcks(n, |from|)];
      assert mail - {m} + {} - PromisesFrom(rest, b, start, report) == mail - PromisesFrom(from, b, start, report);
    }
  }

  /** The proposer `p` counts votes short of a majority. */
  lemma {:induction false} CountsEach(f: Full, ns: map<NodeId, Node>, mail: set<Message>, told: set<Answer>, ledger: Ledger,
                   p: NodeId, from: set<NodeId>, i: nat) returns (g: Full)
    requires Scene(f, ns, mail, told, ledger) && p in ns && ns[p].alive && IsProposer(ns[p]) && ns[p].ballot.id == p
    requires i in ns[p].log && !ns[p].log[i].committed && ns[p].log[i].votes + |from| < Majority(|ns.Keys|)
    requires forall a :: a in from ==> Accept(a, ns[p].ballot, i) in mail
    ensures Scene(g, ns[p := WithVotes(ns[p], i, |from|)], mail - AcceptsOf(from, ns[p].ballot, i), told, ledger)
    decreases |from|
  {
    hide Scene, AckAccept, WithVotes, AcceptsOf;
    var n, b := ns[p], ns[p].ballot;
    if from == {} {
      g := f;
      NoVotes(n, i);
      assert ns[p := n] == ns;
      NoAccepts(b, i);
      assert mail - AcceptsOf(from, b, i) == mail;
    } else {
      var a :| a in from;
      var m, rest := Accept(a, b, i), from - {a};
      OneVote(n, i, b, ns.Keys);
      MoreVotes(n, i, |rest|);
      var h := Takes(f, ns, mail, told, ledger, p, m, WithVotes(n, i, 1), {});
      var ns', mail' := ns[p := WithVotes(n, i, 1)], mail - {m} + {};
      assert ns'.Keys == ns.Keys;
      g := CountsEach(h, ns', mail', told, ledger, p, rest, i);
      assert ns'[p := WithVotes(n, i, |from|)] == ns[p := WithVotes(n, i, |from|)];
      AcceptsSplit(from, a, b, i);
      assert mail' - AcceptsOf(rest, b, i) == mail - AcceptsOf(from, b, i);
    }
  }

  lemma NoAccepts(b: Ballot, i: nat)
    ensures AcceptsOf({}, b, i) == {}
  {
  }

  lemma NoVotes(n: Node, i: nat)
    requires i in n.log
    ensures WithVotes(n, i, 0) == n
  {
    assert n.log[i := n.log[i]] == n.log;
  }

  lemma OneVote(n: Node, i: nat, b: Ballot, acceptors: set<NodeId>)
    requires IsProposer(n) && n.ballot == b && i in n.log && !n.log[i].committed && n.log[i].votes + 1 < Majority(|acceptors|)
    ensures AckAccept(n, b, i, true, acceptors) == Outcome(WithVotes(n, i, 1), {})
    ensures var m := WithVotes(n, i, 1);
      && m.alive == n.alive && IsProposer(m) && m.ballot == b && m.log != map[]
      && i in m.log && !m.log[i].committed && m.log[i].votes == n.log[i].votes + 1
  {
    hide ProposerCommit;
    assert i in WithVotes(n, i, 1).log;
  }

  lemma MoreVotes(n: Node, i: nat, more: nat)
    requires i in n.log
    ensures i in WithVotes(n, i, 1).log && WithVotes(WithVotes(n, i, 1), i, more) == WithVotes(n, i, more + 1)
  {
    assert n.log[i := n.log[i].(votes := n.log[i].votes + 1)][i := n.log[i].(votes := n.log[i].votes + 1 + more)]
           == n.log[i := n.log[i].(votes := n.log[i].votes + (more + 1))];
  }

  // ---- Retrying and recommitting.

  lemma Retries(f: Full, ns: map<NodeId, Node>, mail: set<Message>, told: set<Answer>, ledger: Ledger,
                a: NodeId, ahead: nat) returns (g: Full)
    requires Scene(f, ns, mail, told, ledger) && a in ns && ns[a].alive && !IsProposer(ns[a])
    requires ns[a].ihole < ahead && Ready(ns[a].log, ahead) && !CommittedIn(ns[a].log, ns[a].ihole)
    ensures Scene(g, ns, mail, told + {Retry(a, ns[a].proposer, ns[a].ballot, ns[a].ihole)}, ledger)
  {
    hide Arrived;
    ArrivedNext(f, Ask(a, ahead), ledger.leave);
    g := Turned(f, Ask(a, ahead));
  }

  lemma AnswersRetry(f: Full, ns: map<NodeId, Node>, mail: set<Message>, told: set<Answer>, ledger: Ledger,
                     r: Answer) returns (g: Full)
    requires Scene(f, ns, mail, told, ledger) && r in told && r.Retry? && r.dst in ns && ns[r.dst].alive && IsProposer(ns[r.dst])
    requires r.inum in ns[r.dst].log && ns[r.dst].log[r.inum].committed
    ensures Scene(g, ns, mail,
                  told - {r} + set c | c in ns && c != r.dst :: Recommit(c, r.dst, r.ballot, r.inum, ns[r.dst].log[r.inum].value), ledger)
  {
    hide Arrived;
    ArrivedNext(f, HearRetry(r), ledger.leave);
    g := Turned(f, HearRetry(r));
  }

  lemma TakesRecommit(f: Full, ns: map<NodeId, Node>, mail: set<Message>, told: set<Answer>, ledger: Ledger,
                      r: Answer, n: Node) returns (g: Full)
    requires Scene(f, ns, mail, told, ledger) && r in told && r.Recommit? && r.dst in ns && ns[r.dst].alive && ledger.leave.relabels
    requires AckRecommit(ns[r.dst], r.ballot, r.inum, r.value, true).node == n
    ensures Scene(g, ns[r.dst := n], mail, told - {r}, ledger)
  {
    hide Arrived, AckRecommit;
    ArrivedNext(f, HearRecommit(r, true), ledger.leave);
    g := Turned(f, HearRecommit(r, true));
  }
}
