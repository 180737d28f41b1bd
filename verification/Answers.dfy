/** The agreement model with the handlers that answer: an acceptor may reject a
    part, and the proposer then decrees it again or replaces it by a null, and
    says hello to the one it meant to part; an acceptor with a hole retries, and
    the proposer recommits.

    Agreement survives all of this but two things: a decree repeated after
    rejects, with the part or a null in its place, and a recommit that puts a
    lower ballot on an entry. */
module Answers {
  import opened Types
  import opened Quorums
  import opened Voting
  import opened Node
  import opened Protocol
  import opened Invariant
  import opened Preservation
  import opened PreservationCommit
  import opened Agreement

  datatype Answer =
    | Reject(src: NodeId, ballot: Ballot, inum: nat)
    | Hello(dst: NodeId, src: NodeId, ballot: Ballot)
    | Retry(src: NodeId, dst: NodeId, ballot: Ballot, inum: nat)
    | Recommit(dst: NodeId, src: NodeId, ballot: Ballot, inum: nat, value: Value)

  /** `rejects` counts, for a proposer and an instance, the rejects since its last decree. */
  datatype Full = Full(core: State, answers: multiset<Answer>, rejects: map<(NodeId, nat), nat>)

  datatype Turn =
    | Plain(step: Step)
    | Refuse(msg: Message)
    | HearReject(answer: Answer, deaths: nat, connected: bool)
    | HearHello(answer: Answer)
    | Ask(node: NodeId, ahead: nat)
    | HearRetry(answer: Answer)
    | HearRecommit(answer: Answer, have: bool)
    | Miss(answer: Answer)

  // ---- The handlers.

  /** The message decrees, in our ballot, a part. */
  predicate Judges(n: Node, m: Message) {
    && m.Decree? && m.value.kind == DecPart
    && !IsProposer(n) && m.ballot == n.ballot && n.proposer == m.ballot.id
  }

  /** What a reject makes the proposer do: take note, fail, or decree the value
      given, either afresh or with the votes it has. */
  datatype Reaction = Noted | Fatal | Again(value: Value, afresh: bool)

  /** `rejects` counts this one; `deaths` are the acceptors we are not connected
      to, and `connected` says whether we reach the one we meant to part. */
  function React(n: Node, b: Ballot, i: nat, rejects: nat, deaths: nat, connected: bool, members: nat): Reaction {
    if !IsProposer(n) then Noted
    else if b != n.ballot || i !in n.log then Fatal
    else if n.log[i].committed || n.log[i].value.kind == DecNull then Noted
    else if n.log[i].value.kind != DecPart then Fatal
    else if rejects + deaths >= Majority(members) then
      Again(if connected then n.log[i].value.(kind := DecNull, extra := 0) else n.log[i].value, true)
    else if n.log[i].votes < Majority(members) && n.log[i].votes + rejects + deaths == members then
      Again(n.log[i].value, false)
    else Noted
  }

  /** A hello of our proposer replaces the ballot we hold. */
  function AckHello(n: Node, src: NodeId, b: Ballot): Node {
    if src == n.proposer && src != n.id then n.(ballot := b) else n
  }

  function RejectsSoFar(f: Full, a: NodeId, i: nat): nat {
    if (a, i) in f.rejects then f.rejects[(a, i)] else 0
  }

  /** What the reject makes its receiver do. */
  function Reacts(f: Full, t: Turn): Reaction
    requires t.HearReject? && t.answer.Reject? && t.answer.ballot.id in f.core.nodes
  {
    var a, i := t.answer.ballot.id, t.answer.inum;
    React(f.core.nodes[a], t.answer.ballot, i, RejectsSoFar(f, a, i) + 1, t.deaths, t.connected, |f.core.nodes.Keys|)
  }

  // ---- The system.

  predicate Stands(s: State, a: NodeId) {
    a in s.nodes && s.nodes[a].alive
  }

  ghost predicate Can(f: Full, t: Turn) {
    match t
    case Plain(step) => Enabled(f.core, step)
    case Refuse(m) => m in f.core.net && m.Decree? && Stands(f.core, m.dst) && Judges(f.core.nodes[m.dst], m)
    case HearReject(r, _, _) => r in f.answers && r.Reject? && Stands(f.core, r.ballot.id)
    case HearHello(h) => h in f.answers && h.Hello? && Stands(f.core, h.dst)
    case Ask(a, ahead) =>
      && Stands(f.core, a) && !IsProposer(f.core.nodes[a])
      && f.core.nodes[a].ihole < ahead && Ready(f.core.nodes[a].log, ahead)
      && !CommittedIn(f.core.nodes[a].log, f.core.nodes[a].ihole)
    case HearRetry(r) => r in f.answers && r.Retry? && Stands(f.core, r.dst)
    case HearRecommit(r, _) => r in f.answers && r.Recommit? && Stands(f.core, r.dst)
    case Miss(x) => x in f.answers
  }

  function SetNode(s: State, a: NodeId, n: Node): State {
    s.(nodes := s.nodes[a := n])
  }

  /** The proposer `a` decrees `v` as instance `i` once more. */
  function Redecree(s: State, a: NodeId, i: nat, v: Value, afresh: bool): State
    requires a in s.nodes && i in s.nodes[a].log
  {
    var n := s.nodes[a];
    var e := n.log[i].(value := v, votes := if afresh then 1 else n.log[i].votes);
    s.(nodes := s.nodes[a := n.(log := n.log[i := e])],
       net := s.net + multiset(set c | c in s.nodes && c != a :: Decree(c, n.ballot, i, v)))
  }

  function ApplyReject(f: Full, t: Turn): Full
    requires t.HearReject? && t.answer.Reject? && t.answer.ballot.id in f.core.nodes
  {
    var r, a, i := t.answer, t.answer.ballot.id, t.answer.inum;
    var n := f.core.nodes[a];
    var g := f.(answers := f.answers - multiset{r});
    match Reacts(f, t)
    case Noted => g.(rejects := f.rejects[(a, i) := RejectsSoFar(f, a, i) + 1])
    case Fatal => g.(core := SetNode(f.core, a, n.(alive := false)))
    case Again(v, afresh) =>
      Full(
        Redecree(f.core, a, i, v, afresh),
        if afresh && t.connected then g.answers + multiset{Hello(n.log[i].value.extra, a, n.ballot)} else g.answers,
        f.rejects[(a, i) := if afresh then 0 else RejectsSoFar(f, a, i) + 1])
  }

  function Recommits(s: State, a: NodeId, r: Answer, v: Value): set<Answer>
    requires r.Retry?
  {
    set c | c in s.nodes && c != a :: Recommit(c, a, r.ballot, r.inum, v)
  }

  function ApplyRetry(f: Full, r: Answer): Full
    requires r.Retry? && r.dst in f.core.nodes
  {
    var a, n := r.dst, f.core.nodes[r.dst];
    var g := f.(answers := f.answers - multiset{r});
    if !IsProposer(n) then g
    else if r.inum !in n.log then g.(core := SetNode(f.core, a, n.(alive := false)))
    else if !n.log[r.inum].committed then g
    else
      g.(answers := g.answers + multiset(Recommits(f.core, a, r, n.log[r.inum].value)))
  }

  ghost function Turned(f: Full, t: Turn): Full
    requires Can(f, t)
  {
    match t
    case Plain(step) => f.(core := Apply(f.core, step))
    case Refuse(m) =>
      Full(f.core.(net := f.core.net - multiset{m}), f.answers + multiset{Reject(m.dst, m.ballot, m.inum)}, f.rejects)
    case HearReject(_, _, _) => ApplyReject(f, t)
    case HearHello(h) =>
      f.(core := SetNode(f.core, h.dst, AckHello(f.core.nodes[h.dst], h.src, h.ballot)), answers := f.answers - multiset{h})
    case Ask(a, _) =>
      var n := f.core.nodes[a];
      f.(answers := f.answers + multiset{Retry(a, n.proposer, n.ballot, n.ihole)})
    case HearRetry(r) => ApplyRetry(f, r)
    case HearRecommit(r, have) =>
      f.(core := Install(f.core, r.dst, AckRecommit(f.core.nodes[r.dst], r.ballot, r.inum, r.value, have), multiset{}),
         answers := f.answers - multiset{r})
    case Miss(x) => f.(answers := f.answers - multiset{x})
  }

  // ---- What a reject makes of the state.

  /** The proposer that the reject is for has the part it rejects, undecided. */
  predicate RejectsOpenPart(f: Full, r: Answer)
    requires r.Reject? && r.ballot.id in f.core.nodes
  {
    var n := f.core.nodes[r.ballot.id];
    && IsProposer(n) && r.ballot == n.ballot
    && r.inum in n.log && !n.log[r.inum].committed && n.log[r.inum].value.kind == DecPart
  }

  /** The proposer `a` holds `v` for instance `i`, with these votes, and nothing
      else about it, or about anybody else, has changed. */
  ghost predicate NowHolds(s: State, t: State, a: NodeId, i: nat, v: Value, votes: nat) {
    && a in s.nodes && i in s.nodes[a].log && a in t.nodes && i in t.nodes[a].log
    && t.nodes == s.nodes[a := t.nodes[a]] && t.nodes[a] == s.nodes[a].(log := t.nodes[a].log)
    && t.nodes[a].log == s.nodes[a].log[i := t.nodes[a].log[i]]
    && t.nodes[a].log[i] == s.nodes[a].log[i].(value := v, votes := votes)
  }

  /** One more decree of `v` is on its way to everyone but `a`, and nothing else is. */
  ghost predicate DecreedToAll(s: State, t: State, a: NodeId, i: nat, v: Value) {
    && a in s.nodes
    && forall m: Message :: t.net[m] == s.net[m] +
         if m.Decree? && m.dst in s.nodes && m.dst != a && m.ballot == s.nodes[a].ballot && m.inum == i && m.value == v then 1 else 0
  }

  /** When the rejects with those we are not connected to reach a majority, the
      part gives way to a null if and only if the one it names was reached, who
      then gets a hello; otherwise it keeps its value.  Either way it has one
      vote and no rejects, and a decree of what it now holds goes to everyone
      else.  When all have answered without a majority either way, the same
      decree goes out again, its votes and rejects kept.  Otherwise the reject
      is counted, and nothing else happens. */
  lemma RejectAnswered(f: Full, r: Answer, deaths: nat, connected: bool)
    requires Can(f, HearReject(r, deaths, connected)) && RejectsOpenPart(f, r)
    ensures var a, i, g := r.ballot.id, r.inum, Turned(f, HearReject(r, deaths, connected));
      var e, count, members := f.core.nodes[a].log[i], RejectsSoFar(f, a, i) + 1, |f.core.nodes.Keys|;
      var rest := f.answers - multiset{r};
      if count + deaths >= Majority(members) then
        exists v: Value ::
          && (if connected then v.kind == DecNull && v.req == e.value.req && v.extra == 0 else v == e.value)
          && NowHolds(f.core, g.core, a, i, v, 1) && DecreedToAll(f.core, g.core, a, i, v)
          && RejectsSoFar(g, a, i) == 0
          && g.answers == rest + if connected then multiset{Hello(e.value.extra, a, r.ballot)} else multiset{}
      else if e.votes < Majority(members) && e.votes + count + deaths == members then
        && NowHolds(f.core, g.core, a, i, e.value, e.votes) && DecreedToAll(f.core, g.core, a, i, e.value)
        && RejectsSoFar(g, a, i) == count && g.answers == rest
      else
        g.core == f.core && RejectsSoFar(g, a, i) == count && g.answers == rest
  {
    hide Can, React, ApplyReject, NowHolds, DecreedToAll, Majority;
    var t := HearReject(r, deaths, connected);
    RejectStands(f, t);
    ReactsSo(f, t);
    AppliedReaction(f, t);
  }

  lemma RejectStands(f: Full, t: Turn)
    requires Can(f, t) && t.HearReject?
    ensures t.answer.Reject? && t.answer.ballot.id in f.core.nodes && Turned(f, t) == ApplyReject(f, t)
  {
    hide ApplyReject;
  }

  lemma ReactsSo(f: Full, t: Turn)
    requires t.HearReject? && t.answer.Reject? && t.answer.ballot.id in f.core.nodes && RejectsOpenPart(f, t.answer)
    ensures var a, i, members := t.answer.ballot.id, t.answer.inum, |f.core.nodes.Keys|;
      var e, count := f.core.nodes[a].log[i], RejectsSoFar(f, a, i) + 1;
      Reacts(f, t) ==
        if count + t.deaths >= Majority(members) then Again(if t.connected then Value(DecNull, e.value.req, 0) else e.value, true)
        else if e.votes < Majority(members) && e.votes + count + t.deaths == members then Again(e.value, false)
        else Noted
  {
    hide Majority;
  }

  /** What a reaction makes of the state. */
  lemma AppliedReaction(f: Full, t: Turn)
    requires t.HearReject? && t.answer.Reject? && t.answer.ballot.id in f.core.nodes && RejectsOpenPart(f, t.answer)
    requires !Reacts(f, t).Fatal?
    ensures var a, i, g := t.answer.ballot.id, t.answer.inum, ApplyReject(f, t);
      var e, count, rest := f.core.nodes[a].log[i], RejectsSoFar(f, a, i) + 1, f.answers - multiset{t.answer};
      match Reacts(f, t)
      case Noted => g.core == f.core && RejectsSoFar(g, a, i) == count && g.answers == rest
      case Fatal => true
      case Again(v, afresh) =>
        && NowHolds(f.core, g.core, a, i, v, if afresh then 1 else e.votes) && DecreedToAll(f.core, g.core, a, i, v)
        && RejectsSoFar(g, a, i) == (if afresh then 0 else count)
        && g.answers == rest + if afresh && t.connected then multiset{Hello(e.value.extra, a, t.answer.ballot)} else multiset{}
  {
    hide Reacts, NowHolds, DecreedToAll;
    match Reacts(f, t)
    case Again(v, afresh) => RedecreeHolds(f.core, t.answer.ballot.id, t.answer.inum, v, afresh);
    case Noted =>
    case Fatal =>
  }

  lemma RedecreeHolds(s: State, a: NodeId, i: nat, v: Value, afresh: bool)
    requires a in s.nodes && i in s.nodes[a].log
    ensures var t := Redecree(s, a, i, v, afresh);
      NowHolds(s, t, a, i, v, if afresh then 1 else s.nodes[a].log[i].votes) && DecreedToAll(s, t, a, i, v)
  {
  }

  /** A reject of anything else is at most counted; one for another ballot, for
      an instance not listed, or for an undecided value that is neither a part
      nor a null stops the proposer. */
  lemma OtherRejectAnswered(f: Full, r: Answer, deaths: nat, connected: bool)
    requires Can(f, HearReject(r, deaths, connected)) && !RejectsOpenPart(f, r)
    ensures var a, n, g := r.ballot.id, f.core.nodes[r.ballot.id], Turned(f, HearReject(r, deaths, connected));
      && g.answers == f.answers - multiset{r}
      && g.core == SetNode(f.core, a, n.(alive := g.core.nodes[a].alive))
      && (!g.core.nodes[a].alive <==>
            IsProposer(n) && (r.ballot != n.ballot || r.inum !in n.log
                              || (!n.log[r.inum].committed && n.log[r.inum].value.kind != DecNull)))
  {
    var a, n := r.ballot.id, f.core.nodes[r.ballot.id];
    assert f.core.nodes[a := n] == f.core.nodes;
    assert f.core.(nodes := f.core.nodes) == f.core;
  }

  /** An acceptor that rejects casts no vote: all that happens is that the
      decree is taken and the reject goes out. */
  lemma RefusalAnswered(f: Full, m: Message)
    requires Can(f, Refuse(m))
    ensures var g := Turned(f, Refuse(m));
      && g.core.nodes == f.core.nodes && g.core.net == f.core.net - multiset{m} && g.rejects == f.rejects
      && g.answers == f.answers + multiset{Reject(m.dst, m.ballot, m.inum)}
  {
  }

  /** A retry is answered exactly by a proposer that has committed the instance:
      it tells everyone else the value, under the retrier's ballot. */
  lemma RetryAnswered(f: Full, r: Answer)
    requires Can(f, HearRetry(r)) && IsProposer(f.core.nodes[r.dst]) && r.inum in f.core.nodes[r.dst].log
    ensures var g, e := Turned(f, HearRetry(r)), f.core.nodes[r.dst].log[r.inum];
      && g.core == f.core
      && forall x: Answer :: g.answers[x] == (f.answers - multiset{r})[x] +
           if e.committed && x.Recommit? && x.dst in f.core.nodes && x.dst != r.dst
              && x == Recommit(x.dst, r.dst, r.ballot, r.inum, e.value) then 1 else 0
  {
  }

  /** A retry that names nothing listed stops a proposer; anyone else ignores any. */
  lemma OtherRetryAnswered(f: Full, r: Answer)
    requires Can(f, HearRetry(r)) && !(IsProposer(f.core.nodes[r.dst]) && r.inum in f.core.nodes[r.dst].log)
    ensures var g, n := Turned(f, HearRetry(r)), f.core.nodes[r.dst];
      && g.answers == f.answers - multiset{r} && g.rejects == f.rejects
      && g.core == SetNode(f.core, r.dst, n.(alive := n.alive && !IsProposer(n)))
  {
    assert f.core.nodes[r.dst := f.core.nodes[r.dst]] == f.core.nodes;
    assert f.core.(nodes := f.core.nodes) == f.core;
  }

  /** A hello changes the ballot of exactly those who take its sender for their proposer. */
  lemma HelloAnswered(f: Full, h: Answer)
    requires Can(f, HearHello(h))
    ensures var n, m := f.core.nodes[h.dst], Turned(f, HearHello(h)).core.nodes[h.dst];
      m == n.(ballot := m.ballot) && m.ballot == if h.src == n.proposer && h.src != n.id then h.ballot else n.ballot
  {
  }

  // ---- Two kinds of step that agreement does not survive.

  /** A part is decreed again, or a null in its place. */
  ghost predicate Repeats(f: Full, t: Turn)
    requires Can(f, t)
  {
    t.HearReject? && Reacts(f, t).Again?
  }

  /** A recommit puts a lower ballot on an entry than the one it has. */
  predicate Relabels(f: Full, t: Turn) {
    && t.HearRecommit? && t.answer.Recommit? && t.answer.dst in f.core.nodes
    && var n := f.core.nodes[t.answer.dst];
       !IsProposer(n) && t.answer.inum in n.log && !n.log[t.answer.inum].committed
       && Below(t.answer.ballot, n.log[t.answer.inum].ballot)
  }

  /** Which of the two a run may take. */
  datatype Leave = Leave(repeats: bool, relabels: bool)

  ghost predicate Permitted(f: Full, t: Turn, x: Leave)
    requires Can(f, t)
  {
    (Repeats(f, t) ==> x.repeats) && (Relabels(f, t) ==> x.relabels)
  }

  ghost predicate Follows(f: Full, g: Full, x: Leave) {
    exists t :: Can(f, t) && Permitted(f, t, x) && g == Turned(f, t)
  }

  ghost predicate Starts(f: Full, first: NodeId, join: Value) {
    Init(f.core, first, join) && f.answers == multiset{} && f.rejects == map[]
  }

  /** A run of the code's steps, with the leave `x`. */
  ghost predicate IsFullRun(run: seq<Full>, first: NodeId, join: Value, x: Leave) {
    && |run| > 0 && Starts(run[0], first, join)
    && forall k :: 0 <= k < |run| - 1 ==> Follows(run[k], run[k + 1], x)
  }

  const Neither := Leave(false, false)

  // ---- Without them the invariant holds.

  /** A recommit carries what its sender has committed, and nobody says hello. */
  ghost predicate AnswerOK(s: State, x: Answer) {
    && !x.Hello?
    && (x.Recommit? ==> x.dst in s.nodes && HasCommitted(s, x.src, x.inum, x.value))
  }

  ghost predicate AnswersOK(f: Full) {
    forall x :: x in f.answers ==> AnswerOK(f.core, x)
  }

  ghost predicate FullInv(f: Full) {
    Inv(f.core) && AnswersOK(f)
  }

  /** Every participant keeps what it has committed. */
  ghost predicate AllKeep(s: State, s': State) {
    && s'.nodes.Keys == s.nodes.Keys
    && forall a :: a in s.nodes ==> KeepsCommits(s.nodes[a].log, s'.nodes[a].log)
  }

  lemma CommittedKept(s: State, s': State, a: NodeId, i: nat, v: Value)
    requires AllKeep(s, s') && HasCommitted(s, a, i, v)
    ensures HasCommitted(s', a, i, v)
  {
    assert KeepsCommits(s.nodes[a].log, s'.nodes[a].log);
  }

  lemma AnswersKept(f: Full, g: Full)
    requires AnswersOK(f) && AllKeep(f.core, g.core)
    requires forall x :: x in g.answers && x !in f.answers ==> AnswerOK(g.core, x)
    ensures AnswersOK(g)
  {
    hide AllKeep, HasCommitted;
    forall x | x in g.answers ensures AnswerOK(g.core, x) {
      if x in f.answers {
        assert AnswerOK(f.core, x);
        if x.Recommit? { CommittedKept(f.core, g.core, x.src, x.inum, x.value); }
        SameKeys(f.core, g.core);
      }
    }
  }

  lemma SameKeys(s: State, s': State)
    requires AllKeep(s, s')
    ensures s'.nodes.Keys == s.nodes.Keys
  {
  }

  lemma AllKeepSelf(s: State, s': State)
    requires s'.nodes == s.nodes
    ensures AllKeep(s, s')
  {
  }

  lemma AllKeepOne(s: State, s': State, a: NodeId)
    requires a in s.nodes && a in s'.nodes && s'.nodes == s.nodes[a := s'.nodes[a]]
    requires KeepsCommits(s.nodes[a].log, s'.nodes[a].log)
    ensures AllKeep(s, s')
  {
  }

  lemma ApplyKeys(s: State, step: Step)
    requires Inv(s) && Enabled(s, step)
    ensures Apply(s, step).nodes.Keys == s.nodes.Keys && AllKeep(s, Apply(s, step))
  {
    hide Inv, Apply, Enabled, NodesOK, KeepsCommits;
    NodesInv(s);
    StepKeepsInv(s, step);
    StepKeys(s, step);
    forall a | a in s.nodes
      ensures a in Apply(s, step).nodes && KeepsCommits(s.nodes[a].log, Apply(s, step).nodes[a].log)
    {
      StepKeeps(s, step, a);
    }
  }

  lemma StepKeys(s: State, step: Step)
    requires Enabled(s, step)
    ensures Apply(s, step).nodes.Keys == s.nodes.Keys
  {
    hide ApplyReceive, Handle, StartPrepare, NewDecree, NextInstance;
    if step.Receive? { ReceiveHandles(s, step.msg, step.have); }
  }

  // ---- A recommit that lowers no ballot.

  /** Replacing an uncommitted entry by a chosen value under a ballot no lower, or entering it. */
  lemma RelabellerOK(h: History, n: Node, b: Ballot, i: nat, v: Value)
    requires NodeOK(h, n) && !IsProposer(n) && i > 0 && Chosen(h, i, v)
    requires i in n.log ==> !n.log[i].committed && AtMost(n.log[i].ballot, b)
    ensures var e := if i in n.log then n.log[i].(ballot := b, value := v) else Entry(b, v, false, false, false, 0);
      var n' := n.(log := n.log[i := e]);
      NodeOK(h, n') && Evolves(n, n') && !Ready(n'.log, i)
  {
    var e := if i in n.log then n.log[i].(ballot := b, value := v) else Entry(b, v, false, false, false, 0);
    var log := n.log[i := e];
    assert i < n.ihole ==> Ready(n.log, i);
    assert LogOK(h, n.id, log) by {
      forall j | j in log ensures Backed(h, j, log[j].ballot, log[j].value) {
        if j != i { assert Backed(h, j, n.log[j].ballot, n.log[j].value); }
      }
    }
    assert LearnsOK(log, n.ihole, n.learns) by {
      forall j | 1 <= j < n.ihole ensures Ready(log, j) { assert Ready(n.log, j); }
    }
  }

  lemma AckRecommitKeepsInv(s: State, a: NodeId, b: Ballot, i: nat, v: Value, have: bool)
    requires Inv(s) && a in s.nodes && i > 0 && Chosen(s.hist, i, v)
    requires var n := s.nodes[a];
      !IsProposer(n) && i in n.log && !n.log[i].committed ==> AtMost(n.log[i].ballot, b)
    ensures Inv(Install(s, a, AckRecommit(s.nodes[a], b, i, v, have), multiset{}))
  {
    hide Lawful, RecordsOK, NodeOK, PrepOK, EstablishedOK, PromiseOnce, VoteOnce, Evolves, CommitInstance, CommitsOnly, Chosen;
    var n := s.nodes[a];
    var o := AckRecommit(n, b, i, v, have);
    assert ParticipantOK(s, a);
    PromisedIs(s.hist, n);
    if IsProposer(n) || (i in n.log && n.log[i].committed) {
      SamePromise(s.hist, a);
      assert s.net - multiset{} + multiset({}) == s.net;
      assert s.nodes[a := n] == s.nodes;
      assert Install(s, a, o, multiset{}) == s;
    } else {
      var e := if i in n.log then n.log[i].(ballot := b, value := v) else Entry(b, v, false, false, false, 0);
      var n1 := n.(log := n.log[i := e]);
      RelabellerOK(s.hist, n, b, i, v);
      Idle(s.hist, s.acked[a], s.counted, n1);
      CommitterOK(s.hist, s.acked[a], s.counted, n1, i, have);
      EvolvesChain(n, n1, o.node);
      QuietInstall(s, a, o, multiset{});
    }
  }

  lemma AckRecommitKeeps(n: Node, b: Ballot, i: nat, v: Value, have: bool)
    ensures KeepsCommits(n.log, AckRecommit(n, b, i, v, have).node.log)
  {
    if !IsProposer(n) && (i in n.log ==> !n.log[i].committed) {
      var e := if i in n.log then n.log[i].(ballot := b, value := v) else Entry(b, v, false, false, false, 0);
      CommitKeeps(n.(log := n.log[i := e]), i, have);
    }
    hide CommitInstance;
  }

  lemma CommittedIsChosenHere(s: State, a: NodeId, i: nat, v: Value)
    requires Inv(s) && HasCommitted(s, a, i, v)
    ensures i > 0 && Chosen(s.hist, i, v)
  {
    hide Lawful, NetOK, RecordsOK, PrepOK, EstablishedOK, NodeOK, Chosen;
    assert ParticipantOK(s, a);
    CommittedIsChosen(s.hist, s.nodes[a], i);
  }

  // ---- Every safe step.

  lemma RecommitTurn(f: Full, r: Answer, have: bool)
    requires FullInv(f) && Can(f, HearRecommit(r, have)) && !Relabels(f, HearRecommit(r, have))
    ensures FullInv(Turned(f, HearRecommit(r, have))) && AllKeep(f.core, Turned(f, HearRecommit(r, have)).core)
  {
    hide Inv, Chosen, KeepsCommits, AckRecommit, HasCommitted;
    var a, n, g := r.dst, f.core.nodes[r.dst], Turned(f, HearRecommit(r, have));
    assert AnswerOK(f.core, r);
    CommittedIsChosenHere(f.core, r.src, r.inum, r.value);
    AckRecommitKeepsInv(f.core, a, r.ballot, r.inum, r.value, have);
    AckRecommitKeeps(n, r.ballot, r.inum, r.value, have);
    AllKeepOne(f.core, g.core, a);
    AnswersKept(f, g);
  }

  lemma StoppedTurn(f: Full, a: NodeId, answers: multiset<Answer>, rejects: map<(NodeId, nat), nat>)
    requires FullInv(f) && a in f.core.nodes && answers <= f.answers
    ensures var g := Full(SetNode(f.core, a, f.core.nodes[a].(alive := false)), answers, rejects);
      FullInv(g) && AllKeep(f.core, g.core)
  {
    hide Inv, AnswerOK;
    CrashKeepsInv(f.core, a);
    var g := Full(SetNode(f.core, a, f.core.nodes[a].(alive := false)), answers, rejects);
    Keeps(f.core.nodes[a].log);
    AllKeepOne(f.core, g.core, a);
    AnswersKept(f, g);
  }

  lemma IdleTurn(f: Full, net: multiset<Message>, answers: multiset<Answer>, rejects: map<(NodeId, nat), nat>)
    requires FullInv(f) && Inv(f.core.(net := net))
    requires forall x :: x in answers && x !in f.answers ==> AnswerOK(f.core.(net := net), x)
    ensures var g := Full(f.core.(net := net), answers, rejects); FullInv(g) && AllKeep(f.core, g.core)
  {
    hide Inv, AnswerOK, KeepsCommits;
    var g := Full(f.core.(net := net), answers, rejects);
    forall a | a in f.core.nodes ensures KeepsCommits(f.core.nodes[a].log, g.core.nodes[a].log) { Keeps(f.core.nodes[a].log); }
    AnswersKept(f, g);
  }

  lemma RejectTurn(f: Full, t: Turn)
    requires FullInv(f) && Can(f, t) && t.HearReject? && !Repeats(f, t)
    ensures FullInv(Turned(f, t)) && AllKeep(f.core, Turned(f, t).core)
  {
    hide FullInv, AllKeep, React, Inv;
    var r, a := t.answer, t.answer.ballot.id;
    assert f.core.(net := f.core.net) == f.core;
    assert Inv(f.core) by { FullParts(f); }
    if Reacts(f, t).Noted? {
      IdleTurn(f, f.core.net, f.answers - multiset{r}, f.rejects[(a, r.inum) := RejectsSoFar(f, a, r.inum) + 1]);
    } else {
      StoppedTurn(f, a, f.answers - multiset{r}, f.rejects);
    }
  }

  lemma FullParts(f: Full)
    requires FullInv(f)
    ensures Inv(f.core) && AnswersOK(f)
  {
  }

  lemma RetryTurn(f: Full, r: Answer)
    requires FullInv(f) && Can(f, HearRetry(r))
    ensures FullInv(Turned(f, HearRetry(r))) && AllKeep(f.core, Turned(f, HearRetry(r)).core)
  {
    hide FullInv, AllKeep;
    var a, n := r.dst, f.core.nodes[r.dst];
    assert f.core.(net := f.core.net) == f.core;
    assert Inv(f.core) by { FullParts(f); }
    hide Inv;
    var rest := f.answers - multiset{r};
    IdleTurn(f, f.core.net, rest, f.rejects);
    if IsProposer(n) && r.inum !in n.log {
      StoppedTurn(f, a, rest, f.rejects);
    } else if IsProposer(n) && n.log[r.inum].committed {
      var v := n.log[r.inum].value;
      var sent := Recommits(f.core, a, r, v);
      RecommitsOK(f.core, a, r, v);
      IdleTurn(f, f.core.net, rest + multiset(sent), f.rejects);
    }
  }

  lemma RecommitsOK(s: State, a: NodeId, r: Answer, v: Value)
    requires r.Retry? && HasCommitted(s, a, r.inum, v)
    ensures forall x :: x in Recommits(s, a, r, v) ==> AnswerOK(s, x)
  {
    hide HasCommitted;
  }

  lemma NoHello(f: Full, h: Answer)
    requires AnswersOK(f) && h in f.answers
    ensures !h.Hello?
  {
    assert AnswerOK(f.core, h);
  }

  lemma PlainTurn(f: Full, step: Step)
    requires FullInv(f) && Enabled(f.core, step)
    ensures FullInv(f.(core := Apply(f.core, step))) && AllKeep(f.core, Apply(f.core, step))
  {
    hide Inv, Apply, Enabled, AnswerOK, AllKeep;
    StepKeepsInv(f.core, step);
    ApplyKeys(f.core, step);
    AnswersKept(f, f.(core := Apply(f.core, step)));
  }

  /** Every step but those two keeps the invariant and everything committed. */
  lemma TurnKeepsInv(f: Full, t: Turn)
    requires FullInv(f) && Can(f, t) && !Repeats(f, t) && !Relabels(f, t)
    ensures FullInv(Turned(f, t)) && AllKeep(f.core, Turned(f, t).core)
  {
    hide FullInv, AllKeep, Inv, Apply, Enabled, ApplyReject, ApplyRetry, AckRecommit, Repeats, Relabels, Ready;
    assert Inv(f.core) && AnswersOK(f) by { FullParts(f); }
    assert f.core.(net := f.core.net) == f.core;
    match t
    case Plain(step) => PlainTurn(f, step);
    case Refuse(m) =>
      LoseKeepsInv(f.core, m);
      IdleTurn(f, f.core.net - multiset{m}, f.answers + multiset{Reject(m.dst, m.ballot, m.inum)}, f.rejects);
    case HearReject(_, _, _) => RejectTurn(f, t);
    case HearHello(h) => NoHello(f, h); assert false;
    case Ask(a, _) =>
      var n := f.core.nodes[a];
      IdleTurn(f, f.core.net, f.answers + multiset{Retry(a, n.proposer, n.ballot, n.ihole)}, f.rejects);
    case HearRetry(r) => RetryTurn(f, r);
    case HearRecommit(r, have) => RecommitTurn(f, r, have);
    case Miss(x) => IdleTurn(f, f.core.net, f.answers - multiset{x}, f.rejects);
  }

  lemma {:induction false} SafeRunInv(run: seq<Full>, first: NodeId, join: Value, k: nat)
    requires IsFullRun(run, first, join, Neither) && k < |run|
    ensures FullInv(run[k])
  {
    hide Inv, Init, Turned, Can, Repeats, Relabels;
    if k == 0 {
      InitInv(run[0].core, first, join);
    } else {
      SafeRunInv(run, first, join, k - 1);
      assert Follows(run[k - 1], run[k], Neither);
      var t :| Can(run[k - 1], t) && Permitted(run[k - 1], t, Neither) && run[k] == Turned(run[k - 1], t);
      hide FullInv;
      TurnKeepsInv(run[k - 1], t);
    }
  }

  lemma {:induction false} SafeCommitsPersist(run: seq<Full>, first: NodeId, join: Value, j: nat, k: nat, a: NodeId, i: nat, v: Value)
    requires IsFullRun(run, first, join, Neither) && j <= k < |run| && HasCommitted(run[j].core, a, i, v)
    ensures HasCommitted(run[k].core, a, i, v)
  {
    hide FullInv, Init, Turned, Can, Repeats, Relabels, AllKeep, HasCommitted;
    if j < k {
      SafeCommitsPersist(run, first, join, j, k - 1, a, i, v);
      SafeRunInv(run, first, join, k - 1);
      assert Follows(run[k - 1], run[k], Neither);
      var t :| Can(run[k - 1], t) && Permitted(run[k - 1], t, Neither) && run[k] == Turned(run[k - 1], t);
      TurnKeepsInv(run[k - 1], t);
      CommittedKept(run[k - 1].core, run[k].core, a, i, v);
    }
  }

  /** Agreement with rejects, retries and recommits: over every run in which no
      decree is repeated after rejects and no recommit lowers an entry's ballot,
      no two participants ever commit different values for one instance. */
  lemma SafeAgreement(run: seq<Full>, first: NodeId, join: Value, j: nat, a: NodeId, v: Value, k: nat, b: NodeId, w: Value, i: nat)
    requires IsFullRun(run, first, join, Neither) && j < |run| && k < |run|
    requires HasCommitted(run[j].core, a, i, v) && HasCommitted(run[k].core, b, i, w)
    ensures v == w
  {
    hide IsFullRun, Inv, HasCommitted;
    var last := |run| - 1;
    SafeCommitsPersist(run, first, join, j, last, a, i, v);
    SafeCommitsPersist(run, first, join, k, last, b, i, w);
    SafeRunInv(run, first, join, last);
    InvAgreement(run[last].core, a, b, i, v, w);
  }
}
