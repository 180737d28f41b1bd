/** One participant's replicated-log state, and what each protocol handler does
    to it: the participant after the handler and the messages it sends.  The
    acceptor list `acceptors` is fixed. */
module Node {
  import opened Types
  import opened Quorums

  /** A prepare in progress: its ballot, the promises counted so far (our own
      included), and the first instance the merge may touch. */
  datatype Prep = Prep(ballot: Ballot, acks: nat, istart: nat)

  datatype Node = Node(
    id: NodeId,
    alive: bool,
    ballot: Ballot,
    genHigh: nat,
    proposer: NodeId,
    prep: Option<Prep>,
    log: Log,
    ihole: nat,
    reqId: nat,
    learns: seq<Value>)

  datatype Message =
    | Prepare(dst: NodeId, ballot: Ballot, start: nat)
    | Promise(src: NodeId, ballot: Ballot, start: nat, report: Log)
    | Decree(dst: NodeId, ballot: Ballot, inum: nat, value: Value)
    | Accept(src: NodeId, ballot: Ballot, inum: nat)
    | Commit(dst: NodeId, ballot: Ballot, inum: nat, value: Value)
    | Resend(dst: NodeId, inum: nat)

  datatype Outcome = Outcome(node: Node, sent: set<Message>)

  predicate IsProposer(n: Node) {
    n.proposer == n.id
  }

  /** A proposer whose prepare has completed. */
  predicate Established(n: Node) {
    IsProposer(n) && n.prep.None?
  }

  /** A failed assertion, or a null instance dereferenced, ends the process. */
  function Crashed(n: Node): Outcome {
    Outcome(n.(alive := false), {})
  }

  function Ignored(n: Node): Outcome {
    Outcome(n, {})
  }

  /** The number of the instance `istart` names: the hole, if it has an
      instance, and otherwise the one just before it. */
  function StartOf(log: Log, ihole: nat): int {
    if ihole in log then ihole else ihole - 1
  }

  // ---- Preparing.

  /** Start a prepare in a fresh ballot, asking for votes from our hole on. */
  function StartPrepare(n: Node, acceptors: set<NodeId>): Outcome
    requires n.ihole > 0
  {
    var b := Ballot(n.id, n.genHigh + 1);
    Outcome(
      n.(proposer := n.id, genHigh := b.gen, prep := Some(Prep(b, 1, StartOf(n.log, n.ihole)))),
      set a | a in acceptors && a != n.id :: Prepare(a, b, n.ihole))
  }

  /** Defer to another participant, abandoning any prepare. */
  function Defer(n: Node, to: NodeId): Node {
    n.(proposer := to, prep := None)
  }

  /** Whether a backward walk of the log that stops at the first number not
      above `start` visits `i`. */
  predicate Reported(log: Log, start: nat, i: nat) {
    i in log && (start <= i || forall j :: j in log && i < j ==> start < j)
  }

  /** The entries a promise carries; cached, learned and votes are not sent. */
  function Report(log: Log, start: nat): Log {
    map i | i in log && Reported(log, start, i) :: log[i].(cached := false, learned := false, votes := 0)
  }

  /** Promise a prepare for a higher ballot from the participant we take to be
      the proposer; otherwise redirect, which changes nothing here. */
  function AckPrepare(n: Node, b: Ballot, start: nat): Outcome {
    if IsProposer(n) || !Below(n.ballot, b) || n.proposer != b.id then
      Ignored(n)
    else
      Outcome(n.(ballot := b, genHigh := b.gen), {Promise(n.id, b, start, Report(n.log, start))})
  }

  // ---- Counting promises.

  function Fresh(e: Entry): Entry {
    e.(committed := false, cached := false, learned := false)
  }

  /** A reported vote replaces ours if ours is uncommitted and lower. */
  function MergeEntry(own: Entry, other: Entry): Entry {
    if !own.committed && Below(own.ballot, other.ballot) then Fresh(other) else own
  }

  function Merge(log: Log, report: Log): (merged: Log)
    ensures merged.Keys == log.Keys + report.Keys
  {
    map i | i in log.Keys + report.Keys ::
      if i !in report then log[i]
      else if i !in log then Fresh(report[i])
      else MergeEntry(log[i], report[i])
  }

  function HolesBelow(log: Log, from: nat, i: nat): set<nat> {
    set j | from <= j < i && j !in log
  }

  /** Null decrees for holes take our next request numbers in order. */
  function NullValue(n: Node, i: nat): Value {
    Value(DecNull, ReqId(n.id, n.reqId + |HolesBelow(n.log, n.ihole, i)| + 1), 0)
  }

  /** The instances a completing prepare decrees: all from the hole to the last
      one known, except those committed. */
  predicate Redecreed(n: Node, i: nat)
    requires n.log != map[]
  {
    n.ihole <= i <= Last(n.log) && (i in n.log ==> !n.log[i].committed)
  }

  function RedecreeEntry(n: Node, b: Ballot, i: nat): Entry {
    Entry(b, if i in n.log then n.log[i].value else NullValue(n, i), false, false, false, 1)
  }

  function RedecreeLog(n: Node, b: Ballot): Log
    requires n.log != map[]
  {
    map i | i in n.log.Keys + HolesBelow(n.log, n.ihole, Last(n.log)) ::
      if Redecreed(n, i) then RedecreeEntry(n, b, i) else n.log[i]
  }

  /** A majority has promised: take the ballot and decree every open instance. */
  function CompletePrepare(n: Node, b: Ballot, acceptors: set<NodeId>): Outcome
    requires n.log != map[]
  {
    var log := RedecreeLog(n, b);
    Outcome(
      n.(ballot := b, prep := None, log := log, reqId := n.reqId + |HolesBelow(n.log, n.ihole, Last(n.log))|),
      set a, i | a in acceptors && a != n.id && i in log && Redecreed(n, i) :: Decree(a, b, i, log[i].value))
  }

  /** A preparer once a promise has been merged and counted. */
  function Merged(n: Node, report: Log): Node
    requires n.prep.Some?
  {
    n.(log := Merge(n.log, report), prep := Some(n.prep.value.(acks := n.prep.value.acks + 1)))
  }

  function AckPromise(n: Node, b: Ballot, report: Log, acceptors: set<NodeId>): Outcome
    requires n.log != map[]
  {
    if !IsProposer(n) || n.prep.None? || n.prep.value.ballot != b then
      Ignored(n)
    else if exists i :: i in report && i < n.prep.value.istart then
      Crashed(n)
    else
      var merged := Merged(n, report);
      assert Last(n.log) in merged.log;
      if merged.prep.value.acks < Majority(|acceptors|) then Outcome(merged, {}) else CompletePrepare(merged, b, acceptors)
  }

  // ---- Committing and learning in order.

  /** The first instance at or after `i` that cannot be learned yet. */
  function HoleAfter(log: Log, i: nat): (h: nat)
    ensures i <= h && !Ready(log, h)
    ensures forall j :: i <= j < h ==> Ready(log, j)
    decreases if log == map[] then 0 else Last(log) + 1 - i
  {
    if Ready(log, i) then HoleAfter(log, i + 1) else i
  }

  function Values(log: Log, from: nat, to: nat): seq<Value>
    requires from <= to
    requires forall j :: from <= j < to ==> Ready(log, j)
  {
    seq(to - from, k requires 0 <= k < to - from && Ready(log, from + k) => log[from + k].value)
  }

  /** Learn the contiguous run of ready instances that starts at the hole. */
  function LearnRun(n: Node): Node {
    var h := HoleAfter(n.log, n.ihole);
    assert forall j :: n.ihole <= j < h ==> Ready(n.log, j);
    n.(log := map i | i in n.log :: if n.ihole <= i < h then n.log[i].(learned := true) else n.log[i],
       ihole := h,
       learns := n.learns + Values(n.log, n.ihole, h))
  }

  /** Commit instance `i`; `have` says whether its request is cached here.
      Without it the learning waits for a resend. */
  function CommitInstance(n: Node, i: nat, have: bool): Outcome
    requires i in n.log
  {
    var e := n.log[i].(committed := true);
    if NeedsCached(e.value.kind) && !have then
      Outcome(n.(log := n.log[i := e]), {Resend(n.id, i)})
    else
      var m := n.(log := n.log[i := e.(cached := true)]);
      if i < n.ihole then Crashed(m)
      else if i > n.ihole then Outcome(m, {})
      else Outcome(LearnRun(m), {})
  }

  /** The data an instance waited for has arrived. */
  function AckResend(n: Node, i: nat): Outcome {
    if i !in n.log || n.log[i].cached then Ignored(n) else CommitInstance(n, i, true)
  }

  /** Broadcast the commit of our instance and commit it ourselves. */
  function ProposerCommit(n: Node, i: nat, have: bool, acceptors: set<NodeId>): Outcome
    requires i in n.log
  {
    var o := CommitInstance(n, i, have);
    o.(sent := o.sent + set a | a in acceptors && a != n.id :: Commit(a, n.log[i].ballot, i, n.log[i].value))
  }

  // ---- Decreeing and voting.

  function NextInstance(log: Log): nat {
    if log == map[] then 1 else Last(log) + 1
  }

  /** Enter a value under the next free number with our own vote. */
  function EnterDecree(n: Node, v: Value, acceptors: set<NodeId>): Outcome {
    var i := NextInstance(n.log);
    Outcome(
      n.(log := n.log[i := Entry(n.ballot, v, false, false, false, 1)]),
      set a | a in acceptors && a != n.id :: Decree(a, n.ballot, i, v))
  }

  /** Decree a value; alone, our vote is already a majority. */
  function NewDecree(n: Node, v: Value, have: bool, acceptors: set<NodeId>): Outcome {
    var o := EnterDecree(n, v, acceptors);
    if 1 >= Majority(|acceptors|) then
      var c := ProposerCommit(o.node, NextInstance(n.log), have, acceptors);
      c.(sent := o.sent + c.sent)
    else o
  }

  function AckDecree(n: Node, b: Ballot, i: nat, v: Value): Outcome {
    var accept := {Accept(n.id, b, i)};
    if IsProposer(n) || b != n.ballot then Ignored(n)
    else if n.proposer != b.id then Crashed(n)
    else if i !in n.log then Outcome(n.(log := n.log[i := Entry(b, v, false, false, false, 0)]), accept)
    else if n.log[i].committed then
      if SameDecree(n.log[i].value, v) then Outcome(n, accept) else Crashed(n)
    else if AtMost(n.log[i].ballot, b) then
      Outcome(n.(log := n.log[i := n.log[i].(ballot := b, value := v)]), accept)
    else Ignored(n)
  }

  function CountVote(n: Node, i: nat): Node
    requires i in n.log
  {
    n.(log := n.log[i := n.log[i].(votes := n.log[i].votes + 1)])
  }

  function AckAccept(n: Node, b: Ballot, i: nat, have: bool, acceptors: set<NodeId>): Outcome {
    if !IsProposer(n) then Ignored(n)
    else if b != n.ballot || i !in n.log then Crashed(n)
    else
      var m := CountVote(n, i);
      if m.log[i].committed || m.log[i].votes < Majority(|acceptors|) then Outcome(m, {})
      else ProposerCommit(m, i, have, acceptors)
  }

  function AckCommit(n: Node, b: Ballot, i: nat, v: Value, have: bool): Outcome {
    if IsProposer(n) || (i in n.log && n.log[i].committed) then Ignored(n)
    else
      var e := if i in n.log then n.log[i].(value := v) else Entry(b, v, false, false, false, 0);
      CommitInstance(n.(log := n.log[i := e]), i, have)
  }

  /** A recommit also takes over the retrier's ballot. */
  function AckRecommit(n: Node, b: Ballot, i: nat, v: Value, have: bool): Outcome {
    if IsProposer(n) || (i in n.log && n.log[i].committed) then Ignored(n)
    else
      var e := if i in n.log then n.log[i].(ballot := b, value := v) else Entry(b, v, false, false, false, 0);
      CommitInstance(n.(log := n.log[i := e]), i, have)
  }
}
