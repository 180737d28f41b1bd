/** One participant's session as mutable state.  Each handler is a method that
    runs the protocol's loops over the instance list; it is proved to change
    the session exactly as the corresponding function of `Node` says, and to
    keep one invariant. */
module Session {
  import opened Types
  import opened Quorums
  import opened Node
  import Handlers = Node
  import opened InstanceList
  import opened Loops
  import opened Soundness
  import SyncModel

  /** Decree the queued values one after another. */
  function DecreeAll(n: Node, queue: seq<Value>, rcache: set<ReqId>, acceptors: set<NodeId>): Outcome
    decreases |queue|
  {
    if queue == [] then Outcome(n, {})
    else
      var o := NewDecree(n, queue[0], queue[0].req in rcache, acceptors);
      var rest := DecreeAll(o.node, queue[1..], rcache, acceptors);
      rest.(sent := o.sent + rest.sent)
  }

  lemma DecreeAllNext(n: Node, queue: seq<Value>, k: nat, rcache: set<ReqId>, acceptors: set<NodeId>)
    requires k < |queue|
    ensures var done := DecreeAll(n, queue[..k], rcache, acceptors);
      var o := NewDecree(done.node, queue[k], queue[k].req in rcache, acceptors);
      DecreeAll(n, queue[..k + 1], rcache, acceptors) == Outcome(o.node, done.sent + o.sent)
    decreases k
  {
    hide NewDecree;
    if k == 0 {
      assert queue[..1] == [queue[0]] && queue[..0] == [];
      var o := NewDecree(n, queue[0], queue[0].req in rcache, acceptors);
      assert DecreeAll(o.node, [], rcache, acceptors) == Outcome(o.node, {});
    } else {
      var o := NewDecree(n, queue[0], queue[0].req in rcache, acceptors);
      assert queue[..k][0] == queue[0] && queue[..k][1..] == queue[1..][..k - 1];
      assert queue[..k + 1][0] == queue[0] && queue[..k + 1][1..] == queue[1..][..k];
      DecreeAllNext(o.node, queue[1..], k - 1, rcache, acceptors);
    }
  }

  lemma FirstReported(report: seq<Instance>, start: nat)
    requires Sorted(report)
    ensures (exists i :: i in LogOf(report) && i < start) <==> report != [] && report[0].inum < start
  {
    if report != [] { Listed(report, 0); }
  }

  lemma SizeOfLog(s: seq<Instance>)
    requires Sorted(s)
    ensures |LogOf(s)| == |s|
  {
    if s != [] {
      var k: nat := |s| - 1;
      PrefixNext(s, k);
      SizeOfLog(s[..k]);
      assert s[..k + 1] == s;
    }
  }

  lemma PromiseCases(n: Node, b: Ballot, report: Log, acceptors: set<NodeId>)
    requires n.log != map[]
    ensures n.prep.Some? ==> Merged(n, report).log != map[]
    ensures Handlers.AckPromise(n, b, report, acceptors) ==
      if !IsProposer(n) || n.prep.None? || n.prep.value.ballot != b then Ignored(n)
      else if exists i :: i in report && i < n.prep.value.istart then Crashed(n)
      else if n.prep.value.acks + 1 < Majority(|acceptors|) then Outcome(Merged(n, report), {})
      else CompletePrepare(Merged(n, report), b, acceptors)
  {
    assert Last(n.log) in Merge(n.log, report);
    hide Merge, CompletePrepare, Last;
  }

  /** A commit asks for the hole when its data is at hand but the hole is missing or uncommitted. */
  lemma AsksAfter(n: Node, e: Entry, i: nat, have: bool)
    requires !CommittedIn(n.log, i) && !e.cached
    ensures var o := CommitInstance(n.(log := n.log[i := e]), i, have);
      SyncModel.Asks(n, i, o.node) <==> o.sent == {} && n.ihole < i && !CommittedIn(o.node.log, o.node.ihole)
  {
  }

  lemma NeverAsks(n: Node, i: nat)
    ensures !SyncModel.Asks(n, i, n)
  {
  }

  lemma CommitCases(n: Node, i: nat, have: bool)
    requires i in n.log
    ensures var e := n.log[i].(committed := true);
      CommitInstance(n, i, have) ==
      if NeedsCached(e.value.kind) && !have then Outcome(n.(log := n.log[i := e]), {Resend(n.id, i)})
      else
        var m := n.(log := n.log[i := e.(cached := true)]);
        Outcome(if i < n.ihole then m.(alive := false) else if i > n.ihole then m else LearnRun(m), {})
  {
  }

  class Session {
    const selfId: NodeId
    const acceptors: set<NodeId>
    var alive: bool
    var ballot: Ballot
    var genHigh: nat
    var reqId: nat
    var proposer: NodeId
    var prep: Option<Prep>
    var ilist: seq<Instance>
    var idefer: seq<Value>
    var rcache: set<ReqId>
    var ibase: nat
    var ihole: nat
    var istart: nat
    var syncing: SyncModel.Syncing
    ghost var learns: seq<Value>
    ghost const firstLearn: nat

    /** The participant this session is, in the terms of the protocol. */
    ghost function Core(): Node
      reads this
      requires Sorted(ilist)
    {
      Node(selfId, alive, ballot, genHigh, proposer, prep, LogOf(ilist), ihole, reqId, learns)
    }

    ghost predicate Valid()
      reads this
    {
      && Sorted(ilist)
      && Sound(Core(), ibase, rcache, firstLearn)
      && istart as int == StartOf(LogOf(ilist), ihole)
    }

    /** Start a session as its only participant: our join is instance 1, taken
        as learned, and our ballot is promised. */
    constructor Start()
      ensures Valid() && selfId == 1 && acceptors == {1} && rcache == {ReqId(1, 1)} && idefer == [] && ibase == 1
      ensures var b := Ballot(1, 1);
        Core() == Node(1, true, b, 1, 1, None, map[1 := Entry(b, Value(DecJoin, ReqId(1, 1), 0), true, true, true, 1)], 2, 1, [])
      ensures Established(Core())
    {
      selfId, acceptors, alive, proposer, prep := 1, {1}, true, 1, None;
      ballot, genHigh, reqId := Ballot(1, 1), 1, 1;
      rcache, idefer := {ReqId(1, 1)}, [];
      ilist := [Instance(1, Entry(Ballot(1, 1), Value(DecJoin, ReqId(1, 1), 0), true, true, true, 1))];
      ibase, ihole, istart := 1, 2, 1;
      learns, firstLearn := [], 2;
      syncing := SyncModel.Syncing(0, 0, None);
      new;
      hide LogOf, Sound;
      OnlyInstance(ilist[0].entry);
      StartSound(Core(), ilist[0].entry, rcache);
    }

    /** Be welcomed by an established proposer with its ballot and its whole
        instance list: commits contiguous from its base count as learned. */
    constructor Welcome(id: NodeId, members: set<NodeId>, b: Ballot, base: nat, list: seq<Instance>)
      requires Sorted(list) && list != [] && list[0].inum == base > 0 && list[0].entry.committed
      requires forall k :: 0 <= k < |list| ==> !list[k].entry.cached && !list[k].entry.learned
      ensures Valid() && selfId == id && acceptors == members && rcache == {} && idefer == [] && ibase == base
      ensures Core() == Node(id, true, b, b.gen, b.id, None, TakenAsLearned(LogOf(list), base, ihole), ihole, 0, [])
      ensures !CommittedIn(LogOf(list), ihole) && forall i :: base <= i < ihole ==> CommittedIn(LogOf(list), i)
    {
      hide LogOf, Sorted, Sound, TakenAsLearned, CommittedIn;
      selfId, acceptors, alive, proposer, prep := id, members, true, b.id, None;
      ballot, genHigh, reqId := b, b.gen, 0;
      rcache, idefer := {}, [];
      var t, hole, start := WelcomeLoop(list, base);
      ilist, ibase, ihole, istart := t, base, hole, start;
      learns, firstLearn := [], hole;
      syncing := SyncModel.Syncing(0, 0, None);
      new;
      Unpacked(list);
      WelcomeSound(Core(), LogOf(list), base, {});
    }

    /** Commit the instance at position `k`, whose number is `i`, and learn what
        has become contiguous.  A commit past a hole that is missing or
        uncommitted makes an acceptor ask for the hole again; one below the
        hole is fatal once its data is at hand. */
    method Commit(k: nat, i: nat) returns (sent: set<Message>, retry: Option<nat>)
      requires Sorted(ilist) && k < |ilist| && ilist[k].inum == i
      requires ihole <= i ==> Valid() && !Ready(LogOf(ilist), i)
      modifies this`alive, this`ilist, this`ihole, this`istart, this`learns
      ensures Sorted(ilist) && (old(ihole) <= i ==> Valid())
      ensures i in old(LogOf(ilist)) && var o := CommitInstance(old(Core()), i, old(ilist[k].entry.value.req) in rcache);
        Core() == o.node && sent == o.sent
      ensures retry == if sent == {} && old(ihole) < i && proposer != selfId && !CommittedIn(LogOf(ilist), ihole)
                       then Some(ihole) else None
    {
      hide LogOf, Sorted, Sound, CommitInstance, LearnRun;
      ghost var n := Core();
      Listed(ilist, k);
      CommitCases(n, i, ilist[k].entry.value.req in rcache);
      if ihole <= i {
        CommitSound(n, i, ibase, rcache, firstLearn);
        OpenFrom(ilist, k, n, ibase, rcache, firstLearn);
      }
      sent, retry := {}, None;
      var e := ilist[k].entry.(committed := true);
      if NeedsCached(e.value.kind) && e.value.req !in rcache {
        UpdateAt(ilist, k, e);
        ilist := ilist[k := Instance(i, e)];
        return {Resend(selfId, i)}, None;
      }
      e := e.(cached := true);
      UpdateAt(ilist, k, e);
      ilist := ilist[k := Instance(i, e)];
      if i < ihole {
        alive := false;
        return;
      }
      if i != ihole {
        if proposer != selfId {
          var hole := Find(ilist, istart);
          if istart == ihole && ilist[hole.value].entry.committed { return; }
          retry := Some(ihole);
        }
        return;
      }
      LearnFrom(k);
    }

    /** Learn what is contiguous from the instance at position `k`, the hole. */
    method LearnFrom(k: nat)
      requires Sorted(ilist) && k < |ilist| && ilist[k].inum == ihole > 0 && Ready(LogOf(ilist), ihole)
      requires forall j :: k <= j < |ilist| ==> !ilist[j].entry.learned
      modifies this`ilist, this`ihole, this`istart, this`learns
      ensures Sorted(ilist) && Core() == LearnRun(old(Core())) && istart as int == StartOf(LogOf(ilist), ihole)
    {
      hide LogOf, Sorted, HoleAfter, Values;
      var t, hole, start, learned := LearnRunLoop(ilist, k, ihole);
      ilist, ihole, istart, learns := t, hole, start, learns + learned;
    }

    /** Write an open entry, inserting it in order if its number is not listed. */
    method Write(i: nat, e: Entry) returns (k: nat)
      requires Valid() && !Ready(LogOf(ilist), i) && !e.learned && !e.cached
      modifies this`ilist, this`istart
      ensures Sorted(ilist) && Core() == old(Core()).(log := old(LogOf(ilist))[i := e])
      ensures ibase <= i ==> Valid() && ihole <= i
      ensures i < ibase ==> i < ihole
      ensures k < |ilist| && ilist[k] == Instance(i, e)
    {
      hide LogOf, Sorted, Sound;
      OpenPastHole(Core(), i, ibase, rcache, firstLearn);
      if ibase <= i { WriteSound(Core(), i, e, ibase, rcache, firstLearn); }
      var found := Find(ilist, i);
      if found.Some? {
        k := found.value;
        UpdateAt(ilist, k, e);
        ilist := ilist[k := Instance(i, e)];
      } else {
        ilist := Insert(ilist, Instance(i, e));
        if i == ihole { istart := i; }
        var at := Find(ilist, i);
        k := at.value;
        Listed(ilist, k);
      }
    }

    // ---- Preparing.

    /** Believe ourselves the proposer and ask everyone for their votes from our
        hole on, queueing the given parts; too few live acceptors end the session. */
    method BeginPrepare(live: int, parts: seq<Value>) returns (sent: set<Message>)
      requires Valid()
      modifies this`alive, this`proposer, this`prep, this`genHigh, this`reqId, this`idefer
      ensures Valid()
      ensures if old(prep).Some? || live < Majority(|acceptors|)
              then Core() == old(Core()).(proposer := selfId, alive := false) && sent == {} && idefer == old(idefer)
              else
                && idefer == old(idefer) + parts
                && var o := StartPrepare(old(Core()), acceptors);
                   Core() == o.node.(reqId := old(reqId) + |parts|) && sent == o.sent
    {
      hide LogOf, Sorted, StartOf, Sound;
      PrepareSound(Core(), acceptors, reqId + |parts|, ibase, rcache, firstLearn);
      sent := {};
      proposer := selfId;
      if prep.Some? || live < Majority(|acceptors|) {
        alive := false;
        return;
      }
      genHigh := genHigh + 1;
      prep := Some(Prep(Ballot(selfId, genHigh), 1, istart));
      idefer, reqId := idefer + parts, reqId + |parts|;
      sent := set a | a in acceptors && a != selfId :: Prepare(a, Ballot(selfId, genHigh), ihole);
    }

    /** Defer to a participant we have reconnected to, dropping our prepare and its queue. */
    method DeferTo(to: NodeId)
      requires Valid() && to != selfId
      modifies this`proposer, this`prep, this`idefer
      ensures Valid() && Core() == Defer(old(Core()), to) && idefer == []
    {
      hide LogOf, Sorted;
      proposer, prep, idefer := to, None, [];
    }

    /** Promise with the votes from `start` on.  A preparer whose hole we have
        truncated gets a count that no packed instance backs. */
    method AckPrepare(b: Ballot, start: nat) returns (sent: set<Message>, count: nat)
      requires Valid()
      modifies this`ballot, this`genHigh
      ensures Valid()
      ensures var o := Handlers.AckPrepare(old(Core()), b, start);
        Core() == o.node && (ibase <= start ==> sent == o.sent)
      ensures forall m :: m in sent ==> m.Promise? && (count == |m.report| <==> ibase <= start)
    {
      hide LogOf, Sorted, Sound, Report;
      sent, count := {}, 0;
      if proposer == selfId || BallotCompare(b, ballot) <= 0 || proposer != b.id { return; }
      BaseFirst(ilist, Core(), ibase, rcache, firstLearn);
      var packed;
      count, packed := PackReport(ilist, start);
      SizeOfLog(packed);
      sent := {Promise(selfId, b, start, LogOf(packed))};
      ballot, genHigh := b, b.gen;
      SoundElsewhere(old(Core()), Core(), ibase, rcache, firstLearn);
    }

    // ---- Counting promises.

    /** Count a promise.  If it makes a majority, take the ballot, decree every
        open instance, and then everything that was queued meanwhile. */
    method AckPromise(b: Ballot, report: seq<Instance>) returns (sent: set<Message>)
      requires Valid() && Sorted(report)
      modifies this`alive, this`ballot, this`prep, this`ilist, this`istart, this`ihole, this`learns, this`reqId, this`idefer
      ensures Valid()
      ensures old(LogOf(ilist)) != map[]
      ensures var o := Handlers.AckPromise(old(Core()), b, LogOf(report), acceptors);
        var completed := old(prep).Some? && o.node.prep.None?;
        var d := if completed then DecreeAll(o.node, old(idefer), rcache, acceptors) else Outcome(o.node, {});
        && Core() == d.node && sent == o.sent + d.sent
        && idefer == (if completed then [] else old(idefer))
    {
      hide LogOf, Sorted, Sound, Merge, CompletePrepare, Last, DecreeAll, Handlers.AckPromise, Merged;
      sent := {};
      HasBase(Core(), ibase, rcache, firstLearn);
      PromiseCases(Core(), b, LogOf(report), acceptors);
      if proposer != selfId || prep.None? || prep.value.ballot != b { return; }
      var ok := MergePromise(report);
      if !ok { return; }
      if prep.value.acks < Majority(|acceptors|) { return; }
      sent := Complete(b);
      var drained := Drain();
      sent := sent + drained;
    }

    /** Merge a promise's votes, from the instance our prepare started at, and count it. */
    method MergePromise(report: seq<Instance>) returns (ok: bool)
      requires Valid() && Sorted(report) && prep.Some?
      modifies this`alive, this`ilist, this`istart, this`prep
      ensures Valid()
      ensures LogOf(old(ilist)) != map[]
      ensures ok <==> !exists i :: i in LogOf(report) && i < old(prep.value.istart)
      ensures Core() == if !ok then old(Core()).(alive := false)
                        else Merged(old(Core()), LogOf(report))
      ensures ok ==> prep == Some(old(prep.value).(acks := old(prep.value.acks) + 1))
    {
      hide LogOf, Sorted, Sound, Merge, StartOf;
      ghost var n := Core();
      PrepSound(n, ibase, rcache, firstLearn);
      var at := Find(ilist, prep.value.istart);
      FirstReported(report, prep.value.istart);
      var t, start;
      ok, t, start := MergeLoop(ilist, at.value, report, ihole, istart);
      if !ok {
        alive := false;
        SoundElsewhere(n, Core(), ibase, rcache, firstLearn);
        return;
      }
      MergeSound(n, LogOf(report), prep.value.acks + 1, ibase, rcache, firstLearn);
      MergeStart(n.log, LogOf(report), ihole);
      ilist, istart := t, start;
      prep := Some(prep.value.(acks := prep.value.acks + 1));
    }

    /** End a prepare that has a majority. */
    method Complete(b: Ballot) returns (sent: set<Message>)
      requires Valid() && prep.Some?
      modifies this`ballot, this`prep, this`ilist, this`istart, this`reqId
      ensures Valid() && prep.None? && old(LogOf(ilist)) != map[]
      ensures var o := CompletePrepare(old(Core()), b, acceptors); Core() == o.node && sent == o.sent
    {
      hide LogOf, Sorted, Sound, Last, RedecreeLog, HolesBelow;
      ghost var n := Core();
      PrepSound(n, ibase, rcache, firstLearn);
      CompleteSound(n, b, acceptors, ibase, rcache, firstLearn);
      var at := Find(ilist, prep.value.istart);
      HoleInReach(ilist, n, ibase, rcache, firstLearn);
      var t, req, decrees, start := RedecreeLoop(ilist, at.value, selfId, ihole, reqId, b, acceptors, istart, n);
      RedecreedStart(n, b);
      ilist, reqId, istart, sent := t, req, start, decrees;
      ballot, prep := b, None;
    }

    /** Decree everything queued while preparing, in order. */
    method Drain() returns (sent: set<Message>)
      requires Valid()
      modifies this`ilist, this`istart, this`ihole, this`learns, this`idefer, this`alive
      ensures Valid() && idefer == []
      ensures var o := DecreeAll(old(Core()), old(idefer), rcache, acceptors); Core() == o.node && sent == o.sent
    {
      hide LogOf, Sorted, Sound, NewDecree;
      ghost var n, queue, k := Core(), idefer, 0;
      sent := {};
      assert queue[..0] == [];
      while idefer != []
        invariant Valid() && 0 <= k <= |queue| && idefer == queue[k..]
        invariant Outcome(Core(), sent) == DecreeAll(n, queue[..k], rcache, acceptors)
        decreases |idefer|
      {
        DecreeAllNext(n, queue, k, rcache, acceptors);
        var v := idefer[0];
        idefer := idefer[1..];
        var decrees := Decree(v);
        sent, k := sent + decrees, k + 1;
      }
      assert queue[..k] == queue;
    }

    // ---- Decreeing and voting.

    /** Decree a value under the next number; alone, commit it at once. */
    method Decree(v: Value) returns (sent: set<Message>)
      requires Valid()
      modifies this`alive, this`ilist, this`istart, this`ihole, this`learns
      ensures Valid()
      ensures var o := NewDecree(old(Core()), v, v.req in rcache, acceptors); Core() == o.node && sent == o.sent
    {
      hide LogOf, Sorted, Sound, Last, CommitInstance;
      EnterSound(Core(), v, acceptors, ibase, rcache, firstLearn);
      BaseFirst(ilist, Core(), ibase, rcache, firstLearn);
      LastOf(ilist);
      var i := if ilist == [] then 1 else ilist[|ilist| - 1].inum + 1;
      var k := Write(i, Entry(ballot, v, false, false, false, 1));
      sent := set a | a in acceptors && a != selfId :: Handlers.Decree(a, ballot, i, v);
      if 1 >= Majority(|acceptors|) {
        var commits := BroadcastCommit(k, i);
        sent := sent + commits;
      }
    }

    /** Broadcast the commit of an instance and commit it ourselves. */
    method BroadcastCommit(k: nat, i: nat) returns (sent: set<Message>)
      requires Valid() && k < |ilist| && ilist[k].inum == i && !Ready(LogOf(ilist), i) && i in LogOf(ilist)
      modifies this`alive, this`ilist, this`ihole, this`istart, this`learns
      ensures Valid()
      ensures var o := ProposerCommit(old(Core()), i, old(ilist[k].entry.value.req) in rcache, acceptors);
        Core() == o.node && sent == o.sent
    {
      hide LogOf, Sorted, Sound, CommitInstance;
      Listed(ilist, k);
      OpenPastHole(Core(), i, ibase, rcache, firstLearn);
      AboveBase(ilist, k, Core(), ibase, rcache, firstLearn);
      var e := ilist[k].entry;
      var commits := set a | a in acceptors && a != selfId :: Handlers.Commit(a, e.ballot, i, e.value);
      var asked, retry := Commit(k, i);
      sent := asked + commits;
    }

    /** Vote for a decree of our ballot, but reject the part of one we can still
        reach; `reach` says which listed acceptors that is. */
    method AckDecree(b: Ballot, i: nat, v: Value, reach: map<NodeId, bool>) returns (sent: set<Message>, rejected: bool)
      requires Valid()
      modifies this`alive, this`ilist, this`istart
      ensures Sorted(ilist) && (ibase <= i ==> Valid())
      ensures var o, judged := Handlers.AckDecree(old(Core()), b, i, v),
                    proposer != selfId && b == ballot && proposer == b.id && v.kind == DecPart;
        && (rejected <==> judged && v.extra in reach && reach[v.extra])
        && if judged && v.extra !in reach then Core() == old(Core()).(alive := false) && sent == {}
           else if rejected then Core() == old(Core()) && sent == {}
           else Core() == o.node && sent == o.sent
    {
      hide LogOf, Sorted, Sound;
      ghost var n := Core();
      sent, rejected := {}, false;
      if proposer == selfId || BallotCompare(b, ballot) != 0 { return; }
      if proposer != ballot.id || (v.kind == DecPart && v.extra !in reach) {
        alive := false;
        SoundElsewhere(n, Core(), ibase, rcache, firstLearn);
        return;
      }
      if v.kind == DecPart && reach[v.extra] { return {}, true; }
      var found := Find(ilist, i);
      if found.None? {
        var _ := Write(i, Entry(b, v, false, false, false, 0));
        return {Accept(selfId, b, i)}, false;
      }
      Listed(ilist, found.value);
      var e := ilist[found.value].entry;
      if e.committed {
        if !SameDecree(e.value, v) {
          alive := false;
          SoundElsewhere(n, Core(), ibase, rcache, firstLearn);
          return;
        }
        return {Accept(selfId, b, i)}, false;
      }
      if BallotCompare(b, e.ballot) >= 0 {
        UncachedOpen(n, i, ibase, rcache, firstLearn);
        var _ := Write(i, e.(ballot := b, value := v));
        return {Accept(selfId, b, i)}, false;
      }
    }

    /** Count a vote; a majority commits.  A vote for an instance no longer
        listed, or for another ballot, is fatal. */
    method AckAccept(b: Ballot, i: nat) returns (sent: set<Message>)
      requires Valid()
      modifies this`alive, this`ilist, this`ihole, this`istart, this`learns
      ensures Valid()
      ensures var o := Handlers.AckAccept(old(Core()), b, i,
                         i in old(LogOf(ilist)) && old(LogOf(ilist))[i].value.req in rcache, acceptors);
        Core() == o.node && sent == o.sent
    {
      hide LogOf, Sorted, Sound, CommitInstance;
      ghost var n := Core();
      sent := {};
      if proposer != selfId { return; }
      var found := Find(ilist, i);
      if BallotCompare(b, ballot) != 0 || found.None? {
        alive := false;
        SoundElsewhere(n, Core(), ibase, rcache, firstLearn);
        return;
      }
      var k := found.value;
      Listed(ilist, k);
      CountSound(n, i, ibase, rcache, firstLearn);
      var e := ilist[k].entry.(votes := ilist[k].entry.votes + 1);
      UpdateAt(ilist, k, e);
      ilist := ilist[k := Instance(i, e)];
      if e.committed || e.votes < Majority(|acceptors|) { return; }
      sent := BroadcastCommit(k, i);
    }

    // ---- Committing.

    /** Commit what the proposer says is chosen. */
    method AckCommit(b: Ballot, i: nat, v: Value) returns (sent: set<Message>, retry: Option<nat>)
      requires Valid()
      modifies this`alive, this`ilist, this`ihole, this`istart, this`learns
      ensures Sorted(ilist) && (ibase <= i ==> Valid())
      ensures var o := Handlers.AckCommit(old(Core()), b, i, v, v.req in rcache); Core() == o.node && sent == o.sent
      ensures retry == if SyncModel.Asks(old(Core()), i, Core()) then Some(ihole) else None
    {
      hide LogOf, Sorted, Sound, CommitInstance, SyncModel.Asks;
      ghost var n := Core();
      sent, retry := {}, None;
      NeverAsks(n, i);
      if proposer == selfId { return; }
      var found := Find(ilist, i);
      var e := Entry(b, v, false, false, false, 0);
      if found.Some? {
        Listed(ilist, found.value);
        e := ilist[found.value].entry.(value := v);
        if e.committed { return; }
        UncachedOpen(n, i, ibase, rcache, firstLearn);
      }
      var k := Write(i, e);
      AsksAfter(n, e, i, v.req in rcache);
      sent, retry := Commit(k, i);
    }

    /** Commit what an answered retry says is chosen. */
    method AckRecommit(b: Ballot, i: nat, v: Value) returns (sent: set<Message>, retry: Option<nat>)
      requires Valid()
      modifies this`alive, this`ilist, this`ihole, this`istart, this`learns
      ensures Sorted(ilist) && (ibase <= i ==> Valid())
      ensures var o := Handlers.AckRecommit(old(Core()), b, i, v, v.req in rcache); Core() == o.node && sent == o.sent
      ensures retry == if SyncModel.Asks(old(Core()), i, Core()) then Some(ihole) else None
    {
      hide LogOf, Sorted, Sound, CommitInstance, SyncModel.Asks;
      ghost var n := Core();
      sent, retry := {}, None;
      NeverAsks(n, i);
      if proposer == selfId { return; }
      var found := Find(ilist, i);
      var e := Entry(b, v, false, false, false, 0);
      if found.Some? {
        Listed(ilist, found.value);
        e := ilist[found.value].entry.(ballot := b, value := v);
        if e.committed { return; }
        UncachedOpen(n, i, ibase, rcache, firstLearn);
      }
      var k := Write(i, e);
      AsksAfter(n, e, i, v.req in rcache);
      sent, retry := Commit(k, i);
    }

    /** Answer a retry with the value, if we have committed it. */
    method AckRetry(i: nat) returns (reply: Option<Value>)
      requires Valid() && i in LogOf(ilist)
      ensures reply.Some? <==> LogOf(ilist)[i].committed
      ensures reply.Some? ==> reply.value == LogOf(ilist)[i].value
    {
      hide LogOf, Sorted, Sound;
      var found := Find(ilist, i);
      Listed(ilist, found.value);
      var e := ilist[found.value].entry;
      reply := if e.committed then Some(e.value) else None;
    }

    // ---- Requests.

    /** Request a decree: cache its data, and decree or queue it if we are the
        proposer.  Data goes to everyone, and a bare request to the proposer. */
    method Request(kind: DecreeKind) returns (sent: set<Message>, told: set<NodeId>)
      requires Valid()
      modifies this`alive, this`reqId, this`rcache, this`idefer, this`ilist, this`ihole, this`istart, this`learns
      ensures Valid() && reqId == old(reqId) + 1
      ensures told == if NeedsCached(kind) then acceptors - {selfId} else if proposer != selfId then {proposer} else {}
      ensures var v := Value(kind, ReqId(selfId, reqId), 0);
        && rcache == old(rcache) + (if NeedsCached(kind) then {v.req} else {})
        && idefer == old(idefer) + (if proposer == selfId && prep.Some? then [v] else [])
        && var n := old(Core()).(reqId := reqId);
           var o := if Established(n) then NewDecree(n, v, v.req in rcache, acceptors) else Outcome(n, {});
           Core() == o.node && sent == o.sent
    {
      hide LogOf, Sorted, Sound, NewDecree;
      var v := Value(kind, ReqId(selfId, reqId + 1), 0);
      CacheSound(Core(), ibase, rcache, firstLearn, if NeedsCached(kind) then {v.req} else {}, reqId + 1);
      reqId := reqId + 1;
      if NeedsCached(kind) { rcache := rcache + {v.req}; } else { assert rcache + {} == rcache; }
      sent, told := {}, {};
      if proposer != selfId || NeedsCached(kind) {
        told := if NeedsCached(kind) then acceptors - {selfId} else {proposer};
      }
      if proposer == selfId { sent := DecreeRequest(v); }
    }

    method DecreeRequest(v: Value) returns (sent: set<Message>)
      requires Valid()
      modifies this`alive, this`idefer, this`ilist, this`ihole, this`istart, this`learns
      ensures Valid() && idefer == old(idefer) + (if prep.Some? then [v] else [])
      ensures var o := if prep.None? then NewDecree(old(Core()), v, v.req in rcache, acceptors) else Outcome(old(Core()), {});
        Core() == o.node && sent == o.sent
    {
      hide LogOf, Sorted, Sound, NewDecree;
      sent := {};
      if prep.Some? {
        idefer := idefer + [v];
      } else {
        sent := Decree(v);
      }
    }

    /** Take another participant's request.  A proposer kills one who names a
        lower-ranked proposer; anyone else refuses one who names it. */
    method AckRequest(believed: NodeId, v: Value) returns (sent: set<Message>, refused: bool)
      requires Valid()
      modifies this`alive, this`reqId, this`rcache, this`idefer, this`ilist, this`ihole, this`istart, this`learns
      ensures Valid() && (refused <==> proposer != selfId && believed == selfId)
      ensures var kill := proposer == selfId && believed > selfId;
        var w := if kill then Value(DecKill, ReqId(selfId, old(reqId) + 1), v.req.id) else v;
        var n := old(Core()).(reqId := old(reqId) + if kill then 1 else 0);
        && rcache == old(rcache) + (if !kill && (proposer != selfId || NeedsCached(v.kind)) then {v.req} else {})
        && if kill && v.req.id !in acceptors then Core() == n.(alive := false) && sent == {} && idefer == old(idefer)
           else
             && idefer == old(idefer) + (if proposer == selfId && prep.Some? then [w] else [])
             && var o := if Established(n) then NewDecree(n, w, w.req in rcache, acceptors) else Outcome(n, {});
                Core() == o.node && sent == o.sent
    {
      hide LogOf, Sorted, Sound, NewDecree;
      sent, refused := {}, false;
      if proposer == selfId && believed > selfId {
        CacheSound(Core(), ibase, rcache, firstLearn, {}, reqId + 1);
        assert rcache + {} == rcache;
        reqId := reqId + 1;
        if v.req.id !in acceptors {
          ghost var n := Core();
          alive := false;
          SoundElsewhere(n, Core(), ibase, rcache, firstLearn);
          return;
        }
        sent := DecreeRequest(Value(DecKill, ReqId(selfId, reqId), v.req.id));
        return;
      }
      if proposer != selfId || NeedsCached(v.kind) {
        CacheSound(Core(), ibase, rcache, firstLearn, {v.req}, reqId);
        rcache := rcache + {v.req};
      }
      if proposer == selfId { sent := DecreeRequest(v); } else { refused := believed == selfId; }
    }

    /** The data of request `req` has arrived for instance `i`. */
    method AckResend(i: nat, req: ReqId) returns (sent: set<Message>, retry: Option<nat>)
      requires Valid()
      modifies this`alive, this`rcache, this`ilist, this`ihole, this`istart, this`learns
      ensures Valid()
      ensures var log := old(LogOf(ilist));
        && (i !in log || log[i].cached ==> Core() == old(Core()) && sent == {} && rcache == old(rcache))
        && (i in log && !log[i].cached ==>
              && rcache == old(rcache) + (if log[i].value.req in old(rcache) then {} else {req})
              && var o := CommitInstance(old(Core()), i, log[i].value.req in rcache);
                 Core() == o.node && sent == o.sent)
      ensures var log := old(LogOf(ilist));
        i in log && log[i].value.req == req ==> Core() == Handlers.AckResend(old(Core()), i).node
    {
      hide LogOf, Sorted, Sound, CommitInstance;
      sent, retry := {}, None;
      var found := Find(ilist, i);
      if found.None? { return; }
      var k := found.value;
      Listed(ilist, k);
      if ilist[k].entry.cached { return; }
      if ilist[k].entry.value.req !in rcache {
        CacheSound(Core(), ibase, rcache, firstLearn, {req}, reqId);
        rcache := rcache + {req};
      } else { assert rcache + {} == rcache; }
      OpenPastHole(Core(), i, ibase, rcache, firstLearn);
      AboveBase(ilist, k, Core(), ibase, rcache, firstLearn);
      sent, retry := Commit(k, i);
    }

    // ---- Truncating.

    /** Drop everything below a new base.  If we have learned past it, the list
        starts at it and all we know of what is still to be learned stays. */
    method Truncate(base: nat)
      requires Valid()
      modifies this`ibase, this`ilist, this`rcache
      ensures Sorted(ilist) && ibase == base
      ensures Core() == old(Core()).(log := From(old(LogOf(ilist)), base))
      ensures rcache == old(rcache) - RequestsBelow(old(LogOf(ilist)), base)
      ensures prep.None? && old(ibase) <= base < ihole && DistinctRequests(old(LogOf(ilist))) ==>
                Valid() && ilist != [] && ilist[0].inum == base
    {
      hide LogOf, Sorted, Sound, RequestsBelow, DistinctRequests, StartOf;
      ghost var learned := prep.None? && ibase <= base < ihole && DistinctRequests(LogOf(ilist));
      if learned { TruncateSound(Core(), base, ibase, rcache, firstLearn); }
      ilist, rcache := TruncateLoop(ilist, rcache, base);
      ibase := base;
      if learned { BaseFirst(ilist, Core(), ibase, rcache, firstLearn); }
    }

    // ---- Synchronizing.

    /** Start a sync round, or let the one in progress wait a while longer. */
    method ProposerSync(allLive: bool) returns (sent: Option<nat>)
      requires Valid() && proposer == selfId
      modifies this`syncing
      ensures syncing == if prep.None? && allLive then SyncModel.BeginRound(old(syncing), ihole, |acceptors|) else old(syncing)
      ensures sent == if syncing.id == old(syncing.id) then None else Some(syncing.id)
    {
      hide LogOf, Sorted, Sound;
      sent := None;
      if prep.Some? || !allLive || ihole - 1 == syncing.prev { return; }
      if syncing.round.Some? {
        var r := syncing.round.value;
        if r.skips + 1 < SyncModel.SkipThreshold {
          syncing := syncing.(round := Some(r.(skips := r.skips + 1)));
          return;
        }
      }
      syncing := syncing.(id := syncing.id + 1, round := Some(SyncModel.Round(|acceptors|, 1, 0, 0)));
      sent := Some(syncing.id);
    }

    /** Report our last contiguous learn to a sync of our ballot. */
    method AckSync(b: Ballot) returns (last: Option<nat>)
      requires Valid()
      ensures last == if b == ballot then Some((ihole - 1) as nat) else None
    {
      StartInLog(Core(), ibase, rcache, firstLearn);
      last := if BallotCompare(b, ballot) == 0 then Some(ihole - 1) else None;
    }

    /** Count a reply to the sync in progress.  When all have replied, the least
        last learn, ours included, becomes the base, and all are told.  A reply
        of the current number when no round is on is fatal. */
    method AckLast(id: nat, last: nat) returns (base: Option<nat>)
      requires Valid()
      modifies this`syncing, this`alive, this`ibase, this`ilist, this`rcache
      ensures Sorted(ilist) && (prep.None? && DistinctRequests(old(LogOf(ilist))) ==> Valid())
      ensures id == old(syncing).id && old(syncing).round.None? ==> base.None? && Core() == old(Core()).(alive := false)
      ensures ihole > 0
      ensures id != old(syncing).id || old(syncing).round.Some? ==>
        var (y, least) := SyncModel.TakeLast(old(syncing), id, last, ihole);
        if least.Some? && least.value < old(ibase) then base.None? && Core() == old(Core()).(alive := false)
        else
          && syncing == y && base == least
          && ibase == (if least.Some? then least.value else old(ibase))
          && Core() == if least.Some? then old(Core()).(log := From(old(LogOf(ilist)), least.value)) else old(Core())
    {
      hide LogOf, Sorted, Sound, RequestsBelow, DistinctRequests, StartOf;
      StartInLog(Core(), ibase, rcache, firstLearn);
      base := None;
      if id != syncing.id { return; }
      if syncing.round.None? {
        alive := false;
        SoundElsewhere(old(Core()), Core(), ibase, rcache, firstLearn);
        return;
      }
      var r := syncing.round.value;
      var least := if last < r.last || r.last == 0 then last else r.last;
      if r.acks + 1 != r.total {
        syncing := syncing.(round := Some(r.(last := least, acks := r.acks + 1)));
        return;
      }
      if ihole - 1 < least { least := ihole - 1; }
      if least < ibase {
        alive := false;
        SoundElsewhere(old(Core()), Core(), ibase, rcache, firstLearn);
        return;
      }
      Truncate(least);
      syncing := syncing.(prev := least, round := None);
      base := Some(least);
    }
  }
}
