/** Primitive types of the protocol: participant and instance numbers, ballots,
    decree values, and the log entries kept for an instance. */
module Types {

  datatype Option<+T> = None | Some(value: T)

  /** A participant is named by the instance number of its JOIN. */
  type NodeId = nat

  /** A ballot: the preparer and its generation number. */
  datatype Ballot = Ballot(id: NodeId, gen: nat)

  function PaxidCompare(x: nat, y: nat): (r: int)
    ensures r < 0 <==> x < y
    ensures r == 0 <==> x == y
  {
    if x < y then -1 else if x > y then 1 else 0
  }

  /** Ballots are ordered by generation; within a generation the lower id,
      which is the higher rank, wins. */
  function BallotCompare(x: Ballot, y: Ballot): (r: int)
    ensures r < 0 <==> Below(x, y)
    ensures r == 0 <==> x == y
    ensures r > 0 <==> Below(y, x)
  {
    var r := PaxidCompare(x.gen, y.gen);
    if r != 0 then r else PaxidCompare(y.id, x.id)
  }

  predicate Below(x: Ballot, y: Ballot) {
    x.gen < y.gen || (x.gen == y.gen && y.id < x.id)
  }

  predicate AtMost(x: Ballot, y: Ballot) {
    x == y || Below(x, y)
  }

  /** Ballots are strictly and totally ordered by the sign of their comparison. */
  lemma BallotsOrdered(x: Ballot, y: Ballot, z: Ballot)
    ensures BallotCompare(x, y) == -BallotCompare(y, x)
    ensures BallotCompare(x, y) == 0 <==> x == y
    ensures BallotCompare(x, y) < 0 && BallotCompare(y, z) < 0 ==> BallotCompare(x, z) < 0
    ensures BallotCompare(x, y) < 0 ==> x.gen <= y.gen && (x.gen == y.gen ==> x.id > y.id)
  {
  }

  datatype DecreeKind = DecNull | DecChat | DecJoin | DecPart | DecKill

  /** A request is named by its originator and a number local to it. */
  datatype ReqId = ReqId(id: NodeId, gen: nat)

  datatype Value = Value(kind: DecreeKind, req: ReqId, extra: nat)

  /** Only chats and joins carry data that every learner must hold. */
  predicate NeedsCached(kind: DecreeKind) {
    kind == DecChat || kind == DecJoin
  }

  /** The comparison an acceptor makes against a value it has committed. */
  predicate SameDecree(v: Value, w: Value) {
    v.kind == w.kind && v.req == w.req
  }

  /** What a participant keeps about one instance: the ballot in the stored
      header, the value, the three flags, and the vote count. */
  datatype Entry = Entry(ballot: Ballot, value: Value, committed: bool, cached: bool, learned: bool, votes: nat)

  /** A log, keyed by instance number. */
  type Log = map<nat, Entry>

  predicate CommittedIn(log: Log, i: nat) {
    i in log && log[i].committed
  }

  /** An instance that can be learned: committed, with its data at hand. */
  predicate Ready(log: Log, i: nat) {
    i in log && log[i].committed && log[i].cached
  }

  lemma MaximumExists(keys: set<nat>)
    requires keys != {}
    ensures exists m :: m in keys && forall j :: j in keys ==> j <= m
  {
    var x :| x in keys;
    var rest := keys - {x};
    if rest == {} {
      assert keys == {x};
    } else {
      MaximumExists(rest);
      var r :| r in rest && forall j :: j in rest ==> j <= r;
      var m := if x < r then r else x;
      assert m in keys && forall j :: j in keys ==> j <= m by {
        forall j | j in keys ensures j <= m { assert j == x || j in rest; }
      }
    }
  }

  /** The number of the last instance in a log. */
  function Last(log: Log): (m: nat)
    requires log != map[]
    ensures m in log && forall j :: j in log ==> j <= m
  {
    MaximumExists(log.Keys);
    var m :| m in log.Keys && forall j :: j in log.Keys ==> j <= m;
    m
  }
}
