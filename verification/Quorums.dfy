/** Majorities of the acceptor list. */
module Quorums {

  /** The least number of acceptors that is a simple majority of `count`. */
  function Majority(count: nat): (m: nat)
    ensures 2 * m > count
    ensures forall k: nat :: 2 * k > count ==> m <= k
  {
    count / 2 + 1
  }

  predicate IsQuorum(acceptors: set<nat>, q: set<nat>) {
    q <= acceptors && |q| >= Majority(|acceptors|)
  }

  /** Disjoint subsets of a set cannot together outnumber it. */
  lemma DisjointFit(all: set<nat>, a: set<nat>, b: set<nat>)
    requires a <= all && b <= all && a * b == {}
    ensures |a| + |b| <= |all|
  {
    assert |a + b| == |a| + |b|;
    assert all == (a + b) + (all - a - b);
    assert |all| == |a + b| + |all - a - b|;
  }

  /** Two majorities of one acceptor list share a member. */
  lemma QuorumsMeet(acceptors: set<nat>, q: set<nat>, r: set<nat>) returns (a: nat)
    requires IsQuorum(acceptors, q) && IsQuorum(acceptors, r)
    ensures a in q && a in r
  {
    assert q * r != {} by {
      if q * r == {} { DisjointFit(acceptors, q, r); }
    }
    a :| a in q * r;
  }

  /** Majorities on the two sides of one learned join share a member; read
      the other way round it is the same statement about one learned part. */
  lemma QuorumsMeetAcrossOneChange(before: set<nat>, joined: nat, q: set<nat>, r: set<nat>) returns (a: nat)
    requires joined !in before
    requires IsQuorum(before, q) && IsQuorum(before + {joined}, r)
    ensures a in q && a in r
  {
    var after := before + {joined};
    assert |after| == |before| + 1;
    assert q * r != {} by {
      if q * r == {} { DisjointFit(after, q, r); }
    }
    a :| a in q * r;
  }
}
