/** Learning as far as the acceptor list is concerned: whom a participant lists
    once it has learned some values, and whether it survives learning them. */
module Listing {
  import opened Types

  /** What becomes of a participant that learns a value: it goes on, leaves the
      protocol or its proposer, or fails an assertion. */
  datatype Fate = Stays | Leaves | Fails

  /** The acceptor that learning a value takes off the list, if listed. */
  predicate Removes(v: Value, id: NodeId) {
    (v.kind == DecPart || v.kind == DecKill) && v.extra == id
  }

  /** A join's newcomer is known by the number of the join's instance. */
  predicate Adds(v: Value, i: nat, id: NodeId) {
    v.kind == DecJoin && i == id
  }

  /** The list, with whom we are connected to, once value `v` of instance `i` is learned. */
  function Heeded(listed: map<NodeId, bool>, v: Value, i: nat): map<NodeId, bool> {
    match v.kind
    case DecJoin => listed[i := false]
    case DecPart => listed - {v.extra}
    case DecKill => listed - {v.extra}
    case DecChat => listed
    case DecNull => listed
  }

  /** A chat from an acceptor not listed fails an assertion; our own part is the
      end, and with our proposer's we turn to another. */
  function FateOf(listed: map<NodeId, bool>, self: NodeId, proposer: NodeId, v: Value): Fate {
    match v.kind
    case DecNull => Stays
    case DecJoin => Stays
    case DecChat => if v.req.id in listed then Stays else Fails
    case DecPart => if v.extra in listed && (v.extra == self || v.extra == proposer) then Leaves else Stays
    case DecKill => if v.extra in listed && (v.extra == self || v.extra == proposer) then Leaves else Stays
  }

  /** The list once the values of the instances from `from` on are learned. */
  function ListAfter(listed: map<NodeId, bool>, vs: seq<Value>, from: nat): map<NodeId, bool> {
    if vs == [] then listed
    else
      var k := |vs| - 1;
      Heeded(ListAfter(listed, vs[..k], from), vs[k], from + k)
  }

  /** What the `k`th of the values does to a participant that has learned those before it. */
  function FateAt(listed: map<NodeId, bool>, self: NodeId, proposer: NodeId, vs: seq<Value>, from: nat, k: nat): Fate
    requires k < |vs|
  {
    FateOf(ListAfter(listed, vs[..k], from), self, proposer, vs[k])
  }

  function FateAfter(listed: map<NodeId, bool>, self: NodeId, proposer: NodeId, vs: seq<Value>, from: nat): Fate {
    if vs == [] then Stays
    else
      var k := |vs| - 1;
      var before := FateAfter(listed, self, proposer, vs[..k], from);
      if before != Stays then before else FateAt(listed, self, proposer, vs, from, k)
  }

  /** The `k`th of the values is the first that does not leave things as they are. */
  predicate DecidesAt(listed: map<NodeId, bool>, self: NodeId, proposer: NodeId, vs: seq<Value>, from: nat, k: nat) {
    && k < |vs| && FateAt(listed, self, proposer, vs, from, k) != Stays
    && forall j :: 0 <= j < k ==> FateAt(listed, self, proposer, vs, from, j) == Stays
  }

  /** The first value that does not leave things as they are decides; without one they stay. */
  lemma {:induction false} FirstDecides(listed: map<NodeId, bool>, self: NodeId, proposer: NodeId, vs: seq<Value>, from: nat)
    ensures var fate := FateAfter(listed, self, proposer, vs, from);
      && (fate == Stays <==> forall k :: 0 <= k < |vs| ==> FateAt(listed, self, proposer, vs, from, k) == Stays)
      && (fate == Stays <==> forall k: nat :: !DecidesAt(listed, self, proposer, vs, from, k))
      && forall k: nat :: DecidesAt(listed, self, proposer, vs, from, k) ==> fate == FateAt(listed, self, proposer, vs, from, k)
  {
    if vs != [] {
      var last := |vs| - 1;
      var front := vs[..last];
      FirstDecides(listed, self, proposer, front, from);
      forall k | 0 <= k < last ensures FateAt(listed, self, proposer, vs, from, k) == FateAt(listed, self, proposer, front, from, k) {
        assert front[..k] == vs[..k];
      }
      hide FateAt;
      assert forall k: nat :: k < last ==> (DecidesAt(listed, self, proposer, vs, from, k) <==> DecidesAt(listed, self, proposer, front, from, k));
      if FateAfter(listed, self, proposer, front, from) == Stays && FateAt(listed, self, proposer, vs, from, last) != Stays {
        assert DecidesAt(listed, self, proposer, vs, from, last);
      }
    }
  }

  predicate NeverRemoved(vs: seq<Value>, from: nat, id: NodeId) {
    forall j :: from <= j < |vs| ==> !Removes(vs[j], id)
  }

  /** `id` joins as the `k`th of the values, and is not parted after. */
  predicate ListedSince(vs: seq<Value>, from: nat, id: NodeId, k: nat) {
    k < |vs| && Adds(vs[k], from + k, id) && NeverRemoved(vs, k + 1, id)
  }

  /** Listed after learning is who was listed or joined, and has not been parted since. */
  lemma {:induction false} ListedAfter(listed: map<NodeId, bool>, vs: seq<Value>, from: nat, id: NodeId)
    ensures id in ListAfter(listed, vs, from) <==>
      (id in listed && NeverRemoved(vs, 0, id)) || exists k: nat :: ListedSince(vs, from, id, k)
  {
    if vs != [] {
      var last := |vs| - 1;
      var front := vs[..last];
      ListedAfter(listed, front, from, id);
      assert forall k: nat :: k <= last ==> (NeverRemoved(vs, k, id) <==> NeverRemoved(front, k, id) && !Removes(vs[last], id));
      assert forall k: nat :: k < last ==> (ListedSince(vs, from, id, k) <==> ListedSince(front, from, id, k) && !Removes(vs[last], id));
      assert ListedSince(vs, from, id, last) <==> Adds(vs[last], from + last, id);
    }
  }
}
