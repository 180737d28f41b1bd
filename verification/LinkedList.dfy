/** The circular doubly linked list that every collection of a session is kept
    in, and the sorted find and insert built over it.  A null link stands for
    the list head. */
module LinkedList {
  import opened Types
  import opened Seqs

  class Item {
    const key: nat
    var next: Item?
    var prev: Item?

    constructor (key: nat)
      ensures this.key == key
    {
      this.key, next, prev := key, null, null;
    }
  }

  /** Strictly increasing keys: ordered, with no duplicates. */
  predicate Ordered(s: seq<Item>) {
    forall j, k :: 0 <= j < k < |s| ==> s[j].key < s[k].key
  }

  predicate HasKey(s: seq<Item>, key: nat) {
    exists k :: 0 <= k < |s| && s[k].key == key
  }

  lemma OrderedInsert(s: seq<Item>, k: nat, x: Item)
    requires Ordered(s) && k <= |s|
    requires forall j :: 0 <= j < k ==> s[j].key < x.key
    requires forall j :: k <= j < |s| ==> x.key < s[j].key
    ensures Ordered(Inserted(s, k, x)) && !HasKey(s, x.key)
  {
  }

  /** The item at position `k`, or the list head past either end. */
  function Nth(s: seq<Item>, k: int): Item? {
    if 0 <= k < |s| then s[k] else null
  }

  lemma InsertedAround(s: seq<Item>, k: nat, x: Item, i: nat)
    requires k <= |s| && i < |s|
    ensures var t, j := Inserted(s, k, x), if i < k then i else i + 1;
      && |t| == |s| + 1 && t[j] == s[i]
      && Nth(t, j + 1) == (if i + 1 == k then x else Nth(s, i + 1))
      && Nth(t, j - 1) == (if i == k then x else Nth(s, i - 1))
  {
  }

  lemma InsertedHere(s: seq<Item>, k: nat, x: Item)
    requires k <= |s|
    ensures var t := Inserted(s, k, x);
      && |t| == |s| + 1 && t[k] == x && Nth(t, k + 1) == Nth(s, k) && Nth(t, k - 1) == Nth(s, k - 1)
      && Nth(t, 0) == (if k == 0 then x else Nth(s, 0)) && Nth(t, |s|) == (if k == |s| then x else Nth(s, |s| - 1))
  {
  }

  lemma RemovedAround(s: seq<Item>, k: nat, j: nat)
    requires k < |s| && j < |s| - 1
    ensures var t, i := Removed(s, k), if j < k then j else j + 1;
      && |t| == |s| - 1 && t[j] == s[i] && i != k
      && Nth(t, j + 1) == Nth(s, if i + 1 == k then k + 1 else i + 1)
      && Nth(t, j - 1) == Nth(s, if i == k + 1 then k - 1 else i - 1)
  {
  }

  lemma RemovedEnds(s: seq<Item>, k: nat)
    requires k < |s|
    ensures var t := Removed(s, k);
      && |t| == |s| - 1
      && Nth(t, 0) == Nth(s, if k == 0 then 1 else 0)
      && Nth(t, |t| - 1) == Nth(s, if k == |s| - 1 then |s| - 2 else |s| - 1)
  {
  }

  predicate Distinct(s: seq<Item>) {
    forall j, k :: 0 <= j < k < |s| ==> s[j] != s[k]
  }

  lemma Apart(s: seq<Item>, j: nat, k: nat)
    requires Distinct(s) && j < |s| && k < |s| && j != k
    ensures s[j] != s[k]
  {
  }

  lemma DistinctInserted(s: seq<Item>, k: nat, x: Item)
    requires Distinct(s) && k <= |s| && x !in s
    ensures Distinct(Inserted(s, k, x))
  {
  }

  lemma DistinctRemoved(s: seq<Item>, k: nat)
    requires Distinct(s) && k < |s|
    ensures Distinct(Removed(s, k))
  {
  }

  class List {
    var first: Item?
    var last: Item?
    var count: nat
    ghost var items: seq<Item>

    /** `next` and `prev` are mutually inverse along the items, the ends point
        back at the head, and the count is the length. */
    ghost predicate Valid()
      reads this, items
    {
      && Distinct(items)
      && first == Nth(items, 0) && last == Nth(items, |items| - 1)
      && count == |items|
      && forall k :: 0 <= k < |items| ==> LinkedAt(k)
    }

    ghost predicate LinkedAt(k: nat)
      requires k < |items|
      reads this, items
    {
      items[k].next == Nth(items, k + 1) && items[k].prev == Nth(items, k - 1)
    }

    constructor ()
      ensures Valid() && items == []
    {
      first, last, count, items := null, null, 0, [];
    }

    method InsertAfter(at: Item, x: Item, ghost k: nat)
      requires Valid() && k < |items| && items[k] == at && x !in items
      modifies this, items, x
      ensures Valid() && items == Inserted(old(items), k + 1, x)
    {
      hide Distinct, Inserted;
      ghost var s := items;
      DistinctInserted(s, k + 1, x);
      assert LinkedAt(k) && (k + 1 < |s| ==> LinkedAt(k + 1));
      x.next := at.next;
      x.prev := at;
      if at.next == null {
        last := x;
      } else {
        at.next.prev := x;
      }
      at.next := x;
      count := count + 1;
      items := Inserted(s, k + 1, x);
      InsertedHere(s, k + 1, x);
      forall j: nat | j < |items| ensures LinkedAt(j) {
        if j != k + 1 {
          var i := if j <= k then j else j - 1;
          InsertedAround(s, k + 1, x, i);
          assert old(LinkedAt(i));
          if i != k { Apart(s, i, k); }
          if k + 1 < |s| && i != k + 1 { Apart(s, i, k + 1); }
        }
      }
    }

    method InsertBefore(at: Item, x: Item, ghost k: nat)
      requires Valid() && k < |items| && items[k] == at && x !in items
      modifies this, items, x
      ensures Valid() && items == Inserted(old(items), k, x)
    {
      hide Distinct, Inserted;
      ghost var s := items;
      DistinctInserted(s, k, x);
      assert LinkedAt(k) && (k > 0 ==> LinkedAt(k - 1));
      x.next := at;
      x.prev := at.prev;
      if at.prev == null {
        first := x;
      } else {
        at.prev.next := x;
      }
      at.prev := x;
      count := count + 1;
      items := Inserted(s, k, x);
      InsertedHere(s, k, x);
      forall j: nat | j < |items| ensures LinkedAt(j) {
        if j != k {
          var i := if j < k then j else j - 1;
          InsertedAround(s, k, x, i);
          assert old(LinkedAt(i));
          if i != k { Apart(s, i, k); }
          if k > 0 && i != k - 1 { Apart(s, i, k - 1); }
        }
      }
    }

    method InsertHead(x: Item)
      requires Valid() && x !in items
      modifies this, items, x
      ensures Valid() && items == [x] + old(items)
    {
      hide Distinct;
      ghost var s := items;
      DistinctInserted(s, 0, x);
      x.next := first;
      x.prev := null;
      if last == null {
        last := x;
      } else {
        first.prev := x;
      }
      first := x;
      count := count + 1;
      items := Inserted(s, 0, x);
      forall j: nat | j < |items| ensures LinkedAt(j) {
        if j > 0 {
          assert old(LinkedAt(j - 1));
          if j > 1 { Apart(s, 0, j - 1); }
        }
      }
    }

    method InsertTail(x: Item)
      requires Valid() && x !in items
      modifies this, items, x
      ensures Valid() && items == old(items) + [x]
    {
      hide Distinct;
      ghost var s := items;
      DistinctInserted(s, |s|, x);
      x.next := null;
      x.prev := last;
      if first == null {
        first := x;
      } else {
        last.next := x;
      }
      last := x;
      count := count + 1;
      items := Inserted(s, |s|, x);
      forall j: nat | j < |items| ensures LinkedAt(j) {
        if j < |s| {
          assert old(LinkedAt(j));
          if j < |s| - 1 { Apart(s, j, |s| - 1); }
        }
      }
    }

    method Remove(x: Item, ghost k: nat)
      requires Valid() && k < |items| && items[k] == x
      modifies this, items
      ensures Valid() && items == Removed(old(items), k)
    {
      hide Distinct, Removed;
      ghost var s := items;
      DistinctRemoved(s, k);
      assert LinkedAt(k);
      if x.next == null {
        last := x.prev;
      } else {
        x.next.prev := x.prev;
      }
      if x.prev == null {
        first := x.next;
      } else {
        x.prev.next := x.next;
      }
      count := count - 1;
      items := Removed(s, k);
      RemovedEnds(s, k);
      forall j: nat | j < |items| ensures LinkedAt(j) {
        var i := if j < k then j else j + 1;
        RemovedAround(s, k, j);
        assert old(LinkedAt(i));
        if k + 1 < |s| && i != k + 1 { Apart(s, i, k + 1); }
        if k > 0 && i != k - 1 { Apart(s, i, k - 1); }
      }
    }

    // ---- Walking.

    /** The forward walk visits the items in order, and the backward walk in reverse. */
    method WalkForward() returns (visited: seq<Item>)
      requires Valid()
      ensures visited == items
    {
      visited := [];
      var it := first;
      while it != null
        invariant 0 <= |visited| <= |items| && visited == items[..|visited|] && it == Nth(items, |visited|)
        decreases |items| - |visited|
      {
        assert LinkedAt(|visited|);
        visited := visited + [it];
        it := it.next;
      }
    }

    method WalkBackward() returns (visited: seq<Item>)
      requires Valid()
      ensures visited == Reversed(items)
    {
      visited := [];
      var it := last;
      while it != null
        invariant |visited| <= |items| && it == Nth(items, |items| - 1 - |visited|)
        invariant forall k :: 0 <= k < |visited| ==> visited[k] == items[|items| - 1 - k]
        decreases |items| - |visited|
      {
        assert LinkedAt(|items| - 1 - |visited|);
        visited := visited + [it];
        it := it.prev;
      }
    }

    /** Remove the first item until none is left. */
    method Clear()
      requires Valid()
      modifies this, items
      ensures Valid() && items == []
    {
      while first != null
        invariant Valid() && forall k :: 0 <= k < |items| ==> items[k] in old(items)
        decreases |items|
      {
        Remove(first, 0);
      }
    }

    // ---- The list factory.

    /** Search forwards, stopping early at a greater key. */
    method FindForward(key: nat) returns (found: Item?)
      requires Valid() && Ordered(items)
      ensures found == null <==> !HasKey(items, key)
      ensures found != null ==> found in items && found.key == key
    {
      var it := first;
      ghost var k := 0;
      while it != null
        invariant 0 <= k <= |items| && it == Nth(items, k)
        invariant forall j :: 0 <= j < k ==> items[j].key < key
        decreases |items| - k
      {
        assert LinkedAt(k);
        var c := PaxidCompare(key, it.key);
        if c == 0 { return it; }
        if c < 0 { break; }
        it, k := it.next, k + 1;
      }
      found := null;
    }

    /** Search backwards, stopping early at a smaller key. */
    method FindBackward(key: nat) returns (found: Item?)
      requires Valid() && Ordered(items)
      ensures found == null <==> !HasKey(items, key)
      ensures found != null ==> found in items && found.key == key
    {
      var it := last;
      ghost var k := |items|;
      while it != null
        invariant 0 <= k <= |items| && it == Nth(items, k - 1)
        invariant forall j :: k <= j < |items| ==> key < items[j].key
        decreases k
      {
        assert LinkedAt(k - 1);
        var c := PaxidCompare(key, it.key);
        if c == 0 { return it; }
        if c > 0 { break; }
        it, k := it.prev, k - 1;
      }
      found := null;
    }

    /** Walk back past every greater key: where an item of this key belongs. */
    method Slot(key: nat) returns (at: Item?, ghost k: nat)
      requires Valid() && Ordered(items)
      ensures k <= |items| && at == Nth(items, k - 1)
      ensures forall j :: k <= j < |items| ==> key < items[j].key
      ensures forall j :: 0 <= j < k - 1 ==> items[j].key < key
      ensures k > 0 ==> items[k - 1].key <= key
    {
      at := last;
      k := |items|;
      while at != null
        invariant 0 <= k <= |items| && at == Nth(items, k - 1)
        invariant forall j :: k <= j < |items| ==> key < items[j].key
        decreases k
      {
        assert LinkedAt(k - 1);
        if PaxidCompare(key, at.key) >= 0 { return; }
        at, k := at.prev, k - 1;
      }
    }

    /** Insert in order.  An item already listed under the key is returned
        instead and the list is left alone. */
    method Insert(x: Item) returns (listed: Item)
      requires Valid() && Ordered(items) && x !in items
      modifies this, items, x
      ensures Valid() && Ordered(items) && listed in items && listed.key == x.key
      ensures HasKey(old(items), x.key) ==> items == old(items)
      ensures !HasKey(old(items), x.key) ==>
                listed == x && exists k :: 0 <= k <= |old(items)| && items == Inserted(old(items), k, x)
    {
      hide LinkedAt, Distinct;
      var at, k := Slot(x.key);
      if at != null && at.key == x.key { return at; }
      OrderedInsert(items, k, x);
      if at != null {
        InsertAfter(at, x, k - 1);
      } else {
        InsertHead(x);
      }
      assert items == Inserted(old(items), k, x) && items[k] == x;
      listed := x;
    }
  }
}
