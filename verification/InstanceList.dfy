/** The instance list of a session: instances in strictly increasing number,
    searched backwards from the end as the list factory does. */
module InstanceList {
  import opened Types
  import opened Seqs
  import opened Node

  datatype Instance = Instance(inum: nat, entry: Entry)

  predicate Sorted(s: seq<Instance>) {
    forall j, k :: 0 <= j < k < |s| ==> s[j].inum < s[k].inum
  }

  predicate Lists(s: seq<Instance>, i: nat) {
    exists k :: 0 <= k < |s| && s[k].inum == i
  }

  /** The log an instance list stands for. */
  function LogOf(s: seq<Instance>): (log: Log)
    requires Sorted(s)
    ensures forall k :: 0 <= k < |s| ==> s[k].inum in log && log[s[k].inum] == s[k].entry
    ensures forall i :: i in log <==> Lists(s, i)
  {
    map k | 0 <= k < |s| :: s[k].inum := s[k].entry
  }

  /** A log that holds exactly the listed entries is the one the list stands for. */
  lemma IsLogOf(s: seq<Instance>, log: Log)
    requires Sorted(s)
    requires forall k :: 0 <= k < |s| ==> s[k].inum in log && log[s[k].inum] == s[k].entry
    requires forall i :: i in log ==> Lists(s, i)
    ensures LogOf(s) == log
  {
    hide LogOf, Sorted;
    forall i | i in log ensures LogOf(s)[i] == log[i] {
      var k :| 0 <= k < |s| && s[k].inum == i;
    }
  }

  lemma LastOf(s: seq<Instance>)
    requires Sorted(s) && s != []
    ensures LogOf(s) != map[] && Last(LogOf(s)) == s[|s| - 1].inum
  {
    assert s[|s| - 1].inum in LogOf(s);
  }

  lemma UpdateAt(s: seq<Instance>, k: nat, e: Entry)
    requires Sorted(s) && k < |s|
    ensures var t := s[k := Instance(s[k].inum, e)];
      Sorted(t) && LogOf(t) == LogOf(s)[s[k].inum := e]
  {
    hide LogOf;
    var t := s[k := Instance(s[k].inum, e)];
    assert forall j :: 0 <= j < |t| ==> t[j].inum == s[j].inum;
    var log := LogOf(s)[s[k].inum := e];
    forall i | i in log ensures Lists(t, i) { UpdatedListed(s, k, e, i); }
    hide Lists;
    IsLogOf(t, log);
  }

  lemma UpdatedListed(s: seq<Instance>, k: nat, e: Entry, i: nat)
    requires k < |s| && (Lists(s, i) || i == s[k].inum)
    ensures Lists(s[k := Instance(s[k].inum, e)], i)
  {
    var t := s[k := Instance(s[k].inum, e)];
    if i == s[k].inum {
      assert t[k].inum == i;
    } else {
      var j :| 0 <= j < |s| && s[j].inum == i;
      assert t[j].inum == i;
    }
  }

  /** Everything before position `k` is numbered lower, everything from `k` on higher. */
  predicate FitsAt(s: seq<Instance>, k: nat, i: nat) {
    && k <= |s|
    && (forall j :: 0 <= j < k ==> s[j].inum < i)
    && (forall j :: k <= j < |s| ==> i < s[j].inum)
  }

  lemma InsertedListed(s: seq<Instance>, k: nat, x: Instance, i: nat)
    requires k <= |s| && (Lists(s, i) || i == x.inum)
    ensures Lists(Inserted(s, k, x), i)
  {
    var t := Inserted(s, k, x);
    if i == x.inum {
      assert t[k].inum == i;
    } else {
      var j :| 0 <= j < |s| && s[j].inum == i;
      assert t[if j < k then j else j + 1].inum == i;
    }
  }

  lemma InsertSorted(s: seq<Instance>, k: nat, x: Instance)
    requires Sorted(s) && FitsAt(s, k, x.inum)
    ensures Sorted(Inserted(s, k, x)) && !Lists(s, x.inum)
  {
    var t := Inserted(s, k, x);
    forall i, j | 0 <= i < j < |t| ensures t[i].inum < t[j].inum {
      if i != k && j != k {
        var i', j' := if i < k then i else i - 1, if j < k then j else j - 1;
        assert t[i] == s[i'] && t[j] == s[j'];
      }
    }
  }

  lemma InsertAt(s: seq<Instance>, k: nat, x: Instance)
    requires Sorted(s) && FitsAt(s, k, x.inum)
    ensures var t := Inserted(s, k, x);
      Sorted(t) && x.inum !in LogOf(s) && LogOf(t) == LogOf(s)[x.inum := x.entry]
  {
    hide LogOf, Sorted, Lists;
    InsertSorted(s, k, x);
    var t, log := Inserted(s, k, x), LogOf(s)[x.inum := x.entry];
    forall i | i in log ensures Lists(t, i) { InsertedListed(s, k, x, i); }
    forall j | 0 <= j < |t| ensures t[j].inum in log && log[t[j].inum] == t[j].entry {
      if j != k {
        var i := if j < k then j else j - 1;
        assert t[j] == s[i];
      }
    }
    IsLogOf(t, log);
  }

  function From(log: Log, i: nat): Log {
    map j | j in log && i <= j :: log[j]
  }

  lemma SuffixListed(s: seq<Instance>, k: nat, n: nat)
    requires k <= |s| && Lists(s, n) && forall j :: 0 <= j < k ==> s[j].inum < n
    ensures Lists(s[k..], n)
  {
    var j :| 0 <= j < |s| && s[j].inum == n;
    assert s[k..][j - k].inum == n;
  }

  lemma SuffixSorted(s: seq<Instance>, k: nat, i: nat)
    requires Sorted(s) && k <= |s| && (k < |s| ==> i <= s[k].inum)
    ensures Sorted(s[k..]) && forall j :: 0 <= j < |s[k..]| ==> s[k..][j] == s[j + k] && i <= s[k..][j].inum
  {
  }

  /** Dropping the instances below `i` keeps exactly the rest of the log. */
  lemma DropPrefix(s: seq<Instance>, k: nat, i: nat)
    requires Sorted(s) && k <= |s|
    requires forall j :: 0 <= j < k ==> s[j].inum < i
    requires k < |s| ==> i <= s[k].inum
    ensures Sorted(s[k..]) && LogOf(s[k..]) == From(LogOf(s), i)
  {
    SuffixSorted(s, k, i);
    hide LogOf, Sorted;
    var t, log := s[k..], From(LogOf(s), i);
    forall n | n in log ensures Lists(t, n) { SuffixListed(s, k, n); }
    forall j | 0 <= j < |t| ensures t[j].inum in log && log[t[j].inum] == t[j].entry {
      assert t[j] == s[j + k];
    }
    hide Lists;
    IsLogOf(t, log);
  }

  // ---- The list factory's loops.

  /** Find instance `i`, walking back from the end and stopping early at a
      lower number. */
  method Find(s: seq<Instance>, i: nat) returns (found: Option<nat>)
    requires Sorted(s)
    ensures found.Some? ==> found.value < |s| && s[found.value].inum == i
    ensures found.None? <==> i !in LogOf(s)
  {
    var k := |s|;
    while k > 0
      invariant 0 <= k <= |s|
      invariant forall j :: k <= j < |s| ==> i < s[j].inum
    {
      if s[k - 1].inum == i { return Some(k - 1); }
      if s[k - 1].inum < i { return None; }
      k := k - 1;
    }
    return None;
  }

  /** Insert an instance in order, walking back from the end; an instance of
      the same number already listed is left alone. */
  method Insert(s: seq<Instance>, x: Instance) returns (t: seq<Instance>)
    requires Sorted(s)
    ensures Sorted(t)
    ensures LogOf(t) == if x.inum in LogOf(s) then LogOf(s) else LogOf(s)[x.inum := x.entry]
  {
    var k := |s|;
    while k > 0
      invariant 0 <= k <= |s|
      invariant forall j :: k <= j < |s| ==> x.inum < s[j].inum
    {
      if s[k - 1].inum == x.inum { return s; }
      if s[k - 1].inum < x.inum { break; }
      k := k - 1;
    }
    InsertAt(s, k, x);
    t := Inserted(s, k, x);
  }

  /** The last instance from the cursor `from` on whose number is at most `i`. */
  method GreatestAtMost(s: seq<Instance>, from: nat, i: nat) returns (found: Option<nat>)
    requires Sorted(s)
    ensures found.None? <==> from >= |s| || s[from].inum > i
    ensures found.Some? ==>
              && from <= found.value < |s| && s[found.value].inum <= i
              && (found.value + 1 < |s| ==> i < s[found.value + 1].inum)
  {
    found := None;
    var k := from;
    while k < |s|
      invariant from <= k
      invariant found == if k == from then None else Some(k - 1)
      invariant k > from ==> k <= |s| && s[k - 1].inum <= i
    {
      if s[k].inum > i { break; }
      found := Some(k);
      k := k + 1;
    }
  }

  /** The instances a promise packs: count backwards to the first number not
      above `start`, then pack forwards from there.  The announced count is
      the number packed exactly when the walk stops inside the list. */
  method PackReport(s: seq<Instance>, start: nat) returns (count: nat, packed: seq<Instance>)
    requires Sorted(s) && s != []
    ensures Sorted(packed)
    ensures count == |packed| <==> s[0].inum <= start
    ensures s[0].inum <= start ==> LogOf(packed) == Report(LogOf(s), start)
  {
    count := 0;
    var it := |s|;
    var stopped := false;
    while it > 0
      invariant 0 <= it <= |s| && count == |s| - it && !stopped
      invariant forall j :: it <= j < |s| ==> start < s[j].inum
    {
      count := count + 1;
      if start >= s[it - 1].inum { it, stopped := it - 1, true; break; }
      it := it - 1;
    }
    packed := [];
    if !stopped { return; }
    var k := it;
    while k < |s|
      invariant it <= k <= |s| && |packed| == k - it
      invariant forall j :: 0 <= j < |packed| ==> packed[j] == Packed(s[it + j])
    {
      packed := packed + [Packed(s[k])];
      k := k + 1;
    }
    ReportOfSuffix(s, it, packed, start);
  }

  function Packed(x: Instance): Instance {
    x.(entry := x.entry.(cached := false, learned := false, votes := 0))
  }

  lemma SuffixIsReported(s: seq<Instance>, it: nat, start: nat, i: nat)
    requires Sorted(s) && it < |s| && s[it].inum <= start
    requires forall j :: it < j < |s| ==> start < s[j].inum
    ensures Reported(LogOf(s), start, i) <==> Lists(s[it..], i)
  {
    hide LogOf;
    var t := s[it..];
    if Lists(t, i) {
      var j :| 0 <= j < |t| && t[j].inum == i;
      assert s[it + j].inum == i;
      assert start <= i || forall n :: n in LogOf(s) && i < n ==> start < n;
    }
    if Reported(LogOf(s), start, i) {
      var m :| 0 <= m < |s| && s[m].inum == i;
      assert s[it].inum in LogOf(s);
      assert t[m - it].inum == i;
    }
  }

  lemma PackedListed(s: seq<Instance>, it: nat, packed: seq<Instance>, i: nat)
    requires it < |s| && |packed| == |s| - it && forall j :: 0 <= j < |packed| ==> packed[j] == Packed(s[it + j])
    ensures Lists(packed, i) <==> Lists(s[it..], i)
  {
    var t := s[it..];
    assert forall j :: 0 <= j < |packed| ==> packed[j].inum == t[j].inum;
    if Lists(t, i) { var j :| 0 <= j < |t| && t[j].inum == i; assert packed[j].inum == i; }
    if Lists(packed, i) { var j :| 0 <= j < |packed| && packed[j].inum == i; assert t[j].inum == i; }
  }

  lemma PackedSorted(s: seq<Instance>, it: nat, packed: seq<Instance>)
    requires Sorted(s) && it < |s| && |packed| == |s| - it && forall j :: 0 <= j < |packed| ==> packed[j] == Packed(s[it + j])
    ensures Sorted(packed)
  {
    assert forall j :: 0 <= j < |packed| ==> packed[j].inum == s[it + j].inum;
  }

  lemma ReportOfSuffix(s: seq<Instance>, it: nat, packed: seq<Instance>, start: nat)
    requires Sorted(s) && it < |s| && s[it].inum <= start
    requires forall j :: it < j < |s| ==> start < s[j].inum
    requires |packed| == |s| - it && forall j :: 0 <= j < |packed| ==> packed[j] == Packed(s[it + j])
    ensures Sorted(packed) && LogOf(packed) == Report(LogOf(s), start)
  {
    hide LogOf, Sorted, Reported, Lists;
    var log := LogOf(s);
    PackedSorted(s, it, packed);
    forall i: nat ensures Reported(log, start, i) <==> Lists(packed, i) {
      SuffixIsReported(s, it, start, i);
      PackedListed(s, it, packed, i);
    }
    forall k | 0 <= k < |packed|
      ensures packed[k].inum in Report(log, start) && Report(log, start)[packed[k].inum] == packed[k].entry
    {
      IsListed(packed, k);
      assert packed[k] == Packed(s[it + k]);
      assert log[s[it + k].inum] == s[it + k].entry;
    }
    IsLogOf(packed, Report(log, start));
  }

  lemma IsListed(s: seq<Instance>, k: nat)
    requires k < |s|
    ensures Lists(s, s[k].inum)
  {
  }
}
