/** Inserting into, removing from and reversing a sequence. */
module Seqs {

  function Inserted<T>(s: seq<T>, k: nat, x: T): (t: seq<T>)
    requires k <= |s|
    ensures |t| == |s| + 1
    ensures forall j :: 0 <= j < |t| ==> t[j] == if j < k then s[j] else if j == k then x else s[j - 1]
  {
    s[..k] + [x] + s[k..]
  }

  function Removed<T>(s: seq<T>, k: nat): (t: seq<T>)
    requires k < |s|
    ensures |t| == |s| - 1
    ensures forall j :: 0 <= j < |t| ==> t[j] == if j < k then s[j] else s[j + 1]
  {
    s[..k] + s[k + 1..]
  }

  function Reversed<T>(s: seq<T>): (r: seq<T>)
    ensures |r| == |s| && forall k :: 0 <= k < |s| ==> r[k] == s[|s| - 1 - k]
  {
    if s == [] then [] else Reversed(s[1..]) + [s[0]]
  }
}
