/** The fail-fast policy shared by every validation stage of the order pipeline: elements are
    checked in sequence order and the first one that fails a check decides the outcome. */
module FailFast {
  import opened Wrappers

  /** The number of leading elements of `s` that pass `check`: the point where a fail-fast
      scan of `s` stops (or `|s|` when it never stops). */
  function CleanPrefix<T, F>(s: seq<T>, check: T -> Option<F>): (n: nat)
    ensures n <= |s|
    ensures forall j :: 0 <= j < n ==> check(s[j]).None?
    ensures n < |s| ==> check(s[n]).Some?
  {
    if s == [] || check(s[0]).Some? then 0 else 1 + CleanPrefix(s[1..], check)
  }

  /** The failure reported by a fail-fast scan of `s`: that of the earliest failing element. */
  function FirstFault<T, F>(s: seq<T>, check: T -> Option<F>): (r: Option<F>)
    ensures r.None? <==> forall j :: 0 <= j < |s| ==> check(s[j]).None?
    ensures r.Some? ==>
      exists i :: 0 <= i < |s| && check(s[i]) == r && forall j :: 0 <= j < i ==> check(s[j]).None?
  {
    var n := CleanPrefix(s, check);
    if n == |s| then None else check(s[n])
  }

  /** A scan that passed the first `i` elements and fails at (or ends at) `i` stops at `i`. */
  lemma CleanPrefixAt<T, F>(s: seq<T>, check: T -> Option<F>, i: nat)
    requires i <= |s|
    requires forall j :: 0 <= j < i ==> check(s[j]).None?
    requires i < |s| ==> check(s[i]).Some?
    ensures CleanPrefix(s, check) == i
    ensures FirstFault(s, check) == if i == |s| then None else check(s[i])
  {
  }

  /** Every element of the passed prefix passes the check and belongs to the sequence. */
  lemma CleanPrefixMembers<T, F>(s: seq<T>, check: T -> Option<F>)
    ensures forall x :: x in s[..CleanPrefix(s, check)] ==> x in s && check(x).None?
  {
    var n := CleanPrefix(s, check);
    forall x | x in s[..n] ensures x in s && check(x).None? {
      var j :| 0 <= j < n && s[..n][j] == x;
      assert s[j] == x;
    }
  }
}
