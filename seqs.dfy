/**
 * The array combinators the source is written with (`filter`, `map`, `some`,
 * `findIndex`, `find`, `flat`), with contracts that say what each computes.
 */
module Seqs {
  import opened Wrappers

  /** `a` is obtained from `b` by deleting elements: same relative order. */
  ghost predicate IsSubsequence<T>(a: seq<T>, b: seq<T>)
    decreases |b|
  {
    if a == [] then true
    else if b == [] then false
    else (a[0] == b[0] && IsSubsequence(a[1..], b[1..])) || IsSubsequence(a, b[1..])
  }

  /** `Array.prototype.filter`: the elements satisfying `p`, in their original order. */
  function Filter<T(!new)>(s: seq<T>, p: T -> bool): (r: seq<T>)
    ensures |r| <= |s|
    ensures forall x :: x in r <==> x in s && p(x)
    ensures forall x :: multiset(r)[x] == if p(x) then multiset(s)[x] else 0
    ensures IsSubsequence(r, s)
    decreases |s|
  {
    if s == [] then []
    else
      assert s == [s[0]] + s[1..];
      var rest := Filter(s[1..], p);
      if p(s[0]) then [s[0]] + rest else rest
  }

  /** `Array.prototype.map`. */
  function Map<T, U>(s: seq<T>, f: T -> U): (r: seq<U>)
    ensures |r| == |s|
    ensures forall i :: 0 <= i < |s| ==> r[i] == f(s[i])
    decreases |s|
  {
    if s == [] then [] else [f(s[0])] + Map(s[1..], f)
  }

  /** `Array.prototype.some`. */
  function Any<T>(s: seq<T>, p: T -> bool): (b: bool)
    ensures b <==> exists i :: 0 <= i < |s| && p(s[i])
    decreases |s|
  {
    if s == [] then false
    else
      var rest := Any(s[1..], p);
      assert rest <==> exists i :: 1 <= i < |s| && p(s[i]) by {
        if rest {
          var j :| 0 <= j < |s| - 1 && p(s[1..][j]);
          assert p(s[j + 1]);
        }
        forall i | 1 <= i < |s| && p(s[i]) ensures rest {
          assert s[1..][i - 1] == s[i];
        }
      }
      p(s[0]) || rest
  }

  /** `Array.prototype.findIndex`: the first index satisfying `p`, or -1. */
  function FindIndex<T>(s: seq<T>, p: T -> bool): (k: int)
    ensures -1 <= k < |s|
    ensures k >= 0 ==> p(s[k]) && forall j :: 0 <= j < k ==> !p(s[j])
    ensures k == -1 <==> forall j :: 0 <= j < |s| ==> !p(s[j])
    decreases |s|
  {
    if s == [] then -1
    else if p(s[0]) then 0
    else
      var k := FindIndex(s[1..], p);
      assert forall j :: 1 <= j < |s| ==> s[1..][j - 1] == s[j];
      if k == -1 then -1 else k + 1
  }

  /** Where block `i` starts once the blocks of `ss` are laid end to end. */
  function Offset<T>(ss: seq<seq<T>>, i: nat): nat
    requires i <= |ss|
  {
    if i == 0 then 0 else Offset(ss, i - 1) + |ss[i - 1]|
  }

  /** Dropping the first block shifts every later offset by its length. */
  lemma {:induction false} OffsetOfTail<T>(ss: seq<seq<T>>, i: nat)
    requires 0 < |ss| && i < |ss|
    ensures Offset(ss, i + 1) == |ss[0]| + Offset(ss[1..], i)
  {
    if i > 0 {
      OffsetOfTail(ss, i - 1);
      assert ss[1..][i - 1] == ss[i];
    }
  }

  /** Block `i` of `ss` sits at `Offset(ss, i)` in `r`. */
  ghost predicate HasBlocks<T>(r: seq<T>, ss: seq<seq<T>>) {
    |r| == Offset(ss, |ss|) && forall i :: 0 <= i < |ss| ==> BlockAt(r, ss, i)
  }

  /** `r` holds `ss[i]` at `Offset(ss, i)`. */
  ghost predicate BlockAt<T>(r: seq<T>, ss: seq<seq<T>>, i: nat)
    requires i < |ss|
  {
    Offset(ss, i) + |ss[i]| <= |r| && r[Offset(ss, i)..Offset(ss, i) + |ss[i]|] == ss[i]
  }

  /** `Array.prototype.flat` on an array of arrays: the blocks end to end, in order. */
  function Flatten<T(!new)>(ss: seq<seq<T>>): (r: seq<T>)
    ensures HasBlocks(r, ss)
    ensures forall x :: x in r <==> exists i :: 0 <= i < |ss| && x in ss[i]
    decreases |ss|
  {
    if ss == [] then []
    else
      var rest := Flatten(ss[1..]);
      BlocksOfCons(ss, rest);
      MembersOfCons(ss, rest);
      ss[0] + rest
  }

  lemma BlocksOfCons<T>(ss: seq<seq<T>>, rest: seq<T>)
    requires ss != [] && HasBlocks(rest, ss[1..])
    ensures HasBlocks(ss[0] + rest, ss)
  {
    var r := ss[0] + rest;
    var tail := ss[1..];
    OffsetOfTail(ss, |ss| - 1);
    forall i | 0 <= i < |ss| ensures BlockAt(r, ss, i) {
      if i > 0 {
        OffsetOfTail(ss, i - 1);
        assert tail[i - 1] == ss[i];
        var o := Offset(tail, i - 1);
        assert BlockAt(rest, tail, i - 1);
        SliceOfAppend(ss[0], rest, o, |ss[i]|);
      }
    }
  }

  lemma SliceOfAppend<T>(a: seq<T>, b: seq<T>, o: nat, k: nat)
    requires o + k <= |b|
    ensures (a + b)[|a| + o..|a| + o + k] == b[o..o + k]
  {
  }

  lemma MembersOfCons<T(!new)>(ss: seq<seq<T>>, rest: seq<T>)
    requires ss != []
    requires forall x :: x in rest <==> exists i :: 0 <= i < |ss[1..]| && x in ss[1..][i]
    ensures forall x :: x in ss[0] + rest <==> exists i :: 0 <= i < |ss| && x in ss[i]
  {
    forall x | x in rest ensures exists i :: 1 <= i < |ss| && x in ss[i] {
      var j :| 0 <= j < |ss| - 1 && x in ss[1..][j];
      assert x in ss[j + 1];
    }
    forall x, i | 1 <= i < |ss| && x in ss[i] ensures x in rest {
      assert ss[1..][i - 1] == ss[i];
    }
  }

  /** A filter that keeps every element returns its input unchanged. */
  lemma {:induction false} FilterKeepsAll<T(!new)>(s: seq<T>, p: T -> bool)
    requires forall j :: 0 <= j < |s| ==> p(s[j])
    ensures Filter(s, p) == s
    decreases |s|
  {
    if s != [] {
      FilterKeepsAll(s[1..], p);
    }
  }

  /** Filters distribute over concatenation. */
  lemma {:induction false} FilterAppend<T(!new)>(a: seq<T>, b: seq<T>, p: T -> bool)
    ensures Filter(a + b, p) == Filter(a, p) + Filter(b, p)
    decreases |a|
  {
    if a == [] {
      assert a + b == b;
    } else {
      assert (a + b)[1..] == a[1..] + b;
      FilterAppend(a[1..], b, p);
    }
  }

  /** Mapping preserves the subsequence relation. */
  lemma {:induction false} MapSubsequence<T, U>(a: seq<T>, b: seq<T>, f: T -> U)
    requires IsSubsequence(a, b)
    ensures IsSubsequence(Map(a, f), Map(b, f))
    decreases |b|
  {
    if a != [] {
      assert Map(a, f)[1..] == Map(a[1..], f);
      assert Map(b, f)[1..] == Map(b[1..], f);
      if a[0] == b[0] && IsSubsequence(a[1..], b[1..]) {
        MapSubsequence(a[1..], b[1..], f);
      } else {
        MapSubsequence(a, b[1..], f);
      }
    }
  }

  /** A prefix is a subsequence. */
  lemma {:induction false} PrefixIsSubsequence<T>(s: seq<T>, n: nat)
    requires n <= |s|
    ensures IsSubsequence(s[..n], s)
    decreases n
  {
    if n > 0 {
      assert s[..n][1..] == s[1..][..n - 1];
      PrefixIsSubsequence(s[1..], n - 1);
    }
  }

  /** The subsequence relation is transitive. */
  lemma {:induction false} SubsequenceTransitive<T>(a: seq<T>, b: seq<T>, c: seq<T>)
    requires IsSubsequence(a, b) && IsSubsequence(b, c)
    ensures IsSubsequence(a, c)
    decreases |c|
  {
    if a != [] && c != [] {
      assert b != [];
      if b[0] == c[0] && IsSubsequence(b[1..], c[1..]) {
        if a[0] == b[0] && IsSubsequence(a[1..], b[1..]) {
          SubsequenceTransitive(a[1..], b[1..], c[1..]);
        } else {
          SubsequenceTransitive(a, b[1..], c[1..]);
        }
      } else {
        SubsequenceTransitive(a, b, c[1..]);
      }
    }
  }
}
