/** Order-preserving filtering of sequences (JavaScript `Array.prototype.filter`). */
module Seqs {

  /** The elements of `s` that satisfy `p`, in their original order. */
  function Filter<T>(s: seq<T>, p: T -> bool): (r: seq<T>)
    ensures |r| <= |s|
  {
    if s == [] then []
    else if p(s[0]) then [s[0]] + Filter(s[1..], p)
    else Filter(s[1..], p)
  }

  /** The elements of `s` that do not satisfy `p`, in their original order. */
  function Reject<T>(s: seq<T>, p: T -> bool): (r: seq<T>)
    ensures |r| <= |s|
  {
    if s == [] then []
    else if p(s[0]) then Reject(s[1..], p)
    else [s[0]] + Reject(s[1..], p)
  }

  /** The filter holds exactly the elements that satisfy `p`. */
  lemma {:induction false} FilterMembers<T>(s: seq<T>, p: T -> bool)
    ensures forall i :: 0 <= i < |Filter(s, p)| ==> Filter(s, p)[i] in s && p(Filter(s, p)[i])
    ensures forall i :: 0 <= i < |s| && p(s[i]) ==> s[i] in Filter(s, p)
  {
    if s != [] {
      FilterMembers(s[1..], p);
      forall i | 0 <= i < |s| && p(s[i])
        ensures s[i] in Filter(s, p)
      {
        if i > 0 { assert s[i] == s[1..][i - 1]; }
      }
    }
  }

  /** The rejected part holds exactly the elements that fail `p`. */
  lemma {:induction false} RejectMembers<T>(s: seq<T>, p: T -> bool)
    ensures forall i :: 0 <= i < |Reject(s, p)| ==> Reject(s, p)[i] in s && !p(Reject(s, p)[i])
    ensures forall i :: 0 <= i < |s| && !p(s[i]) ==> s[i] in Reject(s, p)
  {
    if s != [] {
      RejectMembers(s[1..], p);
      forall i | 0 <= i < |s| && !p(s[i])
        ensures s[i] in Reject(s, p)
      {
        if i > 0 { assert s[i] == s[1..][i - 1]; }
      }
    }
  }

  lemma {:induction false} FilterAppend<T>(a: seq<T>, b: seq<T>, p: T -> bool)
    ensures Filter(a + b, p) == Filter(a, p) + Filter(b, p)
    ensures Reject(a + b, p) == Reject(a, p) + Reject(b, p)
  {
    if a != [] {
      assert (a + b)[1..] == a[1..] + b;
      FilterAppend(a[1..], b, p);
    } else {
      assert a + b == b;
    }
  }

  /** Filtering by `p` and by its negation splits a sequence into two parts
      that together hold every element exactly as often as the sequence. */
  lemma {:induction false} FilterRejectSplit<T>(s: seq<T>, p: T -> bool)
    ensures multiset(Filter(s, p)) + multiset(Reject(s, p)) == multiset(s)
    ensures |Filter(s, p)| + |Reject(s, p)| == |s|
  {
    if s != [] {
      FilterRejectSplit(s[1..], p);
      assert s == [s[0]] + s[1..];
    }
  }

  /** A sequence whose every element satisfies `p` is its own filter. */
  lemma {:induction false} FilterAll<T>(s: seq<T>, p: T -> bool)
    requires forall i :: 0 <= i < |s| ==> p(s[i])
    ensures Filter(s, p) == s && Reject(s, p) == []
  {
    if s != [] {
      FilterAll(s[1..], p);
    }
  }

  /** A sequence none of whose elements satisfies `p` filters to nothing. */
  lemma {:induction false} FilterNone<T>(s: seq<T>, p: T -> bool)
    requires forall i :: 0 <= i < |s| ==> !p(s[i])
    ensures Filter(s, p) == [] && Reject(s, p) == s
  {
    if s != [] {
      FilterNone(s[1..], p);
    }
  }
}
