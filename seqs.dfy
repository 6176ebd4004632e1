/** Order-preserving selection over sequences: Rust's `iter().filter(..).collect()`. */
module Seqs {
  import opened Wrappers

  /** The elements of `s` that satisfy `keep`, in their original order. */
  function Filter<T>(s: seq<T>, keep: T -> bool): (r: seq<T>)
    ensures |r| <= |s|
    ensures forall k :: 0 <= k < |r| ==> r[k] in s && keep(r[k])
    ensures forall k :: 0 <= k < |s| && keep(s[k]) ==> s[k] in r
  {
    if s == [] then []
    else (if keep(s[0]) then [s[0]] else []) + Filter(s[1..], keep)
  }

  /** `a` can be obtained from `b` by deleting elements. */
  ghost predicate IsSubsequence<T>(a: seq<T>, b: seq<T>)
  {
    if a == [] then true
    else if b == [] then false
    else if a[0] == b[0] then IsSubsequence(a[1..], b[1..])
    else IsSubsequence(a, b[1..])
  }

  /** Filtering keeps the input order. */
  lemma {:induction false} FilterIsSubsequence<T>(s: seq<T>, keep: T -> bool)
    ensures IsSubsequence(Filter(s, keep), s)
  {
    if s != [] {
      FilterIsSubsequence(s[1..], keep);
      if keep(s[0]) {
        assert Filter(s, keep) == [s[0]] + Filter(s[1..], keep);
        assert ([s[0]] + Filter(s[1..], keep))[1..] == Filter(s[1..], keep);
      } else {
        assert Filter(s, keep) == Filter(s[1..], keep);
        SubsequenceSkip(Filter(s[1..], keep), s);
      }
    }
  }

  lemma {:induction false} SubsequenceSkip<T>(a: seq<T>, b: seq<T>)
    requires b != []
    requires IsSubsequence(a, b[1..])
    ensures IsSubsequence(a, b)
    decreases |b|, 1
  {
    if a != [] && a[0] == b[0] {
      SubsequenceTail(a, b[1..]);
    }
  }

  lemma {:induction false} SubsequenceTail<T>(a: seq<T>, b: seq<T>)
    requires a != []
    requires IsSubsequence(a, b)
    ensures IsSubsequence(a[1..], b)
    decreases |b| + 1, 0
  {
    if b != [] {
      if a[0] == b[0] {
        if a[1..] != [] {
          SubsequenceSkip(a[1..], b);
        }
      } else {
        SubsequenceTail(a, b[1..]);
        if a[1..] != [] {
          SubsequenceSkip(a[1..], b);
        }
      }
    }
  }

  /** Filtering distributes over concatenation. */
  lemma {:induction false} FilterAppend<T>(a: seq<T>, b: seq<T>, keep: T -> bool)
    ensures Filter(a + b, keep) == Filter(a, keep) + Filter(b, keep)
  {
    if a != [] {
      assert (a + b)[0] == a[0];
      assert (a + b)[1..] == a[1..] + b;
      FilterAppend(a[1..], b, keep);
    } else {
      assert a + b == b;
    }
  }

  /** Filtering does not change how often a kept element occurs. */
  lemma {:induction false} FilterCount<T>(s: seq<T>, keep: T -> bool, x: T)
    requires keep(x)
    ensures multiset(Filter(s, keep))[x] == multiset(s)[x]
  {
    if s != [] {
      FilterCount(s[1..], keep, x);
      assert s == [s[0]] + s[1..];
    }
  }

  /** The first present value: Rust's `find_map` over already computed options. */
  function FirstSome<T>(opts: seq<Option<T>>): (r: Option<T>)
    ensures r.Some? <==> exists k :: 0 <= k < |opts| && opts[k].Some?
    ensures r.Some? ==> exists k :: 0 <= k < |opts| && opts[k] == r && forall j :: 0 <= j < k ==> opts[j].None?
  {
    if opts == [] then None
    else if opts[0].Some? then opts[0]
    else
      var r := FirstSome(opts[1..]);
      assert forall k :: 1 <= k < |opts| ==> opts[k] == opts[1..][k - 1];
      r
  }

  /** The first present value is the one at the first index that holds one. */
  lemma FirstSomeAt<T>(opts: seq<Option<T>>, i: nat)
    requires i < |opts| && opts[i].Some?
    requires forall j :: 0 <= j < i ==> opts[j].None?
    ensures FirstSome(opts) == opts[i]
  {
    var r := FirstSome(opts);
    var k :| 0 <= k < |opts| && opts[k] == r && forall j :: 0 <= j < k ==> opts[j].None?;
    assert k == i;
  }

  /** One step of the search: the first present value from `i` on is the one at `i`, or
      else the first from `i + 1` on. */
  lemma FirstSomeStep<T>(opts: seq<Option<T>>, i: nat)
    requires i < |opts|
    ensures FirstSome(opts[i..]) == if opts[i].Some? then opts[i] else FirstSome(opts[i + 1..])
  {
    assert opts[i..][0] == opts[i];
    assert opts[i..][1..] == opts[i + 1..];
  }
}
