/** Facts about duplicate-free sequences and finite sets shared by the other modules. */
module Seqs {

  ghost predicate Unique<T>(s: seq<T>) {
    forall i, j :: 0 <= i < j < |s| ==> s[i] != s[j]
  }

  ghost function SetOf<T>(s: seq<T>): set<T> {
    set x | x in s
  }

  lemma Regroup<T>(a: seq<T>, b: seq<T>, c: seq<T>)
    ensures a + b + c == a + (b + c)
  {
  }

  /** The set of a sequence grows by its last element. */
  lemma SetOfSnoc<T>(s: seq<T>, x: T)
    ensures SetOf(s + [x]) == SetOf(s) + {x}
  {
    assert forall y :: y in s + [x] <==> y in s || y == x;
  }

  lemma SetOfConcat<T>(s: seq<T>, t: seq<T>)
    ensures SetOf(s + t) == SetOf(s) + SetOf(t)
  {
    assert forall y :: y in s + t <==> y in s || y in t;
  }

  lemma SetOfHead<T>(s: seq<T>)
    requires s != []
    ensures SetOf(s) == {s[0]} + SetOf(s[1..])
  {
    assert s == [s[0]] + s[1..];
    SetOfConcat([s[0]], s[1..]);
  }

  /** A duplicate-free sequence is as long as its set is large. */
  lemma {:induction false} UniqueCardinality<T>(s: seq<T>)
    requires Unique(s)
    ensures |SetOf(s)| == |s|
  {
    if s == [] {
      assert SetOf(s) == {};
    } else {
      var front, last := s[..|s| - 1], s[|s| - 1];
      UniqueCardinality(front);
      assert s == front + [last];
      SetOfSnoc(front, last);
      assert last !in SetOf(front);
    }
  }

  lemma {:induction false} SubsetCardinality<T>(a: set<T>, b: set<T>)
    requires a <= b
    ensures |a| <= |b|
    ensures |a| == |b| ==> a == b
  {
    if a == {} {
      if b != {} {
        var y :| y in b;
        assert |b| == |b - {y}| + 1;
      }
    } else {
      var x :| x in a;
      SubsetCardinality(a - {x}, b - {x});
      assert a == (a - {x}) + {x} && b == (b - {x}) + {x};
    }
  }

  /** Removing elements of b leaves at least the difference of the sizes. */
  lemma DifferenceCardinality<T>(a: set<T>, b: set<T>)
    ensures |a - b| >= |a| - |b|
  {
    assert a == (a - b) + (a * b);
    SubsetCardinality(a * b, b);
  }

  /** The sum of the weights. */
  function Total<T>(s: seq<T>, w: T -> nat): nat {
    if s == [] then 0 else w(s[0]) + Total(s[1..], w)
  }

  lemma {:induction false} TotalUpdate<T>(s: seq<T>, i: nat, x: T, w: T -> nat)
    requires i < |s|
    ensures Total(s[i := x], w) == Total(s, w) - w(s[i]) + w(x)
  {
    if i > 0 {
      assert s[i := x][1..] == s[1..][i - 1 := x];
      TotalUpdate(s[1..], i - 1, x, w);
    }
  }

  lemma {:induction false} TotalSnoc<T>(s: seq<T>, x: T, w: T -> nat)
    ensures Total(s + [x], w) == Total(s, w) + w(x)
  {
    if s == [] {
      assert s + [x] == [x];
    } else {
      assert (s + [x])[1..] == s[1..] + [x];
      TotalSnoc(s[1..], x, w);
    }
  }

  lemma {:induction false} TotalGrows<T>(s: seq<T>, s': seq<T>, w: T -> nat)
    requires |s| == |s'| && forall i :: 0 <= i < |s| ==> w(s[i]) <= w(s'[i])
    ensures Total(s, w) <= Total(s', w)
  {
    if s != [] {
      TotalGrows(s[1..], s'[1..], w);
    }
  }

  lemma {:induction false} TotalBound<T>(s: seq<T>, w: T -> nat, b: nat)
    requires forall i :: 0 <= i < |s| ==> w(s[i]) <= b
    ensures Total(s, w) <= b * |s|
  {
    if s != [] {
      TotalBound(s[1..], w, b);
      assert b * |s| == b + b * |s[1..]|;
    }
  }
}
