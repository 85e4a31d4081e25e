/** Go's string order and the sort the key derivation relies on. Go compares
    strings byte by byte; on well-formed UTF-8 text that is the same as
    comparing the code points one by one, which is what `Less` does. */
module Sorting {

  /** Go's `a < b` on strings. */
  predicate Less(a: string, b: string)
    decreases |a|
  {
    if b == [] then false
    else if a == [] then true
    else if a[0] != b[0] then a[0] < b[0]
    else Less(a[1..], b[1..])
  }

  predicate LessEq(a: string, b: string) {
    a == b || Less(a, b)
  }

  lemma {:induction false} LessIrreflexive(a: string)
    ensures !Less(a, a)
    decreases |a|
  {
    if a != [] {
      LessIrreflexive(a[1..]);
    }
  }

  lemma {:induction false} LessTransitive(a: string, b: string, c: string)
    requires Less(a, b) && Less(b, c)
    ensures Less(a, c)
    decreases |a|
  {
    if a != [] && a[0] == b[0] && b[0] == c[0] {
      LessTransitive(a[1..], b[1..], c[1..]);
    }
  }

  lemma {:induction false} LessTotal(a: string, b: string)
    requires a != b
    ensures Less(a, b) || Less(b, a)
    decreases |a|
  {
    if a != [] && b != [] && a[0] == b[0] {
      assert a == [a[0]] + a[1..] && b == [b[0]] + b[1..];
      LessTotal(a[1..], b[1..]);
    }
  }

  lemma LessAsymmetric(a: string, b: string)
    requires Less(a, b)
    ensures !Less(b, a)
  {
    if Less(b, a) {
      LessTransitive(a, b, a);
      LessIrreflexive(a);
    }
  }

  lemma LessEqTransitive(a: string, b: string, c: string)
    requires LessEq(a, b) && LessEq(b, c)
    ensures LessEq(a, c)
  {
    if a != b && b != c {
      LessTransitive(a, b, c);
    }
  }

  lemma LessEqAntisymmetric(a: string, b: string)
    requires LessEq(a, b) && LessEq(b, a)
    ensures a == b
  {
    if a != b {
      LessAsymmetric(a, b);
    }
  }

  predicate Sorted(s: seq<string>) {
    forall i, j :: 0 <= i < j < |s| ==> LessEq(s[i], s[j])
  }

  predicate StrictlySorted(s: seq<string>) {
    forall i, j :: 0 <= i < j < |s| ==> Less(s[i], s[j])
  }

  /** Inserts `x` into a sorted sequence. */
  function Insert(x: string, s: seq<string>): (r: seq<string>)
    ensures multiset(r) == multiset(s) + multiset{x}
  {
    if s == [] then [x]
    else if Less(s[0], x) then
      assert s == [s[0]] + s[1..];
      [s[0]] + Insert(x, s[1..])
    else [x] + s
  }

  lemma {:induction false} InsertSorted(x: string, s: seq<string>)
    requires Sorted(s)
    ensures Sorted(Insert(x, s))
  {
    if s != [] {
      var r := Insert(x, s);
      if Less(s[0], x) {
        InsertSorted(x, s[1..]);
        var tail := Insert(x, s[1..]);
        forall k | 0 <= k < |tail|
          ensures LessEq(s[0], tail[k])
        {
          assert tail[k] in multiset(tail);
          if tail[k] != x {
            assert tail[k] in multiset(s[1..]);
            var j :| 0 <= j < |s[1..]| && s[1..][j] == tail[k];
            assert s[1 + j] == tail[k];
          }
        }
      } else {
        if x != s[0] {
          LessTotal(x, s[0]);
        }
        forall k | 0 <= k < |s|
          ensures LessEq(x, s[k])
        {
          if k > 0 {
            LessEqTransitive(x, s[0], s[k]);
          }
        }
      }
    }
  }

  /** `sort.Strings`: the result is sorted and is a permutation of the input. */
  function SortStrings(s: seq<string>): (r: seq<string>)
    ensures Sorted(r)
    ensures multiset(r) == multiset(s)
  {
    if s == [] then []
    else
      assert s == [s[0]] + s[1..];
      var rest := SortStrings(s[1..]);
      InsertSorted(s[0], rest);
      Insert(s[0], rest)
  }

  /** The least element of a finite non-empty set of strings. */
  ghost function Min(names: set<string>): (m: string)
    requires names != {}
    ensures m in names
    ensures forall y :: y in names ==> LessEq(m, y)
  {
    var x :| x in names;
    if names == {x} then x
    else
      var m := Min(names - {x});
      MinStep(names, x, m);
      if Less(x, m) then x else m
  }

  lemma MinStep(names: set<string>, x: string, m: string)
    requires x in names && m in names - {x}
    requires forall y :: y in names - {x} ==> LessEq(m, y)
    ensures Less(x, m) ==> forall y :: y in names ==> LessEq(x, y)
    ensures !Less(x, m) ==> forall y :: y in names ==> LessEq(m, y)
  {
    if Less(x, m) {
      forall y | y in names ensures LessEq(x, y) {
        if y != x {
          LessEqTransitive(x, m, y);
        }
      }
    } else {
      LessTotal(x, m);
    }
  }

  /** The elements of a set in increasing order: the one canonical listing. */
  ghost function SortedElements(names: set<string>): (r: seq<string>)
    ensures StrictlySorted(r)
    ensures forall y :: y in r <==> y in names
    ensures multiset(r) == multiset(names)
    ensures |r| == |names|
  {
    if names == {} then []
    else
      var m := Min(names);
      var rest := SortedElements(names - {m});
      assert forall j :: 0 <= j < |rest| ==> Less(m, rest[j]) by {
        forall j | 0 <= j < |rest| ensures Less(m, rest[j]) {
          assert rest[j] in names - {m};
        }
      }
      assert names == (names - {m}) + {m};
      assert multiset(names) == multiset(names - {m}) + multiset{m};
      [m] + rest
  }

  /** Two sorted sequences with the same elements (with multiplicity) are equal. */
  lemma {:induction false} SortedUnique(a: seq<string>, b: seq<string>)
    requires Sorted(a) && Sorted(b)
    requires multiset(a) == multiset(b)
    ensures a == b
  {
    if a != [] {
      assert a[0] in multiset(b);
      assert b[0] in multiset(a);
      var k :| 0 <= k < |b| && b[k] == a[0];
      var l :| 0 <= l < |a| && a[l] == b[0];
      assert LessEq(b[0], a[0]);
      assert LessEq(a[0], b[0]);
      LessEqAntisymmetric(a[0], b[0]);
      assert a == [a[0]] + a[1..] && b == [b[0]] + b[1..];
      assert multiset(a) == multiset{a[0]} + multiset(a[1..]);
      assert multiset(b) == multiset{b[0]} + multiset(b[1..]);
      assert multiset(a[1..]) == multiset(a) - multiset{a[0]};
      assert multiset(b[1..]) == multiset(b) - multiset{b[0]};
      SortedUnique(a[1..], b[1..]);
    } else {
      assert |b| == |multiset(b)| == 0;
    }
  }

  /** Sorting any enumeration of a set gives the same sequence: the order in
      which the names were collected does not matter. */
  lemma SortIsCanonical(s: seq<string>, names: set<string>)
    requires multiset(s) == multiset(names)
    ensures SortStrings(s) == SortedElements(names)
  {
    var r := SortedElements(names);
    assert Sorted(r);
    SortedUnique(SortStrings(s), r);
  }
}
