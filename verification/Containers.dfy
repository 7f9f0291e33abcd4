/** Small value containers shared by every module: an option type, and the two
    operations Python's OrderedDict offers on a sequence of unique keys. */
module Containers {

  datatype Option<+T> = None | Some(value: T)

  ghost predicate Distinct<T>(s: seq<T>) {
    forall i, j :: 0 <= i < j < |s| ==> s[i] != s[j]
  }

  /** `OrderedDict.pop(key, None)` on the key order. */
  function Without<T(==,!new)>(s: seq<T>, x: T): (r: seq<T>)
    ensures forall y :: y in r <==> y in s && y != x
    ensures |r| <= |s|
    ensures x !in s ==> r == s
  {
    if s == [] then []
    else if s[0] == x then Without(s[1..], x)
    else [s[0]] + Without(s[1..], x)
  }

  lemma {:induction false} DistinctCons<T>(x: T, s: seq<T>)
    requires Distinct(s) && x !in s
    ensures Distinct([x] + s)
  {
    forall i, j | 0 <= i < j < |s| + 1 ensures ([x] + s)[i] != ([x] + s)[j] {
      assert ([x] + s)[j] == s[j - 1];
    }
  }

  lemma {:induction false} WithoutDistinct<T(!new)>(s: seq<T>, x: T)
    requires Distinct(s)
    ensures Distinct(Without(s, x))
    ensures |Without(s, x)| == |s| - (if x in s then 1 else 0)
  {
    if s != [] {
      var rest := s[1..];
      assert s[0] !in rest;
      assert x in s <==> x == s[0] || x in rest;
      assert Distinct(rest) by {
        forall i, j | 0 <= i < j < |rest| ensures rest[i] != rest[j] {
          assert rest[i] == s[i + 1] && rest[j] == s[j + 1];
        }
      }
      WithoutDistinct(rest, x);
      DistinctCons(s[0], Without(rest, x));
    }
  }

  /** `OrderedDict.move_to_end(key)`. */
  function MoveToEnd<T(==,!new)>(s: seq<T>, x: T): (r: seq<T>)
    ensures x in s ==> forall y :: y in r <==> y in s
  {
    Without(s, x) + [x]
  }

  lemma {:induction false} MoveToEndDistinct<T(!new)>(s: seq<T>, x: T)
    requires Distinct(s) && x in s
    ensures Distinct(MoveToEnd(s, x)) && |MoveToEnd(s, x)| == |s|
  {
    WithoutDistinct(s, x);
  }

  /** Moving a key to the end leaves the order of the others alone. */
  lemma {:induction false} MoveToEndOthers<T(!new)>(s: seq<T>, x: T)
    ensures Without(MoveToEnd(s, x), x) == Without(s, x)
  {
    WithoutAppend(Without(s, x), [x], x);
    assert [x][1..] == [];
  }

  lemma {:induction false} WithoutAppend<T(!new)>(s: seq<T>, t: seq<T>, x: T)
    ensures Without(s + t, x) == Without(s, x) + Without(t, x)
  {
    if s == [] {
      assert s + t == t;
    } else {
      assert (s + t)[1..] == s[1..] + t;
      WithoutAppend(s[1..], t, x);
    }
  }

  lemma {:induction false} DistinctCardinality<T>(s: seq<T>)
    requires Distinct(s)
    ensures |set x | x in s| == |s|
  {
    if s != [] {
      var front := s[..|s| - 1];
      DistinctCardinality(front);
      assert (set x | x in s) == (set x | x in front) + {s[|s| - 1]};
    } else {
      assert (set x | x in s) == {};
    }
  }

  lemma {:induction false} CardinalityOfList<T(!new)>(keys: set<T>, s: seq<T>)
    requires Distinct(s) && forall x :: x in keys <==> x in s
    ensures |keys| == |s|
  {
    if s != [] {
      var front, last := s[..|s| - 1], s[|s| - 1];
      assert s == front + [last];
      CardinalityOfList(keys - {last}, front);
      assert last in keys;
    }
  }

  function Reverse<T(!new)>(s: seq<T>): (r: seq<T>)
    ensures |r| == |s|
    ensures forall x :: x in r <==> x in s
  {
    if s == [] then [] else [s[|s| - 1]] + Reverse(s[..|s| - 1])
  }
}
