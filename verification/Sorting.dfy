/** A stable sort, standing for the language's own: each element goes after all those not greater than it. */
module Sorting {
  function Insert<T>(le: (T, T) -> bool, sorted: seq<T>, x: T): seq<T> {
    if sorted == [] then [x]
    else if le(sorted[|sorted| - 1], x) then sorted + [x]
    else Insert(le, sorted[..|sorted| - 1], x) + [sorted[|sorted| - 1]]
  }

  function Sort<T>(le: (T, T) -> bool, s: seq<T>): seq<T> {
    if s == [] then [] else Insert(le, Sort(le, s[..|s| - 1]), s[|s| - 1])
  }

  ghost predicate Order<T(!new)>(le: (T, T) -> bool) {
    && (forall x, y :: le(x, y) || le(y, x))
    && forall x, y, z :: le(x, y) && le(y, z) ==> le(x, z)
  }

  predicate Sorted<T(==)>(le: (T, T) -> bool, s: seq<T>) {
    forall i, j :: 0 <= i < j < |s| ==> le(s[i], s[j])
  }

  lemma {:induction false} InsertHas<T>(le: (T, T) -> bool, sorted: seq<T>, x: T)
    ensures forall y :: y in Insert(le, sorted, x) <==> y in sorted || y == x
    ensures |Insert(le, sorted, x)| == |sorted| + 1
  {
    if sorted != [] && !le(sorted[|sorted| - 1], x) {
      InsertHas(le, sorted[..|sorted| - 1], x);
      assert sorted == sorted[..|sorted| - 1] + [sorted[|sorted| - 1]];
    }
  }

  lemma {:induction false} SortHas<T>(le: (T, T) -> bool, s: seq<T>)
    ensures forall y :: y in Sort(le, s) <==> y in s
    ensures |Sort(le, s)| == |s|
  {
    if s != [] {
      SortHas(le, s[..|s| - 1]);
      InsertHas(le, Sort(le, s[..|s| - 1]), s[|s| - 1]);
      assert s == s[..|s| - 1] + [s[|s| - 1]];
    }
  }

  lemma {:induction false} InsertSorts<T(!new)>(le: (T, T) -> bool, sorted: seq<T>, x: T)
    requires Order(le) && Sorted(le, sorted)
    ensures Sorted(le, Insert(le, sorted, x))
  {
    if sorted != [] && !le(sorted[|sorted| - 1], x) {
      var init, last := sorted[..|sorted| - 1], sorted[|sorted| - 1];
      InsertSorts(le, init, x);
      InsertHas(le, init, x);
      var before := Insert(le, init, x);
      forall i | 0 <= i < |before| ensures le(before[i], last) {
        assert before[i] in init || before[i] == x;
      }
    }
  }

  lemma {:induction false} SortSorts<T(!new)>(le: (T, T) -> bool, s: seq<T>)
    requires Order(le)
    ensures Sorted(le, Sort(le, s))
  {
    if s != [] {
      SortSorts(le, s[..|s| - 1]);
      InsertSorts(le, Sort(le, s[..|s| - 1]), s[|s| - 1]);
    }
  }

  /** No two elements have the same key. */
  ghost predicate UniqueBy<T, K>(key: T -> K, s: seq<T>) {
    forall i, j :: 0 <= i < j < |s| ==> key(s[i]) != key(s[j])
  }

  lemma {:induction false} InsertKeepsUnique<T(!new), K>(key: T -> K, le: (T, T) -> bool, s: seq<T>, x: T)
    requires UniqueBy(key, s) && forall y :: y in s ==> key(y) != key(x)
    ensures UniqueBy(key, Insert(le, s, x))
  {
    if s != [] {
      var init, last := s[..|s| - 1], s[|s| - 1];
      InsertKeepsUnique(key, le, init, x);
      InsertHas(le, init, x);
      var before := Insert(le, init, x);
      forall i | 0 <= i < |before| ensures key(before[i]) != key(last) {
        assert before[i] in init || before[i] == x;
      }
    }
  }

  lemma {:induction false} SortKeepsUnique<T(!new), K>(key: T -> K, le: (T, T) -> bool, s: seq<T>)
    requires UniqueBy(key, s)
    ensures UniqueBy(key, Sort(le, s))
  {
    if s != [] {
      var init, last := s[..|s| - 1], s[|s| - 1];
      SortKeepsUnique(key, le, init);
      SortHas(le, init);
      forall y | y in Sort(le, init) ensures key(y) != key(last) {
        assert y in init;
      }
      InsertKeepsUnique(key, le, Sort(le, init), last);
    }
  }

  // ------------------------------------------------------------------ comparing strings

  predicate StringLe(a: string, b: string) {
    a == "" || (b != "" && (a[0] < b[0] || (a[0] == b[0] && StringLe(a[1..], b[1..]))))
  }

  lemma {:induction false} StringLeTotal(a: string, b: string)
    ensures StringLe(a, b) || StringLe(b, a)
    ensures StringLe(a, b) && StringLe(b, a) ==> a == b
  {
    if a != "" && b != "" {
      StringLeTotal(a[1..], b[1..]);
      assert a == [a[0]] + a[1..] && b == [b[0]] + b[1..];
    }
  }

  lemma {:induction false} StringLeTransitive(a: string, b: string, c: string)
    requires StringLe(a, b) && StringLe(b, c)
    ensures StringLe(a, c)
  {
    if a != "" && a[0] == b[0] == c[0] {
      StringLeTransitive(a[1..], b[1..], c[1..]);
    }
  }
}
