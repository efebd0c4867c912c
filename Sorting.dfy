/** Sorting by a tuple key, as Python's `sorted(rows, key=...)` and pandas'
    `sort_values([...])` do in the reports. A key is a sequence of atoms
    compared lexicographically, the way Python compares tuples; a numeric
    atom sorted in descending order is stored negated. */
module Sorting {
  import opened Text
  import opened Tables

  datatype Atom = Num(n: real) | Str(s: string)

  /** Python's <= on one tuple component (numbers and strings never meet in
      one position; numbers are put first so that the order is total). */
  predicate AtomLe(a: Atom, b: Atom) {
    match (a, b)
    case (Num(x), Num(y)) => x <= y
    case (Str(x), Str(y)) => LexLe(x, y)
    case (Num(_), Str(_)) => true
    case (Str(_), Num(_)) => false
  }

  /** Python's <= on tuples. */
  predicate KeyLe(a: seq<Atom>, b: seq<Atom>)
    decreases |a|
  {
    if |a| == 0 then true
    else if |b| == 0 then false
    else if a[0] != b[0] then AtomLe(a[0], b[0])
    else KeyLe(a[1..], b[1..])
  }

  lemma AtomLeTotal(a: Atom, b: Atom)
    ensures AtomLe(a, b) || AtomLe(b, a)
  {
    if a.Str? && b.Str? {
      LexLeTotal(a.s, b.s);
    }
  }

  lemma AtomLeTrans(a: Atom, b: Atom, c: Atom)
    requires AtomLe(a, b) && AtomLe(b, c)
    ensures AtomLe(a, c)
  {
    if a.Str? && b.Str? && c.Str? {
      LexLeTrans(a.s, b.s, c.s);
    }
  }

  lemma AtomLeAntisym(a: Atom, b: Atom)
    requires AtomLe(a, b) && AtomLe(b, a)
    ensures a == b
  {
    if a.Str? && b.Str? {
      LexLeAntisym(a.s, b.s);
    }
  }

  lemma {:induction false} KeyLeTotal(a: seq<Atom>, b: seq<Atom>)
    ensures KeyLe(a, b) || KeyLe(b, a)
    decreases |a|
  {
    if |a| > 0 && |b| > 0 {
      if a[0] != b[0] {
        AtomLeTotal(a[0], b[0]);
      } else {
        KeyLeTotal(a[1..], b[1..]);
      }
    }
  }

  lemma {:induction false} KeyLeTrans(a: seq<Atom>, b: seq<Atom>, c: seq<Atom>)
    requires KeyLe(a, b) && KeyLe(b, c)
    ensures KeyLe(a, c)
    decreases |a|
  {
    if |a| > 0 && |b| > 0 && |c| > 0 {
      if a[0] == b[0] && b[0] == c[0] {
        KeyLeTrans(a[1..], b[1..], c[1..]);
      } else if a[0] != b[0] && b[0] != c[0] {
        AtomLeTrans(a[0], b[0], c[0]);
        if a[0] == c[0] {
          AtomLeAntisym(a[0], b[0]);
        }
      }
    }
  }

  lemma {:induction false} KeyLeAntisym(a: seq<Atom>, b: seq<Atom>)
    requires KeyLe(a, b) && KeyLe(b, a)
    ensures a == b
    decreases |a|
  {
    if |a| > 0 && |b| > 0 {
      if a[0] != b[0] {
        AtomLeAntisym(a[0], b[0]);
      } else {
        KeyLeAntisym(a[1..], b[1..]);
        assert a == [a[0]] + a[1..] && b == [b[0]] + b[1..];
      }
    }
  }

  predicate SortedBy<T>(s: seq<T>, key: T -> seq<Atom>) {
    forall i, j :: 0 <= i < j < |s| ==> KeyLe(key(s[i]), key(s[j]))
  }

  /** Inserts x after every element whose key is not greater than its own,
      so that elements with equal keys keep their order. */
  function Insert<T>(x: T, s: seq<T>, key: T -> seq<Atom>): (r: seq<T>)
    ensures |r| == |s| + 1
    decreases |s|
  {
    if |s| == 0 then [x]
    else if KeyLe(key(s[0]), key(x)) then [s[0]] + Insert(x, s[1..], key)
    else [x] + s
  }

  /** A stable insertion sort: the model of Python's sorted(s, key=key). */
  function SortBy<T>(s: seq<T>, key: T -> seq<Atom>): (r: seq<T>)
    ensures |r| == |s|
    decreases |s|
  {
    if |s| == 0 then [] else Insert(s[|s| - 1], SortBy(s[..|s| - 1], key), key)
  }

  lemma {:induction false} InsertElements<T>(x: T, s: seq<T>, key: T -> seq<Atom>)
    ensures multiset(Insert(x, s, key)) == multiset(s) + multiset{x}
    decreases |s|
  {
    if |s| > 0 && KeyLe(key(s[0]), key(x)) {
      InsertElements(x, s[1..], key);
      assert s == [s[0]] + s[1..];
    }
  }

  lemma {:induction false} InsertSorted<T>(x: T, s: seq<T>, key: T -> seq<Atom>)
    requires SortedBy(s, key)
    ensures SortedBy(Insert(x, s, key), key)
    decreases |s|
  {
    var r := Insert(x, s, key);
    if |s| > 0 {
      if KeyLe(key(s[0]), key(x)) {
        InsertSorted(x, s[1..], key);
        InsertElements(x, s[1..], key);
        forall j | 0 < j < |r|
          ensures KeyLe(key(s[0]), key(r[j]))
        {
          assert r[j] in multiset(Insert(x, s[1..], key)) by {
            assert r[j] == Insert(x, s[1..], key)[j - 1];
          }
          assert r[j] in multiset(s[1..]) + multiset{x};
          if r[j] != x {
            assert r[j] in s[1..];
            var k :| 0 <= k < |s[1..]| && s[1..][k] == r[j];
            assert r[j] == s[k + 1];
          }
        }
      } else {
        KeyLeTotal(key(s[0]), key(x));
        forall j | 0 < j < |r|
          ensures KeyLe(key(x), key(r[j]))
        {
          assert r[j] == s[j - 1];
          if j > 1 {
            KeyLeTrans(key(x), key(s[0]), key(s[j - 1]));
          }
        }
      }
    }
  }

  /** sorted() returns its input in key order... */
  lemma {:induction false} SortBySorted<T>(s: seq<T>, key: T -> seq<Atom>)
    ensures SortedBy(SortBy(s, key), key)
    decreases |s|
  {
    if |s| > 0 {
      SortBySorted(s[..|s| - 1], key);
      InsertSorted(s[|s| - 1], SortBy(s[..|s| - 1], key), key);
    }
  }

  /** ...and neither loses nor adds an element. */
  lemma {:induction false} SortByPermutes<T>(s: seq<T>, key: T -> seq<Atom>)
    ensures multiset(SortBy(s, key)) == multiset(s)
    decreases |s|
  {
    if |s| > 0 {
      SortByPermutes(s[..|s| - 1], key);
      InsertElements(s[|s| - 1], SortBy(s[..|s| - 1], key), key);
      assert s == s[..|s| - 1] + [s[|s| - 1]];
    }
  }

  /** Sorting a list without repeats gives a list without repeats. */
  lemma SortByNoDup<T>(s: seq<T>, key: T -> seq<Atom>)
    requires NoDup(s)
    ensures NoDup(SortBy(s, key))
  {
    var r := SortBy(s, key);
    SortByPermutes(s, key);
    DistinctMultiset(s);
    forall i, j | 0 <= i < j < |r|
      ensures r[i] != r[j]
    {
      MultisetNoDup(r, i, j);
    }
  }

  lemma DistinctMultiset<T>(s: seq<T>)
    requires NoDup(s)
    ensures forall x :: multiset(s)[x] <= 1
  {
    forall x
      ensures multiset(s)[x] <= 1
    {
      NoDupCount(s, x);
    }
  }

  lemma {:induction false} NoDupCount<T>(s: seq<T>, x: T)
    requires NoDup(s)
    ensures multiset(s)[x] <= 1
    decreases |s|
  {
    if |s| > 0 {
      var init := s[..|s| - 1];
      assert NoDup(init);
      NoDupCount(init, x);
      assert s == init + [s[|s| - 1]];
      if s[|s| - 1] == x {
        assert x !in init;
      }
    }
  }

  lemma MultisetNoDup<T>(s: seq<T>, i: int, j: int)
    requires forall x :: multiset(s)[x] <= 1
    requires 0 <= i < j < |s|
    ensures s[i] != s[j]
  {
    var front := s[..j];
    assert s == front + [s[j]] + s[j + 1..];
    assert multiset(s)[s[j]] == multiset(front)[s[j]] + 1 + multiset(s[j + 1..])[s[j]];
    assert front[i] == s[i];
    assert s[i] in multiset(front);
  }
}
