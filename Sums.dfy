/** Column sums and group-by sums over a table held as a sequence of rows:
    the model of pandas' `frame[col].sum()` and `groupby(keys)[col].sum()`. */
module Sums {
  import opened Tables

  /** `frame[col].sum()`. */
  function Total<T>(s: seq<T>, v: T -> real): real
    decreases |s|
  {
    if |s| == 0 then 0.0 else Total(s[..|s| - 1], v) + v(s[|s| - 1])
  }

  /** The sum of the group with key k: `groupby(key)[col].sum()[k]`. */
  function GroupTotal<T, K(==)>(s: seq<T>, key: T -> K, k: K, v: T -> real): real
    decreases |s|
  {
    if |s| == 0 then 0.0
    else GroupTotal(s[..|s| - 1], key, k, v) + (if key(s[|s| - 1]) == k then v(s[|s| - 1]) else 0.0)
  }

  /** The key of every row, in row order. */
  function KeysOf<T, K>(s: seq<T>, key: T -> K): (r: seq<K>)
    ensures |r| == |s|
  {
    seq(|s|, i requires 0 <= i < |s| => key(s[i]))
  }

  /** The groups of a group-by, in order of first appearance. */
  function Groups<T, K(==)>(s: seq<T>, key: T -> K): (r: seq<K>)
    ensures NoDup(r)
    ensures forall i :: 0 <= i < |s| ==> key(s[i]) in r
    ensures forall j :: 0 <= j < |r| ==> exists i :: 0 <= i < |s| && key(s[i]) == r[j]
  {
    var ks := KeysOf(s, key);
    var d := Distinct(ks);
    assert forall i :: 0 <= i < |s| ==> ks[i] == key(s[i]);
    d
  }

  /** The sum of the group totals of the listed keys. */
  function TotalOverGroups<T, K(==)>(s: seq<T>, key: T -> K, ks: seq<K>, v: T -> real): real
    decreases |ks|
  {
    if |ks| == 0 then 0.0 else TotalOverGroups(s, key, ks[..|ks| - 1], v) + GroupTotal(s, key, ks[|ks| - 1], v)
  }

  lemma {:induction false} TotalAppend<T>(s: seq<T>, t: seq<T>, v: T -> real)
    ensures Total(s + t, v) == Total(s, v) + Total(t, v)
    decreases |t|
  {
    if |t| == 0 {
      assert s + t == s;
    } else {
      assert (s + t)[..|s + t| - 1] == s + t[..|t| - 1];
      TotalAppend(s, t[..|t| - 1], v);
    }
  }

  lemma {:induction false} TotalNonNegative<T>(s: seq<T>, v: T -> real)
    requires forall i :: 0 <= i < |s| ==> v(s[i]) >= 0.0
    ensures Total(s, v) >= 0.0
    decreases |s|
  {
    if |s| > 0 {
      TotalNonNegative(s[..|s| - 1], v);
    }
  }

  /** Adding one row to the table adds its value to the total over any
      list of distinct groups that contains its key, and nothing otherwise. */
  lemma {:induction false} TotalOverGroupsSnoc<T, K>(s: seq<T>, x: T, key: T -> K, ks: seq<K>, v: T -> real)
    requires NoDup(ks)
    ensures TotalOverGroups(s + [x], key, ks, v)
         == TotalOverGroups(s, key, ks, v) + (if key(x) in ks then v(x) else 0.0)
    decreases |ks|
  {
    if |ks| > 0 {
      var init := ks[..|ks| - 1];
      assert NoDup(init);
      TotalOverGroupsSnoc(s, x, key, init, v);
      assert (s + [x])[..|s + [x]| - 1] == s;
      assert key(x) in ks <==> key(x) in init || key(x) == ks[|ks| - 1];
      assert key(x) == ks[|ks| - 1] ==> key(x) !in init;
    }
  }

  /** Group-by sums lose and double-count nothing: summed over distinct
      groups that cover every row, they add up to the column total. */
  lemma {:induction false} GroupTotalsPartition<T, K>(s: seq<T>, key: T -> K, ks: seq<K>, v: T -> real)
    requires NoDup(ks)
    requires forall i :: 0 <= i < |s| ==> key(s[i]) in ks
    ensures TotalOverGroups(s, key, ks, v) == Total(s, v)
    decreases |s|
  {
    if |s| == 0 {
      EmptyGroups(key, ks, v);
    } else {
      var init := s[..|s| - 1];
      GroupTotalsPartition(init, key, ks, v);
      TotalOverGroupsSnoc(init, s[|s| - 1], key, ks, v);
      assert init + [s[|s| - 1]] == s;
    }
  }

  lemma {:induction false} EmptyGroups<T, K>(key: T -> K, ks: seq<K>, v: T -> real)
    ensures TotalOverGroups([], key, ks, v) == 0.0
    decreases |ks|
  {
    if |ks| > 0 {
      EmptyGroups(key, ks[..|ks| - 1], v);
    }
  }

  /** A group no row belongs to sums to zero. */
  lemma {:induction false} AbsentGroupTotal<T, K>(s: seq<T>, key: T -> K, k: K, v: T -> real)
    requires forall i :: 0 <= i < |s| ==> key(s[i]) != k
    ensures GroupTotal(s, key, k, v) == 0.0
    decreases |s|
  {
    if |s| > 0 {
      AbsentGroupTotal(s[..|s| - 1], key, k, v);
    }
  }
}
