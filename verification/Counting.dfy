/** Counting and summing over sequences, and summing the values of a map. */
module Counting {
  function Count<T>(s: seq<T>, p: T -> bool): (n: nat)
    ensures n <= |s|
  {
    if s == [] then 0 else Count(s[..|s| - 1], p) + (if p(s[|s| - 1]) then 1 else 0)
  }

  function Sum<T>(s: seq<T>, f: T -> nat): nat {
    if s == [] then 0 else Sum(s[..|s| - 1], f) + f(s[|s| - 1])
  }

  lemma {:induction false} CountUpdate<T>(s: seq<T>, i: nat, x: T, p: T -> bool)
    requires i < |s|
    ensures Count(s[i := x], p) == Count(s, p) - (if p(s[i]) then 1 else 0) + (if p(x) then 1 else 0)
  {
    var last := |s| - 1;
    if i < last {
      CountUpdate(s[..last], i, x, p);
      assert s[i := x][..last] == s[..last][i := x];
    } else {
      assert s[i := x][..last] == s[..last];
    }
  }

  lemma {:induction false} SumUpdate<T>(s: seq<T>, i: nat, x: T, f: T -> nat)
    requires i < |s|
    ensures Sum(s[i := x], f) == Sum(s, f) - f(s[i]) + f(x)
  {
    var last := |s| - 1;
    if i < last {
      SumUpdate(s[..last], i, x, f);
      assert s[i := x][..last] == s[..last][i := x];
    } else {
      assert s[i := x][..last] == s[..last];
    }
  }

  lemma CountAppend<T>(s: seq<T>, x: T, p: T -> bool)
    ensures Count(s + [x], p) == Count(s, p) + (if p(x) then 1 else 0)
  {
    assert (s + [x])[..|s|] == s;
  }

  lemma {:induction false} CountConcat<T>(s: seq<T>, t: seq<T>, p: T -> bool)
    ensures Count(s + t, p) == Count(s, p) + Count(t, p)
  {
    if t == [] {
      assert s + t == s;
    } else {
      var last := |t| - 1;
      CountConcat(s, t[..last], p);
      assert (s + t)[..|s + t| - 1] == s + t[..last];
    }
  }

  lemma CountInThree<T>(s: seq<T>, lo: nat, hi: nat, p: T -> bool)
    requires lo <= hi <= |s|
    ensures Count(s, p) == Count(s[..lo], p) + Count(s[lo..hi], p) + Count(s[hi..], p)
  {
    assert s[lo..] == s[lo..hi] + s[hi..];
    CountConcat(s[lo..hi], s[hi..], p);
    assert s == s[..lo] + s[lo..];
    CountConcat(s[..lo], s[lo..], p);
  }

  lemma {:induction false} CountPositive<T>(s: seq<T>, p: T -> bool)
    ensures Count(s, p) > 0 <==> exists i | 0 <= i < |s| :: p(s[i])
  {
    if s != [] {
      var last := |s| - 1;
      CountPositive(s[..last], p);
      if i :| 0 <= i < |s| && p(s[i]) {
        assert i == last || p(s[..last][i]);
      }
      if i :| 0 <= i < last && p(s[..last][i]) {
        assert p(s[i]);
      }
    }
  }

  /** Two sequences that agree position by position on what is counted. */
  lemma {:induction false} CountAlike<T, U>(s: seq<T>, p: T -> bool, t: seq<U>, q: U -> bool)
    requires |s| == |t| && forall i | 0 <= i < |s| :: p(s[i]) == q(t[i])
    ensures Count(s, p) == Count(t, q)
  {
    if s != [] {
      CountAlike(s[..|s| - 1], p, t[..|s| - 1], q);
    }
  }

  /** The keys of the counted elements. */
  function KeysOf<T>(s: seq<T>, p: T -> bool, key: seq<nat>): set<nat>
    requires |key| == |s|
  {
    set i | 0 <= i < |s| && p(s[i]) :: key[i]
  }

  function Window(from: nat, width: nat): (w: set<nat>)
    ensures |w| == width
    ensures forall k :: k in w <==> from <= k < from + width
  {
    if width == 0 then {} else Window(from, width - 1) + {from + width - 1}
  }

  /** If the counted elements have distinct keys, there are as many as keys. */
  lemma {:induction false} CountIsKeys<T>(s: seq<T>, p: T -> bool, key: seq<nat>)
    requires |key| == |s| && forall i, j | 0 <= i < j < |s| && p(s[i]) && p(s[j]) :: key[i] != key[j]
    ensures Count(s, p) == |KeysOf(s, p, key)|
  {
    if s == [] {
      assert KeysOf(s, p, key) == {};
    } else {
      var last := |s| - 1;
      var earlier := KeysOf(s[..last], p, key[..last]);
      CountIsKeys(s[..last], p, key[..last]);
      KeysNext(s, p, key);
      assert p(s[last]) ==> key[last] !in earlier;
    }
  }

  lemma KeysNext<T>(s: seq<T>, p: T -> bool, key: seq<nat>)
    requires |key| == |s| && s != []
    ensures var last := |s| - 1;
            KeysOf(s, p, key) == KeysOf(s[..last], p, key[..last]) + if p(s[last]) then {key[last]} else {}
  {
    var last := |s| - 1;
    assert forall i | 0 <= i < last :: s[..last][i] == s[i] && key[..last][i] == key[i];
  }

  lemma SubsetIsNoLarger(small: set<nat>, large: set<nat>)
    requires small <= large
    ensures |small| <= |large|
  {
    assert large == small + (large - small);
  }

  /** If besides their keys lie in a window, there are at most as many as the window is wide. */
  lemma CountDistinct<T>(s: seq<T>, p: T -> bool, key: seq<nat>, from: nat, width: nat)
    requires |key| == |s| && forall i, j | 0 <= i < j < |s| && p(s[i]) && p(s[j]) :: key[i] != key[j]
    requires forall i | 0 <= i < |s| && p(s[i]) :: from <= key[i] < from + width
    ensures Count(s, p) <= width
  {
    CountIsKeys(s, p, key);
    SubsetIsNoLarger(KeysOf(s, p, key), Window(from, width));
  }

  ghost function MapTotal<K>(m: map<K, nat>): nat {
    if m == map[] then 0 else
    var k :| k in m;
    m[k] + MapTotal(m - {k})
  }

  lemma {:induction false} MapTotalRemove<K>(m: map<K, nat>, k: K)
    requires k in m
    ensures MapTotal(m) == m[k] + MapTotal(m - {k})
  {
    var first: K :| first in m && MapTotal(m) == m[first] + MapTotal(m - {first});
    if first != k {
      MapTotalRemove(m - {first}, k);
      MapTotalRemove(m - {k}, first);
      assert m - {first} - {k} == m - {k} - {first};
    }
  }

  lemma MapTotalUpdate<K>(m: map<K, nat>, k: K, n: nat)
    ensures MapTotal(m[k := n]) == MapTotal(m) - (if k in m then m[k] else 0) + n
  {
    MapTotalRemove(m[k := n], k);
    assert m[k := n] - {k} == m - {k};
    if k in m {
      MapTotalRemove(m, k);
    } else {
      assert m - {k} == m;
    }
  }
}
