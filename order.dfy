/** The string order of Go's sort.Strings and the in-place sort the engine
    applies to dependency lists before attaching them to a resource. */
module Order {

  /** Go compares strings byte by byte; for UTF-8 that is the order of code
      points, so a lexicographic comparison of characters is the same order. */
  predicate Le(a: string, b: string)
    decreases |a|
  {
    |a| == 0 || (|b| > 0 && (a[0] < b[0] || (a[0] == b[0] && Le(a[1..], b[1..]))))
  }

  lemma {:induction false} LeTotal(a: string, b: string)
    ensures Le(a, b) || Le(b, a)
    decreases |a|
  {
    if |a| > 0 && |b| > 0 && a[0] == b[0] {
      LeTotal(a[1..], b[1..]);
    }
  }

  lemma {:induction false} LeTrans(a: string, b: string, c: string)
    requires Le(a, b) && Le(b, c)
    ensures Le(a, c)
    decreases |a|
  {
    if |a| > 0 && a[0] == b[0] && b[0] == c[0] {
      LeTrans(a[1..], b[1..], c[1..]);
    }
  }

  lemma {:induction false} LeAntisym(a: string, b: string)
    requires Le(a, b) && Le(b, a)
    ensures a == b
    decreases |a|
  {
    if |a| > 0 {
      LeAntisym(a[1..], b[1..]);
      assert a == [a[0]] + a[1..] && b == [b[0]] + b[1..];
    }
  }

  /** The element at k is at least the one before it. */
  predicate InOrder(s: seq<string>, k: nat)
    requires 0 < k < |s|
  {
    Le(s[k - 1], s[k])
  }

  /** Each element is at most its successor. */
  predicate Sorted(s: seq<string>)
  {
    forall k :: 0 < k < |s| ==> InOrder(s, k)
  }

  /** Dropping the first element keeps a sequence sorted. */
  lemma SortedTail(s: seq<string>)
    requires Sorted(s) && |s| > 0
    ensures Sorted(s[1..])
  {
    forall k | 0 < k < |s| - 1 ensures InOrder(s[1..], k) {
      assert InOrder(s, k + 1);
    }
  }

  /** In a sorted sequence every element is at most every later one. */
  lemma {:induction false} SortedFirstIsLeast(s: seq<string>, j: nat)
    requires Sorted(s) && j < |s|
    ensures Le(s[0], s[j])
    decreases j
  {
    if j == 0 {
      LeTotal(s[0], s[0]);
    } else {
      SortedFirstIsLeast(s, j - 1);
      assert InOrder(s, j);
      LeTrans(s[0], s[j - 1], s[j]);
    }
  }

  /** Two sorted sequences holding the same strings are the same sequence:
      sorting removes every trace of the order the input arrived in. */
  lemma {:induction false} SortedUnique(s: seq<string>, t: seq<string>)
    requires Sorted(s) && Sorted(t) && multiset(s) == multiset(t)
    ensures s == t
    decreases |s|
  {
    if |s| > 0 {
      assert |t| == |multiset(t)| == |multiset(s)| == |s|;
      assert s[0] in multiset(t);
      var j :| 0 <= j < |t| && t[j] == s[0];
      assert t[0] in multiset(s);
      var i :| 0 <= i < |s| && s[i] == t[0];
      SortedFirstIsLeast(t, j);
      SortedFirstIsLeast(s, i);
      LeAntisym(s[0], t[0]);
      assert s == [s[0]] + s[1..] && t == [t[0]] + t[1..];
      assert multiset(s) == multiset{s[0]} + multiset(s[1..]);
      assert multiset(t) == multiset{t[0]} + multiset(t[1..]);
      assert multiset(s[1..]) == multiset(s) - multiset{s[0]};
      assert multiset(t[1..]) == multiset(t) - multiset{t[0]};
      SortedTail(s);
      SortedTail(t);
      SortedUnique(s[1..], t[1..]);
    }
  }

  /** x is in m and no element of m is smaller. */
  ghost predicate IsLeast(x: string, m: multiset<string>)
  {
    x in m && forall y :: y in m ==> Le(x, y)
  }

  lemma {:induction false} LeastExists(m: multiset<string>)
    requires |m| > 0
    ensures exists x :: IsLeast(x, m)
    decreases |m|
  {
    var z :| z in m;
    var rest := m - multiset{z};
    assert m == rest + multiset{z};
    if |rest| == 0 {
      LeTotal(z, z);
      assert rest == multiset{};
      assert forall y :: y in m ==> y == z;
      assert IsLeast(z, m);
    } else {
      LeastExists(rest);
      var w :| IsLeast(w, rest);
      LeTotal(z, w);
      if Le(z, w) {
        forall y | y in m ensures Le(z, y) {
          if y == z { LeTotal(z, z); } else { assert y in rest; LeTrans(z, w, y); }
        }
        assert IsLeast(z, m);
      } else {
        forall y | y in m ensures Le(w, y) {
          if y != z { assert y in rest; }
        }
        assert IsLeast(w, m);
      }
    }
  }

  /** The sorted arrangement of a multiset of strings: the specification of
      every sort in the model. */
  ghost function SortedOf(m: multiset<string>): (r: seq<string>)
    ensures Sorted(r) && multiset(r) == m
    decreases |m|
  {
    if |m| == 0 then []
    else
      LeastExists(m);
      var x :| IsLeast(x, m);
      var rest := SortedOf(m - multiset{x});
      LeastBeforeSorted(x, m, rest);
      [x] + rest
  }

  lemma LeastBeforeSorted(x: string, m: multiset<string>, rest: seq<string>)
    requires IsLeast(x, m) && Sorted(rest) && multiset(rest) == m - multiset{x}
    ensures Sorted([x] + rest) && multiset([x] + rest) == m
  {
    var s := [x] + rest;
    forall k | 0 < k < |s| ensures InOrder(s, k) {
      if k == 1 {
        assert rest[0] in multiset(rest);
      } else {
        assert InOrder(rest, k - 1);
      }
    }
    assert multiset(s) == multiset{x} + multiset(rest);
  }

  /** A sorted sequence is the sorted arrangement of its own elements. */
  lemma SortedIsSortedOf(s: seq<string>)
    requires Sorted(s)
    ensures s == SortedOf(multiset(s))
  {
    SortedUnique(s, SortedOf(multiset(s)));
  }

  /** sort.Strings: an in-place insertion sort that swaps each new element down
      into the sorted prefix. */
  method SortInPlace(a: array<string>)
    modifies a
    ensures Sorted(a[..])
    ensures multiset(a[..]) == old(multiset(a[..]))
  {
    var i := 0;
    while i < a.Length
      invariant 0 <= i <= a.Length
      invariant forall k :: 0 < k < i ==> Le(a[k - 1], a[k])
      invariant multiset(a[..]) == old(multiset(a[..]))
    {
      var j := i;
      while j > 0 && !Le(a[j - 1], a[j])
        invariant 0 <= j <= i
        invariant forall k :: 0 < k <= i && k != j ==> Le(a[k - 1], a[k])
        invariant 0 < j < i ==> Le(a[j - 1], a[j + 1])
        invariant multiset(a[..]) == old(multiset(a[..]))
      {
        LeTotal(a[j - 1], a[j]);
        Swap(a, j - 1, j);
        j := j - 1;
      }
      i := i + 1;
    }
  }

  method Swap(a: array<string>, i: nat, j: nat)
    requires i < j < a.Length
    modifies a
    ensures a[i] == old(a[j]) && a[j] == old(a[i])
    ensures forall k :: 0 <= k < a.Length && k != i && k != j ==> a[k] == old(a[k])
    ensures multiset(a[..]) == old(multiset(a[..]))
  {
    a[i], a[j] := a[j], a[i];
  }

  /** Sorts a list the way the builders do: copy it into a fresh slice and
      sort that in place. The result is the sorted arrangement of the input. */
  method SortStrings(s: seq<string>) returns (r: seq<string>)
    ensures Sorted(r)
    ensures multiset(r) == multiset(s)
    ensures r == SortedOf(multiset(s))
  {
    var a := new string[|s|](k requires 0 <= k < |s| => s[k]);
    assert a[..] == s;
    SortInPlace(a);
    r := a[..];
    SortedIsSortedOf(r);
  }
}
