/** The array idioms the handlers share: `filter(y => y !== x)`, the
    "includes ? filter : append" toggle, `filter((_, i) => i !== k)` and the
    order-keeping de-duplication of `Array.from(new Set(xs))`. */
module Lists {

  predicate NoDup<T(==,!new)>(s: seq<T>)
  {
    forall i, j :: 0 <= i < j < |s| ==> s[i] != s[j]
  }

  /** `s.filter(p)`: the elements satisfying `p`, in their original order. */
  function Filter<T(!new)>(s: seq<T>, p: T -> bool): (r: seq<T>)
    ensures forall x :: x in r <==> x in s && p(x)
    ensures |r| <= |s|
    ensures (forall i :: 0 <= i < |s| ==> p(s[i])) ==> r == s
  {
    if s == [] then []
    else
      var rest := Filter(s[1..], p);
      assert s == [s[0]] + s[1..];
      if p(s[0]) then [s[0]] + rest else rest
  }

  /** Filtering keeps every occurrence of a satisfying element and drops all others. */
  lemma {:induction false} FilterCount<T(!new)>(s: seq<T>, p: T -> bool)
    ensures forall x :: multiset(Filter(s, p))[x] == if p(x) then multiset(s)[x] else 0
  {
    if s != [] {
      FilterCount(s[1..], p);
      assert s == [s[0]] + s[1..];
    }
  }

  lemma {:induction false} FilterAppend<T(!new)>(s: seq<T>, t: seq<T>, p: T -> bool)
    ensures Filter(s + t, p) == Filter(s, p) + Filter(t, p)
  {
    if s == [] {
      assert s + t == t;
    } else {
      var u := s + t;
      assert u[0] == s[0] && u[1..] == s[1..] + t;
      FilterAppend(s[1..], t, p);
      if p(s[0]) {
        calc {
          Filter(u, p);
          [s[0]] + Filter(s[1..] + t, p);
          [s[0]] + (Filter(s[1..], p) + Filter(t, p));
          ([s[0]] + Filter(s[1..], p)) + Filter(t, p);
        }
      }
    }
  }

  lemma {:induction false} FilterKeepsNoDup<T(!new)>(s: seq<T>, p: T -> bool)
    requires NoDup(s)
    ensures NoDup(Filter(s, p))
  {
    if s != [] {
      assert NoDup(s[1..]);
      FilterKeepsNoDup(s[1..], p);
      assert s[0] !in s[1..];
    }
  }

  /** Filtering drops at least the elements that fail the test. */
  lemma {:induction false} FilterDropsFailing<T(!new)>(s: seq<T>, p: T -> bool, k: nat)
    requires k < |s| && !p(s[k])
    ensures |Filter(s, p)| < |s|
  {
    if k > 0 {
      assert s[1..][k - 1] == s[k];
      FilterDropsFailing(s[1..], p, k - 1);
    }
  }

  /** `s.filter(y => y !== x)` */
  function RemoveAll<T(==,!new)>(s: seq<T>, x: T): (r: seq<T>)
    ensures forall y :: y in r <==> y in s && y != x
    ensures |r| <= |s|
    ensures x !in s ==> r == s
    ensures multiset(r) == multiset(s)[x := 0]
  {
    var r := Filter(s, (y: T) => y != x);
    FilterCount(s, (y: T) => y != x);
    assert multiset(r) == multiset(s)[x := 0] by {
      forall y ensures multiset(r)[y] == multiset(s)[x := 0][y] { }
    }
    r
  }

  lemma RemoveAllAppend<T(!new)>(s: seq<T>, t: seq<T>, x: T)
    ensures RemoveAll(s + t, x) == RemoveAll(s, x) + RemoveAll(t, x)
  {
    FilterAppend(s, t, (y: T) => y != x);
  }

  /** `s.findIndex(p)`: the first index whose element satisfies `p`, or -1. */
  function FindIndex<T>(s: seq<T>, p: T -> bool): (r: int)
    ensures -1 <= r < |s|
    ensures r >= 0 ==> p(s[r]) && forall j :: 0 <= j < r ==> !p(s[j])
    ensures r == -1 <==> forall j :: 0 <= j < |s| ==> !p(s[j])
  {
    if s == [] then -1
    else if p(s[0]) then 0
    else
      var k := FindIndex(s[1..], p);
      if k == -1 then -1 else k + 1
  }

  /** Searching a concatenation searches the first part, then the second. */
  lemma {:induction false} FindIndexConcat<T>(a: seq<T>, b: seq<T>, p: T -> bool)
    ensures FindIndex(a + b, p) ==
      if FindIndex(a, p) >= 0 then FindIndex(a, p)
      else if FindIndex(b, p) >= 0 then |a| + FindIndex(b, p)
      else -1
  {
    var k := FindIndex(a + b, p);
    var ka := FindIndex(a, p);
    var kb := FindIndex(b, p);
    if ka >= 0 {
      assert (a + b)[ka] == a[ka];
      assert forall j :: 0 <= j < ka ==> (a + b)[j] == a[j];
    } else if kb >= 0 {
      assert (a + b)[|a| + kb] == b[kb];
      assert forall j :: 0 <= j < |a| ==> (a + b)[j] == a[j];
      assert forall j :: |a| <= j < |a| + kb ==> (a + b)[j] == b[j - |a|];
    } else {
      forall j | 0 <= j < |a + b| ensures !p((a + b)[j]) {
        if j < |a| { assert (a + b)[j] == a[j]; } else { assert (a + b)[j] == b[j - |a|]; }
      }
    }
  }

  /** `s.includes(x) ? s.filter(y => y !== x) : [...s, x]` */
  function Toggle<T(==,!new)>(s: seq<T>, x: T): (r: seq<T>)
    ensures x in r <==> x !in s
    ensures forall y :: y != x ==> (y in r <==> y in s)
    ensures x !in s ==> r == s + [x]
    ensures x in s ==> multiset(r) == multiset(s)[x := 0]
  {
    if x in s then RemoveAll(s, x) else s + [x]
  }

  /** Toggling keeps a duplicate-free list duplicate-free. */
  lemma ToggleKeepsNoDup<T(!new)>(s: seq<T>, x: T)
    requires NoDup(s)
    ensures NoDup(Toggle(s, x))
  {
    if x in s { FilterKeepsNoDup(s, (y: T) => y != x); }
  }

  /** Adding and then removing an element gives back the original list. */
  lemma ToggleTwiceAbsent<T(!new)>(s: seq<T>, x: T)
    requires x !in s
    ensures Toggle(Toggle(s, x), x) == s
  {
    RemoveAllAppend(s, [x], x);
    assert RemoveAll([x], x) == [];
  }

  /** Removing and then re-adding an element restores the membership of every element
      (the element comes back at the end, so the order need not be restored). */
  lemma ToggleTwicePresent<T(!new)>(s: seq<T>, x: T)
    requires x in s
    ensures forall y :: y in Toggle(Toggle(s, x), x) <==> y in s
    ensures Toggle(Toggle(s, x), x) == RemoveAll(s, x) + [x]
  {
  }

  /** Toggling twice can reorder the list: `[x, y]` becomes `[y, x]`. */
  lemma ToggleTwiceReorders<T(!new)>(x: T, y: T)
    requires x != y
    ensures Toggle(Toggle([x, y], x), x) == [y, x]
  {
    assert RemoveAll([x, y], x) == [y] by {
      assert [x, y][1..] == [y];
      assert RemoveAll([y], x) == [y];
    }
  }

  /** `s.filter((_, j) => j !== k)`: the list without index `k`. */
  function DeleteAt<T>(s: seq<T>, k: nat): (r: seq<T>)
    ensures k < |s| ==> |r| == |s| - 1 && multiset(r) == multiset(s) - multiset{s[k]}
    ensures k < |s| ==> forall j :: 0 <= j < |r| ==> r[j] == if j < k then s[j] else s[j + 1]
    ensures k >= |s| ==> r == s
  {
    if k < |s| then
      assert s == s[..k] + [s[k]] + s[k + 1..];
      s[..k] + s[k + 1..]
    else s
  }

  /** `Array.from(new Set(s))`: the first occurrence of each element, in order. */
  function Dedup<T(==,!new)>(s: seq<T>): (r: seq<T>)
    ensures forall y :: y in r <==> y in s
    ensures NoDup(r)
    ensures |r| <= |s|
  {
    if s == [] then []
    else
      var r := Dedup(s[..|s| - 1]);
      assert s == s[..|s| - 1] + [s[|s| - 1]];
      if s[|s| - 1] in r then r else r + [s[|s| - 1]]
  }

  /** A duplicate-free list is its own de-duplication. */
  lemma {:induction false} DedupOfNoDup<T(!new)>(s: seq<T>)
    requires NoDup(s)
    ensures Dedup(s) == s
  {
    if s != [] {
      var p := s[..|s| - 1];
      assert NoDup(p);
      DedupOfNoDup(p);
      assert s[|s| - 1] !in p;
      assert p + [s[|s| - 1]] == s;
    }
  }

  /** Appending elements that are already present adds nothing. */
  lemma {:induction false} DedupAppendPresent<T(!new)>(r: seq<T>, t: seq<T>)
    requires NoDup(r)
    requires forall y :: y in t ==> y in r
    ensures Dedup(r + t) == r
  {
    if t == [] {
      assert r + t == r;
      DedupOfNoDup(r);
    } else {
      var t' := t[..|t| - 1];
      assert (r + t)[..|r + t| - 1] == r + t';
      DedupAppendPresent(r, t');
    }
  }

  /** De-duplicating a longer list only appends: the result for a prefix is a prefix. */
  lemma {:induction false} DedupPrefix<T(!new)>(p: seq<T>, t: seq<T>)
    ensures |Dedup(p)| <= |Dedup(p + t)| && Dedup(p + t)[..|Dedup(p)|] == Dedup(p)
  {
    if t == [] {
      assert p + t == p;
    } else {
      var t' := t[..|t| - 1];
      assert (p + t)[..|p + t| - 1] == p + t';
      DedupPrefix(p, t');
    }
  }
}
