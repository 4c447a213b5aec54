/** The list operation the hook registries rely on: `list.remove`, which drops the first
    element equal to its argument (and raises `ValueError` when there is none; callers check
    membership first and model that error themselves). */
module Lists {

  /** Position of the first occurrence of `x` in `s` (Python's `list.index`). */
  function IndexOf<T(==)>(s: seq<T>, x: T): (i: nat)
    requires x in s
    ensures i < |s| && s[i] == x
    ensures x !in s[..i]
  {
    if s[0] == x then 0
    else
      var j := IndexOf(s[1..], x);
      assert s[..j + 1] == [s[0]] + s[1..][..j];
      j + 1
  }

  /** `s.remove(x)` for a list that holds `x`: the first occurrence is cut out and every other
      element keeps its place relative to the rest. */
  function RemoveFirst<T(==)>(s: seq<T>, x: T): (r: seq<T>)
    requires x in s
    ensures |r| == |s| - 1
    ensures r == s[..IndexOf(s, x)] + s[IndexOf(s, x) + 1..]
  {
    if s[0] == x then s[1..]
    else
      var rest := RemoveFirst(s[1..], x);
      assert s[1..][..IndexOf(s[1..], x)] == s[1..IndexOf(s, x)];
      [s[0]] + rest
  }

  /** Removing `x` takes exactly one copy of `x` out of the list and nothing else. */
  lemma {:induction false} RemoveFirstMultiset<T>(s: seq<T>, x: T)
    requires x in s
    ensures multiset(RemoveFirst(s, x)) == multiset(s) - multiset{x}
  {
    var i := IndexOf(s, x);
    assert s == s[..i] + [x] + s[i + 1..];
    calc {
      multiset(s);
      multiset(s[..i]) + multiset{x} + multiset(s[i + 1..]);
      multiset(s[..i] + s[i + 1..]) + multiset{x};
      multiset(RemoveFirst(s, x)) + multiset{x};
    }
  }

  /** Every other element is still there, and `x` itself is gone when it occurred once. */
  lemma RemoveFirstMembership<T>(s: seq<T>, x: T, y: T)
    requires x in s
    ensures y != x ==> (y in RemoveFirst(s, x) <==> y in s)
    ensures y == x ==> (y in RemoveFirst(s, x) <==> multiset(s)[x] > 1)
  {
    RemoveFirstMultiset(s, x);
    assert y in RemoveFirst(s, x) <==> y in multiset(RemoveFirst(s, x));
    assert y in s <==> y in multiset(s);
  }

  /** No element occurs twice. */
  predicate Distinct<T(==)>(s: seq<T>)
  {
    forall i, j :: 0 <= i < j < |s| ==> s[i] != s[j]
  }

  /** `[y for y in s if y not in gone]`: the elements outside `gone`, in their order. */
  function Without<T(==)>(s: seq<T>, gone: set<T>): (r: seq<T>)
  {
    if |s| == 0 then [] else (if s[0] in gone then [] else [s[0]]) + Without(s[1..], gone)
  }

  /** The filtered list holds exactly the elements of the list that are outside `gone`. */
  lemma {:induction false} WithoutMembers<T>(s: seq<T>, gone: set<T>, y: T)
    ensures y in Without(s, gone) <==> y in s && y !in gone
  {
    if |s| > 0 {
      WithoutMembers(s[1..], gone, y);
      assert y in s <==> y == s[0] || y in s[1..];
    }
  }

  /** Filtering a concatenation filters each part. */
  lemma {:induction false} WithoutAppend<T>(a: seq<T>, b: seq<T>, gone: set<T>)
    ensures Without(a + b, gone) == Without(a, gone) + Without(b, gone)
  {
    if |a| == 0 {
      assert a + b == b;
    } else {
      assert (a + b)[1..] == a[1..] + b;
      WithoutAppend(a[1..], b, gone);
    }
  }

  /** Filtering out elements the list does not hold changes nothing. */
  lemma {:induction false} WithoutNothing<T>(s: seq<T>, gone: set<T>)
    requires forall y :: y in s ==> y !in gone
    ensures Without(s, gone) == s
  {
    if |s| > 0 {
      WithoutNothing(s[1..], gone);
    }
  }

  /** Filtering twice is filtering once by both sets. */
  lemma {:induction false} WithoutTwice<T>(s: seq<T>, a: set<T>, b: set<T>)
    ensures Without(Without(s, a), b) == Without(s, a + b)
  {
    if |s| > 0 {
      var head := if s[0] in a then [] else [s[0]];
      WithoutAppend(head, Without(s[1..], a), b);
      WithoutTwice(s[1..], a, b);
    }
  }

  /** A filtered list without repetitions has none either. */
  lemma {:induction false} WithoutDistinct<T>(s: seq<T>, gone: set<T>)
    requires Distinct(s)
    ensures Distinct(Without(s, gone))
  {
    if |s| > 0 {
      assert Distinct(s[1..]) by {
        forall i, j | 0 <= i < j < |s[1..]|
          ensures s[1..][i] != s[1..][j]
        {
          assert s[1..][i] == s[i + 1] && s[1..][j] == s[j + 1];
        }
      }
      WithoutDistinct(s[1..], gone);
      var rest := Without(s[1..], gone);
      WithoutMembers(s[1..], gone, s[0]);
      if s[0] !in gone {
        assert s[0] !in s[1..] by {
          forall k | 0 <= k < |s[1..]|
            ensures s[1..][k] != s[0]
          {
            assert s[1..][k] == s[k + 1];
          }
        }
        forall i, j | 0 <= i < j < |[s[0]] + rest|
          ensures ([s[0]] + rest)[i] != ([s[0]] + rest)[j]
        {
          if i == 0 {
            assert ([s[0]] + rest)[j] == rest[j - 1];
          } else {
            assert ([s[0]] + rest)[i] == rest[i - 1] && ([s[0]] + rest)[j] == rest[j - 1];
          }
        }
      } else {
        assert Without(s, gone) == rest;
      }
    }
  }

  /** Filtering out an element that occurs once cuts out that occurrence. */
  lemma {:induction false} WithoutOnce<T>(front: seq<T>, x: T, back: seq<T>)
    requires x !in front && x !in back
    ensures Without(front + [x] + back, {x}) == front + back
  {
    var one: seq<T> := [x];
    assert Without(one, {x}) == [] by {
      assert one[1..] == [];
    }
    assert Without(front + one, {x}) == front by {
      WithoutNothing(front, {x});
      WithoutAppend(front, one, {x});
    }
    assert Without(back, {x}) == back by {
      WithoutNothing(back, {x});
    }
    WithoutAppend(front + one, back, {x});
  }

  /** In a list without repetitions, removing the first `x` is filtering `x` out. */
  lemma {:induction false} RemoveFirstWithout<T>(s: seq<T>, x: T)
    requires Distinct(s) && x in s
    ensures RemoveFirst(s, x) == Without(s, {x})
  {
    var i := IndexOf(s, x);
    assert s == s[..i] + [x] + s[i + 1..];
    var back := s[i + 1..];
    assert x !in back by {
      forall k | 0 <= k < |back|
        ensures back[k] != x
      {
        assert back[k] == s[i + 1 + k];
      }
    }
    WithoutOnce(s[..i], x, s[i + 1..]);
  }
}
