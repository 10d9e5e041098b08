/** Facts about sequences shared by every part of the model. */
module Sequences {

  predicate Distinct<T(==)>(s: seq<T>) {
    forall i, j :: 0 <= i < j < |s| ==> s[i] != s[j]
  }

  function Elements<T>(s: seq<T>): set<T> {
    set x | x in s
  }

  function RemoveAt<T>(s: seq<T>, i: nat): seq<T>
    requires i < |s|
  {
    s[..i] + s[i + 1..]
  }

  function Reverse<T>(s: seq<T>): (r: seq<T>)
    ensures |r| == |s|
    ensures forall i :: 0 <= i < |s| ==> r[i] == s[|s| - 1 - i]
  {
    if s == [] then [] else Reverse(s[1..]) + [s[0]]
  }

  /** The elements of `s` outside `gone`, in order. */
  function Without<T(==)>(s: seq<T>, gone: set<T>): seq<T> {
    if s == [] then []
    else (if s[0] in gone then [] else [s[0]]) + Without(s[1..], gone)
  }

  /** The elements of `s` inside `kept`, in order. */
  function Only<T(==)>(s: seq<T>, kept: set<T>): seq<T> {
    if s == [] then []
    else (if s[0] in kept then [s[0]] else []) + Only(s[1..], kept)
  }

  lemma {:induction false} WithoutMembers<T>(s: seq<T>, gone: set<T>)
    ensures forall x :: x in Without(s, gone) <==> x in s && x !in gone
  {
    if s != [] {
      WithoutMembers(s[1..], gone);
    }
  }

  lemma {:induction false} ElementsWithout<T>(s: seq<T>, gone: set<T>)
    ensures Elements(Without(s, gone)) == Elements(s) - gone
  {
    if s != [] {
      ElementsWithout(s[1..], gone);
      ElementsConcat([s[0]], s[1..]);
      ElementsConcat(if s[0] in gone then [] else [s[0]], Without(s[1..], gone));
      assert s == [s[0]] + s[1..];
      assert Elements([s[0]]) == {s[0]};
    }
  }

  lemma {:induction false} ElementsOnly<T>(s: seq<T>, kept: set<T>)
    ensures Elements(Only(s, kept)) == Elements(s) * kept
  {
    if s != [] {
      ElementsOnly(s[1..], kept);
      ElementsConcat([s[0]], s[1..]);
      ElementsConcat(if s[0] in kept then [s[0]] else [], Only(s[1..], kept));
      assert s == [s[0]] + s[1..];
      assert Elements([s[0]]) == {s[0]};
    }
  }

  lemma ElementsOfOne<T>(x: T)
    ensures Elements([x]) == {x}
  {
  }

  lemma ElementsAre<T>(s: seq<T>)
    ensures forall x :: x in Elements(s) <==> x in s
  {
  }

  lemma ElementsConcat<T>(a: seq<T>, b: seq<T>)
    ensures Elements(a + b) == Elements(a) + Elements(b)
  {
  }

  lemma {:induction false} OnlyMembers<T>(s: seq<T>, kept: set<T>)
    ensures forall x :: x in Only(s, kept) <==> x in s && x in kept
  {
    if s != [] {
      OnlyMembers(s[1..], kept);
    }
  }

  lemma ReverseSnoc<T>(s: seq<T>, x: T)
    ensures Reverse(s + [x]) == [x] + Reverse(s)
  {
  }

  lemma WithoutFirst<T>(s: seq<T>, gone: set<T>)
    requires s != []
    ensures Without(s, gone) == (if s[0] in gone then [] else [s[0]]) + Without(s[1..], gone)
  {
  }

  lemma OnlyFirst<T>(s: seq<T>, kept: set<T>)
    requires s != []
    ensures Only(s, kept) == (if s[0] in kept then [s[0]] else []) + Only(s[1..], kept)
  {
  }

  lemma WithoutOne<T>(x: T, gone: set<T>)
    ensures Without([x], gone) == if x in gone then [] else [x]
  {
  }

  lemma OnlyOne<T>(x: T, kept: set<T>)
    ensures Only([x], kept) == if x in kept then [x] else []
  {
  }

  lemma {:induction false} WithoutConcat<T>(a: seq<T>, b: seq<T>, gone: set<T>)
    ensures Without(a + b, gone) == Without(a, gone) + Without(b, gone)
  {
    if a == [] {
      assert a + b == b;
    } else {
      WithoutFirst(a, gone);
      WithoutFirst(a + b, gone);
      hide Without;
      assert (a + b)[1..] == a[1..] + b;
      WithoutConcat(a[1..], b, gone);
    }
  }

  lemma {:induction false} OnlyConcat<T>(a: seq<T>, b: seq<T>, kept: set<T>)
    ensures Only(a + b, kept) == Only(a, kept) + Only(b, kept)
  {
    if a == [] {
      assert a + b == b;
    } else {
      OnlyFirst(a, kept);
      OnlyFirst(a + b, kept);
      hide Only;
      assert (a + b)[1..] == a[1..] + b;
      OnlyConcat(a[1..], b, kept);
    }
  }

  lemma {:induction false} WithoutShrinks<T>(s: seq<T>, gone: set<T>)
    ensures |Without(s, gone)| <= |s|
  {
    if s != [] {
      WithoutShrinks(s[1..], gone);
    }
  }

  lemma {:induction false} WithoutAbsent<T>(s: seq<T>, gone: set<T>)
    requires forall x :: x in s ==> x !in gone
    ensures Without(s, gone) == s
  {
    if s != [] {
      WithoutAbsent(s[1..], gone);
    }
  }

  lemma {:induction false} OnlyAll<T>(s: seq<T>, kept: set<T>)
    requires forall x :: x in s ==> x in kept
    ensures Only(s, kept) == s
  {
    if s != [] {
      OnlyAll(s[1..], kept);
    }
  }

  /** Elements that stay keep their order. */
  lemma {:induction false} WithoutKeepsOrder<T>(s: seq<T>, gone: set<T>, i: nat, j: nat)
    requires i < j < |Without(s, gone)|
    ensures exists k, l :: 0 <= k < l < |s| && s[k] == Without(s, gone)[i] && s[l] == Without(s, gone)[j]
  {
    var rest := Without(s[1..], gone);
    WithoutFirst(s, gone);
    ElementsWithout(s[1..], gone);
    hide Without;
    if s[0] in gone {
      assert Without(s, gone) == rest;
      WithoutKeepsOrder(s[1..], gone, i, j);
      var k, l :| 0 <= k < l < |s[1..]| && s[1..][k] == rest[i] && s[1..][l] == rest[j];
      assert s[k + 1] == rest[i] && s[l + 1] == rest[j];
    } else if i == 0 {
      assert rest[j - 1] in Elements(rest);
      var l :| 0 <= l < |s[1..]| && s[1..][l] == rest[j - 1];
      assert s[0] == Without(s, gone)[i] && s[l + 1] == Without(s, gone)[j];
    } else {
      WithoutKeepsOrder(s[1..], gone, i - 1, j - 1);
      var k, l :| 0 <= k < l < |s[1..]| && s[1..][k] == rest[i - 1] && s[1..][l] == rest[j - 1];
      assert s[k + 1] == Without(s, gone)[i] && s[l + 1] == Without(s, gone)[j];
    }
  }

  /** Two removals in a row are one removal of both sets. */
  lemma {:induction false} WithoutTwice<T>(s: seq<T>, g: set<T>, h: set<T>)
    ensures Without(Without(s, g), h) == Without(s, g + h)
  {
    if s != [] {
      WithoutConcat(if s[0] in g then [] else [s[0]], Without(s[1..], g), h);
      WithoutTwice(s[1..], g, h);
    }
  }

  /** Only the part of `gone` that meets `s` matters. */
  lemma {:induction false} WithoutSame<T>(s: seq<T>, g: set<T>, h: set<T>)
    requires forall x :: x in s ==> (x in g <==> x in h)
    ensures Without(s, g) == Without(s, h)
  {
    if s != [] {
      WithoutSame(s[1..], g, h);
    }
  }

  lemma {:induction false} OnlySame<T>(s: seq<T>, g: set<T>, h: set<T>)
    requires forall x :: x in s ==> (x in g <==> x in h)
    ensures Only(s, g) == Only(s, h)
  {
    if s != [] {
      OnlySame(s[1..], g, h);
    }
  }

  /** A new last element joins the kept ones. */
  lemma SnocKept<T>(s: seq<T>, x: T, g: set<T>)
    requires x !in s
    ensures Only(s + [x], g + {x}) == Only(s, g) + [x]
    ensures Without(s + [x], g + {x}) == Without(s, g)
  {
    OnlyConcat(s, [x], g + {x});
    WithoutConcat(s, [x], g + {x});
    OnlySame(s, g, g + {x});
    WithoutSame(s, g, g + {x});
    WithoutOne(x, g + {x});
  }

  lemma {:induction false} DistinctWithout<T>(s: seq<T>, gone: set<T>)
    requires Distinct(s)
    ensures Distinct(Without(s, gone))
  {
    if s != [] {
      assert Distinct(s[1..]);
      DistinctWithout(s[1..], gone);
      WithoutMembers(s[1..], gone);
    }
  }

  lemma WithoutMiddle<T>(a: seq<T>, x: T, b: seq<T>)
    requires x !in a && x !in b
    ensures Without(a + [x] + b, {x}) == a + b
  {
    hide Without;
    WithoutConcat(a + [x], b, {x});
    WithoutConcat(a, [x], {x});
    WithoutOne(x, {x});
    WithoutAbsent(a, {x});
    WithoutAbsent(b, {x});
  }

  lemma WithoutAt<T>(s: seq<T>, i: nat)
    requires Distinct(s) && i < |s|
    ensures Without(s, {s[i]}) == RemoveAt(s, i)
  {
    hide Without;
    var a, b, x := s[..i], s[i + 1..], s[i];
    assert x !in a && x !in b;
    assert s == a + [x] + b;
    WithoutMiddle(a, x, b);
  }

  /** Taking out position `i` of a duplicate-free sequence removes exactly that element. */
  lemma RemoveAtIsWithout<T>(s: seq<T>, i: nat)
    requires Distinct(s) && i < |s|
    ensures Without(s, {s[i]}) == RemoveAt(s, i)
    ensures Distinct(RemoveAt(s, i))
    ensures forall x :: x in RemoveAt(s, i) <==> x in s && x != s[i]
  {
    hide Without, RemoveAt, Distinct;
    WithoutAt(s, i);
    DistinctWithout(s, {s[i]});
    WithoutMembers(s, {s[i]});
  }

  lemma RemoveAtLength<T>(s: seq<T>, i: nat)
    requires i < |s|
    ensures |RemoveAt(s, i)| == |s| - 1
  {
  }

  /** The first `k` elements after taking out position `i`. */
  lemma PrefixOfRemoveAt<T>(s: seq<T>, i: nat, k: nat)
    requires i < |s| && k <= |s|
    ensures i < k ==> RemoveAt(s, i)[..k - 1] == RemoveAt(s[..k], i) && s[..k][i] == s[i]
    ensures k <= i ==> RemoveAt(s, i)[..k] == s[..k]
  {
  }

  lemma DistinctPrefix<T>(s: seq<T>, k: nat)
    requires Distinct(s) && k <= |s|
    ensures Distinct(s[..k])
    ensures forall i :: k <= i < |s| ==> s[i] !in s[..k]
  {
  }

  lemma DistinctConcat<T>(a: seq<T>, b: seq<T>)
    requires Distinct(a) && Distinct(b)
    requires forall x :: x in a ==> x !in b
    ensures Distinct(a + b)
  {
    var s := a + b;
    forall i, j | 0 <= i < j < |s| ensures s[i] != s[j] {
      if i < |a| <= j {
        assert s[i] in a && s[j] == b[j - |a|];
      }
    }
  }

  lemma DistinctParts<T>(a: seq<T>, b: seq<T>)
    requires Distinct(a + b)
    ensures Distinct(a) && Distinct(b)
    ensures forall x :: x in a ==> x !in b
  {
    assert forall i :: 0 <= i < |a| ==> (a + b)[i] == a[i];
    assert forall j :: 0 <= j < |b| ==> (a + b)[|a| + j] == b[j];
  }

  lemma ReverseMembers<T>(s: seq<T>)
    ensures forall x :: x in Reverse(s) ==> x in s
  {
    forall x | x in Reverse(s) ensures x in s {
      var i :| 0 <= i < |s| && Reverse(s)[i] == x;
      assert x == s[|s| - 1 - i];
    }
  }

  lemma DistinctReverse<T>(s: seq<T>)
    requires Distinct(s)
    ensures Distinct(Reverse(s))
    ensures Elements(Reverse(s)) == Elements(s)
  {
    var r := Reverse(s);
    assert forall x :: x in s ==> x in r by {
      forall i | 0 <= i < |s| ensures s[i] in r {
        assert r[|s| - 1 - i] == s[i];
      }
    }
  }

  // ----- Multisets -----

  lemma CountTwice<T>(t: seq<T>, i: nat, j: nat)
    requires i < j < |t|
    ensures t[i] == t[j] ==> multiset(t)[t[i]] >= 2
  {
    var tail := t[i + 1..];
    assert t == t[..i] + [t[i]] + tail;
    assert tail[j - i - 1] == t[j];
  }

  lemma {:induction false} DistinctCounts<T>(s: seq<T>, x: T)
    requires Distinct(s)
    ensures multiset(s)[x] <= 1
  {
    if s != [] {
      assert Distinct(s[1..]);
      DistinctCounts(s[1..], x);
      assert s == [s[0]] + s[1..];
    }
  }

  /** Rearranging keeps a sequence duplicate-free and keeps its elements. */
  lemma Rearranged<T>(s: seq<T>, t: seq<T>)
    requires multiset(s) == multiset(t)
    ensures Elements(s) == Elements(t)
    ensures Distinct(s) ==> Distinct(t)
  {
    forall x ensures x in s <==> x in t {
      assert x in multiset(s) <==> x in s;
      assert x in multiset(t) <==> x in t;
    }
    if Distinct(s) {
      forall i, j | 0 <= i < j < |t| ensures t[i] != t[j] {
        CountTwice(t, i, j);
        DistinctCounts(s, t[i]);
      }
    }
  }

  lemma {:induction false} FilterSplits<T>(s: seq<T>, g: set<T>)
    ensures multiset(Only(s, g)) + multiset(Without(s, g)) == multiset(s)
  {
    if s != [] {
      FilterSplits(s[1..], g);
      assert s == [s[0]] + s[1..];
    }
  }

  lemma SplitMoved<T>(a: seq<T>, moved: seq<T>, left: seq<T>, split: seq<T>, rest: seq<T>)
    requires multiset(moved) + multiset(left) == multiset(split)
    ensures multiset((a + moved) + (left + rest)) == multiset(a + (split + rest))
  {
  }

  lemma {:induction false} ReverseMultiset<T>(s: seq<T>)
    ensures multiset(Reverse(s)) == multiset(s)
  {
    if s != [] {
      ReverseMultiset(s[1..]);
      assert s == [s[0]] + s[1..];
    }
  }

  lemma RemoveAtMultiset<T>(t: seq<T>, i: nat)
    requires i < |t|
    ensures multiset(t) == multiset(RemoveAt(t, i)) + multiset{t[i]}
  {
    assert t == t[..i] + [t[i]] + t[i + 1..];
  }

  lemma WithoutRemoveAt<T>(t: seq<T>, i: nat, g: set<T>)
    requires i < |t|
    ensures multiset(Without(t, g))
            == multiset(Without(RemoveAt(t, i), g)) + (if t[i] in g then multiset{} else multiset{t[i]})
  {
    var a, b, x := t[..i], t[i + 1..], t[i];
    assert t == (a + [x]) + b;
    WithoutConcat(a + [x], b, g);
    WithoutConcat(a, [x], g);
    WithoutConcat(a, b, g);
    WithoutOne(x, g);
  }

  lemma {:induction false} WithoutMultiset<T>(s: seq<T>, t: seq<T>, g: set<T>)
    requires multiset(s) == multiset(t)
    ensures multiset(Without(s, g)) == multiset(Without(t, g))
    decreases |s|
  {
    if s == [] {
      assert |multiset(t)| == 0;
    } else {
      hide Without, RemoveAt;
      assert s[0] in multiset(t);
      var i :| 0 <= i < |t| && t[i] == s[0];
      RemoveAtMultiset(s, 0);
      RemoveAtMultiset(t, i);
      assert multiset(RemoveAt(s, 0)) == multiset(s) - multiset{s[0]};
      assert multiset(RemoveAt(t, i)) == multiset(t) - multiset{s[0]};
      assert |multiset(s)| == |multiset(RemoveAt(s, 0))| + 1;
      WithoutMultiset(RemoveAt(s, 0), RemoveAt(t, i), g);
      WithoutRemoveAt(s, 0, g);
      WithoutRemoveAt(t, i, g);
    }
  }

  lemma FirstElement<T>(t: seq<T>)
    ensures t != [] ==> t[0] in Elements(t)
  {
  }

  /** Two duplicate-free sequences of the same elements are rearrangements of each other. */
  lemma {:induction false} SameElements<T>(s: seq<T>, t: seq<T>)
    requires Distinct(s) && Distinct(t) && Elements(s) == Elements(t)
    ensures multiset(s) == multiset(t)
    decreases |s|
  {
    if s == [] {
      FirstElement(t);
    } else {
      assert s[0] in Elements(t);
      var i :| 0 <= i < |t| && t[i] == s[0];
      RemoveAtIsWithout(s, 0);
      RemoveAtIsWithout(t, i);
      ElementsRemoveAt(s, 0);
      ElementsRemoveAt(t, i);
      RemoveAtMultiset(s, 0);
      RemoveAtMultiset(t, i);
      hide Distinct, Elements;
      SameElements(RemoveAt(s, 0), RemoveAt(t, i));
    }
  }

  lemma ElementsRemoveAt<T>(t: seq<T>, i: nat)
    requires Distinct(t) && i < |t|
    ensures Elements(RemoveAt(t, i)) == Elements(t) - {t[i]}
  {
    RemoveAtIsWithout(t, i);
  }

  lemma {:induction false} DistinctOnly<T>(s: seq<T>, kept: set<T>)
    requires Distinct(s)
    ensures Distinct(Only(s, kept))
  {
    if s != [] {
      assert Distinct(s[1..]);
      DistinctOnly(s[1..], kept);
      OnlyMembers(s[1..], kept);
    }
  }

  /** Part of a duplicate-free sequence and the rest of it make up the whole. */
  lemma SplitByMembers<T>(s: seq<T>, part: seq<T>)
    requires Distinct(s) && Distinct(part) && (forall x :: x in part ==> x in s)
    ensures multiset(part) + multiset(Without(s, Elements(part))) == multiset(s)
  {
    var g := Elements(part);
    FilterSplits(s, g);
    DistinctOnly(s, g);
    OnlyMembers(s, g);
    assert Elements(Only(s, g)) == g;
    SameElements(Only(s, g), part);
  }
}
