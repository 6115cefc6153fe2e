/** Sorting by a comparison that may rank different elements alike: Go's sort.SliceStable and sort.Slice. */
module Sorting {
  import opened Values

  /** What both library sorts demand of `less`: a strict weak order. */
  ghost predicate WeakOrder<T(!new)>(less: (T, T) -> bool) {
    && (forall a, b :: less(a, b) ==> !less(b, a))
    && (forall a, b, c :: !less(b, a) && !less(c, b) ==> !less(c, a))
  }

  predicate Alike<T>(less: (T, T) -> bool, a: T, b: T) { !less(a, b) && !less(b, a) }

  ghost predicate Sorted<T>(less: (T, T) -> bool, s: seq<T>) {
    forall i, j :: 0 <= i < j < |s| ==> !less(s[j], s[i])
  }

  /** The elements of s that rank like x, in their order in s. */
  function Ranked<T>(less: (T, T) -> bool, s: seq<T>, x: T): seq<T> {
    if s == [] then [] else (if Alike(less, s[0], x) then [s[0]] else []) + Ranked(less, s[1..], x)
  }

  /** Two lists agree on every rank, order included. */
  ghost predicate SameRanks<T(!new)>(less: (T, T) -> bool, a: seq<T>, b: seq<T>) {
    forall x :: Ranked(less, a, x) == Ranked(less, b, x)
  }

  function Insert<T>(less: (T, T) -> bool, s: seq<T>, x: T): seq<T> {
    if s == [] then [x] else if less(x, s[0]) then [x] + s else [s[0]] + Insert(less, s[1..], x)
  }

  /** sort.SliceStable. */
  function StableSorted<T>(less: (T, T) -> bool, s: seq<T>): seq<T> {
    if s == [] then [] else Insert(less, StableSorted(less, s[..|s| - 1]), s[|s| - 1])
  }

  lemma {:induction false} InsertAdds<T>(less: (T, T) -> bool, s: seq<T>, x: T)
    ensures multiset(Insert(less, s, x)) == multiset(s) + multiset{x}
  {
    if s != [] {
      assert s == [s[0]] + s[1..];
      InsertAdds(less, s[1..], x);
    }
  }

  lemma {:induction false} StableSortedPermutes<T>(less: (T, T) -> bool, s: seq<T>)
    ensures multiset(StableSorted(less, s)) == multiset(s) && |StableSorted(less, s)| == |s|
  {
    if s != [] {
      StableSortedPermutes(less, s[..|s| - 1]);
      InsertAdds(less, StableSorted(less, s[..|s| - 1]), s[|s| - 1]);
      assert s == s[..|s| - 1] + [s[|s| - 1]];
    }
    assert |multiset(StableSorted(less, s))| == |StableSorted(less, s)| && |multiset(s)| == |s|;
  }

  lemma {:induction false} InsertKeepsSorted<T(!new)>(less: (T, T) -> bool, s: seq<T>, x: T)
    requires WeakOrder(less) && Sorted(less, s)
    ensures Sorted(less, Insert(less, s, x))
  {
    if s != [] && !less(x, s[0]) {
      var rest := Insert(less, s[1..], x);
      InsertKeepsSorted(less, s[1..], x);
      InsertAdds(less, s[1..], x);
      forall k | 0 <= k < |rest| ensures !less(rest[k], s[0]) {
        assert s == [s[0]] + s[1..];
        assert rest[k] in multiset(s[1..]) + multiset{x};
      }
    }
  }

  lemma {:induction false} RankedAppend<T(!new)>(less: (T, T) -> bool, a: seq<T>, b: seq<T>, x: T)
    ensures Ranked(less, a + b, x) == Ranked(less, a, x) + Ranked(less, b, x)
  {
    if a == [] {
      assert a + b == b;
    } else {
      assert (a + b)[1..] == a[1..] + b;
      RankedAppend(less, a[1..], b, x);
      var head, mid, last := if Alike(less, a[0], x) then [a[0]] else [], Ranked(less, a[1..], x), Ranked(less, b, x);
      assert Ranked(less, a + b, x) == head + (mid + last);
      assert head + (mid + last) == (head + mid) + last;
    }
  }

  lemma {:induction false} RankedNone<T(!new)>(less: (T, T) -> bool, s: seq<T>, x: T)
    requires forall i :: 0 <= i < |s| ==> !Alike(less, s[i], x)
    ensures Ranked(less, s, x) == []
  {
    if s != [] { RankedNone(less, s[1..], x); }
  }

  lemma {:induction false} InsertRanked<T(!new)>(less: (T, T) -> bool, s: seq<T>, x: T, y: T)
    requires WeakOrder(less) && Sorted(less, s)
    ensures Ranked(less, Insert(less, s, x), y) == Ranked(less, s + [x], y)
  {
    RankedAppend(less, s, [x], y);
    if s != [] {
      if less(x, s[0]) {
        RankedAppend(less, [x], s, y);
        if Alike(less, x, y) { RankedNone(less, s, y); }
      } else {
        InsertRanked(less, s[1..], x, y);
        RankedAppend(less, s[1..], [x], y);
      }
    }
  }

  /** Sorting sorts, and keeps the order of elements that rank alike. */
  lemma {:induction false} StableSortedIsStable<T(!new)>(less: (T, T) -> bool, s: seq<T>)
    requires WeakOrder(less)
    ensures Sorted(less, StableSorted(less, s)) && SameRanks(less, StableSorted(less, s), s)
  {
    if s != [] {
      var front, x := s[..|s| - 1], s[|s| - 1];
      StableSortedIsStable(less, front);
      var done := StableSorted(less, front);
      InsertKeepsSorted(less, done, x);
      forall y ensures Ranked(less, StableSorted(less, s), y) == Ranked(less, s, y) {
        InsertRanked(less, done, x, y);
        RankedAppend(less, done, [x], y);
        RankedAppend(less, front, [x], y);
        assert s == front + [x];
      }
    }
  }

  lemma {:induction false} RankedMember<T(!new)>(less: (T, T) -> bool, s: seq<T>, x: T)
    requires Ranked(less, s, x) != []
    ensures exists i :: 0 <= i < |s| && Alike(less, s[i], x)
  {
    if !Alike(less, s[0], x) {
      RankedMember(less, s[1..], x);
      var i :| 0 <= i < |s[1..]| && Alike(less, s[1..][i], x);
      assert s[i + 1] == s[1..][i];
    }
  }

  /** There is only one way to sort stably. */
  lemma {:induction false} StableSortIsUnique<T(!new)>(less: (T, T) -> bool, a: seq<T>, b: seq<T>)
    requires WeakOrder(less) && Sorted(less, a) && Sorted(less, b) && SameRanks(less, a, b)
    ensures a == b
    decreases |a|
  {
    if a != [] {
      assert Ranked(less, a, a[0]) == Ranked(less, b, a[0]) != [];
      RankedMember(less, b, a[0]);
      assert Ranked(less, a, b[0]) == Ranked(less, b, b[0]) != [];
      RankedMember(less, a, b[0]);
      assert Alike(less, a[0], b[0]);
      assert Ranked(less, a, a[0])[0] == a[0] && Ranked(less, b, a[0])[0] == b[0];
      forall x ensures Ranked(less, a[1..], x) == Ranked(less, b[1..], x) {
        var h := if Alike(less, a[0], x) then [a[0]] else [];
        assert h + Ranked(less, a[1..], x) == Ranked(less, a, x) == Ranked(less, b, x) == h + Ranked(less, b[1..], x);
        assert Ranked(less, a[1..], x) == Ranked(less, a, x)[|h|..] == Ranked(less, b[1..], x);
      }
      StableSortIsUnique(less, a[1..], b[1..]);
      assert a == [a[0]] + a[1..] && b == [b[0]] + b[1..];
    }
  }

  /** Two lists have the same sorted form exactly when they agree on every rank. */
  lemma SameSortedForm<T(!new)>(less: (T, T) -> bool, a: seq<T>, b: seq<T>)
    requires WeakOrder(less)
    ensures StableSorted(less, a) == StableSorted(less, b) <==> SameRanks(less, a, b)
  {
    StableSortedIsStable(less, a);
    StableSortedIsStable(less, b);
    if SameRanks(less, a, b) {
      forall x ensures Ranked(less, StableSorted(less, a), x) == Ranked(less, StableSorted(less, b), x) {
        assert Ranked(less, a, x) == Ranked(less, b, x);
      }
      StableSortIsUnique(less, StableSorted(less, a), StableSorted(less, b));
    } else {
      assert exists x :: Ranked(less, a, x) != Ranked(less, b, x);
    }
  }

  lemma SortingAgainChangesNothing<T(!new)>(less: (T, T) -> bool, s: seq<T>)
    requires WeakOrder(less)
    ensures StableSorted(less, StableSorted(less, s)) == StableSorted(less, s)
  {
    StableSortedIsStable(less, s);
    SameSortedForm(less, StableSorted(less, s), s);
  }

  /** Where only equal elements rank alike, every sort gives the same list. */
  lemma {:induction false} SortedPermutationIsUnique<T(!new)>(less: (T, T) -> bool, a: seq<T>, b: seq<T>)
    requires WeakOrder(less) && Sorted(less, a) && Sorted(less, b) && multiset(a) == multiset(b)
    requires forall x, y :: x in multiset(a) && y in multiset(a) && Alike(less, x, y) ==> x == y
    ensures a == b
    decreases |a|
  {
    SameLength(a, b);
    if a != [] {
      SameHead(less, a, b);
      TailPermutes(a, b);
      SortedPermutationIsUnique(less, a[1..], b[1..]);
      assert a == [a[0]] + a[1..] && b == [b[0]] + b[1..];
    }
  }

  lemma SameLength<T>(a: seq<T>, b: seq<T>)
    requires multiset(a) == multiset(b)
    ensures |a| == |b|
  {
    assert |a| == |multiset(a)| == |multiset(b)| == |b|;
  }

  lemma TailPermutes<T>(a: seq<T>, b: seq<T>)
    requires multiset(a) == multiset(b) && a != [] && b != [] && a[0] == b[0]
    ensures multiset(a[1..]) == multiset(b[1..]) && forall x :: x in multiset(a[1..]) ==> x in multiset(a)
  {
    assert a == [a[0]] + a[1..] && b == [] + ([a[0]] + b[1..]) && [] + b[1..] == b[1..];
    WithoutOne(a[0], a[1..], [], b[1..]);
  }

  lemma SameHead<T(!new)>(less: (T, T) -> bool, a: seq<T>, b: seq<T>)
    requires WeakOrder(less) && Sorted(less, a) && Sorted(less, b) && multiset(a) == multiset(b) && a != [] && b != []
    requires forall x, y :: x in multiset(a) && y in multiset(a) && Alike(less, x, y) ==> x == y
    ensures a[0] == b[0]
  {
    assert a[0] in multiset(b) && b[0] in multiset(a);
    assert Alike(less, a[0], b[0]);
  }

  /** The same elements with one of them in front. */
  ghost function BroughtForward<T(!new)>(s: seq<T>, x: T): (r: seq<T>)
    requires x in multiset(s)
    ensures multiset(r) == multiset(s) && r[0] == x
  {
    var i :| 0 <= i < |s| && s[i] == x;
    assert s == s[..i] + [x] + s[i + 1..];
    [x] + s[..i] + s[i + 1..]
  }

  function Mapped<A, B>(f: A -> B, s: seq<A>): seq<B> {
    if s == [] then [] else [f(s[0])] + Mapped(f, s[1..])
  }

  lemma {:induction false} MappedAppend<A, B>(f: A -> B, s: seq<A>, t: seq<A>)
    ensures Mapped(f, s + t) == Mapped(f, s) + Mapped(f, t)
  {
    if s == [] { assert s + t == t; } else {
      assert (s + t)[1..] == s[1..] + t;
      MappedAppend(f, s[1..], t);
    }
  }

  lemma MappedMiddle<A, B>(f: A -> B, front: seq<A>, x: A, back: seq<A>)
    ensures multiset(Mapped(f, front + ([x] + back))) == multiset{f(x)} + multiset(Mapped(f, front + back))
  {
    MappedAppend(f, front, back);
    MappedAppend(f, front, [x] + back);
    assert ([x] + back)[1..] == back;
  }

  lemma WithoutOne<A>(x: A, rest: seq<A>, front: seq<A>, back: seq<A>)
    requires multiset([x] + rest) == multiset(front + ([x] + back))
    ensures multiset(rest) == multiset(front + back)
  {
    assert multiset([x] + rest) == multiset{x} + multiset(rest);
    assert multiset(front + ([x] + back)) == multiset{x} + multiset(front + back);
    assert multiset{x} + multiset(rest) - multiset{x} == multiset(rest);
  }

  /** A map over lists respects multisets. */
  lemma {:induction false} MappedPermutes<A, B>(f: A -> B, s: seq<A>, t: seq<A>)
    requires multiset(s) == multiset(t)
    ensures multiset(Mapped(f, s)) == multiset(Mapped(f, t))
  {
    if s == [] {
      assert |multiset(t)| == 0;
    } else {
      var x, rest := s[0], s[1..];
      var i := Position(t, x);
      var front, back := t[..i], t[i + 1..];
      assert t == front + ([x] + back) && s == [x] + rest;
      WithoutOne(x, rest, front, back);
      MappedPermutes(f, rest, front + back);
      MappedMiddle(f, front, x, back);
    }
  }

  ghost function Position<A>(t: seq<A>, x: A): (i: nat)
    requires x in multiset(t)
    ensures i < |t| && t[i] == x
  {
    assert x in t;
    var i :| 0 <= i < |t| && t[i] == x; i
  }

  /** Two alike but different elements can be sorted in more than one way. */
  lemma AlikeElementsCanSwap<T(!new)>(less: (T, T) -> bool, s: seq<T>, x: T, y: T)
    requires WeakOrder(less) && x in multiset(s) && y in multiset(s) && Alike(less, x, y) && x != y
    ensures StableSorted(less, BroughtForward(s, x)) != StableSorted(less, BroughtForward(s, y))
  {
    var b, c := BroughtForward(s, x), BroughtForward(s, y);
    assert Ranked(less, b, x)[0] == x && Ranked(less, c, x)[0] == y;
    SameSortedForm(less, b, c);
  }

  /** Comparison by a text computed from the element. */
  function ByKey<T(!new)>(key: T -> string): (T, T) -> bool {
    (a, b) => Less(key(a), key(b))
  }

  lemma ByKeyCompares<T(!new)>(key: T -> string, a: T, b: T)
    ensures ByKey(key)(a, b) == Less(key(a), key(b))
  {
  }

  lemma ByKeyIsWeakOrder<T(!new)>(key: T -> string)
    ensures WeakOrder(ByKey(key))
    ensures forall a, b :: Alike(ByKey(key), a, b) <==> key(a) == key(b)
  {
    var less := ByKey(key);
    forall a, b | less(a, b) ensures !less(b, a) { LessAsymmetric(key(a), key(b)); }
    forall a, b, c | !less(b, a) && !less(c, b) ensures !less(c, a) {
      LessTotal(key(a), key(b));
      LessTotal(key(b), key(c));
      if less(a, b) && less(b, c) { LessTransitive(key(a), key(b), key(c)); }
      if less(c, a) { LessAsymmetric(key(c), key(a)); }
    }
    forall a, b ensures Alike(less, a, b) <==> key(a) == key(b) {
      LessTotal(key(a), key(b));
      LessIrreflexive(key(a));
    }
  }

  /** sort.SliceStable on a slice. */
  method SliceStable<T(!new)>(a: array<T>, less: (T, T) -> bool)
    requires WeakOrder(less)
    modifies a
    ensures a[..] == StableSorted(less, old(a[..]))
  {
    StableSortedPermutes(less, a[..]);
    var s := StableSorted(less, a[..]);
    forall i | 0 <= i < a.Length { a[i] := s[i]; }
  }

  /** sort.Slice: the order it leaves among elements that rank alike is unspecified. */
  method Slice<T(!new)>(a: array<T>, less: (T, T) -> bool)
    requires WeakOrder(less)
    modifies a
    ensures Sorted(less, a[..]) && multiset(a[..]) == multiset(old(a[..]))
  {
    StableSortedIsStable(less, a[..]);
    StableSortedPermutes(less, a[..]);
    SliceStable(a, less);
  }

  // ---------- texts ----------

  function Self(s: string): string { s }

  function SortedTexts(s: seq<string>): seq<string> { StableSorted(ByKey(Self), s) }

  /** Sorted texts compare as multisets. */
  lemma SameTextsExactlyWhenPermuted(a: seq<string>, b: seq<string>)
    ensures SortedTexts(a) == SortedTexts(b) <==> multiset(a) == multiset(b)
  {
    ByKeyIsWeakOrder(Self);
    StableSortedIsStable(ByKey(Self), a);
    StableSortedIsStable(ByKey(Self), b);
    StableSortedPermutes(ByKey(Self), a);
    StableSortedPermutes(ByKey(Self), b);
    if multiset(a) == multiset(b) { SortedPermutationIsUnique(ByKey(Self), SortedTexts(a), SortedTexts(b)); }
  }

  /** sort.Strings; no choice is left to it, since texts that rank alike are equal. */
  method SortTexts(a: array<string>)
    modifies a
    ensures a[..] == SortedTexts(old(a[..]))
  {
    ghost var s := a[..];
    ByKeyIsWeakOrder(Self);
    Slice(a, ByKey(Self));
    StableSortedIsStable(ByKey(Self), s);
    StableSortedPermutes(ByKey(Self), s);
    SortedPermutationIsUnique(ByKey(Self), a[..], SortedTexts(s));
  }
}
