/** Ordered lists without repetition, as the list helpers of the controllers treat them. */
module Lists {

  function Elems<T>(xs: seq<T>): set<T> {
    set x | x in xs
  }

  ghost predicate NoDup<T>(xs: seq<T>) {
    forall i, j :: 0 <= i < j < |xs| ==> xs[i] != xs[j]
  }

  /** The elements of `xs` outside `s`, in order. */
  function Drop<T(==)>(xs: seq<T>, s: set<T>): seq<T> {
    if xs == [] then []
    else
      var front, last := xs[..|xs| - 1], xs[|xs| - 1];
      if last in s then Drop(front, s) else Drop(front, s) + [last]
  }

  /** The elements of `xs` inside `s`, in order. */
  function Keep<T(==)>(xs: seq<T>, s: set<T>): seq<T> {
    Drop(xs, Elems(xs) - s)
  }

  /** First occurrences, in order. */
  function Uniq<T(==)>(xs: seq<T>): seq<T> {
    if xs == [] then []
    else
      var u, last := Uniq(xs[..|xs| - 1]), xs[|xs| - 1];
      if last in u then u else u + [last]
  }

  lemma {:induction false} DropElems<T>(xs: seq<T>, s: set<T>)
    ensures forall x :: x in Drop(xs, s) <==> x in xs && x !in s
    ensures NoDup(xs) ==> NoDup(Drop(xs, s))
    ensures |Drop(xs, s)| <= |xs|
  {
    if xs != [] {
      var front, last := xs[..|xs| - 1], xs[|xs| - 1];
      DropElems(front, s);
      assert xs == front + [last];
    }
  }

  lemma KeepElems<T>(xs: seq<T>, s: set<T>)
    ensures forall x :: x in Keep(xs, s) <==> x in xs && x in s
    ensures NoDup(xs) ==> NoDup(Keep(xs, s))
  {
    DropElems(xs, Elems(xs) - s);
  }

  /** `xs` are elements of `base`, in its order. */
  predicate InOrderOf<T(==)>(xs: seq<T>, base: seq<T>) {
    xs == Keep(base, Elems(xs))
  }

  lemma DropInOrder<T>(xs: seq<T>, s: set<T>)
    ensures InOrderOf(Drop(xs, s), xs)
  {
    DropElems(xs, s);
    DropAgree(xs, s, Elems(xs) - Elems(Drop(xs, s)));
  }

  lemma {:induction false} UniqElems<T>(xs: seq<T>)
    ensures forall x :: x in Uniq(xs) <==> x in xs
    ensures NoDup(Uniq(xs))
  {
    if xs != [] {
      var front, last := xs[..|xs| - 1], xs[|xs| - 1];
      UniqElems(front);
      assert xs == front + [last];
    }
  }

  lemma {:induction false} UniqId<T>(xs: seq<T>)
    requires NoDup(xs)
    ensures Uniq(xs) == xs
  {
    if xs != [] {
      var front, last := xs[..|xs| - 1], xs[|xs| - 1];
      UniqId(front);
      assert xs == front + [last];
    }
  }

  lemma {:induction false} UniqAppend<T>(xs: seq<T>, ys: seq<T>)
    ensures Uniq(xs + ys) == Uniq(xs) + Drop(Uniq(ys), Elems(xs))
  {
    if ys == [] {
      assert xs + ys == xs;
    } else {
      var front, last := ys[..|ys| - 1], ys[|ys| - 1];
      UniqAppend(xs, front);
      UniqElems(xs);
      UniqElems(front);
      DropElems(Uniq(front), Elems(xs));
      assert (xs + ys)[..|xs + ys| - 1] == xs + front;
      assert (Uniq(front) + [last])[..|Uniq(front)|] == Uniq(front);
    }
  }

  /** Two sets that agree on `xs` drop the same elements. */
  lemma {:induction false} DropAgree<T>(xs: seq<T>, s: set<T>, t: set<T>)
    requires forall x :: x in xs ==> (x in s <==> x in t)
    ensures Drop(xs, s) == Drop(xs, t)
  {
    if xs != [] {
      DropAgree(xs[..|xs| - 1], s, t);
    }
  }

  lemma {:induction false} DropDrop<T>(xs: seq<T>, s: set<T>, t: set<T>)
    ensures Drop(Drop(xs, s), t) == Drop(xs, s + t)
  {
    if xs != [] {
      var front, last := xs[..|xs| - 1], xs[|xs| - 1];
      DropDrop(front, s, t);
      if last !in s {
        assert (Drop(front, s) + [last])[..|Drop(front, s)|] == Drop(front, s);
      }
    }
  }

  lemma {:induction false} DropAppend<T>(xs: seq<T>, ys: seq<T>, s: set<T>)
    ensures Drop(xs + ys, s) == Drop(xs, s) + Drop(ys, s)
  {
    if ys == [] {
      assert xs + ys == xs;
    } else {
      var front, last := ys[..|ys| - 1], ys[|ys| - 1];
      DropAppend(xs, front, s);
      assert (xs + ys)[..|xs + ys| - 1] == xs + front;
    }
  }

  lemma {:induction false} DropAll<T>(xs: seq<T>, s: set<T>)
    requires forall x :: x in xs ==> x in s
    ensures Drop(xs, s) == []
  {
    if xs != [] {
      DropAll(xs[..|xs| - 1], s);
    }
  }

  lemma {:induction false} DropNone<T>(xs: seq<T>, s: set<T>)
    requires forall x :: x in xs ==> x !in s
    ensures Drop(xs, s) == xs
  {
    if xs != [] {
      DropNone(xs[..|xs| - 1], s);
    }
  }

  lemma NoDupAppend<T>(xs: seq<T>, ys: seq<T>)
    requires NoDup(xs) && NoDup(ys) && forall y :: y in ys ==> y !in xs
    ensures NoDup(xs + ys)
  {
    var zs := xs + ys;
    forall i, j | 0 <= i < j < |zs|
      ensures zs[i] != zs[j]
    {
      if i < |xs| <= j {
        assert ys[j - |xs|] in ys;
      }
    }
  }

  lemma SomeElem<T>(xs: seq<T>)
    ensures xs == [] || exists x :: x in xs
  {
    if xs != [] {
      assert xs[0] in xs;
    }
  }
}
