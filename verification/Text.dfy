/** The string operations the gateway uses to keep lists in one column: trimming, splitting, joining. */
module Text {

  /** The white space of Go's unicode.IsSpace. */
  predicate IsSpace(c: char) {
    || '\t' <= c <= '\r' || c == ' ' || c == '\U{85}' || c == '\U{A0}' || c == '\U{1680}'
    || '\U{2000}' <= c <= '\U{200A}' || c == '\U{2028}' || c == '\U{2029}' || c == '\U{202F}'
    || c == '\U{205F}' || c == '\U{3000}'
  }

  function TrimSpaceLeft(s: string): string {
    if s != "" && IsSpace(s[0]) then TrimSpaceLeft(s[1..]) else s
  }

  function TrimSpaceRight(s: string): string {
    if s != "" && IsSpace(s[|s| - 1]) then TrimSpaceRight(s[..|s| - 1]) else s
  }

  function TrimSpace(s: string): string {
    TrimSpaceRight(TrimSpaceLeft(s))
  }

  predicate IsTrimmed(s: string) {
    s == "" || (!IsSpace(s[0]) && !IsSpace(s[|s| - 1]))
  }

  function TrimLeft(s: string, c: char): string {
    if s != "" && s[0] == c then TrimLeft(s[1..], c) else s
  }

  function TrimRight(s: string, c: char): string {
    if s != "" && s[|s| - 1] == c then TrimRight(s[..|s| - 1], c) else s
  }

  function Trim(s: string, c: char): string {
    TrimRight(TrimLeft(s, c), c)
  }

  /** The parts of a string from those of its tail. */
  function Prefix(x: char, c: char, rest: seq<string>): seq<string>
    requires rest != []
  {
    if x == c then [""] + rest else [[x] + rest[0]] + rest[1..]
  }

  function Split(s: string, c: char): (parts: seq<string>)
    ensures parts != []
  {
    if s == "" then [""] else Prefix(s[0], c, Split(s[1..], c))
  }

  function Join(parts: seq<string>, c: char): string {
    if parts == [] then ""
    else if |parts| == 1 then parts[0]
    else parts[0] + [c] + Join(parts[1..], c)
  }

  /** How a joined column is read back: an empty column holds nothing, separators at the ends are noise. */
  function ReadBack(s: string, c: char): seq<string> {
    if s == "" then [] else Split(Trim(s, c), c)
  }

  ghost predicate Free(parts: seq<string>, c: char) {
    forall i :: 0 <= i < |parts| ==> c !in parts[i]
  }

  // ---- trimming

  lemma {:induction false} TrimSpaceLeftTrims(s: string)
    ensures var r := TrimSpaceLeft(s);
            && |r| <= |s| && r == s[|s| - |r|..]
            && (r != "" ==> !IsSpace(r[0]))
            && (s != "" && !IsSpace(s[0]) ==> r == s)
  {
    if s != "" && IsSpace(s[0]) {
      TrimSpaceLeftTrims(s[1..]);
    }
  }

  lemma {:induction false} TrimSpaceRightTrims(s: string)
    ensures var r := TrimSpaceRight(s);
            && |r| <= |s| && r == s[..|r|]
            && (r != "" ==> !IsSpace(r[|r| - 1]))
            && (s != "" && !IsSpace(s[|s| - 1]) ==> r == s)
  {
    if s != "" && IsSpace(s[|s| - 1]) {
      TrimSpaceRightTrims(s[..|s| - 1]);
    }
  }

  /** A prefix `r` of a suffix `l` of `s`, neither starting nor ending in white space. */
  lemma TrimmedSlice(s: string, l: string, r: string)
    requires |r| <= |l| <= |s| && l == s[|s| - |l|..] && r == l[..|r|]
    requires l != "" ==> !IsSpace(l[0])
    requires r != "" ==> !IsSpace(r[|r| - 1])
    ensures IsTrimmed(r)
    ensures forall c :: c in r ==> c in s
  {
    assert r != "" ==> r[0] == l[0];
    assert forall c :: c in r ==> c in l;
  }

  /** Trimming yields a trimmed substring and leaves trimmed strings alone. */
  lemma TrimSpaceTrims(s: string)
    ensures IsTrimmed(TrimSpace(s))
    ensures forall c :: c in TrimSpace(s) ==> c in s
    ensures IsTrimmed(s) ==> TrimSpace(s) == s
  {
    TrimSpaceLeftTrims(s);
    TrimSpaceRightTrims(TrimSpaceLeft(s));
    TrimmedSlice(s, TrimSpaceLeft(s), TrimSpace(s));
  }

  ghost predicate AllSpace(s: string) {
    forall i :: 0 <= i < |s| ==> IsSpace(s[i])
  }

  lemma {:induction false} TrimSpaceLeftExact(s: string)
    ensures |TrimSpaceLeft(s)| <= |s| && AllSpace(s[..|s| - |TrimSpaceLeft(s)|])
  {
    if s != "" && IsSpace(s[0]) {
      TrimSpaceLeftTrims(s);
      TrimSpaceLeftExact(s[1..]);
      var n := |s| - |TrimSpaceLeft(s)|;
      assert s[..n] == [s[0]] + s[1..][..n - 1];
    }
  }

  lemma {:induction false} TrimSpaceRightExact(s: string)
    ensures |TrimSpaceRight(s)| <= |s| && AllSpace(s[|TrimSpaceRight(s)|..])
  {
    if s != "" && IsSpace(s[|s| - 1]) {
      var front := s[..|s| - 1];
      TrimSpaceRightTrims(s);
      TrimSpaceRightExact(front);
      assert s[|TrimSpaceRight(s)|..] == front[|TrimSpaceRight(s)|..] + [s[|s| - 1]];
    }
  }

  /** Trimming removes white space at both ends and nothing else. */
  lemma TrimSpaceExact(s: string) returns (before: string, behind: string)
    ensures s == before + TrimSpace(s) + behind && AllSpace(before) && AllSpace(behind) && IsTrimmed(TrimSpace(s))
  {
    var l, r := TrimSpaceLeft(s), TrimSpace(s);
    TrimSpaceLeftTrims(s);
    TrimSpaceRightTrims(l);
    TrimSpaceLeftExact(s);
    TrimSpaceRightExact(l);
    TrimSpaceTrims(s);
    before, behind := s[..|s| - |l|], l[|r|..];
    assert s == before + l && l == r + behind;
  }

  lemma {:induction false} TrimSpaceRightHead(s: string)
    requires s != "" && !IsSpace(s[0])
    ensures TrimSpaceRight(s) != "" && TrimSpaceRight(s)[0] == s[0]
  {
    if IsSpace(s[|s| - 1]) {
      TrimSpaceRightHead(s[..|s| - 1]);
    }
  }

  /** Trimming the right end does not touch the first character. */
  lemma TrimSpaceHead(s: string)
    ensures "[" <= TrimSpace(s) <==> "[" <= TrimSpaceLeft(s)
  {
    TrimSpaceLeftTrims(s);
    if TrimSpaceLeft(s) != "" {
      TrimSpaceRightHead(TrimSpaceLeft(s));
    }
  }

  lemma {:induction false} TrimSpaceLeftConcat(s: string, t: string)
    ensures TrimSpaceLeft(s + t) == if TrimSpaceLeft(s) != "" then TrimSpaceLeft(s) + t else TrimSpaceLeft(t)
  {
    if s == "" {
      assert s + t == t;
    } else if IsSpace(s[0]) {
      TrimSpaceLeftConcat(s[1..], t);
      assert (s + t)[1..] == s[1..] + t;
    }
  }

  lemma {:induction false} TrimLeftTrims(s: string, c: char)
    ensures var r := TrimLeft(s, c);
            && |r| <= |s| && r == s[|s| - |r|..]
            && (r != "" ==> r[0] != c)
            && (s == "" || s[0] != c ==> r == s)
  {
    if s != "" && s[0] == c {
      TrimLeftTrims(s[1..], c);
    }
  }

  lemma {:induction false} TrimRightTrims(s: string, c: char)
    ensures var r := TrimRight(s, c);
            && |r| <= |s| && r == s[..|r|]
            && (r != "" ==> r[|r| - 1] != c)
            && (s == "" || s[|s| - 1] != c ==> r == s)
  {
    if s != "" && s[|s| - 1] == c {
      TrimRightTrims(s[..|s| - 1], c);
    }
  }

  lemma TrimTrims(s: string, c: char)
    ensures var r := Trim(s, c);
            && (r != "" ==> r[0] != c && r[|r| - 1] != c)
            && (s != "" && s[0] != c && s[|s| - 1] != c ==> r == s)
  {
    TrimLeftTrims(s, c);
    TrimRightTrims(TrimLeft(s, c), c);
  }

  // ---- splitting and joining

  lemma {:induction false} SplitFree(s: string, c: char)
    ensures Free(Split(s, c), c)
    ensures s != "" && s[0] != c ==> Split(s, c)[0] != ""
  {
    if s != "" {
      SplitFree(s[1..], c);
    }
  }

  lemma {:induction false} SplitLast(s: string, c: char)
    requires s != "" && s[|s| - 1] != c
    ensures var ps := Split(s, c); ps[|ps| - 1] != ""
  {
    if |s| > 1 {
      var t := s[1..];
      assert t[|t| - 1] == s[|s| - 1];
      SplitLast(t, c);
      SplitUnfold(s, c);
    }
  }

  lemma SplitUnfold(s: string, c: char)
    requires s != ""
    ensures var ps, rest := Split(s, c), Split(s[1..], c);
            && |ps| == |rest| + (if s[0] == c then 1 else 0)
            && (s[0] == c || |rest| > 1 ==> ps[|ps| - 1] == rest[|rest| - 1])
            && (s[0] != c && |rest| == 1 ==> ps[|ps| - 1] != "")
  {
  }

  /** Splitting loses nothing. */
  lemma {:induction false} JoinSplit(s: string, c: char)
    ensures Join(Split(s, c), c) == s
  {
    if s != "" {
      var rest := Split(s[1..], c);
      JoinSplit(s[1..], c);
      assert s == [s[0]] + s[1..];
      if s[0] == c {
        assert ([""] + rest)[1..] == rest;
      } else {
        JoinPrefixed(s[0], rest, c);
      }
    }
  }

  lemma JoinPrefixed(x: char, rest: seq<string>, c: char)
    requires rest != []
    ensures Join([[x] + rest[0]] + rest[1..], c) == [x] + Join(rest, c)
  {
    var all := [[x] + rest[0]] + rest[1..];
    if |rest| > 1 {
      assert all[1..] == rest[1..];
      assert [x] + rest[0] + [c] + Join(rest[1..], c) == [x] + (rest[0] + [c] + Join(rest[1..], c));
    }
  }

  lemma {:induction false} SplitWord(w: string, c: char)
    requires c !in w
    ensures Split(w, c) == [w]
  {
    if w != "" {
      SplitWord(w[1..], c);
      assert [w[0]] + w[1..] == w;
    }
  }

  lemma {:induction false} SplitPrefix(w: string, s: string, c: char)
    requires c !in w
    ensures Split(w + [c] + s, c) == [w] + Split(s, c)
  {
    var t := w + [c] + s;
    if w == "" {
      assert t[1..] == s;
    } else {
      SplitPrefix(w[1..], s, c);
      assert t[1..] == w[1..] + [c] + s;
      assert [w[0]] + w[1..] == w;
    }
  }

  /** All parts split, one after the other. */
  function SplitAll(parts: seq<string>, c: char): seq<string> {
    if parts == [] then [] else Split(parts[0], c) + SplitAll(parts[1..], c)
  }

  lemma {:induction false} SplitConcat(s: string, t: string, c: char)
    ensures Split(s + [c] + t, c) == Split(s, c) + Split(t, c)
  {
    var r := s + [c] + t;
    if s == "" {
      assert r[1..] == t;
    } else {
      SplitConcat(s[1..], t, c);
      assert r[1..] == s[1..] + [c] + t;
      Prefixed(s[0], c, Split(s[1..], c), Split(t, c));
    }
  }

  lemma Prefixed(x: char, c: char, front: seq<string>, back: seq<string>)
    requires front != []
    ensures Prefix(x, c, front + back) == Prefix(x, c, front) + back
  {
    assert (front + back)[1..] == front[1..] + back;
  }

  /** Joining and splitting again also splits the parts that hold the separator. */
  lemma {:induction false} SplitJoinAll(parts: seq<string>, c: char)
    requires parts != []
    ensures Split(Join(parts, c), c) == SplitAll(parts, c)
  {
    if |parts| == 1 {
      assert SplitAll(parts[1..], c) == [];
    } else {
      SplitJoinAll(parts[1..], c);
      SplitConcat(parts[0], Join(parts[1..], c), c);
    }
  }

  lemma {:induction false} SplitAllAppend(xs: seq<string>, ys: seq<string>, c: char)
    ensures SplitAll(xs + ys, c) == SplitAll(xs, c) + SplitAll(ys, c)
  {
    if xs == [] {
      assert xs + ys == ys;
    } else {
      var head, mid, tail := Split(xs[0], c), SplitAll(xs[1..], c), SplitAll(ys, c);
      SplitAllAppend(xs[1..], ys, c);
      assert (xs + ys)[1..] == xs[1..] + ys;
      assert SplitAll(xs + ys, c) == head + (mid + tail);
      assert head + (mid + tail) == (head + mid) + tail;
    }
  }

  lemma {:induction false} SplitAllFree(parts: seq<string>, c: char)
    requires Free(parts, c)
    ensures SplitAll(parts, c) == parts
  {
    if parts != [] {
      SplitWord(parts[0], c);
      SplitAllFree(parts[1..], c);
    }
  }

  lemma {:induction false} SplitAllIsFree(parts: seq<string>, c: char)
    ensures Free(SplitAll(parts, c), c)
  {
    if parts != [] {
      SplitFree(parts[0], c);
      SplitAllIsFree(parts[1..], c);
    }
  }

  lemma {:induction false} SplitJoin(parts: seq<string>, c: char)
    requires parts != [] && Free(parts, c)
    ensures Split(Join(parts, c), c) == parts
  {
    if |parts| == 1 {
      SplitWord(parts[0], c);
    } else {
      SplitJoin(parts[1..], c);
      SplitPrefix(parts[0], Join(parts[1..], c), c);
      assert parts == [parts[0]] + parts[1..];
    }
  }

  lemma {:induction false} JoinEnds(parts: seq<string>, c: char)
    requires parts != [] && Free(parts, c) && parts[0] != "" && parts[|parts| - 1] != ""
    ensures var s := Join(parts, c); s != "" && s[0] != c && s[|s| - 1] != c
  {
    if |parts| > 1 {
      JoinLast(parts, c);
    }
  }

  lemma {:induction false} JoinLast(parts: seq<string>, c: char)
    requires parts != [] && Free(parts, c) && parts[|parts| - 1] != ""
    ensures var s := Join(parts, c); s != "" && s[|s| - 1] != c
  {
    if |parts| > 1 {
      JoinLast(parts[1..], c);
    }
  }

  ghost predicate JoinSafe(parts: seq<string>, c: char) {
    parts == [] || (Free(parts, c) && parts[0] != "" && parts[|parts| - 1] != "")
  }

  lemma ReadBackOf(parts: seq<string>, c: char)
    requires JoinSafe(parts, c)
    ensures ReadBack(Join(parts, c), c) == parts
  {
    if parts != [] {
      JoinEnds(parts, c);
      TrimTrims(Join(parts, c), c);
      SplitJoin(parts, c);
    }
  }

  lemma ReadBackSafe(s: string, c: char)
    ensures ReadBack(s, c) == [""] || JoinSafe(ReadBack(s, c), c)
  {
    var t := Trim(s, c);
    TrimTrims(s, c);
    SplitFree(t, c);
    if t != "" {
      SplitLast(t, c);
    }
  }

  /** Joining a list into a column and reading it back returns the list exactly when no element
      contains the separator and neither end of the list is an empty string. */
  lemma ReadBackIff(parts: seq<string>, c: char)
    ensures ReadBack(Join(parts, c), c) == parts <==>
            parts == [] || (Free(parts, c) && parts[0] != "" && parts[|parts| - 1] != "")
  {
    if JoinSafe(parts, c) {
      ReadBackOf(parts, c);
    } else {
      ReadBackSafe(Join(parts, c), c);
      assert parts == [""] ==> Join(parts, c) == "";
    }
  }
}
