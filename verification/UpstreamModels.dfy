/**
 Upstream model reconciliation of a channel: detection of added and removed upstream models,
 automatic synchronisation, and application of a user's selection.

 `Row` is the persisted channel: its comma-joined model list and its update settings. Regular
 expression matching is a parameter: `rx(body, name)` says that `body` compiles and matches `name`.
*/
module UpstreamModels {
  import opened Lists
  import opened Options
  import opened Text

  type Regexp = (string, string) -> bool

  datatype Row = Row(models: string, ignored: seq<string>, detected: seq<string>, removed: seq<string>,
                     lastCheck: int, autoSync: bool, mapping: map<string, string>)

  // ---- list helpers

  function TrimAll(models: seq<string>): seq<string> {
    if models == [] then []
    else
      var t := TrimSpace(models[|models| - 1]);
      TrimAll(models[..|models| - 1]) + if t == "" then [] else [t]
  }

  function Normalize(models: seq<string>): seq<string> {
    Uniq(TrimAll(models))
  }

  ghost predicate IsNormal(models: seq<string>) {
    NoDup(models) && forall i :: 0 <= i < |models| ==> models[i] != "" && IsTrimmed(models[i])
  }

  function Merge(base: seq<string>, appended: seq<string>): seq<string> {
    Normalize(base) + Drop(Normalize(appended), Elems(Normalize(base)))
  }

  function Subtract(base: seq<string>, removed: seq<string>): seq<string> {
    Drop(Normalize(base), Elems(Normalize(removed)))
  }

  function Intersect(base: seq<string>, allowed: seq<string>): seq<string> {
    Keep(Normalize(base), Elems(Normalize(allowed)))
  }

  /** mergeModelNames: one pass over the appended names with a set of the names already present. */
  method MergeModelNames(base: seq<string>, appended: seq<string>) returns (merged: seq<string>)
    ensures merged == Merge(base, appended)
  {
    merged := Normalize(base);
    var seen := Elems(merged);
    var names := Normalize(appended);
    NormalizeIsNormal(appended);
    for i := 0 to |names|
      invariant merged == Normalize(base) + Drop(names[..i], Elems(Normalize(base)))
      invariant forall x :: x in seen <==> x in Normalize(base) || x in names[..i]
    {
      assert names[..i + 1][..i] == names[..i];
      assert names[i] !in names[..i];
      if names[i] !in seen {
        seen := seen + {names[i]};
        merged := merged + [names[i]];
      }
    }
    assert names[..|names|] == names;
  }

  function ApplySelected(origin: seq<string>, add: seq<string>, remove: seq<string>): seq<string> {
    var normalizedAdd := Normalize(add);
    var normalizedRemove := Subtract(Normalize(remove), normalizedAdd);
    Subtract(Merge(origin, normalizedAdd), normalizedRemove)
  }

  // ---- detection

  const REGEX := "regex:"

  predicate IsRegex(entry: string) {
    REGEX <= entry
  }

  predicate Ignores(entry: string, name: string, rx: Regexp) {
    if IsRegex(entry) then rx(TrimSpace(entry[|REGEX|..]), name) else entry == name
  }

  predicate IgnoredBy(entries: seq<string>, name: string, rx: Regexp) {
    exists i :: 0 <= i < |entries| && Ignores(entries[i], name, rx)
  }

  function Ignored(upstream: seq<string>, entries: seq<string>, rx: Regexp): set<string> {
    set m | m in upstream && IgnoredBy(entries, m, rx)
  }

  function PendingAdd(local: seq<string>, upstream: seq<string>, ignored: seq<string>,
                      mapping: map<string, string>, rx: Regexp): seq<string>
  {
    var u := Normalize(upstream);
    var covered := Elems(Normalize(local)) + mapping.Values;
    Normalize(Drop(u, covered + Ignored(u, Normalize(ignored), rx)))
  }

  function PendingRemove(local: seq<string>, upstream: seq<string>, mapping: map<string, string>): seq<string> {
    Normalize(Drop(Normalize(local), mapping.Keys + Elems(Normalize(upstream))))
  }

  function Models(row: Row): seq<string> {
    ReadBack(row.models, ',')
  }

  /** What a detection run right now would report. */
  function DetectAdd(row: Row, upstream: seq<string>, rx: Regexp): seq<string> {
    PendingAdd(Models(row), upstream, row.ignored, row.mapping, rx)
  }

  function DetectRemove(row: Row, upstream: seq<string>): seq<string> {
    PendingRemove(Models(row), upstream, row.mapping)
  }

  /** The stored lists are what a detection run right now would report. */
  predicate Fresh(row: Row, upstream: seq<string>, rx: Regexp) {
    row.detected == DetectAdd(row, upstream, rx) && row.removed == DetectRemove(row, upstream)
  }

  // ---- the two operations, on the persisted row

  /** A check that fetched `upstream`. */
  function Checked(row: Row, upstream: seq<string>, allowAuto: bool, now: int, rx: Regexp): Row {
    var adds := DetectAdd(row, upstream, rx);
    var removes := DetectRemove(row, upstream);
    if allowAuto && row.autoSync && |adds| > 0 then
      var origin := Normalize(Models(row));
      var merged := Merge(origin, adds);
      row.(models := if |merged| > |origin| then Join(merged, ',') else row.models,
           detected := [], removed := removes, lastCheck := now)
    else
      row.(detected := adds, removed := removes, lastCheck := now)
  }

  datatype Selection = Selection(add: seq<string>, ignore: seq<string>, remove: seq<string>)

  function Selected(row: Row, input: Selection): Selection {
    var pendingAdd, pendingRemove := Normalize(row.detected), Normalize(row.removed);
    var add := Intersect(input.add, pendingAdd);
    Selection(add, Intersect(input.ignore, pendingAdd), Subtract(Intersect(input.remove, pendingRemove), add))
  }

  function NextModels(row: Row, sel: Selection): seq<string> {
    ApplySelected(Normalize(Models(row)), sel.add, sel.remove)
  }

  function NextIgnored(row: Row, sel: Selection): seq<string> {
    var merged := Merge(row.ignored, sel.ignore);
    if |sel.add| > 0 then Subtract(merged, sel.add) else merged
  }

  function Applied(row: Row, input: Selection, now: int): Row {
    var sel := Selected(row, input);
    var next := NextModels(row, sel);
    row.(models := if next != Normalize(Models(row)) then Join(next, ',') else row.models,
         ignored := NextIgnored(row, sel),
         detected := Subtract(Normalize(row.detected), sel.add + sel.ignore),
         removed := Subtract(Normalize(row.removed), sel.remove),
         lastCheck := now)
  }

  // ---- normal forms

  lemma {:induction false} TrimAllTrims(models: seq<string>)
    ensures forall i :: 0 <= i < |TrimAll(models)| ==> TrimAll(models)[i] != "" && IsTrimmed(TrimAll(models)[i])
    ensures forall x :: x in TrimAll(models) <==> x != "" && exists i :: 0 <= i < |models| && TrimSpace(models[i]) == x
  {
    if models != [] {
      var front, last := models[..|models| - 1], models[|models| - 1];
      TrimAllTrims(front);
      TrimSpaceTrims(last);
      assert forall i :: 0 <= i < |front| ==> models[i] == front[i];
    }
  }

  lemma NormalizeIsNormal(models: seq<string>)
    ensures IsNormal(Normalize(models))
    ensures forall x :: x in Normalize(models) <==> x in TrimAll(models)
  {
    TrimAllTrims(models);
    UniqElems(TrimAll(models));
    var n := Normalize(models);
    forall i | 0 <= i < |n|
      ensures n[i] != "" && IsTrimmed(n[i])
    {
      assert n[i] in n;
    }
  }

  lemma {:induction false} TrimAllId(models: seq<string>)
    requires forall i :: 0 <= i < |models| ==> models[i] != "" && IsTrimmed(models[i])
    ensures TrimAll(models) == models
  {
    if models != [] {
      var front, last := models[..|models| - 1], models[|models| - 1];
      TrimAllId(front);
      TrimSpaceTrims(last);
      assert TrimAll(models) == front + [last];
    }
  }

  lemma NormalId(models: seq<string>)
    requires IsNormal(models)
    ensures Normalize(models) == models
  {
    TrimAllId(models);
    UniqId(models);
  }

  lemma DropNormal(models: seq<string>, s: set<string>)
    requires IsNormal(models)
    ensures IsNormal(Drop(models, s)) && Normalize(Drop(models, s)) == Drop(models, s)
  {
    DropElems(models, s);
    var d := Drop(models, s);
    forall i | 0 <= i < |d|
      ensures d[i] != "" && IsTrimmed(d[i])
    {
      assert d[i] in d;
    }
    NormalId(d);
  }

  lemma AppendNormal(xs: seq<string>, ys: seq<string>)
    requires IsNormal(xs) && IsNormal(ys) && forall y :: y in ys ==> y !in xs
    ensures IsNormal(xs + ys)
  {
    NoDupAppend(xs, ys);
  }

  lemma MergeNormal(base: seq<string>, appended: seq<string>)
    requires IsNormal(base) && IsNormal(appended)
    ensures Merge(base, appended) == base + Drop(appended, Elems(base))
    ensures IsNormal(Merge(base, appended))
  {
    NormalId(base);
    NormalId(appended);
    DropNormal(appended, Elems(base));
    DropElems(appended, Elems(base));
    AppendNormal(base, Drop(appended, Elems(base)));
  }

  lemma SubtractNormal(base: seq<string>, removed: seq<string>)
    requires IsNormal(base) && IsNormal(removed)
    ensures Subtract(base, removed) == Drop(base, Elems(removed)) && IsNormal(Subtract(base, removed))
  {
    NormalId(base);
    NormalId(removed);
    DropNormal(base, Elems(removed));
  }

  lemma IntersectNormal(base: seq<string>, allowed: seq<string>)
    requires IsNormal(allowed)
    ensures IsNormal(Intersect(base, allowed))
    ensures forall x :: x in Intersect(base, allowed) <==> x in Normalize(base) && x in allowed
  {
    NormalId(allowed);
    NormalizeIsNormal(base);
    KeepElems(Normalize(base), Elems(allowed));
    DropNormal(Normalize(base), Elems(Normalize(base)) - Elems(allowed));
  }

  lemma DetectNormal(row: Row, upstream: seq<string>, rx: Regexp)
    ensures var u, l := Normalize(upstream), Normalize(Models(row));
            && IsNormal(u) && IsNormal(l)
            && IsNormal(DetectAdd(row, upstream, rx)) && IsNormal(DetectRemove(row, upstream))
            && DetectAdd(row, upstream, rx) ==
               Drop(u, Elems(l) + row.mapping.Values + Ignored(u, Normalize(row.ignored), rx))
            && DetectRemove(row, upstream) == Drop(l, row.mapping.Keys + Elems(u))
  {
    var u, l := Normalize(upstream), Normalize(Models(row));
    NormalizeIsNormal(upstream);
    NormalizeIsNormal(Models(row));
    DropNormal(u, Elems(l) + row.mapping.Values + Ignored(u, Normalize(row.ignored), rx));
    DropNormal(l, row.mapping.Keys + Elems(u));
  }

  /** Detection in terms of the lists alone. A new name is an upstream one that is not local, not the target of
      a redirect, not literally ignored and matched by no "regex:" rule; a gone name is a local one that is
      not the source of a redirect and not upstream. Both lists keep their order. */
  lemma DetectsIff(row: Row, upstream: seq<string>, rx: Regexp, m: string)
    ensures m in DetectAdd(row, upstream, rx) <==>
            && m in Normalize(upstream) && m !in Normalize(Models(row)) && m !in row.mapping.Values
            && (forall e :: e in Normalize(row.ignored) && !("regex:" <= e) ==> e != m)
            && (forall e :: e in Normalize(row.ignored) && "regex:" <= e ==> !rx(TrimSpace(e[6..]), m))
    ensures m in DetectRemove(row, upstream) <==>
            m in Normalize(Models(row)) && m !in row.mapping.Keys && m !in Normalize(upstream)
    ensures InOrderOf(DetectAdd(row, upstream, rx), Normalize(upstream))
    ensures InOrderOf(DetectRemove(row, upstream), Normalize(Models(row)))
  {
    var u, l := Normalize(upstream), Normalize(Models(row));
    DetectNormal(row, upstream, rx);
    var covered := Elems(l) + row.mapping.Values + Ignored(u, Normalize(row.ignored), rx);
    DropElems(u, covered);
    DropElems(l, row.mapping.Keys + Elems(u));
    DropInOrder(u, covered);
    DropInOrder(l, row.mapping.Keys + Elems(u));
    IgnoredMeans(Normalize(row.ignored), m, rx);
  }

  lemma IgnoredMeans(entries: seq<string>, m: string, rx: Regexp)
    ensures !IgnoredBy(entries, m, rx) <==>
            && (forall e :: e in entries && !("regex:" <= e) ==> e != m)
            && (forall e :: e in entries && "regex:" <= e ==> !rx(TrimSpace(e[6..]), m))
  {
    if i :| 0 <= i < |entries| && Ignores(entries[i], m, rx) {
      assert entries[i] in entries;
    } else {
      forall e | e in entries
        ensures !Ignores(e, m, rx)
      {
        var i :| 0 <= i < |entries| && entries[i] == e;
      }
    }
  }

  // ---- the column of model names

  ghost predicate CommaFree(names: seq<string>) {
    forall i :: 0 <= i < |names| ==> ',' !in names[i]
  }

  /** Names read from the column never contain a comma. */
  lemma ModelsCommaFree(row: Row)
    ensures CommaFree(Normalize(Models(row)))
  {
    var ms, l := Models(row), Normalize(Models(row));
    SplitFree(Trim(row.models, ','), ',');
    NormalizeIsNormal(ms);
    TrimAllTrims(ms);
    forall i | 0 <= i < |l|
      ensures ',' !in l[i]
    {
      assert l[i] in l;
      var j :| 0 <= j < |ms| && TrimSpace(ms[j]) == l[i];
      TrimSpaceTrims(ms[j]);
    }
  }

  /** A normal list without commas survives the column. */
  lemma ColumnRoundTrip(names: seq<string>)
    requires IsNormal(names) && CommaFree(names)
    ensures Normalize(ReadBack(Join(names, ','), ',')) == names
  {
    ReadBackIff(names, ',');
    NormalId(names);
  }

  // ---- what a selection does

  /** The selection is drawn from the pending lists, and adding wins over removing. */
  lemma SelectedFacts(row: Row, upstream: seq<string>, input: Selection, rx: Regexp)
    requires Fresh(row, upstream, rx)
    ensures var sel := Selected(row, input);
            && IsNormal(sel.add) && IsNormal(sel.ignore) && IsNormal(sel.remove)
            && (forall x :: x in sel.add ==> x in row.detected)
            && (forall x :: x in sel.ignore ==> x in row.detected)
            && (forall x :: x in sel.remove ==> x in row.removed && x !in sel.add)
  {
    DetectNormal(row, upstream, rx);
    NormalId(row.detected);
    NormalId(row.removed);
    IntersectNormal(input.add, row.detected);
    IntersectNormal(input.ignore, row.detected);
    IntersectNormal(input.remove, row.removed);
    var sel := Selected(row, input);
    SubtractNormal(Intersect(input.remove, row.removed), sel.add);
    DropElems(Intersect(input.remove, row.removed), Elems(sel.add));
  }

  /** A pending name the user asked to add, to ignore or to remove; adding wins over removing. */
  ghost predicate AskedToAdd(row: Row, input: Selection, m: string) {
    m in Normalize(input.add) && m in Normalize(row.detected)
  }

  ghost predicate AskedToIgnore(row: Row, input: Selection, m: string) {
    m in Normalize(input.ignore) && m in Normalize(row.detected)
  }

  ghost predicate AskedToRemove(row: Row, input: Selection, m: string) {
    m in Normalize(input.remove) && m in Normalize(row.removed) && !AskedToAdd(row, input, m)
  }

  /** Exactly the asked and pending names are selected, in the order of the request. */
  lemma SelectedIff(row: Row, input: Selection, m: string)
    ensures m in Selected(row, input).add <==> AskedToAdd(row, input, m)
    ensures m in Selected(row, input).ignore <==> AskedToIgnore(row, input, m)
    ensures m in Selected(row, input).remove <==> AskedToRemove(row, input, m)
  {
    var pendingAdd, pendingRemove := Normalize(row.detected), Normalize(row.removed);
    NormalizeIsNormal(row.detected);
    NormalizeIsNormal(row.removed);
    IntersectNormal(input.add, pendingAdd);
    IntersectNormal(input.ignore, pendingAdd);
    IntersectNormal(input.remove, pendingRemove);
    var add, remove := Intersect(input.add, pendingAdd), Intersect(input.remove, pendingRemove);
    SubtractNormal(remove, add);
    DropElems(remove, Elems(add));
  }

  lemma SelectedInOrder(row: Row, input: Selection)
    ensures var sel := Selected(row, input);
            && IsNormal(sel.add) && IsNormal(sel.ignore) && IsNormal(sel.remove)
            && InOrderOf(sel.add, Normalize(input.add)) && InOrderOf(sel.ignore, Normalize(input.ignore))
            && InOrderOf(sel.remove, Normalize(input.remove))
  {
    var pendingAdd, pendingRemove := Normalize(row.detected), Normalize(row.removed);
    NormalizeIsNormal(row.detected);
    NormalizeIsNormal(row.removed);
    IntersectInOrder(input.add, pendingAdd);
    IntersectInOrder(input.ignore, pendingAdd);
    IntersectInOrder(input.remove, pendingRemove);
    var add, remove := Intersect(input.add, pendingAdd), Intersect(input.remove, pendingRemove);
    SubtractNormal(remove, add);
    DropDrop(Normalize(input.remove), Elems(Normalize(input.remove)) - Elems(pendingRemove), Elems(add));
    DropInOrder(Normalize(input.remove), Elems(Normalize(input.remove)) - Elems(pendingRemove) + Elems(add));
  }

  lemma IntersectInOrder(base: seq<string>, allowed: seq<string>)
    requires IsNormal(allowed)
    ensures IsNormal(Intersect(base, allowed)) && InOrderOf(Intersect(base, allowed), Normalize(base))
    ensures Intersect(base, allowed) == Drop(Normalize(base), Elems(Normalize(base)) - Elems(allowed))
  {
    IntersectNormal(base, allowed);
    NormalId(allowed);
    DropInOrder(Normalize(base), Elems(Normalize(base)) - Elems(allowed));
  }

  /** What a saved selection leaves in the row, in terms of the request and the old row. */
  ghost predicate Carries(row: Row, input: Selection, now: int, after: Row) {
    && (forall m :: m in Normalize(after.ignored) <==>
          (m in Normalize(row.ignored) || AskedToIgnore(row, input, m)) && !AskedToAdd(row, input, m))
    && (forall m :: m in after.detected <==>
          m in Normalize(row.detected) && m !in Normalize(input.add) && m !in Normalize(input.ignore))
    && (forall m :: m in after.removed <==> m in Normalize(row.removed) && !AskedToRemove(row, input, m))
    && InOrderOf(after.detected, Normalize(row.detected)) && InOrderOf(after.removed, Normalize(row.removed))
    && after.lastCheck == now && after.autoSync == row.autoSync && after.mapping == row.mapping
  }

  lemma AppliedCarries(row: Row, input: Selection, now: int)
    ensures Carries(row, input, now, Applied(row, input, now))
  {
    var sel, after := Selected(row, input), Applied(row, input, now);
    var pendingAdd, pendingRemove := Normalize(row.detected), Normalize(row.removed);
    SelectedInOrder(row, input);
    NormalizeIsNormal(row.detected);
    NormalizeIsNormal(row.removed);
    NextIgnoredElems(row, sel);
    RemainingOf(pendingAdd, sel.add, sel.ignore);
    SubtractNormal(pendingRemove, sel.remove);
    DropElems(pendingRemove, Elems(sel.remove));
    DropInOrder(pendingRemove, Elems(sel.remove));
    forall m
      ensures m in sel.add <==> AskedToAdd(row, input, m)
      ensures m in sel.ignore <==> AskedToIgnore(row, input, m)
      ensures m in sel.remove <==> AskedToRemove(row, input, m)
    {
      SelectedIff(row, input, m);
    }
  }

  lemma RemainingOf(pending: seq<string>, add: seq<string>, ignore: seq<string>)
    requires IsNormal(pending) && IsNormal(add) && IsNormal(ignore)
    ensures var left := Subtract(pending, add + ignore);
            InOrderOf(left, pending) && forall m :: m in left <==> m in pending && m !in add && m !in ignore
  {
    var out := add + ignore;
    NormalId(pending);
    TrimAllId(out);
    UniqElems(out);
    DropElems(pending, Elems(Normalize(out)));
    DropInOrder(pending, Elems(Normalize(out)));
  }

  /** The model column after a saved selection: the names of the next list, split at their commas; and the next
      list holds the local names not asked to be removed and the asked additions. */
  lemma AppliedModels(row: Row, input: Selection, now: int, m: string)
    ensures var next := NextModels(row, Selected(row, input));
            && Normalize(Models(Applied(row, input, now))) == Pieces(next)
            && (m in next <==> (m in Normalize(Models(row)) && !AskedToRemove(row, input, m)) || AskedToAdd(row, input, m))
  {
    var sel, l := Selected(row, input), Normalize(Models(row));
    var next := NextModels(row, sel);
    SelectedInOrder(row, input);
    SelectedIff(row, input, m);
    NormalizeIsNormal(Models(row));
    NextElems(l, sel.add, sel.remove, m);
    ColumnPieces(next);
    if next == l {
      ModelsCommaFree(row);
      PiecesCommaFree(l);
    }
    forall x | x in sel.remove
      ensures x !in sel.add
    {
      SelectedIff(row, input, x);
    }
  }

  lemma NextElems(l: seq<string>, add: seq<string>, remove: seq<string>, m: string)
    requires IsNormal(l) && IsNormal(add) && IsNormal(remove)
    ensures m in ApplySelected(l, add, remove) <==> (m in l || m in add) && !(m in remove && m !in add)
  {
    NormalId(add);
    NormalId(remove);
    SubtractNormal(remove, add);
    DropElems(remove, Elems(add));
    MergedElems(l, add);
    NormalId(l);
    SubtractNormal(Merge(l, add), Drop(remove, Elems(add)));
    DropElems(Merge(l, add), Elems(Drop(remove, Elems(add))));
  }

  /** The new model list is the old one without the removed names, then the added names. */
  lemma NextModelsShape(row: Row, upstream: seq<string>, input: Selection, rx: Regexp)
    requires Fresh(row, upstream, rx)
    ensures var sel, l := Selected(row, input), Normalize(Models(row));
            && NextModels(row, sel) == Drop(l, Elems(sel.remove)) + sel.add
            && IsNormal(NextModels(row, sel))
  {
    var sel, l, u := Selected(row, input), Normalize(Models(row)), Normalize(upstream);
    SelectedFacts(row, upstream, input, rx);
    DetectNormal(row, upstream, rx);
    DropElems(u, Elems(l) + row.mapping.Values + Ignored(u, Normalize(row.ignored), rx));
    NormalId(l);
    NormalId(sel.add);
    NormalId(sel.remove);
    SubtractNormal(sel.remove, sel.add);
    DropNone(sel.remove, Elems(sel.add));
    MergeNormal(l, sel.add);
    DropNone(sel.add, Elems(l));
    SubtractNormal(l + sel.add, sel.remove);
    DropAppend(l, sel.add, Elems(sel.remove));
    DropNone(sel.add, Elems(sel.remove));
  }

  lemma MergedElems(base: seq<string>, extra: seq<string>)
    requires IsNormal(extra)
    ensures IsNormal(Merge(base, extra))
    ensures forall x :: x in Merge(base, extra) <==> x in Normalize(base) || x in extra
  {
    var b := Normalize(base);
    NormalizeIsNormal(base);
    NormalId(b);
    MergeNormal(b, extra);
    DropElems(extra, Elems(b));
  }

  lemma NextIgnoredElems(row: Row, sel: Selection)
    requires IsNormal(sel.add) && IsNormal(sel.ignore)
    ensures var before, next := Normalize(row.ignored), Normalize(NextIgnored(row, sel));
            forall x :: x in next <==> (x in before || x in sel.ignore) && x !in sel.add
  {
    MergedElems(row.ignored, sel.ignore);
    var merged := Merge(row.ignored, sel.ignore);
    SubtractNormal(merged, sel.add);
    DropElems(merged, Elems(sel.add));
    NormalId(NextIgnored(row, sel));
  }

  // ---- the model list after a selection

  lemma {:induction false} TrimAllAppend(xs: seq<string>, ys: seq<string>)
    ensures TrimAll(xs + ys) == TrimAll(xs) + TrimAll(ys)
  {
    if ys == [] {
      assert xs + ys == xs;
    } else {
      TrimAllAppend(xs, ys[..|ys| - 1]);
      assert (xs + ys)[..|xs + ys| - 1] == xs + ys[..|ys| - 1];
    }
  }

  lemma TrimAllEmpty()
    ensures TrimAll([""]) == []
  {
    assert [""][..0] == [];
  }

  lemma {:induction false} TrimLeftPieces(s: string, c: char)
    ensures TrimAll(Split(TrimLeft(s, c), c)) == TrimAll(Split(s, c))
  {
    if s != "" && s[0] == c {
      TrimLeftPieces(s[1..], c);
      TrimAllAppend([""], Split(s[1..], c));
      TrimAllEmpty();
    }
  }

  lemma {:induction false} TrimRightPieces(s: string, c: char)
    ensures TrimAll(Split(TrimRight(s, c), c)) == TrimAll(Split(s, c))
  {
    if s != "" && s[|s| - 1] == c {
      var front := s[..|s| - 1];
      TrimRightPieces(front, c);
      SplitConcat(front, "", c);
      assert front + [c] + "" == s;
      TrimAllAppend(Split(front, c), [""]);
      TrimAllEmpty();
    }
  }

  /** The names a list becomes in the comma-joined column. */
  function Pieces(names: seq<string>): seq<string> {
    Normalize(SplitAll(names, ','))
  }

  lemma ColumnPieces(names: seq<string>)
    ensures Normalize(ReadBack(Join(names, ','), ',')) == Pieces(names)
  {
    var s := Join(names, ',');
    if names != [] {
      SplitJoinAll(names, ',');
      if s == "" {
        TrimAllEmpty();
      } else {
        TrimLeftPieces(s, ',');
        TrimRightPieces(TrimLeft(s, ','), ',');
      }
    }
  }

  lemma PiecesCommaFree(names: seq<string>)
    ensures CommaFree(Pieces(names))
    ensures IsNormal(names) && CommaFree(names) ==> Pieces(names) == names
  {
    var all, ps := SplitAll(names, ','), Pieces(names);
    SplitAllIsFree(names, ',');
    NormalizeIsNormal(all);
    TrimAllTrims(all);
    forall i | 0 <= i < |ps|
      ensures ',' !in ps[i]
    {
      assert ps[i] in ps;
      var j :| 0 <= j < |all| && TrimSpace(all[j]) == ps[i];
      TrimSpaceTrims(all[j]);
    }
    if IsNormal(names) && CommaFree(names) {
      SplitAllFree(names, ',');
      NormalId(names);
    }
  }

  lemma NormalizeAppend(kept: seq<string>, more: seq<string>)
    requires IsNormal(kept)
    ensures Normalize(kept + more) == kept + Drop(Normalize(more), Elems(kept))
  {
    TrimAllAppend(kept, more);
    TrimAllId(kept);
    UniqAppend(kept, TrimAll(more));
    UniqId(kept);
  }

  /** The column after a selection: the kept names, then the new pieces of the added ones. */
  lemma ColumnAfter(kept: seq<string>, add: seq<string>)
    requires IsNormal(kept) && CommaFree(kept)
    ensures Normalize(ReadBack(Join(kept + add, ','), ',')) == kept + Drop(Pieces(add), Elems(kept))
  {
    ColumnPieces(kept + add);
    SplitAllAppend(kept, add, ',');
    SplitAllFree(kept, ',');
    NormalizeAppend(kept, SplitAll(add, ','));
  }

  function KeptModels(row: Row, sel: Selection): seq<string> {
    Drop(Normalize(Models(row)), Elems(sel.remove))
  }

  lemma KeptModelsNormal(row: Row, sel: Selection)
    ensures IsNormal(KeptModels(row, sel)) && CommaFree(KeptModels(row, sel))
  {
    var l, kept := Normalize(Models(row)), KeptModels(row, sel);
    NormalizeIsNormal(Models(row));
    DropNormal(l, Elems(sel.remove));
    DropElems(l, Elems(sel.remove));
    ModelsCommaFree(row);
    forall i | 0 <= i < |kept|
      ensures ',' !in kept[i]
    {
      assert kept[i] in kept && kept[i] in l;
    }
  }

  /** A pending name is an upstream name that is not local, not the target of a redirect and not ignored. */
  lemma PendingFacts(row: Row, upstream: seq<string>, rx: Regexp, m: string)
    requires Fresh(row, upstream, rx)
    ensures m in row.detected <==>
            && m in Normalize(upstream) && m !in Normalize(Models(row)) && m !in row.mapping.Values
            && !IgnoredBy(Normalize(row.ignored), m, rx)
    ensures m in row.removed <==>
            m in Normalize(Models(row)) && m !in row.mapping.Keys && m !in Normalize(upstream)
  {
    DetectsIff(row, upstream, rx, m);
    IgnoredMeans(Normalize(row.ignored), m, rx);
  }

  /** The model list read back after applying a selection. */
  lemma ModelsAfter(row: Row, upstream: seq<string>, input: Selection, now: int, rx: Regexp)
    requires Fresh(row, upstream, rx)
    ensures var sel := Selected(row, input); var kept := KeptModels(row, sel);
            Normalize(Models(Applied(row, input, now))) == kept + Drop(Pieces(sel.add), Elems(kept))
  {
    var sel, l := Selected(row, input), Normalize(Models(row));
    var kept := KeptModels(row, sel);
    NextModelsShape(row, upstream, input, rx);
    KeptModelsNormal(row, sel);
    ColumnAfter(kept, sel.add);
    if kept + sel.add == l {
      NothingAdded(row, upstream, input, rx);
      assert Pieces([]) == [];
    }
  }

  lemma NothingAdded(row: Row, upstream: seq<string>, input: Selection, rx: Regexp)
    requires Fresh(row, upstream, rx)
    requires var sel := Selected(row, input); KeptModels(row, sel) + sel.add == Normalize(Models(row))
    ensures Selected(row, input).add == []
  {
    var sel := Selected(row, input);
    SelectedFacts(row, upstream, input, rx);
    if sel.add != [] {
      var a := sel.add[0];
      assert a in sel.add && a in KeptModels(row, sel) + sel.add;
      PendingFacts(row, upstream, rx, a);
    }
  }

  // ---- exactly when the stored lists stay what a fresh detection would report

  /** An ignore rule that is there after the selection. */
  predicate KeptRule(row: Row, sel: Selection, e: string) {
    (e in Normalize(row.ignored) || e in sel.ignore) && e !in sel.add
  }

  ghost predicate KeptIgnores(row: Row, sel: Selection, rx: Regexp, m: string) {
    exists e :: KeptRule(row, sel, e) && Ignores(e, m, rx)
  }

  lemma KeptIgnoresIff(row: Row, sel: Selection, rx: Regexp, m: string)
    requires IsNormal(sel.add) && IsNormal(sel.ignore)
    ensures KeptIgnores(row, sel, rx, m) <==> IgnoredBy(Normalize(NextIgnored(row, sel)), m, rx)
  {
    NextIgnoredElems(row, sel);
    SameRules(row, sel, rx, Normalize(NextIgnored(row, sel)), m);
  }

  lemma SameRules(row: Row, sel: Selection, rx: Regexp, rules: seq<string>, m: string)
    requires forall x :: x in rules <==> KeptRule(row, sel, x)
    ensures KeptIgnores(row, sel, rx, m) <==> IgnoredBy(rules, m, rx)
  {
    if e :| KeptRule(row, sel, e) && Ignores(e, m, rx) {
      IgnoredByEntry(rules, e, m, rx);
    }
    if i :| 0 <= i < |rules| && Ignores(rules[i], m, rx) {
      assert rules[i] in rules;
    }
  }

  lemma IgnoredByEntry(entries: seq<string>, e: string, m: string, rx: Regexp)
    requires e in entries && Ignores(e, m, rx)
    ensures IgnoredBy(entries, m, rx)
  {
    var i :| 0 <= i < |entries| && entries[i] == e;
    assert Ignores(entries[i], m, rx);
  }

  /** The user or an ignore rule took the name off the pending list. */
  predicate TakenOff(row: Row, sel: Selection, rx: Regexp, m: string) {
    m in sel.add || m in sel.ignore || IgnoredBy(Normalize(row.ignored), m, rx)
  }

  /** A detection after the selection would not report the name either. */
  ghost predicate Unreported(row: Row, sel: Selection, rx: Regexp, m: string) {
    m in Pieces(sel.add) || KeptIgnores(row, sel, rx, m)
  }

  predicate Candidate(row: Row, upstream: seq<string>, m: string) {
    m in Normalize(upstream) && m !in Normalize(Models(row)) && m !in row.mapping.Values
  }

  /** A piece of an added name that a detection would not want to remove again. */
  predicate Stable(row: Row, upstream: seq<string>, sel: Selection, p: string) {
    p in KeptModels(row, sel) || p in row.mapping.Keys || p in Normalize(upstream)
  }

  /** What a caller has to check: every piece of an added name is stable, and exactly the names taken off the
      pending list are covered by pieces or kept rules. */
  ghost predicate StaysFresh(row: Row, upstream: seq<string>, sel: Selection, rx: Regexp) {
    && (forall p :: p in Pieces(sel.add) ==> Stable(row, upstream, sel, p))
    && (forall m :: Candidate(row, upstream, m) ==> (TakenOff(row, sel, rx, m) <==> Unreported(row, sel, rx, m)))
  }

  lemma StoredAfter(row: Row, upstream: seq<string>, input: Selection, now: int, rx: Regexp)
    requires Fresh(row, upstream, rx)
    ensures var sel, row' := Selected(row, input), Applied(row, input, now);
            var u, l := Normalize(upstream), Normalize(Models(row));
            && row'.detected == Drop(u, Elems(l) + row.mapping.Values + Ignored(u, Normalize(row.ignored), rx)
                                        + (Elems(sel.add) + Elems(sel.ignore)))
            && row'.removed == Drop(KeptModels(row, sel), row.mapping.Keys + Elems(u))
  {
    var sel := Selected(row, input);
    var u, l := Normalize(upstream), Normalize(Models(row));
    var out, gone := sel.add + sel.ignore, row.mapping.Keys + Elems(u);
    SelectedFacts(row, upstream, input, rx);
    DetectNormal(row, upstream, rx);
    NormalId(row.detected);
    NormalId(row.removed);
    TrimAllId(out);
    UniqElems(out);
    DropAgree(row.detected, Elems(Normalize(out)), Elems(sel.add) + Elems(sel.ignore));
    SubtractNormal(row.removed, sel.remove);
    DropDrop(u, Elems(l) + row.mapping.Values + Ignored(u, Normalize(row.ignored), rx), Elems(sel.add) + Elems(sel.ignore));
    DropSwap(l, gone, Elems(sel.remove));
  }

  lemma DropSwap(xs: seq<string>, s: set<string>, t: set<string>)
    ensures Drop(Drop(xs, s), t) == Drop(Drop(xs, t), s)
  {
    DropDrop(xs, s, t);
    DropDrop(xs, t, s);
    DropAgree(xs, s + t, t + s);
  }

  lemma {:induction false} DropDiffers(xs: seq<string>, s: set<string>, t: set<string>)
    ensures Drop(xs, s) == Drop(xs, t) <==> forall x :: x in xs ==> (x in s <==> x in t)
  {
    DropElems(xs, s);
    DropElems(xs, t);
    if forall x :: x in xs ==> (x in s <==> x in t) {
      DropAgree(xs, s, t);
    }
  }

  lemma DropEmptyIff(xs: seq<string>, s: set<string>)
    ensures Drop(xs, s) == [] <==> forall x :: x in xs ==> x in s
  {
    DropElems(xs, s);
    SomeElem(Drop(xs, s));
    if forall x :: x in xs ==> x in s {
      DropAll(xs, s);
    }
  }

  /** The stored removals are fresh exactly when every piece of an added name is stable. */
  lemma RemovalsFreshIff(row: Row, upstream: seq<string>, input: Selection, now: int, rx: Regexp)
    requires Fresh(row, upstream, rx)
    ensures var sel, row' := Selected(row, input), Applied(row, input, now);
            row'.removed == DetectRemove(row', upstream) <==>
            forall p :: p in Pieces(sel.add) ==> Stable(row, upstream, sel, p)
  {
    var sel, row' := Selected(row, input), Applied(row, input, now);
    var kept, gone := KeptModels(row, sel), row.mapping.Keys + Elems(Normalize(upstream));
    var extra := Drop(Pieces(sel.add), Elems(kept));
    ModelsAfter(row, upstream, input, now, rx);
    DetectNormal(row', upstream, rx);
    StoredAfter(row, upstream, input, now, rx);
    DropAppend(kept, extra, gone);
    DropDrop(Pieces(sel.add), Elems(kept), gone);
    DropEmptyIff(Pieces(sel.add), Elems(kept) + gone);
    assert Drop(kept, gone) == Drop(kept, gone) + Drop(extra, gone) <==> Drop(extra, gone) == [];
  }

  /** What the stored list of additions was filtered by, and what a detection afterwards filters by. */
  function StoredFilter(row: Row, upstream: seq<string>, sel: Selection, rx: Regexp): set<string> {
    var u := Normalize(upstream);
    Elems(Normalize(Models(row))) + row.mapping.Values + Ignored(u, Normalize(row.ignored), rx)
    + (Elems(sel.add) + Elems(sel.ignore))
  }

  function DetectFilter(row: Row, upstream: seq<string>, row': Row, rx: Regexp): set<string> {
    var u := Normalize(upstream);
    Elems(Normalize(Models(row'))) + row.mapping.Values + Ignored(u, Normalize(row'.ignored), rx)
  }

  lemma FiltersAgreeOn(row: Row, upstream: seq<string>, input: Selection, now: int, rx: Regexp, m: string)
    requires Fresh(row, upstream, rx) && m in Normalize(upstream)
    ensures var sel, row' := Selected(row, input), Applied(row, input, now);
            (m in StoredFilter(row, upstream, sel, rx) <==> m in DetectFilter(row, upstream, row', rx)) <==>
            (Candidate(row, upstream, m) ==> (TakenOff(row, sel, rx, m) <==> Unreported(row, sel, rx, m)))
  {
    var sel, row' := Selected(row, input), Applied(row, input, now);
    LocalAfter(row, upstream, input, now, rx, m);
    RulesAfter(row, upstream, input, now, rx, m);
    InStoredFilter(row, upstream, sel, rx, m);
    assert m in DetectFilter(row, upstream, row', rx) <==>
           m in Normalize(Models(row)) || m in row.mapping.Values || Unreported(row, sel, rx, m);
  }

  lemma InStoredFilter(row: Row, upstream: seq<string>, sel: Selection, rx: Regexp, m: string)
    requires m in Normalize(upstream)
    ensures m in StoredFilter(row, upstream, sel, rx) <==>
            m in Normalize(Models(row)) || m in row.mapping.Values || TakenOff(row, sel, rx, m)
  {
  }

  /** Which upstream names are local after the selection. */
  lemma LocalAfter(row: Row, upstream: seq<string>, input: Selection, now: int, rx: Regexp, m: string)
    requires Fresh(row, upstream, rx) && m in Normalize(upstream)
    ensures m in Normalize(Models(Applied(row, input, now))) <==>
            m in Normalize(Models(row)) || m in Pieces(Selected(row, input).add)
  {
    var sel := Selected(row, input);
    var l, kept := Normalize(Models(row)), KeptModels(row, sel);
    SelectedFacts(row, upstream, input, rx);
    PendingFacts(row, upstream, rx, m);
    ModelsAfter(row, upstream, input, now, rx);
    DropElems(l, Elems(sel.remove));
    DropElems(Pieces(sel.add), Elems(kept));
  }

  lemma RulesAfter(row: Row, upstream: seq<string>, input: Selection, now: int, rx: Regexp, m: string)
    requires Fresh(row, upstream, rx) && m in Normalize(upstream)
    ensures m in Ignored(Normalize(upstream), Normalize(Applied(row, input, now).ignored), rx) <==>
            KeptIgnores(row, Selected(row, input), rx, m)
  {
    SelectedFacts(row, upstream, input, rx);
    KeptIgnoresIff(row, Selected(row, input), rx, m);
  }

  lemma AdditionsFreshIff(row: Row, upstream: seq<string>, input: Selection, now: int, rx: Regexp)
    requires Fresh(row, upstream, rx)
    ensures var sel, row' := Selected(row, input), Applied(row, input, now);
            row'.detected == DetectAdd(row', upstream, rx) <==>
            forall m :: Candidate(row, upstream, m) ==> (TakenOff(row, sel, rx, m) <==> Unreported(row, sel, rx, m))
  {
    var sel, row' := Selected(row, input), Applied(row, input, now);
    var u := Normalize(upstream);
    StoredAfter(row, upstream, input, now, rx);
    DetectNormal(row', upstream, rx);
    DropDiffers(u, StoredFilter(row, upstream, sel, rx), DetectFilter(row, upstream, row', rx));
    forall m | m in u
      ensures (m in StoredFilter(row, upstream, sel, rx) <==> m in DetectFilter(row, upstream, row', rx)) <==>
              (Candidate(row, upstream, m) ==> (TakenOff(row, sel, rx, m) <==> Unreported(row, sel, rx, m)))
    {
      FiltersAgreeOn(row, upstream, input, now, rx, m);
    }
  }

  /** For every selection, with commas and "regex:" names or without: the stored remaining lists equal, as
      ordered sequences, a fresh detection exactly when the inputs meet `StaysFresh`. */
  lemma FreshIff(row: Row, upstream: seq<string>, input: Selection, now: int, rx: Regexp)
    requires Fresh(row, upstream, rx)
    ensures Fresh(Applied(row, input, now), upstream, rx) <==> StaysFresh(row, upstream, Selected(row, input), rx)
  {
    RemovalsFreshIff(row, upstream, input, now, rx);
    AdditionsFreshIff(row, upstream, input, now, rx);
  }

  // ---- selections without commas

  /** For a name that is not added: the kept rules ignore it exactly when the old ones did or it is selected
      to be ignored. */
  ghost predicate RulesAgreeOn(row: Row, sel: Selection, rx: Regexp, m: string) {
    KeptIgnores(row, sel, rx, m) <==> IgnoredBy(Normalize(row.ignored), m, rx) || m in sel.ignore
  }

  ghost predicate IgnoreRulesAgree(row: Row, upstream: seq<string>, sel: Selection, rx: Regexp) {
    forall m :: Candidate(row, upstream, m) && m !in sel.add ==> RulesAgreeOn(row, sel, rx, m)
  }

  /** The three ways in which they can fail to: a selected "regex:" name no kept rule matches, a new "regex:"
      rule that matches other names, and a rule that leaves because it is added and was the only match. */
  lemma RulesAgreeIff(row: Row, sel: Selection, rx: Regexp, m: string)
    requires m !in sel.add
    ensures RulesAgreeOn(row, sel, rx, m) <==>
            && (m in sel.ignore && IsRegex(m) ==> KeptIgnores(row, sel, rx, m))
            && (forall r :: r in sel.ignore && r !in sel.add && IsRegex(r) && Ignores(r, m, rx) ==>
                  IgnoredBy(Normalize(row.ignored), m, rx) || m in sel.ignore)
            && (forall a :: a in sel.add && a in Normalize(row.ignored) && Ignores(a, m, rx) ==> KeptIgnores(row, sel, rx, m))
  {
    var before := Normalize(row.ignored);
    if m in sel.ignore && !IsRegex(m) {
      assert KeptRule(row, sel, m) && Ignores(m, m, rx);
    }
    if i :| 0 <= i < |before| && Ignores(before[i], m, rx) {
      assert before[i] in before;
      assert before[i] in sel.add || KeptRule(row, sel, before[i]);
    }
    forall a | a in sel.add && a in before && Ignores(a, m, rx)
      ensures IgnoredBy(before, m, rx)
    {
      IgnoredByEntry(before, a, m, rx);
    }
    forall r | r in sel.ignore && r !in sel.add && Ignores(r, m, rx)
      ensures KeptIgnores(row, sel, rx, m)
    {
      assert KeptRule(row, sel, r);
    }
    if e :| KeptRule(row, sel, e) && Ignores(e, m, rx) {
      if e in before {
        IgnoredByEntry(before, e, m, rx);
      }
    }
  }

  /** For comma-free additions the stored lists stay fresh exactly when the rules agree. */
  lemma CommaFreeFreshIff(row: Row, upstream: seq<string>, input: Selection, now: int, rx: Regexp)
    requires Fresh(row, upstream, rx) && CommaFree(Selected(row, input).add)
    ensures Fresh(Applied(row, input, now), upstream, rx) <==> IgnoreRulesAgree(row, upstream, Selected(row, input), rx)
  {
    var sel := Selected(row, input);
    FreshIff(row, upstream, input, now, rx);
    SelectedFacts(row, upstream, input, rx);
    PiecesCommaFree(sel.add);
    forall p | p in sel.add
      ensures Stable(row, upstream, sel, p)
    {
      PendingFacts(row, upstream, rx, p);
    }
  }

  ghost predicate NoRegexSelected(sel: Selection) {
    && (forall x :: x in sel.add ==> !IsRegex(x))
    && (forall x :: x in sel.ignore ==> !IsRegex(x))
  }

  /** Names that do not start with "regex:" enter and leave the ignore list as literal names only. */
  lemma LiteralSelectionAgrees(row: Row, upstream: seq<string>, sel: Selection, rx: Regexp)
    requires NoRegexSelected(sel)
    ensures IgnoreRulesAgree(row, upstream, sel, rx)
  {
    forall m | Candidate(row, upstream, m) && m !in sel.add
      ensures RulesAgreeOn(row, sel, rx, m)
    {
      RulesAgreeIff(row, sel, rx, m);
    }
  }

  /** An added name with a comma is torn apart by the column: unless a kept rule ignores it, the next detection
      reports it again although the stored list no longer holds it. */
  lemma CommaBreaksFreshness(row: Row, upstream: seq<string>, input: Selection, now: int, rx: Regexp, a: string)
    requires Fresh(row, upstream, rx) && a in Selected(row, input).add && ',' in a
    requires !KeptIgnores(row, Selected(row, input), rx, a)
    ensures !Fresh(Applied(row, input, now), upstream, rx)
  {
    var sel := Selected(row, input);
    FreshIff(row, upstream, input, now, rx);
    SelectedFacts(row, upstream, input, rx);
    PendingFacts(row, upstream, rx, a);
    PiecesCommaFree(sel.add);
    assert a !in Pieces(sel.add);
    assert Candidate(row, upstream, a) && TakenOff(row, sel, rx, a) && !Unreported(row, sel, rx, a);
  }

  /** An added name is ignored by no literal rule that is kept. */
  lemma AddedNotIgnored(row: Row, upstream: seq<string>, input: Selection, rx: Regexp, a: string)
    requires Fresh(row, upstream, rx) && NoRegexSelected(Selected(row, input)) && a in Selected(row, input).add
    ensures !KeptIgnores(row, Selected(row, input), rx, a)
  {
    var sel := Selected(row, input);
    SelectedFacts(row, upstream, input, rx);
    PendingFacts(row, upstream, rx, a);
    if e :| KeptRule(row, sel, e) && Ignores(e, a, rx) && e in Normalize(row.ignored) {
      IgnoredByEntry(Normalize(row.ignored), e, a, rx);
    }
  }

  /** For every user selection free of "regex:" names, the stored remaining lists equal, as ordered
      sequences, a fresh detection exactly when no added name contains a comma. */
  lemma RemainingIsFreshDetection(row: Row, upstream: seq<string>, input: Selection, now: int, rx: Regexp)
    requires Fresh(row, upstream, rx) && NoRegexSelected(Selected(row, input))
    ensures Fresh(Applied(row, input, now), upstream, rx) <==> CommaFree(Selected(row, input).add)
  {
    var sel := Selected(row, input);
    if CommaFree(sel.add) {
      LiteralSelectionAgrees(row, upstream, sel, rx);
      CommaFreeFreshIff(row, upstream, input, now, rx);
    } else {
      var i :| 0 <= i < |sel.add| && ',' in sel.add[i];
      AddedNotIgnored(row, upstream, input, rx, sel.add[i]);
      CommaBreaksFreshness(row, upstream, input, now, rx, sel.add[i]);
    }
  }

  /** Automatic synchronisation appends every pending name to the column. */
  lemma AutoAdded(row: Row, upstream: seq<string>, now: int, rx: Regexp)
    requires row.autoSync && DetectAdd(row, upstream, rx) != []
    ensures var l, adds := Normalize(Models(row)), DetectAdd(row, upstream, rx);
            && Checked(row, upstream, true, now, rx).models == Join(l + adds, ',')
            && IsNormal(l + adds)
  {
    var u, l, adds := Normalize(upstream), Normalize(Models(row)), DetectAdd(row, upstream, rx);
    DetectNormal(row, upstream, rx);
    DropElems(u, Elems(l) + row.mapping.Values + Ignored(u, Normalize(row.ignored), rx));
    MergeNormal(l, adds);
    DropNone(adds, Elems(l));
  }

  lemma AutoAddedFresh(row: Row, upstream: seq<string>, now: int, rx: Regexp)
    requires row.autoSync && DetectAdd(row, upstream, rx) != [] && CommaFree(DetectAdd(row, upstream, rx))
    ensures Fresh(Checked(row, upstream, true, now, rx), upstream, rx)
  {
    AutoAddedModels(row, upstream, now, rx);
    AutoAddedNoAdds(row, upstream, now, rx);
    AutoAddedRemoves(row, upstream, now, rx);
  }

  lemma AutoAddedModels(row: Row, upstream: seq<string>, now: int, rx: Regexp)
    requires row.autoSync && DetectAdd(row, upstream, rx) != [] && CommaFree(DetectAdd(row, upstream, rx))
    ensures Normalize(Models(Checked(row, upstream, true, now, rx))) == Normalize(Models(row)) + DetectAdd(row, upstream, rx)
  {
    AutoAdded(row, upstream, now, rx);
    ModelsCommaFree(row);
    ColumnRoundTrip(Normalize(Models(row)) + DetectAdd(row, upstream, rx));
  }

  lemma AutoAddedNoAdds(row: Row, upstream: seq<string>, now: int, rx: Regexp)
    requires row.autoSync && DetectAdd(row, upstream, rx) != []
    requires Normalize(Models(Checked(row, upstream, true, now, rx))) == Normalize(Models(row)) + DetectAdd(row, upstream, rx)
    ensures DetectAdd(Checked(row, upstream, true, now, rx), upstream, rx) == []
  {
    var u, l, adds := Normalize(upstream), Normalize(Models(row)), DetectAdd(row, upstream, rx);
    var covered, rules := row.mapping.Values, Ignored(u, Normalize(row.ignored), rx);
    DetectNormal(row, upstream, rx);
    DetectNormal(Checked(row, upstream, true, now, rx), upstream, rx);
    DropElems(u, Elems(l) + covered + rules);
    forall m | m in u
      ensures m in Elems(l + adds) + covered + rules
    {
      assert m in adds || m in Elems(l) + covered + rules;
    }
    DropAll(u, Elems(l + adds) + covered + rules);
  }

  lemma AutoAddedRemoves(row: Row, upstream: seq<string>, now: int, rx: Regexp)
    requires row.autoSync && DetectAdd(row, upstream, rx) != []
    requires Normalize(Models(Checked(row, upstream, true, now, rx))) == Normalize(Models(row)) + DetectAdd(row, upstream, rx)
    ensures DetectRemove(Checked(row, upstream, true, now, rx), upstream) == DetectRemove(row, upstream)
  {
    var u, l, adds := Normalize(upstream), Normalize(Models(row)), DetectAdd(row, upstream, rx);
    var gone := row.mapping.Keys + Elems(u);
    DetectNormal(row, upstream, rx);
    DetectNormal(Checked(row, upstream, true, now, rx), upstream, rx);
    DropElems(u, Elems(l) + row.mapping.Values + Ignored(u, Normalize(row.ignored), rx));
    DropAppend(l, adds, gone);
    DropAll(adds, gone);
  }

  lemma AutoAddedStale(row: Row, upstream: seq<string>, now: int, rx: Regexp, a: string)
    requires row.autoSync && a in DetectAdd(row, upstream, rx) && ',' in a
    ensures a in DetectAdd(Checked(row, upstream, true, now, rx), upstream, rx)
  {
    var u, l := Normalize(upstream), Normalize(Models(row));
    var row' := Checked(row, upstream, true, now, rx);
    var l' := Normalize(Models(row'));
    ModelsCommaFree(row');
    assert a !in l';
    DetectNormal(row, upstream, rx);
    DetectNormal(row', upstream, rx);
    DropElems(u, Elems(l) + row.mapping.Values + Ignored(u, Normalize(row.ignored), rx));
    DropElems(u, Elems(l') + row.mapping.Values + Ignored(u, Normalize(row.ignored), rx));
  }

  /** A check leaves fresh lists exactly when it did not add a name with a comma on its own. */
  lemma CheckIsFresh(row: Row, upstream: seq<string>, allowAuto: bool, now: int, rx: Regexp)
    ensures Fresh(Checked(row, upstream, allowAuto, now, rx), upstream, rx) <==>
            !(allowAuto && row.autoSync) || CommaFree(DetectAdd(row, upstream, rx))
  {
    var adds := DetectAdd(row, upstream, rx);
    if allowAuto && row.autoSync && adds != [] {
      if CommaFree(adds) {
        AutoAddedFresh(row, upstream, now, rx);
      } else {
        var i :| 0 <= i < |adds| && ',' in adds[i];
        AutoAddedStale(row, upstream, now, rx, adds[i]);
      }
    }
  }

  /** A "regex:" name selected to be ignored, and matched by no kept rule, stays pending although the
      stored list drops it: names and patterns share one list. */
  lemma RegexNameStaysPending(row: Row, upstream: seq<string>, input: Selection, now: int, rx: Regexp, r: string)
    requires Fresh(row, upstream, rx) && r in Selected(row, input).ignore && r !in Pieces(Selected(row, input).add)
    requires !KeptIgnores(row, Selected(row, input), rx, r)
    ensures !Fresh(Applied(row, input, now), upstream, rx)
  {
    var sel := Selected(row, input);
    FreshIff(row, upstream, input, now, rx);
    SelectedFacts(row, upstream, input, rx);
    PendingFacts(row, upstream, rx, r);
    assert Candidate(row, upstream, r) && TakenOff(row, sel, rx, r) && !Unreported(row, sel, rx, r);
  }

  /** A channel whose only pending change is one new name. */
  function OnePending(name: string): Row {
    Row("", [], [name], [], 0, false, map[])
  }

  function NoMatch(): Regexp {
    (body, m) => false
  }

  lemma OnePendingDetects(name: string)
    requires IsNormal([name])
    ensures DetectAdd(OnePending(name), [name], NoMatch()) == [name]
  {
    NormalId([name]);
    DetectNormal(OnePending(name), [name], NoMatch());
    NothingIgnored([name]);
    NothingLocal(name);
    DropNone([name], Elems(Normalize(Models(OnePending(name)))) + OnePending(name).mapping.Values
                     + Ignored([name], Normalize(OnePending(name).ignored), NoMatch()));
  }

  lemma NothingIgnored(names: seq<string>)
    ensures Ignored(names, Normalize([]), NoMatch()) == {}
  {
    NormalId([]);
  }

  lemma NothingLocal(name: string)
    ensures Normalize(Models(OnePending(name))) == []
  {
    NormalId([]);
  }

  lemma OnePendingFresh(name: string)
    requires IsNormal([name])
    ensures Fresh(OnePending(name), [name], NoMatch())
  {
    OnePendingDetects(name);
    NothingLocal(name);
    NormalId([]);
  }

  lemma IntersectOne(name: string)
    requires IsNormal([name])
    ensures Intersect([], [name]) == [] && Intersect([name], [name]) == [name] && Intersect([], []) == []
  {
    NormalId([name]);
    NormalId([]);
    DropNone([name], Elems([name]) - Elems([name]));
  }

  /** The two selections of the one pending name. */
  lemma OnePendingSelected(name: string)
    requires IsNormal([name])
    ensures Selected(OnePending(name), Selection([], [name], [])) == Selection([], [name], [])
    ensures Selected(OnePending(name), Selection([name], [], [])) == Selection([name], [], [])
  {
    NormalId([name]);
    NormalId([]);
    IntersectOne(name);
  }

  lemma OnePendingRules(name: string, sel: Selection, e: string)
    requires KeptRule(OnePending(name), sel, e)
    ensures e in sel.ignore
  {
    NormalId([]);
  }

  /** Ignoring a pending name such as "regex:b" that its own pattern does not match leaves the stored
      lists stale. */
  lemma RegexSelectionFails(name: string)
    requires IsNormal([name]) && IsRegex(name)
    ensures Fresh(OnePending(name), [name], NoMatch())
    ensures !Fresh(Applied(OnePending(name), Selection([], [name], []), 0), [name], NoMatch())
  {
    var row, sel := OnePending(name), Selection([], [name], []);
    OnePendingFresh(name);
    OnePendingSelected(name);
    NormalId([]);
    if e :| KeptRule(row, sel, e) && Ignores(e, name, NoMatch()) {
      OnePendingRules(name, sel, e);
    }
    RegexNameStaysPending(row, [name], sel, 0, NoMatch(), name);
  }

  /** Adding a pending name such as "a,b" leaves the stored lists stale. */
  lemma CommaSelectionFails(name: string)
    requires IsNormal([name]) && ',' in name
    ensures Fresh(OnePending(name), [name], NoMatch())
    ensures !Fresh(Applied(OnePending(name), Selection([name], [], []), 0), [name], NoMatch())
  {
    var row, sel := OnePending(name), Selection([name], [], []);
    OnePendingFresh(name);
    OnePendingSelected(name);
    if e :| KeptRule(row, sel, e) && Ignores(e, name, NoMatch()) {
      OnePendingRules(name, sel, e);
    }
    CommaBreaksFreshness(row, [name], sel, 0, NoMatch(), name);
  }

  function Everything(row: Row): Selection {
    Selection(row.detected, [], row.removed)
  }

  lemma EverythingSelected(row: Row, upstream: seq<string>, rx: Regexp)
    requires Fresh(row, upstream, rx)
    ensures Selected(row, Everything(row)) == Everything(row)
  {
    DetectNormal(row, upstream, rx);
    NormalId(row.detected);
    NormalId(row.removed);
    NormalId([]);
    IntersectSelf(row.detected);
    IntersectSelf(row.removed);
    forall x | x in row.removed
      ensures x !in row.detected
    {
      PendingFacts(row, upstream, rx, x);
    }
    SubtractNormal(row.removed, row.detected);
    DropNone(row.removed, Elems(row.detected));
    assert Intersect([], row.detected) == [];
  }

  lemma IntersectSelf(names: seq<string>)
    requires IsNormal(names)
    ensures Intersect(names, names) == names
  {
    NormalId(names);
    DropNone(names, Elems(names) - Elems(names));
  }

  /** Applying everything that is pending empties both stored lists; a fresh detection then finds nothing either
      exactly when the inputs meet `StaysFresh`. */
  lemma ApplyAllLeavesNothing(row: Row, upstream: seq<string>, now: int, rx: Regexp)
    requires Fresh(row, upstream, rx)
    ensures var row' := Applied(row, Everything(row), now);
            && row'.detected == [] && row'.removed == []
            && (DetectAdd(row', upstream, rx) == [] && DetectRemove(row', upstream) == [] <==>
                StaysFresh(row, upstream, Everything(row), rx))
  {
    EverythingSelected(row, upstream, rx);
    DetectNormal(row, upstream, rx);
    NormalId(row.detected);
    NormalId(row.removed);
    SubtractNormal(row.removed, row.removed);
    DropAll(row.removed, Elems(row.removed));
    assert row.detected + [] == row.detected;
    SubtractNormal(row.detected, row.detected);
    DropAll(row.detected, Elems(row.detected));
    FreshIff(row, upstream, Everything(row), now, rx);
  }

  /** Without "regex:" names among the pending ones: exactly when none of them contains a comma. */
  lemma ApplyAllDetectsNothingIff(row: Row, upstream: seq<string>, now: int, rx: Regexp)
    requires Fresh(row, upstream, rx) && forall x :: x in row.detected ==> !IsRegex(x)
    ensures var row' := Applied(row, Everything(row), now);
            DetectAdd(row', upstream, rx) == [] && DetectRemove(row', upstream) == [] <==> CommaFree(row.detected)
  {
    ApplyAllLeavesNothing(row, upstream, now, rx);
    EverythingSelected(row, upstream, rx);
    RemainingIsFreshDetection(row, upstream, Everything(row), now, rx);
  }

  // ---- runs

  datatype Op = Check(allowAuto: bool, at: int) | Apply(input: Selection, at: int)

  function Perform(row: Row, op: Op, upstream: seq<string>, rx: Regexp): Row {
    match op
    case Check(allowAuto, now) => Checked(row, upstream, allowAuto, now, rx)
    case Apply(input, now) => Applied(row, input, now)
  }

  function Run(row: Row, ops: seq<Op>, upstream: seq<string>, rx: Regexp): Row {
    if ops == [] then row else Perform(Run(row, ops[..|ops| - 1], upstream, rx), ops[|ops| - 1], upstream, rx)
  }

  ghost predicate PlainNames(upstream: seq<string>) {
    forall m :: m in Normalize(upstream) ==> ',' !in m && !IsRegex(m)
  }

  lemma PlainDetected(row: Row, upstream: seq<string>, rx: Regexp)
    requires PlainNames(upstream)
    ensures forall m :: m in DetectAdd(row, upstream, rx) ==> ',' !in m && !IsRegex(m)
    ensures CommaFree(DetectAdd(row, upstream, rx))
  {
    var u, l := Normalize(upstream), Normalize(Models(row));
    DetectNormal(row, upstream, rx);
    DropElems(u, Elems(l) + row.mapping.Values + Ignored(u, Normalize(row.ignored), rx));
    var adds := DetectAdd(row, upstream, rx);
    assert forall i :: 0 <= i < |adds| ==> adds[i] in adds;
  }

  lemma OpStaysFresh(row: Row, op: Op, upstream: seq<string>, rx: Regexp)
    requires Fresh(row, upstream, rx) && PlainNames(upstream)
    ensures Fresh(Perform(row, op, upstream, rx), upstream, rx)
  {
    PlainDetected(row, upstream, rx);
    match op
    case Check(allowAuto, now) =>
      CheckIsFresh(row, upstream, allowAuto, now, rx);
    case Apply(input, now) =>
      var sel := Selected(row, input);
      SelectedFacts(row, upstream, input, rx);
      assert forall i :: 0 <= i < |sel.add| ==> sel.add[i] in sel.add;
      RemainingIsFreshDetection(row, upstream, input, now, rx);
  }

  /** While the upstream offers the same plain names, every run of checks and selections keeps the
      stored lists equal to a fresh detection. */
  lemma {:induction false} RunStaysFresh(row: Row, ops: seq<Op>, upstream: seq<string>, rx: Regexp)
    requires Fresh(row, upstream, rx) && PlainNames(upstream)
    ensures Fresh(Run(row, ops, upstream, rx), upstream, rx)
  {
    if ops != [] {
      RunStaysFresh(row, ops[..|ops| - 1], upstream, rx);
      OpStaysFresh(Run(row, ops[..|ops| - 1], upstream, rx), ops[|ops| - 1], upstream, rx);
    }
  }

  // ---- the persisted channel

  /** The counts are those the source returns, also next to an error. */
  datatype CheckResult =
    | Skipped
    | FetchFailed
    | SaveFailed(unsaved: int)
    | AbilitiesFailed(autoAdded: int)
    | Done(modelsChanged: bool, autoAdded: int)

  datatype ApplyResult =
    | NotSaved
    | Saved(added: seq<string>, dropped: seq<string>, remaining: seq<string>, remainingRemove: seq<string>,
            modelsChanged: bool, abilitiesFailed: bool)

  /** When a check happens, and how the outside world answers it: the upstream's reply, if any, and
      whether the write of the row and the update of the abilities succeed. */
  datatype CheckContext = CheckContext(fetched: Option<seq<string>>, force: bool, allowAuto: bool, now: int,
                                       minInterval: int, saves: bool, abilitiesFail: bool)

  predicate TooSoon(row: Row, c: CheckContext) {
    !c.force && row.lastCheck > 0 && c.now - row.lastCheck < c.minInterval
  }

  function CheckRow(row: Row, c: CheckContext, rx: Regexp): Row {
    if TooSoon(row, c) || !c.saves then row
    else if c.fetched.None? then row.(lastCheck := c.now)
    else Checked(row, c.fetched.value, c.allowAuto, c.now, rx)
  }

  function AutoCount(row: Row, upstream: seq<string>, allowAuto: bool, rx: Regexp): nat {
    if allowAuto && row.autoSync then |DetectAdd(row, upstream, rx)| else 0
  }

  function CheckReport(row: Row, c: CheckContext, rx: Regexp): CheckResult {
    if TooSoon(row, c) then Skipped
    else if c.fetched.None? then if c.saves then FetchFailed else SaveFailed(0)
    else
      var added := AutoCount(row, c.fetched.value, c.allowAuto, rx);
      if !c.saves then SaveFailed(added)
      else if added > 0 && c.abilitiesFail then AbilitiesFailed(added)
      else Done(added > 0, added)
  }

  /** Automatic synchronisation: the new model column, the names left pending and the number of added ones. */
  method AutoSync(row: Row, adds: seq<string>, upstream: seq<string>, allowAuto: bool, now: int, rx: Regexp)
    returns (models: string, pending: seq<string>, autoAdded: int)
    requires adds == DetectAdd(row, upstream, rx)
    ensures models == Checked(row, upstream, allowAuto, now, rx).models
    ensures pending == Checked(row, upstream, allowAuto, now, rx).detected
    ensures autoAdded == AutoCount(row, upstream, allowAuto, rx)
  {
    models, pending, autoAdded := row.models, adds, 0;
    if allowAuto && row.autoSync && |adds| > 0 {
      var origin := Normalize(Models(row));
      var merged := MergeModelNames(origin, adds);
      AutoAddedCount(row, upstream, rx);
      if |merged| > |origin| {
        models := Join(merged, ',');
        autoAdded := |merged| - |origin|;
      }
      pending := [];
    }
  }

  /** The ignore list after a selection. */
  method MergeRules(row: Row, sel: Selection) returns (rules: seq<string>)
    ensures rules == NextIgnored(row, sel)
  {
    rules := MergeModelNames(row.ignored, sel.ignore);
    if |sel.add| > 0 {
      rules := Subtract(rules, sel.add);
    }
  }

  class Channel {
    var models: string
    var ignored: seq<string>
    var detected: seq<string>
    var removed: seq<string>
    var lastCheck: int
    const autoSync: bool
    const mapping: map<string, string>

    function Value(): Row
      reads this
    {
      Row(models, ignored, detected, removed, lastCheck, autoSync, mapping)
    }

    method Check(c: CheckContext, rx: Regexp) returns (r: CheckResult)
      modifies this
      ensures Value() == CheckRow(old(Value()), c, rx)
      ensures r == CheckReport(old(Value()), c, rx)
      ensures r.Skipped? <==> !c.force && old(lastCheck) > 0 && c.now - old(lastCheck) < c.minInterval
      ensures !r.Skipped? ==> (r.SaveFailed? <==> !c.saves)
      ensures r.SaveFailed? ==>
                r.unsaved == if c.fetched.Some? && c.allowAuto && autoSync then |DetectAdd(old(Value()), c.fetched.value, rx)| else 0
      ensures r.FetchFailed? <==> !r.Skipped? && c.saves && c.fetched.None?
      ensures r.AbilitiesFailed? || r.Done? <==> !r.Skipped? && c.saves && c.fetched.Some?
      ensures r.AbilitiesFailed? ==> c.abilitiesFail && r.autoAdded > 0
      ensures r.Done? && c.abilitiesFail ==> r.autoAdded == 0
      ensures r.Skipped? || r.SaveFailed? ==> Value() == old(Value())
      ensures r.FetchFailed? ==> Value() == old(Value()).(lastCheck := c.now)
    {
      if !c.force && lastCheck > 0 && c.now - lastCheck < c.minInterval {
        return Skipped;
      }
      if c.fetched.None? {
        if !c.saves {
          return SaveFailed(0);
        }
        lastCheck := c.now;
        return FetchFailed;
      }
      var row, upstream := Value(), c.fetched.value;
      var adds, removes := DetectAdd(row, upstream, rx), DetectRemove(row, upstream);
      var newModels, pending, autoAdded := AutoSync(row, adds, upstream, c.allowAuto, c.now, rx);
      if !c.saves {
        return SaveFailed(autoAdded);
      }
      models, detected, removed, lastCheck := newModels, pending, removes, c.now;
      if autoAdded > 0 && c.abilitiesFail {
        return AbilitiesFailed(autoAdded);
      }
      return Done(autoAdded > 0, autoAdded);
    }

    method Apply(input: Selection, now: int, saves: bool, abilitiesFail: bool) returns (r: ApplyResult)
      modifies this
      ensures Value() == if saves then Applied(old(Value()), input, now) else old(Value())
      ensures r.NotSaved? <==> !saves
      ensures saves ==> Carries(old(Value()), input, now, Value())
      ensures saves && !r.modelsChanged ==> models == old(models)
      ensures saves && r.modelsChanged ==> Normalize(Models(old(Value()))) != NextModels(old(Value()), Selected(old(Value()), input))
      ensures saves ==> forall m ::
                && (m in r.added <==> AskedToAdd(old(Value()), input, m))
                && (m in r.dropped <==> AskedToRemove(old(Value()), input, m))
      ensures saves ==>
                var before, sel := old(Value()), Selected(old(Value()), input);
                var changed := NextModels(before, sel) != Normalize(Models(before));
                r == Saved(sel.add, sel.remove, detected, removed, changed, changed && abilitiesFail)
    {
      var row := Value();
      var sel := Selected(row, input);
      var next := NextModels(row, sel);
      var rules := MergeRules(row, sel);
      if !saves {
        return NotSaved;
      }
      var changed := Normalize(Models(row)) != next;
      if changed {
        models := Join(next, ',');
      }
      ignored, lastCheck := rules, now;
      detected := Subtract(Normalize(row.detected), sel.add + sel.ignore);
      removed := Subtract(Normalize(row.removed), sel.remove);
      AppliedCarries(row, input, now);
      forall m
        ensures m in sel.add <==> AskedToAdd(row, input, m)
        ensures m in sel.remove <==> AskedToRemove(row, input, m)
      {
        SelectedIff(row, input, m);
      }
      return Saved(sel.add, sel.remove, detected, removed, changed, changed && abilitiesFail);
    }
  }

  lemma AutoAddedCount(row: Row, upstream: seq<string>, rx: Regexp)
    ensures var l, adds := Normalize(Models(row)), DetectAdd(row, upstream, rx);
            |Merge(l, adds)| == |l| + |adds|
  {
    var u, l, adds := Normalize(upstream), Normalize(Models(row)), DetectAdd(row, upstream, rx);
    DetectNormal(row, upstream, rx);
    DropElems(u, Elems(l) + row.mapping.Values + Ignored(u, Normalize(row.ignored), rx));
    MergeNormal(l, adds);
    DropNone(adds, Elems(l));
  }

  /** A saved check makes every unforced check within the interval a skip that changes nothing. */
  lemma CheckThrottles(row: Row, c: CheckContext, later: CheckContext, rx: Regexp)
    requires c.saves && !TooSoon(row, c) && c.now > 0 && !later.force && later.now - c.now < later.minInterval
    ensures var after := CheckRow(row, c, rx); CheckReport(after, later, rx) == Skipped && CheckRow(after, later, rx) == after
  {
  }

  /** A check that saves reports as many automatic additions as the model list gains, when no name holds a
      comma; the names it leaves pending are the detected ones otherwise. */
  lemma CheckReportsGain(row: Row, c: CheckContext, rx: Regexp)
    requires c.saves && !TooSoon(row, c) && c.fetched.Some? && !c.abilitiesFail
    requires CommaFree(DetectAdd(row, c.fetched.value, rx))
    ensures var r, before, after := CheckReport(row, c, rx), Normalize(Models(row)), Normalize(Models(CheckRow(row, c, rx)));
            && r.Done? && |after| == |before| + r.autoAdded && (r.modelsChanged <==> after != before)
            && (c.allowAuto && row.autoSync ==> after == before + DetectAdd(row, c.fetched.value, rx))
  {
    if c.allowAuto && row.autoSync && DetectAdd(row, c.fetched.value, rx) != [] {
      AutoAddedModels(row, c.fetched.value, c.now, rx);
    }
  }
}
