/**
 Multi-key channels: the keys live in one text column, and status, disabled time and reason live in
 maps keyed by position. Deleting keys rewrites the column and re-indexes the maps; saving goes
 through `Channel.Update`, which recounts the keys and does not write an empty key column.

 The specification is a plain list of records. JSON parsing is a parameter: `json(s)` is the list of
 raw array elements when `s` parses as an array.
*/
module MultiKey {
  import opened Options
  import opened Text

  type Json = string -> Option<seq<string>>

  const ENABLED := 1
  const MANUAL := 2
  const AUTO := 3

  datatype Channel = Channel(key: string, size: int, status: map<int, int>, time: map<int, int>, reason: map<int, string>)

  /** What a position holds; an enabled key may still carry a stale time and reason. */
  datatype Record = Record(key: string, status: int, time: int, reason: string)

  // ---- the key column

  function JsonKeys(column: string, json: Json): Option<seq<string>> {
    var t := TrimSpace(column);
    if "[" <= t then json(t) else None
  }

  function GetKeys(column: string, json: Json): seq<string> {
    if column == "" then []
    else match JsonKeys(column, json)
      case Some(keys) => keys
      case None => ReadBack(column, '\n')
  }

  /** Update counts keys as GetKeys does, except that an empty array falls back to splitting lines. */
  function CountKeys(column: string, json: Json): nat {
    if column == "" then 0
    else match JsonKeys(column, json)
      case Some(keys) => if keys == [] then |ReadBack(column, '\n')| else |keys|
      case None => |ReadBack(column, '\n')|
  }

  /** How a list of keys is kept in the column. */
  datatype Codec = Codec(read: string -> seq<string>, count: string -> nat, write: seq<string> -> string)

  /** The gateway's column: JSON or lines when read, lines when written. */
  function Lines(json: Json): Codec {
    Codec(column => GetKeys(column, json), column => CountKeys(column, json), keys => Join(keys, '\n'))
  }

  /** All a column has to guarantee: a non-empty list is counted right, and no keys make no text. */
  ghost predicate Sound(codec: Codec) {
    && (forall column :: codec.read(column) != [] ==> codec.count(column) == |codec.read(column)|)
    && codec.read("") == [] && codec.write([]) == ""
  }

  /** A column whose trimmed text is a JSON array holds its elements; any other non-empty column holds its
      lines, without line breaks at the ends; an empty one holds nothing. */
  lemma GetKeysMeans(column: string, json: Json)
    ensures column == "" ==> GetKeys(column, json) == []
    ensures column != "" && "[" <= TrimSpace(column) && json(TrimSpace(column)).Some? ==>
              GetKeys(column, json) == json(TrimSpace(column)).value
    ensures column != "" && !("[" <= TrimSpace(column) && json(TrimSpace(column)).Some?) ==>
              GetKeys(column, json) == Split(Trim(column, '\n'), '\n')
  {
  }

  /** The recount of an update agrees with reading, except that an empty JSON array counts its lines. */
  lemma CountKeysMeans(column: string, json: Json)
    ensures GetKeys(column, json) != [] || column == "" ==> CountKeys(column, json) == |GetKeys(column, json)|
    ensures GetKeys(column, json) == [] && column != "" ==> CountKeys(column, json) == |Split(Trim(column, '\n'), '\n')| >= 1
  {
  }

  lemma LinesSound(json: Json)
    ensures Sound(Lines(json))
  {
  }

  /** Unless the joined column happens to parse as a JSON array, exactly the lists without line breaks
      and with non-empty ends survive. */
  lemma SurvivesIff(keys: seq<string>, json: Json)
    requires keys != []
    ensures Survives(keys, Lines(json)) <==>
            match JsonKeys(Join(keys, '\n'), json)
            case Some(parsed) => Join(keys, '\n') != "" && parsed == keys
            case None => Free(keys, '\n') && keys[0] != "" && keys[|keys| - 1] != ""
  {
    ReadBackIff(keys, '\n');
  }

  /** Channel.Update: an empty key is neither counted nor written, so the stored one stays. */
  function Saved(stored: Channel, next: Channel, codec: Codec): Channel {
    var column := if next.key != "" then next.key else stored.key;
    var size := codec.count(column);
    Channel(column, size, map i: int | i in next.status && i < size :: next.status[i], next.time, next.reason)
  }

  // ---- the visible list

  function StatusAt(c: Channel, i: int): int {
    if i in c.status then c.status[i] else ENABLED
  }

  function RecordAt(c: Channel, keys: seq<string>, i: int): Record
    requires 0 <= i < |keys|
  {
    Record(keys[i], StatusAt(c, i), if i in c.time then c.time[i] else 0, if i in c.reason then c.reason[i] else "")
  }

  function Records(c: Channel, codec: Codec): (rs: seq<Record>)
    ensures |rs| == |codec.read(c.key)|
    ensures forall i :: 0 <= i < |rs| ==> rs[i] == RecordAt(c, codec.read(c.key), i)
  {
    var keys := codec.read(c.key);
    seq(|keys|, i requires 0 <= i < |keys| => RecordAt(c, keys, i))
  }

  /** Time and reason are shown only for keys that are not enabled. */
  function Shown(r: Record): Record {
    if r.status == ENABLED then r.(time := 0, reason := "") else r
  }

  function ShownAll(rs: seq<Record>): (shown: seq<Record>)
    ensures |shown| == |rs| && forall i :: 0 <= i < |rs| ==> shown[i] == Shown(rs[i])
  {
    seq(|rs|, i requires 0 <= i < |rs| => Shown(rs[i]))
  }

  // ---- keeping a subsequence of the positions

  predicate Positions(keep: seq<int>, n: int) {
    forall j :: 0 <= j < |keep| ==> 0 <= keep[j] < n
  }

  function Pick<T>(xs: seq<T>, keep: seq<int>): (ys: seq<T>)
    requires Positions(keep, |xs|)
    ensures |ys| == |keep| && forall j :: 0 <= j < |keep| ==> ys[j] == xs[keep[j]]
  {
    seq(|keep|, j requires 0 <= j < |keep| => xs[keep[j]])
  }

  function Reindex<T>(m: map<int, T>, keep: seq<int>): map<int, T> {
    map j | 0 <= j < |keep| && keep[j] in m :: m[keep[j]]
  }

  function Disabled(status: map<int, int>): map<int, int> {
    map i: int | i in status && status[i] != ENABLED :: status[i]
  }

  function Only<T>(m: map<int, T>, status: map<int, int>): map<int, T> {
    map i: int | i in m && i in Disabled(status) :: m[i]
  }

  /** All positions below `n` except `i`. */
  function AllBut(n: nat, i: int): (keep: seq<int>)
    ensures |keep| == if 0 <= i < n then n - 1 else n
    ensures forall j :: 0 <= j < |keep| ==> keep[j] == if 0 <= i <= j then j + 1 else j
  {
    seq(if 0 <= i < n then n - 1 else n, j => if 0 <= i <= j then j + 1 else j)
  }

  /** All positions below `n` that are not auto-disabled. */
  function NotAuto(c: Channel, n: nat): (keep: seq<int>)
    ensures Positions(keep, n)
  {
    if n == 0 then []
    else if StatusAt(c, n - 1) == AUTO then NotAuto(c, n - 1)
    else NotAuto(c, n - 1) + [n - 1]
  }

  lemma ReindexSnoc<T>(m: map<int, T>, keep: seq<int>, i: int)
    ensures Reindex(m, keep + [i]) ==
            if i in m then Reindex(m, keep)[|keep| := m[i]] else Reindex(m, keep)
  {
    var keep' := keep + [i];
    assert forall j :: 0 <= j < |keep| ==> keep'[j] == keep[j];
  }

  // ---- the actions

  datatype Action =
    | DisableKey(index: Option<int>)
    | EnableKey(index: Option<int>)
    | EnableAllKeys
    | DisableAllKeys
    | DeleteKey(index: Option<int>)
    | DeleteDisabledKeys

  predicate InRange(c: Channel, index: Option<int>) {
    index.Some? && 0 <= index.value < c.size
  }

  function WithStatus(c: Channel, i: int, status: int): Channel {
    Channel(c.key, c.size, c.status[i := status], c.time, c.reason)
  }

  function Cleared(c: Channel, positions: set<int>): Channel {
    Channel(c.key, c.size, c.status - positions, c.time - positions, c.reason - positions)
  }

  function EnabledBelow(c: Channel, n: int): nat {
    if n <= 0 then 0 else EnabledBelow(c, n - 1) + if StatusAt(c, n - 1) == ENABLED then 1 else 0
  }

  /** The statuses after turning every enabled position below `n` into a manually disabled one. */
  function ManualBelow(c: Channel, n: int): map<int, int> {
    if n <= 0 then c.status
    else if StatusAt(c, n - 1) == ENABLED then ManualBelow(c, n - 1)[n - 1 := MANUAL]
    else ManualBelow(c, n - 1)
  }

  lemma {:induction false} ManualBelowAt(c: Channel, n: int, i: int)
    ensures var m := ManualBelow(c, n);
            if 0 <= i < n && StatusAt(c, i) == ENABLED then i in m && m[i] == MANUAL
            else (i in m <==> i in c.status) && (i in m ==> m[i] == c.status[i])
    decreases n
  {
    if n > 0 {
      ManualBelowAt(c, n - 1, i);
    }
  }

  function AllManual(c: Channel): map<int, int> {
    ManualBelow(c, c.size)
  }

  function Kept(c: Channel, keys: seq<string>, keep: seq<int>, codec: Codec): Channel
    requires Positions(keep, |keys|)
  {
    Channel(codec.write(Pick(keys, keep)), |keep|, Reindex(Disabled(c.status), keep), Reindex(c.time, keep), Reindex(c.reason, keep))
  }

  function DeleteWanted(c: Channel, keys: seq<string>, i: int, codec: Codec): Option<Channel> {
    var keep := AllBut(|keys|, i);
    if keep == [] then None else Some(Kept(c, keys, keep, codec))
  }

  function WithoutStale(c: Channel): Channel {
    Channel(c.key, c.size, c.status, Only(c.time, c.status), Only(c.reason, c.status))
  }

  function DeleteDisabledWanted(c: Channel, keys: seq<string>, codec: Codec): Option<Channel> {
    var keep := NotAuto(c, |keys|);
    if |keep| == |keys| then None else Some(Kept(WithoutStale(c), keys, keep, codec))
  }

  /** What an action wants to save; None when it is refused. */
  function Wanted(c: Channel, a: Action, codec: Codec): Option<Channel> {
    match a
    case DisableKey(index) =>
      if InRange(c, index) then Some(WithStatus(c, index.value, MANUAL)) else None
    case EnableKey(index) =>
      if InRange(c, index) then Some(Cleared(c, {index.value})) else None
    case EnableAllKeys =>
      Some(Channel(c.key, c.size, map[], map[], map[]))
    case DisableAllKeys =>
      if EnabledBelow(c, c.size) > 0 then Some(Channel(c.key, c.size, AllManual(c), c.time, c.reason)) else None
    case DeleteKey(index) =>
      if InRange(c, index) then DeleteWanted(c, codec.read(c.key), index.value, codec) else None
    case DeleteDisabledKeys =>
      DeleteDisabledWanted(c, codec.read(c.key), codec)
  }

  function Act(c: Channel, a: Action, codec: Codec): Channel {
    match Wanted(c, a, codec)
    case Some(next) => Saved(c, next, codec)
    case None => c
  }

  // ---- when the key column survives

  /** A list of keys written to the column is read back unchanged. */
  predicate Survives(keys: seq<string>, codec: Codec) {
    codec.read(codec.write(keys)) == keys
  }

  ghost predicate Valid(c: Channel, codec: Codec) {
    && codec.read(c.key) != [] && c.size == |codec.read(c.key)|
    && (forall i :: i in c.status ==> 0 <= i < c.size && ENABLED <= c.status[i] <= AUTO)
    && (forall i :: i in c.time ==> 0 <= i < c.size)
    && (forall i :: i in c.reason ==> 0 <= i < c.size)
  }

  /** Saving without touching the key keeps the list and the range of the maps. */
  lemma SavedSameKey(c: Channel, next: Channel, codec: Codec)
    requires Sound(codec) && Valid(c, codec) && next.key == c.key
    requires forall i :: i in next.status ==> 0 <= i < c.size
    ensures Saved(c, next, codec) == Channel(c.key, c.size, next.status, next.time, next.reason)
  {
  }

  lemma PickRecords(c: Channel, keys: seq<string>, keep: seq<int>, codec: Codec, j: int)
    requires Positions(keep, |keys|) && 0 <= j < |keep|
    ensures RecordAt(Kept(c, keys, keep, codec), Pick(keys, keep), j) == RecordAt(c, keys, keep[j])
  {
  }

  lemma SavedKept(c: Channel, d: Channel, keys: seq<string>, keep: seq<int>, codec: Codec)
    requires Sound(codec) && Positions(keep, |keys|) && keep != [] && Survives(Pick(keys, keep), codec)
    ensures Saved(c, Kept(d, keys, keep, codec), codec) == Kept(d, keys, keep, codec)
  {
    var want := Kept(d, keys, keep, codec);
    assert forall i :: i in want.status ==> i < |keep|;
  }

  lemma KeptRecords(d: Channel, keys: seq<string>, keep: seq<int>, codec: Codec)
    requires Positions(keep, |keys|) && Survives(Pick(keys, keep), codec)
    ensures var rs := Records(Kept(d, keys, keep, codec), codec);
            |rs| == |keep| && forall j :: 0 <= j < |keep| ==> rs[j] == RecordAt(d, keys, keep[j])
  {
    forall j | 0 <= j < |keep|
      ensures Records(Kept(d, keys, keep, codec), codec)[j] == RecordAt(d, keys, keep[j])
    {
      PickRecords(d, keys, keep, codec, j);
    }
  }

  /** Keys that do not survive are not read back, whatever happens to the maps. */
  lemma LostKeys(c: Channel, d: Channel, keep: seq<int>, codec: Codec)
    requires Sound(codec) && Positions(keep, |codec.read(c.key)|) && |keep| < |codec.read(c.key)|
    requires keep == [] || !Survives(Pick(codec.read(c.key), keep), codec)
    ensures var keys := codec.read(c.key);
            codec.read(Saved(c, Kept(d, keys, keep, codec), codec).key) != Pick(keys, keep)
  {
  }

  // ---- deleting one key

  function RemoveAt<T>(xs: seq<T>, i: int): seq<T>
    requires 0 <= i < |xs|
  {
    xs[..i] + xs[i + 1..]
  }

  lemma SameRecordsSameKeys(next: Channel, c: Channel, i: int, codec: Codec)
    requires 0 <= i < |codec.read(c.key)| && Records(next, codec) == RemoveAt(Records(c, codec), i)
    ensures codec.read(next.key) == RemoveAt(codec.read(c.key), i)
  {
    var ks, rs := codec.read(next.key), Records(next, codec);
    forall j | 0 <= j < |ks|
      ensures ks[j] == RemoveAt(codec.read(c.key), i)[j]
    {
      assert rs[j].key == ks[j];
    }
  }

  lemma DeleteKeyActs(c: Channel, i: int, codec: Codec)
    requires Sound(codec) && Valid(c, codec) && 0 <= i < c.size && c.size > 1
    ensures var keys, keep := codec.read(c.key), AllBut(c.size, i);
            && 0 < |keep| < |keys| && Pick(keys, keep) == RemoveAt(keys, i)
            && Act(c, DeleteKey(Some(i)), codec) == Saved(c, Kept(c, keys, keep, codec), codec)
  {
  }

  lemma PickAllBut<T>(xs: seq<T>, i: int)
    requires 0 <= i < |xs|
    ensures Pick(xs, AllBut(|xs|, i)) == RemoveAt(xs, i)
  {
  }

  lemma KeptAllBut(c: Channel, i: int, codec: Codec)
    requires Sound(codec) && Valid(c, codec) && 0 <= i < c.size
    requires Survives(Pick(codec.read(c.key), AllBut(c.size, i)), codec)
    ensures Records(Kept(c, codec.read(c.key), AllBut(c.size, i), codec), codec) == RemoveAt(Records(c, codec), i)
  {
    var keys, keep := codec.read(c.key), AllBut(c.size, i);
    KeptRecords(c, keys, keep, codec);
    assert Records(Kept(c, keys, keep, codec), codec) == Pick(Records(c, codec), keep);
    PickAllBut(Records(c, codec), i);
  }

  /** After delete_key the list is the previous one with that position removed, exactly when the
      remaining keys survive the column. */
  lemma DeleteKeyRemovesOne(c: Channel, i: int, codec: Codec)
    requires Sound(codec) && Valid(c, codec) && 0 <= i < c.size && c.size > 1
    ensures Records(Act(c, DeleteKey(Some(i)), codec), codec) == RemoveAt(Records(c, codec), i) <==>
            Survives(RemoveAt(codec.read(c.key), i), codec)
  {
    var keys, keep := codec.read(c.key), AllBut(c.size, i);
    var next := Act(c, DeleteKey(Some(i)), codec);
    DeleteKeyActs(c, i, codec);
    if Survives(RemoveAt(keys, i), codec) {
      SavedKept(c, c, keys, keep, codec);
      KeptAllBut(c, i, codec);
    } else {
      LostKeys(c, c, keep, codec);
      if Records(next, codec) == RemoveAt(Records(c, codec), i) {
        SameRecordsSameKeys(next, c, i, codec);
      }
    }
  }

  // ---- deleting the auto-disabled keys

  /** The records that are not auto-disabled, in order. */
  function DropAuto(rs: seq<Record>): seq<Record> {
    if rs == [] then []
    else
      var front, last := DropAuto(rs[..|rs| - 1]), rs[|rs| - 1];
      if last.status == AUTO then front else front + [last]
  }

  lemma {:induction false} PickNotAuto(c: Channel, rs: seq<Record>)
    requires forall k :: 0 <= k < |rs| ==> rs[k].status == StatusAt(c, k)
    ensures Pick(rs, NotAuto(c, |rs|)) == DropAuto(rs)
  {
    if rs != [] {
      var front := rs[..|rs| - 1];
      PickNotAuto(c, front);
      var keep := NotAuto(c, |front|);
      assert forall j :: 0 <= j < |keep| ==> rs[keep[j]] == front[keep[j]];
    }
  }

  predicate AllAuto(rs: seq<Record>) {
    forall i :: 0 <= i < |rs| ==> rs[i].status == AUTO
  }

  predicate AnyAuto(rs: seq<Record>) {
    exists i :: 0 <= i < |rs| && rs[i].status == AUTO
  }

  function Enabled(rs: seq<Record>): (es: seq<Record>)
    ensures |es| == |rs| && forall i :: 0 <= i < |rs| ==> es[i] == Record(rs[i].key, ENABLED, 0, "")
  {
    seq(|rs|, i requires 0 <= i < |rs| => Record(rs[i].key, ENABLED, 0, ""))
  }

  lemma {:induction false} NotAutoLength(c: Channel, n: nat, i: int)
    requires 0 <= i < n && StatusAt(c, i) == AUTO
    ensures |NotAuto(c, n)| < n
  {
    if i == n - 1 {
      NotAutoAtMost(c, n - 1);
    } else {
      NotAutoLength(c, n - 1, i);
    }
  }

  lemma {:induction false} NotAutoAtMost(c: Channel, n: nat)
    ensures |NotAuto(c, n)| <= n
  {
    if n > 0 {
      NotAutoAtMost(c, n - 1);
    }
  }

  lemma {:induction false} NotAutoEmpty(c: Channel, n: nat)
    ensures NotAuto(c, n) == [] <==> forall k :: 0 <= k < n ==> StatusAt(c, k) == AUTO
  {
    if n > 0 {
      NotAutoEmpty(c, n - 1);
    }
  }

  lemma DeleteDisabledActs(c: Channel, i: int, codec: Codec)
    requires c.size == |codec.read(c.key)| && 0 <= i < c.size && StatusAt(c, i) == AUTO
    ensures |NotAuto(c, c.size)| < c.size
    ensures Act(c, DeleteDisabledKeys, codec) ==
            Saved(c, Kept(WithoutStale(c), codec.read(c.key), NotAuto(c, c.size), codec), codec)
  {
    NotAutoLength(c, c.size, i);
    assert DeleteDisabledWanted(c, codec.read(c.key), codec) ==
           Some(Kept(WithoutStale(c), codec.read(c.key), NotAuto(c, c.size), codec));
  }

  function KeysOf(rs: seq<Record>): (keys: seq<string>)
    ensures |keys| == |rs| && forall i :: 0 <= i < |rs| ==> keys[i] == rs[i].key
  {
    seq(|rs|, i requires 0 <= i < |rs| => rs[i].key)
  }

  lemma WithoutStaleShown(c: Channel, keys: seq<string>, k: int)
    requires 0 <= k < |keys|
    ensures RecordAt(WithoutStale(c), keys, k) == Shown(RecordAt(c, keys, k))
  {
  }

  lemma PickedKeys(c: Channel, codec: Codec)
    requires c.size == |codec.read(c.key)|
    ensures Pick(codec.read(c.key), NotAuto(c, c.size)) == KeysOf(DropAuto(Records(c, codec)))
  {
    var rs, keep := Records(c, codec), NotAuto(c, c.size);
    PickNotAuto(c, rs);
    assert forall j :: 0 <= j < |keep| ==> Pick(rs, keep)[j].key == codec.read(c.key)[keep[j]];
  }

  lemma KeptNotAuto(c: Channel, codec: Codec)
    requires c.size == |codec.read(c.key)|
    requires Survives(Pick(codec.read(c.key), NotAuto(c, c.size)), codec)
    ensures Records(Kept(WithoutStale(c), codec.read(c.key), NotAuto(c, c.size), codec), codec) ==
            ShownAll(DropAuto(Records(c, codec)))
  {
    var keys, keep, rs := codec.read(c.key), NotAuto(c, c.size), Records(c, codec);
    KeptRecords(WithoutStale(c), keys, keep, codec);
    PickNotAuto(c, rs);
    var kept := Records(Kept(WithoutStale(c), keys, keep, codec), codec);
    forall j | 0 <= j < |keep|
      ensures kept[j] == Shown(DropAuto(rs)[j])
    {
      WithoutStaleShown(c, keys, keep[j]);
      assert DropAuto(rs)[j] == Pick(rs, keep)[j];
    }
  }

  /** When every key is auto-disabled, nothing is deleted: the empty column is not written and the
      maps are, so every key comes back enabled. */
  lemma AllAutoReenabled(c: Channel, codec: Codec)
    requires Sound(codec) && Valid(c, codec) && AllAuto(Records(c, codec))
    ensures Records(Act(c, DeleteDisabledKeys, codec), codec) == Enabled(Records(c, codec))
    ensures Act(c, DeleteDisabledKeys, codec) == Channel(c.key, c.size, map[], map[], map[])
  {
    var rs := Records(c, codec);
    forall k | 0 <= k < c.size
      ensures StatusAt(c, k) == AUTO
    {
      assert rs[k].status == StatusAt(c, k);
    }
    NotAutoEmpty(c, c.size);
    DeleteDisabledActs(c, 0, codec);
    var want := Kept(WithoutStale(c), codec.read(c.key), NotAuto(c, c.size), codec);
    assert want == Channel("", 0, map[], map[], map[]);
    assert Saved(c, want, codec) == Channel(c.key, c.size, map[], map[], map[]);
  }

  lemma ShownKeys(next: Channel, rs: seq<Record>, codec: Codec)
    ensures ShownAll(Records(next, codec)) == ShownAll(rs) ==> codec.read(next.key) == KeysOf(rs)
  {
    var ns := Records(next, codec);
    if ShownAll(ns) == ShownAll(rs) {
      forall i | 0 <= i < |rs|
        ensures codec.read(next.key)[i] == rs[i].key
      {
        assert ShownAll(ns)[i].key == ns[i].key;
      }
    }
  }

  lemma AllAutoIff(c: Channel, codec: Codec)
    requires c.size == |codec.read(c.key)|
    ensures AllAuto(Records(c, codec)) <==> NotAuto(c, c.size) == []
  {
    NotAutoEmpty(c, c.size);
    var rs := Records(c, codec);
    assert forall k :: 0 <= k < c.size ==> rs[k].status == StatusAt(c, k);
  }

  /** With some key left and surviving keys, exactly the keys that are not auto-disabled stay; a stale
      time or reason of an enabled key is dropped. */
  lemma DeleteDisabledKeeps(c: Channel, codec: Codec, i: int)
    requires Sound(codec) && Valid(c, codec) && 0 <= i < c.size && StatusAt(c, i) == AUTO
    requires NotAuto(c, c.size) != [] && Survives(Pick(codec.read(c.key), NotAuto(c, c.size)), codec)
    ensures Act(c, DeleteDisabledKeys, codec) == Kept(WithoutStale(c), codec.read(c.key), NotAuto(c, c.size), codec)
    ensures Records(Act(c, DeleteDisabledKeys, codec), codec) == ShownAll(DropAuto(Records(c, codec)))
  {
    DeleteDisabledActs(c, i, codec);
    SavedKept(c, WithoutStale(c), codec.read(c.key), NotAuto(c, c.size), codec);
    KeptNotAuto(c, codec);
  }

  lemma ShownTwice(rs: seq<Record>)
    ensures ShownAll(ShownAll(rs)) == ShownAll(rs)
  {
  }

  /** After delete_disabled_keys the visible list is the previous one filtered to status other than 3,
      exactly when some key is not auto-disabled and the remaining keys survive the column. */
  lemma DeleteDisabledFilters(c: Channel, codec: Codec, i: int)
    requires Sound(codec) && Valid(c, codec) && 0 <= i < c.size && StatusAt(c, i) == AUTO
    ensures ShownAll(Records(Act(c, DeleteDisabledKeys, codec), codec)) == ShownAll(DropAuto(Records(c, codec))) <==>
            !AllAuto(Records(c, codec)) && Survives(KeysOf(DropAuto(Records(c, codec))), codec)
  {
    var rs, keep := Records(c, codec), NotAuto(c, c.size);
    PickedKeys(c, codec);
    AllAutoIff(c, codec);
    if keep != [] && Survives(KeysOf(DropAuto(rs)), codec) {
      DeleteDisabledKeeps(c, codec, i);
      ShownTwice(DropAuto(rs));
    } else {
      DeleteDisabledActs(c, i, codec);
      LostKeys(c, WithoutStale(c), keep, codec);
      ShownKeys(Act(c, DeleteDisabledKeys, codec), DropAuto(rs), codec);
    }
  }

  // ---- runs of actions refine a list of records

  /** Every list left by deleting keys one at a time survives the column. */
  ghost predicate Hereditary(keys: seq<string>, codec: Codec)
    decreases |keys|
  {
    |keys| > 1 ==>
      forall i :: 0 <= i < |keys| ==> Survives(RemoveAt(keys, i), codec) && Hereditary(RemoveAt(keys, i), codec)
  }

  function AllManualRecords(rs: seq<Record>): (ms: seq<Record>)
    ensures |ms| == |rs|
    ensures forall i :: 0 <= i < |rs| ==> ms[i] == if rs[i].status == ENABLED then rs[i].(status := MANUAL) else rs[i]
  {
    seq(|rs|, i requires 0 <= i < |rs| => if rs[i].status == ENABLED then rs[i].(status := MANUAL) else rs[i])
  }

  /** The actions on a plain list of records. */
  function OnList(rs: seq<Record>, a: Action): seq<Record> {
    match a
    case DisableKey(index) =>
      if index.Some? && 0 <= index.value < |rs| then rs[index.value := rs[index.value].(status := MANUAL)] else rs
    case EnableKey(index) =>
      if index.Some? && 0 <= index.value < |rs|
      then rs[index.value := Record(rs[index.value].key, ENABLED, 0, "")] else rs
    case EnableAllKeys => Enabled(rs)
    case DisableAllKeys => AllManualRecords(rs)
    case DeleteKey(index) =>
      if index.Some? && 0 <= index.value < |rs| && |rs| > 1 then RemoveAt(rs, index.value) else rs
    case DeleteDisabledKeys =>
      if !AnyAuto(rs) then rs else if AllAuto(rs) then Enabled(rs) else ShownAll(DropAuto(rs))
  }

  ghost predicate Good(c: Channel, codec: Codec) {
    Valid(c, codec) && Hereditary(codec.read(c.key), codec)
  }

  lemma DisableRefines(c: Channel, i: int, codec: Codec)
    requires Sound(codec) && Good(c, codec) && 0 <= i < c.size
    ensures var next, rs := Act(c, DisableKey(Some(i)), codec), Records(c, codec);
            Good(next, codec) && Records(next, codec) == rs[i := rs[i].(status := MANUAL)]
  {
    SavedSameKey(c, WithStatus(c, i, MANUAL), codec);
  }

  lemma EnableRefines(c: Channel, i: int, codec: Codec)
    requires Sound(codec) && Good(c, codec) && 0 <= i < c.size
    ensures var next, rs := Act(c, EnableKey(Some(i)), codec), Records(c, codec);
            Good(next, codec) && Records(next, codec) == rs[i := Record(rs[i].key, ENABLED, 0, "")]
  {
    SavedSameKey(c, Cleared(c, {i}), codec);
  }

  lemma EnableAllRefines(c: Channel, codec: Codec)
    requires Sound(codec) && Good(c, codec)
    ensures var next := Act(c, EnableAllKeys, codec);
            Good(next, codec) && Records(next, codec) == Enabled(Records(c, codec))
  {
    SavedSameKey(c, Channel(c.key, c.size, map[], map[], map[]), codec);
  }

  lemma AllManualAt(c: Channel, keys: seq<string>, i: int)
    requires 0 <= i < |keys| == c.size
    ensures var r := RecordAt(c, keys, i);
            RecordAt(Channel(c.key, c.size, AllManual(c), c.time, c.reason), keys, i) ==
            if r.status == ENABLED then r.(status := MANUAL) else r
  {
    ManualBelowAt(c, c.size, i);
  }

  lemma {:induction false} NoneEnabled(c: Channel, n: int, i: int)
    requires EnabledBelow(c, n) == 0 && 0 <= i < n
    ensures StatusAt(c, i) != ENABLED
  {
    if i < n - 1 {
      NoneEnabled(c, n - 1, i);
    }
  }

  lemma DisableAllRefines(c: Channel, codec: Codec)
    requires Sound(codec) && Good(c, codec)
    ensures var next := Act(c, DisableAllKeys, codec);
            Good(next, codec) && Records(next, codec) == AllManualRecords(Records(c, codec))
  {
    var next, rs := Act(c, DisableAllKeys, codec), Records(c, codec);
    if EnabledBelow(c, c.size) > 0 {
      forall i
        ensures i in AllManual(c) ==> 0 <= i < c.size && ENABLED <= AllManual(c)[i] <= AUTO
      {
        ManualBelowAt(c, c.size, i);
      }
      SavedSameKey(c, Channel(c.key, c.size, AllManual(c), c.time, c.reason), codec);
      forall i | 0 <= i < c.size
        ensures Records(next, codec)[i] == AllManualRecords(rs)[i]
      {
        AllManualAt(c, codec.read(c.key), i);
      }
    } else {
      forall i | 0 <= i < c.size
        ensures rs[i] == AllManualRecords(rs)[i]
      {
        NoneEnabled(c, c.size, i);
      }
    }
  }

  lemma KeptValid(c: Channel, d: Channel, keep: seq<int>, codec: Codec)
    requires Valid(c, codec) && Positions(keep, c.size) && keep != []
    requires Survives(Pick(codec.read(c.key), keep), codec)
    requires d.status == c.status
    ensures var next := Kept(d, codec.read(c.key), keep, codec);
            Valid(next, codec) && codec.read(next.key) == Pick(codec.read(c.key), keep)
  {
  }

  lemma DeletedValid(c: Channel, i: int, codec: Codec)
    requires Sound(codec) && Valid(c, codec) && 0 <= i < c.size && c.size > 1
    requires Survives(RemoveAt(codec.read(c.key), i), codec)
    ensures var next := Act(c, DeleteKey(Some(i)), codec);
            Valid(next, codec) && codec.read(next.key) == RemoveAt(codec.read(c.key), i)
  {
    var keys, keep := codec.read(c.key), AllBut(c.size, i);
    DeleteKeyActs(c, i, codec);
    SavedKept(c, c, keys, keep, codec);
    KeptValid(c, c, keep, codec);
  }

  lemma DeleteRefines(c: Channel, i: int, codec: Codec)
    requires Sound(codec) && Good(c, codec) && 0 <= i < c.size && c.size > 1
    ensures var next := Act(c, DeleteKey(Some(i)), codec);
            Good(next, codec) && Records(next, codec) == RemoveAt(Records(c, codec), i)
  {
    DeletedValid(c, i, codec);
    DeleteKeyRemovesOne(c, i, codec);
  }

  lemma {:induction false} DropAutoRemove(rs: seq<Record>, i: nat)
    requires i < |rs| && rs[i].status == AUTO
    ensures DropAuto(RemoveAt(rs, i)) == DropAuto(rs)
  {
    var front, rest := rs[..|rs| - 1], RemoveAt(rs, i);
    if i == |rs| - 1 {
      assert rest == front;
    } else {
      DropAutoRemove(front, i);
      assert rest[..|rest| - 1] == RemoveAt(front, i) && rest[|rest| - 1] == rs[|rs| - 1];
    }
  }

  lemma {:induction false} DropAutoNone(rs: seq<Record>)
    requires !AnyAuto(rs)
    ensures DropAuto(rs) == rs
  {
    if rs != [] {
      var front := rs[..|rs| - 1];
      assert rs[|rs| - 1].status != AUTO;
      assert AnyAuto(front) ==> AnyAuto(rs);
      DropAutoNone(front);
    }
  }

  lemma KeysRemoveAt(rs: seq<Record>, i: nat)
    requires i < |rs|
    ensures KeysOf(RemoveAt(rs, i)) == RemoveAt(KeysOf(rs), i)
  {
  }

  lemma StillSome(rs: seq<Record>, i: nat)
    requires i < |rs| && rs[i].status == AUTO && !AllAuto(rs)
    ensures |rs| > 1 && !AllAuto(RemoveAt(rs, i))
  {
    var k: nat :| k < |rs| && rs[k].status != AUTO;
    assert RemoveAt(rs, i)[if k < i then k else k - 1] == rs[k];
  }

  /** Dropping all auto-disabled keys at once is deleting them one at a time. */
  lemma {:induction false} FilterHereditary(rs: seq<Record>, codec: Codec)
    requires Hereditary(KeysOf(rs), codec) && AnyAuto(rs) && !AllAuto(rs)
    ensures Survives(KeysOf(DropAuto(rs)), codec) && Hereditary(KeysOf(DropAuto(rs)), codec)
    decreases |rs|
  {
    var i: nat :| i < |rs| && rs[i].status == AUTO;
    var rest := RemoveAt(rs, i);
    DropAutoRemove(rs, i);
    KeysRemoveAt(rs, i);
    StillSome(rs, i);
    assert Survives(KeysOf(rest), codec) && Hereditary(KeysOf(rest), codec);
    if AnyAuto(rest) {
      FilterHereditary(rest, codec);
    } else {
      DropAutoNone(rest);
    }
  }

  lemma KeysOfRecords(c: Channel, codec: Codec)
    ensures KeysOf(Records(c, codec)) == codec.read(c.key)
  {
  }

  lemma DeleteDisabledRefines(c: Channel, codec: Codec, i: int)
    requires Sound(codec) && Good(c, codec) && 0 <= i < c.size && StatusAt(c, i) == AUTO
    ensures var next, rs := Act(c, DeleteDisabledKeys, codec), Records(c, codec);
            Good(next, codec) && Records(next, codec) == if AllAuto(rs) then Enabled(rs) else ShownAll(DropAuto(rs))
  {
    var rs, keep := Records(c, codec), NotAuto(c, c.size);
    AllAutoIff(c, codec);
    if keep == [] {
      AllAutoReenabled(c, codec);
    } else {
      assert rs[i].status == AUTO;
      KeysOfRecords(c, codec);
      FilterHereditary(rs, codec);
      PickedKeys(c, codec);
      DeleteDisabledKeeps(c, codec, i);
      KeptValid(c, WithoutStale(c), keep, codec);
    }
  }

  lemma ActRefines(c: Channel, a: Action, codec: Codec)
    requires Sound(codec) && Good(c, codec)
    ensures Good(Act(c, a, codec), codec) && Records(Act(c, a, codec), codec) == OnList(Records(c, codec), a)
  {
    match a
    case DisableKey(index) => if InRange(c, index) { DisableRefines(c, index.value, codec); }
    case EnableKey(index) => if InRange(c, index) { EnableRefines(c, index.value, codec); }
    case EnableAllKeys => EnableAllRefines(c, codec);
    case DisableAllKeys => DisableAllRefines(c, codec);
    case DeleteKey(index) => if InRange(c, index) && c.size > 1 { DeleteRefines(c, index.value, codec); }
    case DeleteDisabledKeys =>
      var rs := Records(c, codec);
      if i :| 0 <= i < |rs| && rs[i].status == AUTO {
        DeleteDisabledRefines(c, codec, i);
      } else {
        NotAutoAll(c, c.size, codec);
      }
  }

  lemma NotAutoAll(c: Channel, n: nat, codec: Codec)
    requires n == |Records(c, codec)| && !AnyAuto(Records(c, codec))
    ensures |NotAuto(c, n)| == n
  {
    var rs := Records(c, codec);
    assert forall k :: 0 <= k < n ==> rs[k].status == StatusAt(c, k);
    NoneDropped(c, n);
  }

  lemma {:induction false} NoneDropped(c: Channel, n: nat)
    requires forall k :: 0 <= k < n ==> StatusAt(c, k) != AUTO
    ensures |NotAuto(c, n)| == n
  {
    if n > 0 {
      NoneDropped(c, n - 1);
    }
  }

  function Run(c: Channel, actions: seq<Action>, codec: Codec): Channel {
    if actions == [] then c else Act(Run(c, actions[..|actions| - 1], codec), actions[|actions| - 1], codec)
  }

  function RunList(rs: seq<Record>, actions: seq<Action>): seq<Record> {
    if actions == [] then rs else OnList(RunList(rs, actions[..|actions| - 1]), actions[|actions| - 1])
  }

  /** Every run of actions on the column and its index maps does what the same run does on a plain
      list of records; the size stays the key count, the maps stay in range, some key remains. */
  lemma {:induction false} RunRefines(c: Channel, actions: seq<Action>, codec: Codec)
    requires Sound(codec) && Good(c, codec)
    ensures Good(Run(c, actions, codec), codec)
    ensures Records(Run(c, actions, codec), codec) == RunList(Records(c, codec), actions)
  {
    if actions != [] {
      RunRefines(c, actions[..|actions| - 1], codec);
      ActRefines(Run(c, actions[..|actions| - 1], codec), actions[|actions| - 1], codec);
    }
  }

  /** The run from `c` shows what the same run on a plain list shows. */
  ghost predicate Refines(c: Channel, actions: seq<Action>, codec: Codec) {
    Records(Run(c, actions, codec), codec) == RunList(Records(c, codec), actions)
  }

  lemma {:induction false} RunCons(c: Channel, a: Action, actions: seq<Action>, codec: Codec)
    ensures Run(c, [a] + actions, codec) == Run(Act(c, a, codec), actions, codec)
    ensures RunList(Records(c, codec), [a] + actions) == RunList(OnList(Records(c, codec), a), actions)
    decreases |actions|
  {
    var all := [a] + actions;
    if actions == [] {
      assert all[..|all| - 1] == [];
    } else {
      RunCons(c, a, actions[..|actions| - 1], codec);
      assert all[..|all| - 1] == [a] + actions[..|actions| - 1];
    }
  }

  lemma DeletionSurvives(c: Channel, i: int, codec: Codec)
    requires Sound(codec) && Valid(c, codec) && 0 <= i < c.size && c.size > 1 && Refines(c, [DeleteKey(Some(i))], codec)
    ensures Survives(RemoveAt(codec.read(c.key), i), codec)
  {
    var a := DeleteKey(Some(i));
    RunCons(c, a, [], codec);
    assert [a] + [] == [a];
    DeleteKeyRemovesOne(c, i, codec);
  }

  lemma DeletionRefines(c: Channel, i: int, actions: seq<Action>, codec: Codec)
    requires Sound(codec) && Valid(c, codec) && 0 <= i < c.size && c.size > 1
    requires Survives(RemoveAt(codec.read(c.key), i), codec) && Refines(c, [DeleteKey(Some(i))] + actions, codec)
    ensures Refines(Act(c, DeleteKey(Some(i)), codec), actions, codec)
  {
    RunCons(c, DeleteKey(Some(i)), actions, codec);
    DeleteKeyRemovesOne(c, i, codec);
  }

  /** The condition on the keys is needed: a list that does not survive is reached by some run of deletions,
      and that run does not do what the list machine does. */
  lemma {:induction false} HereditaryNeeded(c: Channel, codec: Codec)
    requires Sound(codec) && Valid(c, codec) && forall actions :: Refines(c, actions, codec)
    ensures Hereditary(codec.read(c.key), codec)
    decreases |codec.read(c.key)|
  {
    var keys := codec.read(c.key);
    if |keys| > 1 {
      forall i | 0 <= i < |keys|
        ensures Survives(RemoveAt(keys, i), codec) && Hereditary(RemoveAt(keys, i), codec)
      {
        DeletionSurvives(c, i, codec);
        DeletedValid(c, i, codec);
        forall actions
          ensures Refines(Act(c, DeleteKey(Some(i)), codec), actions, codec)
        {
          DeletionRefines(c, i, actions, codec);
        }
        HereditaryNeeded(Act(c, DeleteKey(Some(i)), codec), codec);
      }
    }
  }

  /** Exactly: all runs refine the list machine if and only if every list left by deletions survives. */
  lemma RunRefinesIff(c: Channel, codec: Codec)
    requires Sound(codec) && Valid(c, codec)
    ensures (forall actions :: Refines(c, actions, codec)) <==> Hereditary(codec.read(c.key), codec)
  {
    if Hereditary(codec.read(c.key), codec) {
      forall actions
        ensures Refines(c, actions, codec)
      {
        RunRefines(c, actions, codec);
      }
    } else if forall actions :: Refines(c, actions, codec) {
      HereditaryNeeded(c, codec);
    }
  }

  // ---- the gateway's column

  /** A key on one line that cannot be taken for the beginning of a JSON array. */
  predicate PlainKey(k: string) {
    k != "" && '\n' !in k && !("[" <= TrimSpace(k))
  }

  predicate Plain(keys: seq<string>) {
    forall i :: 0 <= i < |keys| ==> PlainKey(keys[i])
  }

  lemma {:induction false} JoinedHead(keys: seq<string>)
    requires keys != [] && Plain(keys)
    ensures !("[" <= TrimSpaceLeft(Join(keys, '\n')))
  {
    TrimSpaceHead(keys[0]);
    if |keys| > 1 {
      var rest := Join(keys[1..], '\n');
      JoinedHead(keys[1..]);
      assert keys[0] + ['\n'] + rest == keys[0] + (['\n'] + rest);
      TrimSpaceLeftConcat(keys[0], ['\n'] + rest);
      assert (['\n'] + rest)[1..] == rest;
    }
  }

  /** Every non-empty list of plain keys survives the column, whatever the JSON parser does. */
  lemma PlainSurvives(keys: seq<string>, json: Json)
    requires keys != [] && Plain(keys)
    ensures Survives(keys, Lines(json))
  {
    JoinedHead(keys);
    TrimSpaceHead(Join(keys, '\n'));
    SurvivesIff(keys, json);
  }

  lemma {:induction false} PlainHereditary(keys: seq<string>, json: Json)
    requires Plain(keys)
    ensures Hereditary(keys, Lines(json))
    decreases |keys|
  {
    if |keys| > 1 {
      forall i | 0 <= i < |keys|
        ensures Survives(RemoveAt(keys, i), Lines(json)) && Hereditary(RemoveAt(keys, i), Lines(json))
      {
        PlainSurvives(RemoveAt(keys, i), json);
        PlainHereditary(RemoveAt(keys, i), json);
      }
    }
  }

  lemma {:induction false} HereditarySingle(keys: seq<string>, i: nat, codec: Codec)
    requires |keys| > 1 && i < |keys| && Hereditary(keys, codec)
    ensures Survives([keys[i]], codec)
    decreases |keys|
  {
    var j := if i == 0 then 1 else 0;
    var rest, k := RemoveAt(keys, j), if i == 0 then 0 else i - 1;
    assert rest[k] == keys[i];
    if |keys| == 2 {
      assert rest == [keys[i]];
    } else {
      HereditarySingle(rest, k, codec);
    }
  }

  /** A parser that takes no text for an array, and one that takes every text for an empty one. */
  function NoArray(s: string): Option<seq<string>> {
    None
  }

  function EmptyArray(s: string): Option<seq<string>> {
    Some([])
  }

  /** Plain keys are exactly the ones that are safe whatever the JSON parser does. */
  lemma PlainIff(keys: seq<string>)
    requires |keys| > 1
    ensures (forall json :: Hereditary(keys, Lines(json))) <==> Plain(keys)
  {
    if Plain(keys) {
      forall json
        ensures Hereditary(keys, Lines(json))
      {
        PlainHereditary(keys, json);
      }
    } else {
      var i: nat :| i < |keys| && !PlainKey(keys[i]);
      if Hereditary(keys, Lines(NoArray)) && Hereditary(keys, Lines(EmptyArray)) {
        HereditarySingle(keys, i, Lines(NoArray));
        HereditarySingle(keys, i, Lines(EmptyArray));
        SurvivesIff([keys[i]], NoArray);
        SurvivesIff([keys[i]], EmptyArray);
      }
    }
  }

  /** Every run of actions on the gateway's own column, for keys on single lines that do not look like a
      JSON array. */
  lemma GatewayRunRefines(c: Channel, actions: seq<Action>, json: Json)
    requires Valid(c, Lines(json)) && Plain(GetKeys(c.key, json))
    ensures Good(Run(c, actions, Lines(json)), Lines(json))
    ensures Records(Run(c, actions, Lines(json)), Lines(json)) == RunList(Records(c, Lines(json)), actions)
  {
    LinesSound(json);
    PlainHereditary(GetKeys(c.key, json), json);
    RunRefines(c, actions, Lines(json));
  }

  // ---- the status view

  function Count(rs: seq<Record>, status: int): nat {
    if rs == [] then 0 else Count(rs[..|rs| - 1], status) + if rs[|rs| - 1].status == status then 1 else 0
  }

  lemma {:induction false} CountsCover(rs: seq<Record>)
    requires forall i :: 0 <= i < |rs| ==> ENABLED <= rs[i].status <= AUTO
    ensures Count(rs, ENABLED) + Count(rs, MANUAL) + Count(rs, AUTO) == |rs|
  {
    if rs != [] {
      CountsCover(rs[..|rs| - 1]);
    }
  }

  /** The three status counts add up to the size in every valid state. */
  lemma CountsSumToSize(c: Channel, codec: Codec)
    requires Valid(c, codec)
    ensures var rs := Records(c, codec);
            Count(rs, ENABLED) + Count(rs, MANUAL) + Count(rs, AUTO) == c.size
  {
    var rs := Records(c, codec);
    assert forall i :: 0 <= i < |rs| ==> rs[i].status == StatusAt(c, i);
    CountsCover(rs);
  }

  datatype KeyStatus = KeyStatus(index: int, status: int, time: int, reason: string, preview: string)

  function Preview(key: string): string {
    if |key| > 10 then key[..10] + "..." else key
  }

  function StatusOf(r: Record, i: int): KeyStatus {
    var shown := Shown(r);
    KeyStatus(i, r.status, shown.time, shown.reason, Preview(r.key))
  }

  /** The entries of the first `n` records that pass the filter. */
  function Filtered(rs: seq<Record>, filter: Option<int>, n: nat): seq<KeyStatus>
    requires n <= |rs|
  {
    if n == 0 then []
    else if filter.None? || filter.value == rs[n - 1].status
    then Filtered(rs, filter, n - 1) + [StatusOf(rs[n - 1], n - 1)]
    else Filtered(rs, filter, n - 1)
  }

  /** An entry shows its own record: position, status, the time and reason of a key that is not enabled, and at
      most ten characters of the key. */
  predicate ShowsRecord(rs: seq<Record>, e: KeyStatus) {
    && 0 <= e.index < |rs|
    && var r := rs[e.index];
    && e.status == r.status
    && e.time == (if r.status == 1 then 0 else r.time) && e.reason == (if r.status == 1 then "" else r.reason)
    && e.preview == if |r.key| > 10 then r.key[..10] + "..." else r.key
  }

  predicate Wants(filter: Option<int>, r: Record) {
    filter.None? || filter.value == r.status
  }

  predicate EntryOf(rs: seq<Record>, filter: Option<int>, n: nat, e: KeyStatus)
    requires n <= |rs|
  {
    ShowsRecord(rs, e) && e.index < n && Wants(filter, rs[e.index])
  }

  ghost predicate Entries(rs: seq<Record>, filter: Option<int>, n: nat, es: seq<KeyStatus>)
    requires n <= |rs|
  {
    && (forall j :: 0 <= j < |es| ==> EntryOf(rs, filter, n, es[j]))
    && (forall j, k :: 0 <= j < k < |es| ==> es[j].index < es[k].index)
  }

  lemma EntriesSnoc(rs: seq<Record>, filter: Option<int>, n: nat, es: seq<KeyStatus>)
    requires 0 < n <= |rs| && Entries(rs, filter, n - 1, es)
    ensures Entries(rs, filter, n, es)
    ensures Wants(filter, rs[n - 1]) ==> Entries(rs, filter, n, es + [StatusOf(rs[n - 1], n - 1)])
  {
    forall j | 0 <= j < |es|
      ensures EntryOf(rs, filter, n, es[j]) && es[j].index < n - 1
    {
      assert EntryOf(rs, filter, n - 1, es[j]);
    }
  }

  /** The filtered list has entries of records that pass, in order. */
  lemma {:induction false} FilteredEntries(rs: seq<Record>, filter: Option<int>, n: nat)
    requires n <= |rs|
    ensures Entries(rs, filter, n, Filtered(rs, filter, n))
  {
    if n > 0 {
      FilteredEntries(rs, filter, n - 1);
      EntriesSnoc(rs, filter, n, Filtered(rs, filter, n - 1));
    }
  }

  /** And one for every such record. */
  lemma {:induction false} FilteredAll(rs: seq<Record>, filter: Option<int>, n: nat, i: nat)
    requires i < n <= |rs| && Wants(filter, rs[i])
    ensures exists j :: 0 <= j < |Filtered(rs, filter, n)| && Filtered(rs, filter, n)[j].index == i
  {
    var before, es := Filtered(rs, filter, n - 1), Filtered(rs, filter, n);
    if i == n - 1 {
      assert es[|before|].index == i;
    } else {
      FilteredAll(rs, filter, n - 1, i);
      var j :| 0 <= j < |before| && before[j].index == i;
      assert es[j] == before[j];
    }
  }

  /** A status count is the number of entries its filter shows. */
  lemma {:induction false} CountIsFiltered(rs: seq<Record>, status: int, n: nat)
    requires n <= |rs|
    ensures Count(rs[..n], status) == |Filtered(rs, Some(status), n)|
  {
    if n > 0 {
      CountIsFiltered(rs, status, n - 1);
      assert rs[..n][..n - 1] == rs[..n - 1];
    }
  }

  function TotalPages(total: nat, pageSize: int): int
    requires pageSize > 0
  {
    if (total + pageSize - 1) / pageSize == 0 then 1 else (total + pageSize - 1) / pageSize
  }

  function Page<T>(xs: seq<T>, page: int, pageSize: int): seq<T>
    requires page >= 1 && pageSize >= 1
  {
    var start := (page - 1) * pageSize;
    if start < |xs| then xs[start..if start + pageSize < |xs| then start + pageSize else |xs|] else []
  }

  /** Pages 1 to `n`, one after the other. */
  function Pages<T>(xs: seq<T>, n: nat, pageSize: int): seq<T>
    requires pageSize >= 1
  {
    if n == 0 then [] else Pages(xs, n - 1, pageSize) + Page(xs, n, pageSize)
  }

  lemma {:induction false} PagesArePrefix<T>(xs: seq<T>, n: nat, pageSize: int)
    requires pageSize >= 1
    ensures Pages(xs, n, pageSize) == xs[..if n * pageSize < |xs| then n * pageSize else |xs|]
  {
    if n > 0 {
      PagesArePrefix(xs, n - 1, pageSize);
      assert (n - 1) * pageSize == n * pageSize - pageSize;
    }
  }

  /** Pages 1 to TotalPages concatenate to the filtered list. */
  lemma PagesCoverAll<T>(xs: seq<T>, pageSize: int)
    requires pageSize >= 1
    ensures Pages(xs, TotalPages(|xs|, pageSize), pageSize) == xs
  {
    var n := TotalPages(|xs|, pageSize);
    assert n * pageSize >= |xs| by {
      var total := |xs| + pageSize - 1;
      assert total == total / pageSize * pageSize + total % pageSize;
    }
    PagesArePrefix(xs, n, pageSize);
  }

  /** No page holds more than its size, and only the single page of an empty list is empty. */
  lemma PagesAreTight<T>(xs: seq<T>, page: int, pageSize: int)
    requires pageSize >= 1 && 1 <= page <= TotalPages(|xs|, pageSize)
    ensures |Page(xs, page, pageSize)| <= pageSize
    ensures xs != [] ==> Page(xs, page, pageSize) != []
    ensures xs == [] ==> TotalPages(|xs|, pageSize) == 1
  {
    var total, pages := |xs| + pageSize - 1, TotalPages(|xs|, pageSize);
    assert total == total / pageSize * pageSize + total % pageSize;
    if xs != [] {
      LastPageStarts(|xs|, page, pages, pageSize);
    }
  }

  lemma LastPageStarts(total: nat, page: int, pages: int, pageSize: int)
    requires pageSize >= 1 && total >= 1 && 1 <= page <= pages && pages * pageSize <= total + pageSize - 1
    ensures (page - 1) * pageSize < total
  {
    assert (page - 1) * pageSize <= (pages - 1) * pageSize;
    assert (pages - 1) * pageSize == pages * pageSize - pageSize;
  }

  // ---- the stored channel

  datatype Reply = Refused | NotSaved | Done(affected: int)

  datatype StatusPage = StatusPage(keys: seq<KeyStatus>, total: int, page: int, pageSize: int, totalPages: int,
                                   enabled: int, manualDisabled: int, autoDisabled: int)

  lemma AllButSnoc(n: nat, i: int)
    requires i >= 0
    ensures AllBut(n + 1, i) == if n == i then AllBut(n, i) else AllBut(n, i) + [n]
  {
  }

  lemma PickSnoc<T>(xs: seq<T>, keep: seq<int>, i: int)
    requires Positions(keep, |xs|) && 0 <= i < |xs|
    ensures Positions(keep + [i], |xs|) && Pick(xs, keep + [i]) == Pick(xs, keep) + [xs[i]]
  {
  }

  /** disable_all_keys: turn every enabled position into a manually disabled one. */
  method DisableEnabled(c: Channel) returns (next: map<int, int>, disabled: int)
    ensures next == AllManual(c) && disabled == EnabledBelow(c, c.size)
  {
    next, disabled := c.status, 0;
    var i := 0;
    while i < c.size
      invariant 0 <= i && (i <= c.size || (i == 0 && c.size < 0))
      invariant next == ManualBelow(c, i) && disabled == EnabledBelow(c, i)
    {
      ManualBelowAt(c, i, i);
      var current := if i in next then next[i] else ENABLED;
      if current == ENABLED {
        next := next[i := MANUAL];
        disabled := disabled + 1;
      }
      i := i + 1;
    }
  }

  lemma PageCount(total: nat, pageSize: int)
    requires pageSize >= 1
    ensures (total + pageSize - 1) / pageSize >= 0
  {
  }

  lemma PageStart(page: int, pageSize: int)
    requires page >= 1 && pageSize >= 1
    ensures (page - 1) * pageSize >= 0
  {
  }

  /** Paging of the filtered list: defaults, the page count, and clamping to the last page. */
  method TakePage(xs: seq<KeyStatus>, pageAsked: int, pageSizeAsked: int)
    returns (content: seq<KeyStatus>, page: int, pageSize: int, pages: int)
    ensures pageSize == if pageSizeAsked <= 0 then 50 else pageSizeAsked
    ensures pages == TotalPages(|xs|, pageSize)
    ensures 1 <= page <= pages && (1 <= pageAsked <= pages ==> page == pageAsked) && (pageAsked > pages ==> page == pages)
    ensures content == Page(xs, page, pageSize)
  {
    page := if pageAsked <= 0 then 1 else pageAsked;
    pageSize := if pageSizeAsked <= 0 then 50 else pageSizeAsked;
    var total := |xs|;
    pages := (total + pageSize - 1) / pageSize;
    PageCount(total, pageSize);
    if pages == 0 {
      pages := 1;
    }
    if page > pages {
      page := pages;
    }
    var start := (page - 1) * pageSize;
    PageStart(page, pageSize);
    var end := start + pageSize;
    if end > total {
      end := total;
    }
    content := [];
    if start < total {
      content := xs[start..end];
    }
  }

  lemma StatusStep(c: Channel, keep: seq<int>, i: int)
    ensures Reindex(Disabled(c.status), keep + [i]) ==
            if StatusAt(c, i) != ENABLED then Reindex(Disabled(c.status), keep)[|keep| := StatusAt(c, i)]
            else Reindex(Disabled(c.status), keep)
  {
    ReindexSnoc(Disabled(c.status), keep, i);
  }

  lemma OnlyStep<T>(m: map<int, T>, c: Channel, keep: seq<int>, i: int)
    ensures Reindex(Only(m, c.status), keep + [i]) ==
            if i in m && StatusAt(c, i) != ENABLED then Reindex(Only(m, c.status), keep)[|keep| := m[i]]
            else Reindex(Only(m, c.status), keep)
  {
    ReindexSnoc(Only(m, c.status), keep, i);
  }

  /** delete_key: copy every position but one, with new indices. */
  method SkipKey(c: Channel, keys: seq<string>, index: nat, codec: Codec) returns (next: Channel)
    ensures DeleteWanted(c, keys, index, codec) == if next.size == 0 then None else Some(next)
  {
    var remaining: seq<string>, newIndex := [], 0;
    var newStatus: map<int, int>, newTime: map<int, int>, newReason: map<int, string> := map[], map[], map[];
    ghost var keep: seq<int> := [];
    for i := 0 to |keys|
      invariant keep == AllBut(i, index) && Positions(keep, |keys|)
      invariant newIndex == |keep| && remaining == Pick(keys, keep)
      invariant newStatus == Reindex(Disabled(c.status), keep)
      invariant newTime == Reindex(c.time, keep) && newReason == Reindex(c.reason, keep)
    {
      AllButSnoc(i, index);
      if i == index {
        continue;
      }
      StatusStep(c, keep, i);
      ReindexSnoc(c.time, keep, i);
      ReindexSnoc(c.reason, keep, i);
      PickSnoc(keys, keep, i);
      remaining := remaining + [keys[i]];
      if i in c.status && c.status[i] != ENABLED {
        newStatus := newStatus[newIndex := c.status[i]];
      }
      if i in c.time {
        newTime := newTime[newIndex := c.time[i]];
      }
      if i in c.reason {
        newReason := newReason[newIndex := c.reason[i]];
      }
      keep := keep + [i];
      newIndex := newIndex + 1;
    }
    next := Channel(codec.write(remaining), |remaining|, newStatus, newTime, newReason);
  }

  // What delete_disabled_keys has copied after the first `n` positions.

  function KeysUpTo(c: Channel, keys: seq<string>, n: nat): seq<string>
    requires n <= |keys|
  {
    Pick(keys, NotAuto(c, n))
  }

  function StatusUpTo(c: Channel, n: nat): map<int, int> {
    Reindex(Disabled(c.status), NotAuto(c, n))
  }

  function DetailUpTo<T>(m: map<int, T>, c: Channel, n: nat): map<int, T> {
    Reindex(Only(m, c.status), NotAuto(c, n))
  }

  lemma SkipAutoStep(c: Channel, keys: seq<string>, n: nat)
    requires n < |keys|
    ensures |NotAuto(c, n + 1)| == |NotAuto(c, n)| + if StatusAt(c, n) == AUTO then 0 else 1
    ensures KeysUpTo(c, keys, n + 1) == KeysUpTo(c, keys, n) + if StatusAt(c, n) == AUTO then [] else [keys[n]]
  {
    if StatusAt(c, n) != AUTO {
      PickSnoc(keys, NotAuto(c, n), n);
    }
  }

  lemma StatusUpToStep(c: Channel, n: nat)
    ensures StatusUpTo(c, n + 1) ==
            if StatusAt(c, n) == AUTO || StatusAt(c, n) == ENABLED then StatusUpTo(c, n)
            else StatusUpTo(c, n)[|NotAuto(c, n)| := StatusAt(c, n)]
  {
    if StatusAt(c, n) != AUTO {
      StatusStep(c, NotAuto(c, n), n);
    }
  }

  lemma DetailStep<T>(m: map<int, T>, c: Channel, n: nat)
    ensures DetailUpTo(m, c, n + 1) ==
            if StatusAt(c, n) == AUTO || StatusAt(c, n) == ENABLED || n !in m then DetailUpTo(m, c, n)
            else DetailUpTo(m, c, n)[|NotAuto(c, n)| := m[n]]
  {
    if StatusAt(c, n) != AUTO {
      OnlyStep(m, c, NotAuto(c, n), n);
    }
  }

  /** Keep the state of a position that stays, under its new index. */
  method CopyState(c: Channel, i: nat, newIndex: int, status: map<int, int>, time: map<int, int>, reason: map<int, string>)
    returns (newStatus: map<int, int>, newTime: map<int, int>, newReason: map<int, string>)
    requires newIndex == |NotAuto(c, i)| && StatusAt(c, i) != AUTO
    requires status == StatusUpTo(c, i) && time == DetailUpTo(c.time, c, i) && reason == DetailUpTo(c.reason, c, i)
    ensures newStatus == StatusUpTo(c, i + 1)
    ensures newTime == DetailUpTo(c.time, c, i + 1) && newReason == DetailUpTo(c.reason, c, i + 1)
  {
    newStatus, newTime, newReason := status, time, reason;
    StatusUpToStep(c, i);
    DetailStep(c.time, c, i);
    DetailStep(c.reason, c, i);
    var current := if i in c.status then c.status[i] else ENABLED;
    if current != ENABLED {
      newStatus := newStatus[newIndex := current];
      if i in c.time {
        newTime := newTime[newIndex := c.time[i]];
      }
      if i in c.reason {
        newReason := newReason[newIndex := c.reason[i]];
      }
    }
  }

  lemma AutoStep(c: Channel, i: nat)
    requires StatusAt(c, i) == AUTO
    ensures NotAuto(c, i + 1) == NotAuto(c, i)
  {
  }

  lemma CopiedAll(c: Channel, keys: seq<string>, codec: Codec)
    ensures var n := |keys|;
            DeleteDisabledWanted(c, keys, codec) ==
            if |NotAuto(c, n)| == n then None
            else Some(Channel(codec.write(KeysUpTo(c, keys, n)), |NotAuto(c, n)|, StatusUpTo(c, n),
                              DetailUpTo(c.time, c, n), DetailUpTo(c.reason, c, n)))
  {
  }

  /** delete_disabled_keys: copy every position that is not auto-disabled, with new indices. */
  method SkipAuto(c: Channel, keys: seq<string>, codec: Codec) returns (wanted: Option<Channel>, deleted: int)
    ensures wanted == DeleteDisabledWanted(c, keys, codec)
    ensures wanted.Some? ==> deleted == |keys| - wanted.value.size
  {
    var remaining: seq<string> := [];
    var newStatus: map<int, int>, newTime: map<int, int>, newReason: map<int, string> := map[], map[], map[];
    deleted := 0;
    for i := 0 to |keys|
      invariant |remaining| == |NotAuto(c, i)| && |remaining| + deleted == i
      invariant remaining == KeysUpTo(c, keys, i)
      invariant newStatus == StatusUpTo(c, i)
      invariant newTime == DetailUpTo(c.time, c, i) && newReason == DetailUpTo(c.reason, c, i)
    {
      SkipAutoStep(c, keys, i);
      if (if i in c.status then c.status[i] else ENABLED) == AUTO {
        AutoStep(c, i);
        deleted := deleted + 1;
      } else {
        newStatus, newTime, newReason := CopyState(c, i, |remaining|, newStatus, newTime, newReason);
        remaining := remaining + [keys[i]];
      }
    }
    CopiedAll(c, keys, codec);
    if deleted == 0 {
      return None, 0;
    }
    wanted := Some(Channel(codec.write(remaining), |remaining|, newStatus, newTime, newReason));
  }

  lemma {:induction false} SomeEnabledIff(c: Channel, n: int)
    ensures EnabledBelow(c, n) == 0 <==> forall i :: 0 <= i < n ==> i in c.status && c.status[i] != ENABLED
  {
    if n > 0 {
      SomeEnabledIff(c, n - 1);
    }
  }

  lemma {:induction false} SomeAutoIff(c: Channel, n: nat)
    ensures |NotAuto(c, n)| <= n
    ensures |NotAuto(c, n)| == n <==> forall i :: 0 <= i < n ==> !(i in c.status && c.status[i] == AUTO)
  {
    if n > 0 {
      SomeAutoIff(c, n - 1);
    }
  }

  lemma {:induction false} AutoCountBelow(c: Channel, rs: seq<Record>)
    requires forall k :: 0 <= k < |rs| ==> rs[k].status == StatusAt(c, k)
    ensures Count(rs, AUTO) == |rs| - |NotAuto(c, |rs|)|
  {
    if rs != [] {
      AutoCountBelow(c, rs[..|rs| - 1]);
    }
  }

  lemma AutoCount(c: Channel, codec: Codec)
    ensures Count(Records(c, codec), AUTO) == |codec.read(c.key)| - |NotAuto(c, |codec.read(c.key)|)|
  {
    AutoCountBelow(c, Records(c, codec));
  }

  lemma SomeIndex(s: set<int>)
    ensures s == {} || exists i: int :: i in s
  {
    if forall i: int :: i !in s {
      assert s == {};
    }
  }

  /** Channel.Update drops the statuses of positions the column no longer has. */
  method WithinCount(status: map<int, int>, count: int) returns (cleaned: map<int, int>)
    ensures cleaned == map i: int | i in status && i < count :: status[i]
  {
    cleaned := status;
    var todo := status.Keys;
    while todo != {}
      invariant todo <= status.Keys
      invariant cleaned == map i: int | i in status && (i in todo || i < count) :: status[i]
      decreases todo
    {
      SomeIndex(todo);
      var i :| i in todo;
      if i >= count {
        cleaned := cleaned - {i};
      }
      todo := todo - {i};
    }
  }

  class MultiKeyChannel {
    var key: string
    var size: int
    var status: map<int, int>
    var time: map<int, int>
    var reason: map<int, string>
    const codec: Codec

    constructor (c: Channel, codec: Codec)
      ensures Value() == c && this.codec == codec
    {
      key, size, status, time, reason := c.key, c.size, c.status, c.time, c.reason;
      this.codec := codec;
    }

    function Value(): Channel
      reads this
    {
      Channel(key, size, status, time, reason)
    }

    /** Channel.Update; `saves` is whether the database write succeeds. */
    method Update(next: Channel, affected: int, saves: bool) returns (r: Reply)
      modifies this
      ensures Value() == if saves then Saved(old(Value()), next, codec) else old(Value())
      ensures r == if saves then Done(affected) else NotSaved
    {
      var column := if next.key != "" then next.key else key;
      var count := codec.count(column);
      var cleaned := WithinCount(next.status, count);
      if !saves {
        return NotSaved;
      }
      key, size, status, time, reason := column, count, cleaned, next.time, next.reason;
      return Done(affected);
    }

    method Disable(index: Option<int>, saves: bool) returns (r: Reply)
      modifies this
      ensures Value() == if saves then Act(old(Value()), DisableKey(index), codec) else old(Value())
      ensures r.Refused? <==> index.None? || !(0 <= index.value < old(size))
      ensures !r.Refused? ==> r == if saves then Done(1) else NotSaved
    {
      if index.None? || index.value < 0 || index.value >= size {
        return Refused;
      }
      r := Update(Channel(key, size, status[index.value := MANUAL], time, reason), 1, saves);
    }

    method Enable(index: Option<int>, saves: bool) returns (r: Reply)
      modifies this
      ensures Value() == if saves then Act(old(Value()), EnableKey(index), codec) else old(Value())
      ensures r.Refused? <==> index.None? || !(0 <= index.value < old(size))
      ensures !r.Refused? ==> r == if saves then Done(1) else NotSaved
    {
      if index.None? || index.value < 0 || index.value >= size {
        return Refused;
      }
      var i := index.value;
      r := Update(Channel(key, size, status - {i}, time - {i}, reason - {i}), 1, saves);
    }

    method EnableAll(saves: bool) returns (r: Reply)
      modifies this
      ensures Value() == if saves then Act(old(Value()), EnableAllKeys, codec) else old(Value())
      ensures r == if saves then Done(|old(status)|) else NotSaved
    {
      r := Update(Channel(key, size, map[], map[], map[]), |status|, saves);
    }

    method DisableAll(saves: bool) returns (r: Reply)
      modifies this
      ensures Value() == if saves then Act(old(Value()), DisableAllKeys, codec) else old(Value())
      ensures r.Refused? <==> forall i :: 0 <= i < old(size) ==> i in old(status) && old(status)[i] != ENABLED
      ensures !r.Refused? ==> r == if saves then Done(EnabledBelow(old(Value()), old(size))) else NotSaved
    {
      var next, disabled := DisableEnabled(Value());
      SomeEnabledIff(Value(), size);
      if disabled == 0 {
        return Refused;
      }
      r := Update(Channel(key, size, next, time, reason), disabled, saves);
    }

    method Delete(index: Option<int>, saves: bool) returns (r: Reply)
      modifies this
      ensures Value() == if saves then Act(old(Value()), DeleteKey(index), codec) else old(Value())
      ensures r.Refused? <==>
              || index.None? || !(0 <= index.value < old(size))
              || |codec.read(old(key))| == (if index.value < |codec.read(old(key))| then 1 else 0)
      ensures !r.Refused? ==> r == if saves then Done(1) else NotSaved
    {
      if index.None? || index.value < 0 || index.value >= size {
        return Refused;
      }
      var keys := codec.read(key);
      var next := SkipKey(Value(), keys, index.value, codec);
      if next.size == 0 {
        return Refused;
      }
      r := Update(next, 1, saves);
    }

    method DeleteDisabled(saves: bool) returns (r: Reply)
      modifies this
      ensures Value() == if saves then Act(old(Value()), DeleteDisabledKeys, codec) else old(Value())
      ensures r.Refused? <==>
              forall i :: 0 <= i < |codec.read(old(key))| ==> !(i in old(status) && old(status)[i] == AUTO)
      ensures !r.Refused? ==> r == if saves then Done(Count(Records(old(Value()), codec), AUTO)) else NotSaved
    {
      var keys := codec.read(key);
      var wanted, deleted := SkipAuto(Value(), keys, codec);
      AutoCount(Value(), codec);
      SomeAutoIff(Value(), |keys|);
      if wanted.None? {
        return Refused;
      }
      r := Update(wanted.value, deleted, saves);
    }

    /** get_key_status: counts over all keys, one page of the filtered list. */
    method KeyStatusPage(pageAsked: int, pageSizeAsked: int, filter: Option<int>) returns (r: StatusPage)
      ensures var rs := Records(Value(), codec);
              && r.enabled == Count(rs, ENABLED) && r.manualDisabled == Count(rs, MANUAL) && r.autoDisabled == Count(rs, AUTO)
              && r.pageSize == (if pageSizeAsked <= 0 then 50 else pageSizeAsked)
              && r.total == |Filtered(rs, filter, |rs|)| && r.totalPages == TotalPages(r.total, r.pageSize)
              && 1 <= r.page <= r.totalPages && (1 <= pageAsked <= r.totalPages ==> r.page == pageAsked)
              && r.keys == Page(Filtered(rs, filter, |rs|), r.page, r.pageSize)
    {
      var filtered, enabled, manual, auto := CollectStatus(filter);
      var content, page, pageSize, pages := TakePage(filtered, pageAsked, pageSizeAsked);
      r := StatusPage(content, |filtered|, page, pageSize, pages, enabled, manual, auto);
    }

    /** The statistics over all keys and the filtered list. */
    method CollectStatus(filter: Option<int>) returns (filtered: seq<KeyStatus>, enabled: int, manual: int, auto: int)
      ensures var rs := Records(Value(), codec);
              && filtered == Filtered(rs, filter, |rs|)
              && enabled == Count(rs, ENABLED) && manual == Count(rs, MANUAL) && auto == Count(rs, AUTO)
    {
      var keys := codec.read(key);
      ghost var rs := Records(Value(), codec);
      filtered, enabled, manual, auto := [], 0, 0, 0;
      for i := 0 to |keys|
        invariant filtered == Filtered(rs, filter, i)
        invariant enabled == Count(rs[..i], ENABLED) && manual == Count(rs[..i], MANUAL) && auto == Count(rs[..i], AUTO)
      {
        assert rs[..i + 1][..i] == rs[..i];
        var current := if i in status then status[i] else ENABLED;
        var shownTime, shownReason := 0, "";
        match current {
          case 1 => enabled := enabled + 1;
          case 2 => manual := manual + 1;
          case 3 => auto := auto + 1;
          case _ =>
        }
        if current != ENABLED {
          shownTime := if i in time then time[i] else 0;
          shownReason := if i in reason then reason[i] else "";
        }
        if filter.None? || filter.value == current {
          filtered := filtered + [KeyStatus(i, current, shownTime, shownReason, Preview(keys[i]))];
        }
      }
      assert rs[..|rs|] == rs;
    }
  }
}
