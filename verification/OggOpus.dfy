/**
 The duration of an Opus file: the scan over Ogg pages that keeps the largest granule position.
 A page is the capture pattern "OggS", version, type, granule position, twelve bytes of serial number,
 sequence number and checksum, the segment count, the segment table and the segments
 (section 6 of RFC 3533). The sampling rate is 48000 (section 4 of RFC 7845).
*/
module OggOpus {
  import opened Bytes

  const HEADER := 27

  const MAGIC: seq<Byte> := [0x4F, 0x67, 0x67, 0x53]

  /** The capture pattern is the text "OggS". */
  lemma CapturePattern()
    ensures |MAGIC| == |"OggS"| && forall i :: 0 <= i < |MAGIC| ==> MAGIC[i] as int == "OggS"[i] as int
  {
    var text := "OggS";
    assert text[0] == 'O' && text[1] == 'g' && text[2] == 'g' && text[3] == 'S';
  }

  // ---- reading

  predicate Magic(data: seq<Byte>, pos: nat)
    requires pos + HEADER <= |data|
  {
    data[pos..pos + 4] == MAGIC
  }

  function Granule(data: seq<Byte>, pos: nat): int
    requires pos + HEADER <= |data|
  {
    Signed(Number(data[pos + 6..pos + 14]))
  }

  function TableEnd(data: seq<Byte>, pos: nat): nat
    requires pos + HEADER <= |data|
  {
    pos + HEADER + data[pos + 26] as nat
  }

  function PageEnd(data: seq<Byte>, pos: nat): nat
    requires pos + HEADER <= |data| && TableEnd(data, pos) <= |data|
  {
    TableEnd(data, pos) + Sum(data[pos + HEADER..TableEnd(data, pos)])
  }

  /** The positions from `pos` on where the scan takes up a page. */
  function Stops(data: seq<Byte>, pos: nat): (stops: seq<nat>)
    ensures forall i :: 0 <= i < |stops| ==> stops[i] + HEADER <= |data| && Magic(data, stops[i])
    decreases |data| - pos
  {
    if pos + HEADER > |data| then []
    else if !Magic(data, pos) then Stops(data, pos + 1)
    else if TableEnd(data, pos) > |data| then [pos]
    else [pos] + Stops(data, PageEnd(data, pos))
  }

  /** The largest granule position at the first `n` stops, at least zero. */
  function Largest(data: seq<Byte>, stops: seq<nat>, n: nat): int
    requires n <= |stops| && forall i :: 0 <= i < |stops| ==> stops[i] + HEADER <= |data|
  {
    if n == 0 then 0 else Max(Largest(data, stops, n - 1), Granule(data, stops[n - 1]))
  }

  function Max(a: int, b: int): int {
    if b > a then b else a
  }

  method SumOf(table: seq<Byte>) returns (sum: nat)
    ensures sum == Sum(table)
  {
    sum := 0;
    for i := 0 to |table|
      invariant sum == Sum(table[..i])
    {
      assert table[..i + 1][..i] == table[..i];
      sum := sum + table[i] as nat;
    }
    assert table[..|table|] == table;
  }

  lemma LargestPrefix(data: seq<Byte>, stops: seq<nat>, more: seq<nat>, n: nat)
    requires n <= |stops| && forall i :: 0 <= i < |stops + more| ==> (stops + more)[i] + HEADER <= |data|
    requires forall i :: 0 <= i < |stops| ==> stops[i] + HEADER <= |data|
    ensures Largest(data, stops + more, n) == Largest(data, stops, n)
  {
    if n > 0 {
      LargestPrefix(data, stops, more, n - 1);
    }
  }

  /** One round of the scan at `offset`: where it goes on, and the page it took up, if any. */
  method NextPage(data: seq<Byte>, offset: nat) returns (found: bool, granule: int, next: nat, stop: bool)
    requires offset + HEADER <= |data|
    ensures found == Magic(data, offset) && offset < next
    ensures !found ==> !stop && next == offset + 1
    ensures found ==> granule == Granule(data, offset) && stop == (TableEnd(data, offset) > |data|)
    ensures found && !stop ==> next == PageEnd(data, offset)
  {
    var buf := data[offset..offset + HEADER];
    Slice(data, offset, offset + HEADER, 0, 4);
    Slice(data, offset, offset + HEADER, 6, 14);
    next := offset + HEADER;
    stop, granule := false, 0;
    found := buf[0..4] == MAGIC;
    if !found {
      next := next - 26;
      return;
    }
    granule := Signed(Number(buf[6..14]));
    var segments := buf[26] as nat;
    if segments > |data| - next {
      stop := true;
      return;
    }
    var size := SumOf(data[next..next + segments]);
    next := next + segments + size;
  }

  lemma LargestSnoc(data: seq<Byte>, seen: seq<nat>, pos: nat)
    requires pos + HEADER <= |data| && forall i :: 0 <= i < |seen| ==> seen[i] + HEADER <= |data|
    ensures Largest(data, seen + [pos], |seen| + 1) == Max(Largest(data, seen, |seen|), Granule(data, pos))
  {
    LargestPrefix(data, seen, [pos], |seen|);
  }

  ghost predicate Scanned(data: seq<Byte>, seen: seq<nat>, rest: seq<nat>, total: int) {
    && Stops(data, 0) == seen + rest
    && (forall i :: 0 <= i < |seen| ==> seen[i] + HEADER <= |data|)
    && total == Largest(data, seen, |seen|)
  }

  lemma PageScanned(data: seq<Byte>, seen: seq<nat>, pos: nat, rest: seq<nat>, total: int)
    requires Scanned(data, seen, [pos] + rest, total) && pos + HEADER <= |data|
    ensures Scanned(data, seen + [pos], rest, Max(total, Granule(data, pos)))
  {
    LargestSnoc(data, seen, pos);
    assert seen + ([pos] + rest) == seen + [pos] + rest;
  }

  /** The scan over a file read in full blocks. The file offset grows in every round. */
  method OpusDuration(data: seq<Byte>) returns (duration: real)
    ensures duration == Largest(data, Stops(data, 0), |Stops(data, 0)|) as real / 48000.0
  {
    var offset, total, stop := 0, 0, false;
    ghost var seen: seq<nat> := [];
    while !stop && offset + HEADER <= |data|
      invariant Scanned(data, seen, if stop then [] else Stops(data, offset), total)
      decreases !stop, |data| - offset
    {
      var found, granule, next, ends := NextPage(data, offset);
      if found {
        PageScanned(data, seen, offset, if ends then [] else Stops(data, next), total);
        seen := seen + [offset];
        if granule > total {
          total := granule;
        }
        stop := ends;
      }
      offset := next;
    }
    assert Stops(data, 0) == seen;
    return total as real / 48000.0;
  }

  // ---- writing, and the round trip

  datatype Page = Page(version: Byte, kind: Byte, granule: int, trailer: seq<Byte>, table: seq<Byte>, payload: seq<Byte>)

  predicate WellFormed(p: Page) {
    && IsInt64(p.granule) && |p.trailer| == 12
    && |p.table| < 256 && |p.payload| == Sum(p.table)
  }

  function Encode(p: Page): seq<Byte>
    requires WellFormed(p)
  {
    MAGIC + [p.version, p.kind] + Int64Bytes(p.granule) + p.trailer + [|p.table| as Byte] + p.table + p.payload
  }

  ghost predicate AllWellFormed(pages: seq<Page>) {
    forall i :: 0 <= i < |pages| ==> WellFormed(pages[i])
  }

  function Stream(pages: seq<Page>): seq<Byte>
    requires AllWellFormed(pages)
  {
    if pages == [] then [] else Encode(pages[0]) + Stream(pages[1..])
  }

  /** The starts of the pages when the first one is at `pos`. */
  function Starts(pages: seq<Page>, pos: nat): (starts: seq<nat>)
    requires AllWellFormed(pages)
    ensures |starts| == |pages|
  {
    if pages == [] then [] else [pos] + Starts(pages[1..], pos + |Encode(pages[0])|)
  }

  /** A whole header decodes to what was encoded, whatever follows. */
  lemma HeaderRoundTrip(data: seq<Byte>, pos: nat, p: Page, n: nat)
    requires WellFormed(p) && HEADER <= n <= |Encode(p)| && pos + n <= |data|
    requires data[pos..pos + n] == Encode(p)[..n]
    ensures Magic(data, pos) && Granule(data, pos) == p.granule
    ensures TableEnd(data, pos) == pos + HEADER + |p.table|
  {
    var e := Encode(p);
    Slice(data, pos, pos + n, 0, 4);
    assert e[..n][0..4] == MAGIC;
    Slice(data, pos, pos + n, 6, 14);
    Slice(e, 0, n, 6, 14);
    assert e[6..14] == Int64Bytes(p.granule);
    Int64RoundTrip(p.granule);
    assert data[pos + 26] == data[pos..pos + n][26] == e[26];
  }

  lemma TableEncoded(p: Page)
    requires WellFormed(p)
    ensures Encode(p)[HEADER..HEADER + |p.table|] == p.table
  {
    var front := MAGIC + [p.version, p.kind] + Int64Bytes(p.granule) + p.trailer + [|p.table| as Byte];
    assert |front| == HEADER;
  }

  /** A whole page decodes to its extent. */
  lemma PageRoundTrip(data: seq<Byte>, pos: nat, p: Page)
    requires WellFormed(p) && pos + |Encode(p)| <= |data| && data[pos..pos + |Encode(p)|] == Encode(p)
    ensures Magic(data, pos) && Granule(data, pos) == p.granule
    ensures TableEnd(data, pos) <= |data| && PageEnd(data, pos) == pos + |Encode(p)|
  {
    var e := Encode(p);
    HeaderRoundTrip(data, pos, p, |e|);
    TableEncoded(p);
    Slice(data, pos, pos + |e|, HEADER, HEADER + |p.table|);
  }

  /** `tail` is a beginning of some page, cut anywhere. */
  ghost predicate Cut(tail: seq<Byte>, p: Page) {
    WellFormed(p) && |tail| < |Encode(p)| && tail == Encode(p)[..|tail|]
  }

  lemma CutTable(data: seq<Byte>, pos: nat, p: Page)
    requires pos + HEADER <= |data| && Cut(data[pos..], p)
    ensures Magic(data, pos) && Granule(data, pos) == p.granule
    ensures TableEnd(data, pos) <= |data| ==> PageEnd(data, pos) > |data|
  {
    var e, n := Encode(p), |data| - pos;
    assert data[pos..pos + n] == data[pos..];
    HeaderRoundTrip(data, pos, p, n);
    if TableEnd(data, pos) <= |data| {
      Slice(data, pos, pos + n, HEADER, HEADER + |p.table|);
      Slice(e, 0, n, HEADER, HEADER + |p.table|);
      TableEncoded(p);
    }
  }

  lemma CutTail(data: seq<Byte>, pos: nat, p: Page)
    requires pos + HEADER <= |data| && Cut(data[pos..], p)
    ensures Stops(data, pos) == [pos] && Granule(data, pos) == p.granule
  {
    CutTable(data, pos, p);
  }

  /** No capture pattern between `pos` and `first`. */
  ghost predicate Junk(data: seq<Byte>, pos: nat, first: nat) {
    forall i :: pos <= i < first && i + HEADER <= |data| ==> !Magic(data, i)
  }

  /** Bytes in front of the first page without a capture pattern are skipped one by one. */
  lemma {:induction false} JunkSkipped(data: seq<Byte>, pos: nat, first: nat)
    requires pos <= first <= |data| && Junk(data, pos, first)
    ensures Stops(data, pos) == Stops(data, first)
    decreases first - pos
  {
    if pos < first && pos + HEADER <= |data| {
      JunkSkipped(data, pos + 1, first);
    }
  }

  lemma PageStep(data: seq<Byte>, pos: nat, p: Page)
    requires WellFormed(p) && pos + |Encode(p)| <= |data| && data[pos..pos + |Encode(p)|] == Encode(p)
    ensures Stops(data, pos) == [pos] + Stops(data, pos + |Encode(p)|) && Granule(data, pos) == p.granule
  {
    PageRoundTrip(data, pos, p);
  }

  lemma FirstPage(data: seq<Byte>, pos: nat, e: seq<Byte>, rest: seq<Byte>)
    requires pos <= |data| && data[pos..] == e + rest
    ensures pos + |e| <= |data| && data[pos..pos + |e|] == e && data[pos + |e|..] == rest
  {
    Slice(data, pos, |data|, 0, |e|);
    Slice(data, pos, |data|, |e|, |data| - pos);
  }

  /** The pages whose header is complete: all whole ones, and the cut one if its header is. */
  function Counted(pages: seq<Page>, tail: seq<Byte>, p: Page): seq<Page> {
    if |tail| >= HEADER then pages + [p] else pages
  }

  ghost predicate Matches(data: seq<Byte>, stops: seq<nat>, pages: seq<Page>) {
    |stops| == |pages| &&
    forall i :: 0 <= i < |pages| ==> stops[i] + HEADER <= |data| && Granule(data, stops[i]) == pages[i].granule
  }

  lemma CountedCons(pages: seq<Page>, tail: seq<Byte>, p: Page)
    requires AllWellFormed(pages) && WellFormed(p) && pages != []
    ensures Counted(pages, tail, p) == [pages[0]] + Counted(pages[1..], tail, p)
    ensures AllWellFormed(Counted(pages, tail, p))
  {
  }

  lemma {:induction false} StartsCons(first: Page, rest: seq<Page>, pos: nat)
    requires WellFormed(first) && AllWellFormed(rest) && AllWellFormed([first] + rest)
    ensures Starts([first] + rest, pos) == [pos] + Starts(rest, pos + |Encode(first)|)
  {
    assert ([first] + rest)[1..] == rest;
  }

  /** The scan of whole pages followed by a page cut anywhere: one stop at each page start. */
  lemma {:induction false} StopsArePages(data: seq<Byte>, pos: nat, pages: seq<Page>, tail: seq<Byte>, p: Page)
    requires AllWellFormed(pages) && Cut(tail, p) && pos <= |data| && data[pos..] == Stream(pages) + tail
    ensures AllWellFormed(Counted(pages, tail, p))
    ensures Stops(data, pos) == Starts(Counted(pages, tail, p), pos)
    ensures Matches(data, Stops(data, pos), Counted(pages, tail, p))
    decreases |pages|
  {
    if pages == [] {
      assert data[pos..] == tail;
      if |tail| >= HEADER {
        CutTail(data, pos, p);
      }
    } else {
      var e, rest := Encode(pages[0]), Stream(pages[1..]) + tail;
      assert Stream(pages) + tail == e + rest;
      FirstPage(data, pos, e, rest);
      PageStep(data, pos, pages[0]);
      StopsArePages(data, pos + |e|, pages[1..], tail, p);
      CountedCons(pages, tail, p);
      StartsCons(pages[0], Counted(pages[1..], tail, p), pos);
    }
  }

  /** The maximum of zero and the granule positions. */
  function Peak(pages: seq<Page>, n: nat): int
    requires n <= |pages|
  {
    if n == 0 then 0 else Max(Peak(pages, n - 1), pages[n - 1].granule)
  }

  lemma {:induction false} LargestIsPeak(data: seq<Byte>, stops: seq<nat>, pages: seq<Page>, n: nat)
    requires Matches(data, stops, pages) && n <= |pages|
    ensures Largest(data, stops, n) == Peak(pages, n)
  {
    if n > 0 {
      LargestIsPeak(data, stops, pages, n - 1);
    }
  }

  /** Junk without a capture pattern, whole pages, then a page cut anywhere: the scan takes up exactly
      the pages with a complete header, and yields the largest of their granule positions and zero. */
  lemma DurationOfStream(junk: seq<Byte>, pages: seq<Page>, tail: seq<Byte>, p: Page)
    requires AllWellFormed(pages) && Cut(tail, p)
    requires Junk(junk + (Stream(pages) + tail), 0, |junk|)
    ensures AllWellFormed(Counted(pages, tail, p))
    ensures var data, counted := junk + (Stream(pages) + tail), Counted(pages, tail, p);
            && Stops(data, 0) == Starts(counted, |junk|)
            && Largest(data, Stops(data, 0), |Stops(data, 0)|) == Peak(counted, |counted|)
  {
    var data, counted := junk + (Stream(pages) + tail), Counted(pages, tail, p);
    JunkSkipped(data, 0, |junk|);
    assert data[|junk|..] == Stream(pages) + tail;
    StopsArePages(data, |junk|, pages, tail, p);
    LargestIsPeak(data, Stops(data, 0), counted, |counted|);
  }

  /** A well-formed file: every page counts, and nothing else does. */
  lemma DurationOfPages(pages: seq<Page>)
    requires AllWellFormed(pages)
    ensures var data := Stream(pages);
            && Stops(data, 0) == Starts(pages, 0)
            && Largest(data, Stops(data, 0), |Stops(data, 0)|) == Peak(pages, |pages|)
  {
    var p := Page(0, 0, 0, [0, 0, 0, 0, 0, 0, 0, 0, 0, 0, 0, 0], [], []);
    assert Cut([], p) by {
      assert Encode(p)[..0] == [];
    }
    DurationOfStream([], pages, [], p);
    assert [] + (Stream(pages) + []) == Stream(pages);
  }
}
