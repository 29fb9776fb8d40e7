/**
 The response buffer of an asynchronous task submission: an HTTP response writer that keeps header,
 status and body to itself until they are flushed to the real writer, and can be reset between
 attempts. The real writer follows the same rules.
*/
module ResponseBuffer {
  import opened Bytes

  type Header = map<string, seq<string>>

  const NO_WRITTEN := -1

  const STATUS_OK := 200

  datatype Page = Page(header: Header, body: seq<Byte>, size: int, status: int)

  const BLANK := Page(map[], [], NO_WRITTEN, STATUS_OK)

  /** What a handler can do to a response writer. */
  datatype Op =
    | SetHeader(key: string, values: seq<string>)
    | DelHeader(key: string)
    | WriteHeader(code: int)
    | WriteHeaderNow
    | Write(data: seq<Byte>)

  predicate Written(p: Page) {
    p.size != NO_WRITTEN
  }

  function Do(p: Page, op: Op): Page {
    match op
    case SetHeader(key, values) => Page(p.header[key := values], p.body, p.size, p.status)
    case DelHeader(key) => Page(p.header - {key}, p.body, p.size, p.status)
    case WriteHeader(code) => Page(p.header, p.body, p.size, if code > 0 && !Written(p) then code else p.status)
    case WriteHeaderNow => Page(p.header, p.body, if Written(p) then p.size else 0, p.status)
    case Write(data) => Page(p.header, p.body + data, (if Written(p) then p.size else 0) + |data|, p.status)
  }

  function After(p: Page, ops: seq<Op>, n: nat): Page
    requires n <= |ops|
  {
    if n == 0 then p else Do(After(p, ops, n - 1), ops[n - 1])
  }

  // ---- the meaning of a list of operations on a blank response

  predicate Sends(op: Op) {
    op.WriteHeaderNow? || op.Write?
  }

  predicate Sent(ops: seq<Op>, n: nat)
    requires n <= |ops|
  {
    exists i :: 0 <= i < n && Sends(ops[i])
  }

  /** All written data, in order. */
  function Body(ops: seq<Op>): seq<Byte> {
    if ops == [] then [] else Body(ops[..|ops| - 1]) + (if ops[|ops| - 1].Write? then ops[|ops| - 1].data else [])
  }

  /** Operation `i` picks the status: it is the last positive code given before anything was sent. */
  ghost predicate Picks(ops: seq<Op>, n: nat, i: nat)
    requires n <= |ops|
  {
    && i < n && Candidate(ops, n, i)
    && forall j :: i < j < n ==> !Candidate(ops, n, j)
  }

  ghost predicate Candidate(ops: seq<Op>, n: nat, i: nat)
    requires i < n <= |ops|
  {
    ops[i].WriteHeader? && ops[i].code > 0 && !Sent(ops, i)
  }

  ghost predicate StatusIs(ops: seq<Op>, n: nat, status: int)
    requires n <= |ops|
  {
    || (exists i: nat :: Picks(ops, n, i) && status == ops[i].code)
    || (status == 200 && forall i :: 0 <= i < n ==> !Candidate(ops, n, i))
  }

  predicate Names(op: Op, key: string) {
    (op.SetHeader? && op.key == key) || (op.DelHeader? && op.key == key)
  }

  /** `header` holds for every key what the last operation naming it left. */
  ghost predicate HeaderIs(ops: seq<Op>, n: nat, header: Header)
    requires n <= |ops|
  {
    forall key :: KeyIs(ops, n, header, key)
  }

  ghost predicate KeyIs(ops: seq<Op>, n: nat, header: Header, key: string)
    requires n <= |ops|
  {
    || (key !in header && forall i :: 0 <= i < n ==> !Names(ops[i], key))
    || exists i: nat :: i < n && LastNaming(ops, n, i, key) && Holds(header, key, ops[i])
  }

  ghost predicate LastNaming(ops: seq<Op>, n: nat, i: nat, key: string)
    requires i < n <= |ops|
  {
    Names(ops[i], key) && forall j :: i < j < n ==> !Names(ops[j], key)
  }

  predicate Holds(header: Header, key: string, op: Op) {
    if op.SetHeader? then key in header && header[key] == op.values else key !in header
  }

  predicate SameAt(before: Header, after: Header, key: string) {
    (key in after <==> key in before) && (key in after ==> after[key] == before[key])
  }

  ghost predicate Renamed(before: Header, after: Header, op: Op) {
    forall key :: if Names(op, key) then Holds(after, key, op) else SameAt(before, after, key)
  }

  /** `p` is what the operations mean on a blank response. */
  ghost predicate Shows(p: Page, ops: seq<Op>) {
    && p.body == Body(ops)
    && p.size == (if Sent(ops, |ops|) then |Body(ops)| else NO_WRITTEN)
    && StatusIs(ops, |ops|, p.status)
    && HeaderIs(ops, |ops|, p.header)
  }

  lemma {:induction false} BodyAfter(ops: seq<Op>, n: nat)
    requires n <= |ops|
    ensures After(BLANK, ops, n).body == Body(ops[..n])
    ensures After(BLANK, ops, n).size == if Sent(ops, n) then |Body(ops[..n])| else NO_WRITTEN
  {
    if n > 0 {
      BodyAfter(ops, n - 1);
      assert ops[..n][..n - 1] == ops[..n - 1];
      if Sends(ops[n - 1]) {
        assert Sent(ops, n);
      }
      if Sent(ops, n - 1) {
        assert Sent(ops, n);
      } else {
        EmptyUntilSent(ops, n - 1);
      }
    }
  }

  lemma {:induction false} EmptyUntilSent(ops: seq<Op>, n: nat)
    requires n <= |ops| && !Sent(ops, n)
    ensures Body(ops[..n]) == []
  {
    if n > 0 {
      assert !Sends(ops[n - 1]);
      EmptyUntilSent(ops, n - 1);
      assert ops[..n][..n - 1] == ops[..n - 1];
    }
  }

  lemma {:induction false} StatusAfter(ops: seq<Op>, n: nat)
    requires n <= |ops|
    ensures StatusIs(ops, n, After(BLANK, ops, n).status)
  {
    if n > 0 {
      StatusAfter(ops, n - 1);
      BodyAfter(ops, n - 1);
      if Candidate(ops, n, n - 1) {
        assert Picks(ops, n, n - 1);
      } else {
        StatusKept(ops, n, After(BLANK, ops, n - 1).status);
      }
    }
  }

  lemma StatusKept(ops: seq<Op>, n: nat, status: int)
    requires 0 < n <= |ops| && StatusIs(ops, n - 1, status) && !Candidate(ops, n, n - 1)
    ensures StatusIs(ops, n, status)
  {
    if i: nat :| Picks(ops, n - 1, i) && status == ops[i].code {
      forall j | i < j < n
        ensures !Candidate(ops, n, j)
      {
        assert j < n - 1 ==> !Candidate(ops, n - 1, j);
      }
      assert Candidate(ops, n, i);
      assert Picks(ops, n, i);
    } else {
      forall i | 0 <= i < n
        ensures !Candidate(ops, n, i)
      {
        assert i < n - 1 ==> !Candidate(ops, n - 1, i);
      }
    }
  }

  lemma {:induction false} HeaderAfter(ops: seq<Op>, n: nat)
    requires n <= |ops|
    ensures HeaderIs(ops, n, After(BLANK, ops, n).header)
  {
    if n > 0 {
      HeaderAfter(ops, n - 1);
      HeaderStep(ops, n, After(BLANK, ops, n - 1).header, After(BLANK, ops, n).header);
    }
  }

  lemma HeaderStep(ops: seq<Op>, n: nat, before: Header, after: Header)
    requires 0 < n <= |ops| && HeaderIs(ops, n - 1, before)
    requires Renamed(before, after, ops[n - 1])
    ensures HeaderIs(ops, n, after)
  {
    forall key
      ensures KeyIs(ops, n, after, key)
    {
      assert KeyIs(ops, n - 1, before, key);
      if Names(ops[n - 1], key) {
        assert LastNaming(ops, n, n - 1, key);
      } else {
        assert SameAt(before, after, key);
        if i: nat :| i < n - 1 && LastNaming(ops, n - 1, i, key) && Holds(before, key, ops[i]) {
          assert LastNaming(ops, n, i, key);
        }
      }
    }
  }

  /** Replaying a handler's operations on a blank response gives exactly their meaning. */
  lemma AfterShows(ops: seq<Op>)
    ensures Shows(After(BLANK, ops, |ops|), ops)
  {
    BodyAfter(ops, |ops|);
    assert ops[..|ops|] == ops;
    StatusAfter(ops, |ops|);
    HeaderAfter(ops, |ops|);
  }

  lemma UnsentIsEmpty(ops: seq<Op>)
    ensures !Written(After(BLANK, ops, |ops|)) ==> After(BLANK, ops, |ops|).body == []
  {
    BodyAfter(ops, |ops|);
    if !Sent(ops, |ops|) {
      EmptyUntilSent(ops, |ops|);
    }
  }

  lemma {:induction false} StatusStaysPositive(p: Page, ops: seq<Op>, n: nat)
    requires n <= |ops| && p.status > 0
    ensures After(p, ops, n).status > 0
  {
    if n > 0 {
      StatusStaysPositive(p, ops, n - 1);
    }
  }

  // ---- flushing

  predicate Worth(p: Page) {
    Written(p) || p.header != map[] || p.status != STATUS_OK
  }

  /** The real writer after the buffer was flushed to it, when nothing was written to it before. */
  function Delivered(original: Page, p: Page): Page {
    Page(original.header + p.header,
         original.body + p.body,
         if Written(p) then |p.body| else original.size,
         if Worth(p) then p.status else original.status)
  }

  /** `after` is the real writer, `before` with the buffered page on top: every buffered header key replaces
      the old one, the body is the buffered one, and the status is the buffered one unless the page is
      empty. */
  ghost predicate Reached(before: Page, page: Page, after: Page) {
    && (forall key :: key in after.header <==> key in before.header || key in page.header)
    && (forall key :: key in page.header ==> key in after.header && after.header[key] == page.header[key])
    && (forall key :: key in before.header && key !in page.header ==>
          key in after.header && after.header[key] == before.header[key])
    && after.body == page.body
    && after.status == (if page.size == -1 && page.header == map[] && page.status == 200 then before.status else page.status)
    && after.size == (if page.size == -1 then before.size else |page.body|)
  }

  class ResponseWriter {
    var header: Header
    var body: seq<Byte>
    var size: int
    var status: int

    function Value(): Page
      reads this
    {
      Page(header, body, size, status)
    }

    constructor ()
      ensures Value() == BLANK
    {
      header, body, size, status := map[], [], NO_WRITTEN, STATUS_OK;
    }

    method Reset()
      modifies this
      ensures Value() == BLANK
    {
      header := map[];
      body := [];
      size := NO_WRITTEN;
      status := STATUS_OK;
    }

    method WriteHeader(code: int)
      modifies this
      ensures Value() == Do(old(Value()), Op.WriteHeader(code))
    {
      if code > 0 && status != code {
        if size != NO_WRITTEN {
          return;
        }
        status := code;
      }
    }

    method WriteHeaderNow()
      modifies this
      ensures Value() == Do(old(Value()), Op.WriteHeaderNow)
    {
      if size == NO_WRITTEN {
        size := 0;
      }
    }

    method Write(data: seq<Byte>) returns (n: nat)
      modifies this
      ensures Value() == Do(old(Value()), Op.Write(data)) && n == |data|
    {
      WriteHeaderNow();
      body := body + data;
      n := |data|;
      size := size + n;
    }

    /** A handler at work on this writer. */
    method Replay(ops: seq<Op>)
      modifies this
      ensures Value() == After(old(Value()), ops, |ops|)
    {
      for n := 0 to |ops|
        invariant Value() == After(old(Value()), ops, n)
      {
        match ops[n] {
          case SetHeader(key, values) => header := header[key := values];
          case DelHeader(key) => header := header - {key};
          case WriteHeader(code) => WriteHeader(code);
          case WriteHeaderNow => WriteHeaderNow();
          case Write(data) => var _ := Write(data);
        }
      }
    }

    method CopyHeader(source: Header)
      modifies this
      ensures Value() == Page(old(header) + source, old(body), old(size), old(status))
    {
      var todo := source.Keys;
      while todo != {}
        invariant todo <= source.Keys
        invariant Value() == Page(header, old(body), old(size), old(status))
        invariant header == old(header) + (map k | k in source && k !in todo :: source[k])
        decreases todo
      {
        var key :| key in todo;
        header := header[key := source[key]];
        todo := todo - {key};
      }
    }

    method FlushToOriginal(original: ResponseWriter)
      requires original != this && !Written(original.Value()) && status > 0
      requires original.body == [] && (!Written(Value()) ==> body == [])
      modifies original
      ensures original.Value() == Delivered(old(original.Value()), Value())
      ensures Reached(old(original.Value()), Value(), original.Value())
    {
      original.CopyHeader(header);
      if size != NO_WRITTEN {
        original.WriteHeader(status);
        var _ := original.Write(body);
      } else if header != map[] || status != STATUS_OK {
        original.WriteHeader(status);
      }
    }
  }
}
