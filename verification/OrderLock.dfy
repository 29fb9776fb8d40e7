/**
 The per-order lock of the top-up controller: `LockOrder` and `UnlockOrder` share a table of
 reference-counted mutexes, and `UnlockOrder` reads that table without holding `createLock`.

 Any number of goroutines runs the two functions one atomic step at a time, in any interleaving.
 A program counter names the statement a goroutine executes next.
*/
module OrderLock {

  datatype Pc =
    | Idle        // outside LockOrder/UnlockOrder, holding no order
    | LAcquire    // LockOrder: createLock.Lock()
    | LLoad       // LockOrder: orderLocks.Load
    | LStore      // LockOrder: orderLocks.Store of a new entry
    | LCount      // LockOrder: rcm.refCount++
    | LRelease    // LockOrder: createLock.Unlock()
    | LMutex      // LockOrder: rcm.mu.Lock()
    | Holding     // between the calls; next: orderLocks.Load of UnlockOrder
    | UMutex      // UnlockOrder: rcm.mu.Unlock()
    | UAcquire    // UnlockOrder: createLock.Lock()
    | UCount      // UnlockOrder: rcm.refCount--
    | UDelete     // UnlockOrder: the zero test and orderLocks.Delete
    | URelease    // UnlockOrder: createLock.Unlock()

  /** `taken` is the entry LockOrder locked, `found` the one UnlockOrder read from the table. */
  datatype Thread = Thread(pc: Pc, key: string, taken: nat, found: nat)

  /** A mutex blocks while it is held; the holder is kept to state who may release it. */
  datatype Mutex = Free | Held(owner: nat)

  datatype Entry = Entry(mu: Mutex, refCount: int)

  /** `crashed` records an unlock of an unlocked mutex, which is fatal in Go; `missed` records an
      UnlockOrder that found no entry and returned without unlocking anything. */
  datatype State = State(threads: seq<Thread>, createLock: Mutex, table: map<string, nat>,
                         heap: map<nat, Entry>, crashed: bool, missed: bool)

  datatype Event =
    | Begin(t: nat, key: string)   // an idle goroutine calls LockOrder(key)
    | Step(t: nat, address: nat)     // a goroutine runs its next statement; `address` is what `new` would return

  predicate Init(s: State) {
    && (forall t :: 0 <= t < |s.threads| ==> s.threads[t].pc == Idle)
    && s.createLock == Free && s.table == map[] && s.heap == map[] && !s.crashed && !s.missed
  }

  /** Mutexes block; every other statement can always run. */
  predicate Enabled(s: State, e: Event) {
    && e.t < |s.threads|
    && var th := s.threads[e.t];
    match e
    case Begin(_, _) => th.pc == Idle
    case Step(_, address) =>
      match th.pc
      case Idle => false
      case LAcquire => s.createLock == Free
      case UAcquire => s.createLock == Free
      case LStore => address !in s.heap
      case LMutex => th.taken in s.heap && s.heap[th.taken].mu == Free
      case _ => true
  }

  function EntryAt(s: State, r: nat): Entry {
    if r in s.heap then s.heap[r] else Entry(Free, 0)
  }

  // ---- the statements, each run by goroutine `t`

  function Call(s: State, t: nat, key: string): State
    requires t < |s.threads|
  {
    s.(threads := s.threads[t := s.threads[t].(pc := LAcquire, key := key)])
  }

  function Acquire(s: State, t: nat, next: Pc): State
    requires t < |s.threads|
  {
    s.(threads := s.threads[t := s.threads[t].(pc := next)], createLock := Held(t))
  }

  function Release(s: State, t: nat, next: Pc): State
    requires t < |s.threads|
  {
    s.(threads := s.threads[t := s.threads[t].(pc := next)], createLock := Free)
  }

  function Load(s: State, t: nat): State
    requires t < |s.threads|
  {
    var th := s.threads[t];
    if th.key in s.table then s.(threads := s.threads[t := th.(pc := LCount, taken := s.table[th.key])])
    else s.(threads := s.threads[t := th.(pc := LStore)])
  }

  function Store(s: State, t: nat, address: nat): State
    requires t < |s.threads|
  {
    var th := s.threads[t];
    s.(threads := s.threads[t := th.(pc := LCount, taken := address)],
       table := s.table[th.key := address], heap := s.heap[address := Entry(Free, 0)])
  }

  function Count(s: State, t: nat): State
    requires t < |s.threads|
  {
    var th := s.threads[t];
    var r := EntryAt(s, th.taken);
    s.(threads := s.threads[t := th.(pc := LRelease)], heap := s.heap[th.taken := Entry(r.mu, r.refCount + 1)])
  }

  function LockMutex(s: State, t: nat): State
    requires t < |s.threads|
  {
    var th := s.threads[t];
    s.(threads := s.threads[t := th.(pc := Holding)],
       heap := s.heap[th.taken := Entry(Held(t), EntryAt(s, th.taken).refCount)])
  }

  function Find(s: State, t: nat): State
    requires t < |s.threads|
  {
    var th := s.threads[t];
    if th.key in s.table then s.(threads := s.threads[t := th.(pc := UMutex, found := s.table[th.key])])
    else s.(threads := s.threads[t := th.(pc := Idle)], missed := true)
  }

  function UnlockMutex(s: State, t: nat): State
    requires t < |s.threads|
  {
    var th := s.threads[t];
    var r := EntryAt(s, th.found);
    s.(threads := s.threads[t := th.(pc := UAcquire)], heap := s.heap[th.found := Entry(Free, r.refCount)],
       crashed := s.crashed || r.mu == Free)
  }

  function Discount(s: State, t: nat): State
    requires t < |s.threads|
  {
    var th := s.threads[t];
    var r := EntryAt(s, th.found);
    s.(threads := s.threads[t := th.(pc := UDelete)], heap := s.heap[th.found := Entry(r.mu, r.refCount - 1)])
  }

  function DeleteUnused(s: State, t: nat): State
    requires t < |s.threads|
  {
    var th := s.threads[t];
    s.(threads := s.threads[t := th.(pc := URelease)],
       table := if EntryAt(s, th.found).refCount == 0 then s.table - {th.key} else s.table)
  }

  function Apply(s: State, e: Event): State
    requires Enabled(s, e)
  {
    match e
    case Begin(t, key) => Call(s, t, key)
    case Step(t, address) =>
      match s.threads[t].pc
      case Idle => s
      case LAcquire => Acquire(s, t, LLoad)
      case LLoad => Load(s, t)
      case LStore => Store(s, t, address)
      case LCount => Count(s, t)
      case LRelease => Release(s, t, LMutex)
      case LMutex => LockMutex(s, t)
      case Holding => Find(s, t)
      case UMutex => UnlockMutex(s, t)
      case UAcquire => Acquire(s, t, UCount)
      case UCount => Discount(s, t)
      case UDelete => DeleteUnused(s, t)
      case URelease => Release(s, t, Idle)
  }

  /** A run is an interleaving: every event is enabled in the state it meets. */
  predicate ValidRun(s: State, es: seq<Event>)
    decreases |es|
  {
    es == [] || (Enabled(s, es[0]) && ValidRun(Apply(s, es[0]), es[1..]))
  }

  function Final(s: State, es: seq<Event>): State
    requires ValidRun(s, es)
    decreases |es|
  {
    if es == [] then s else Final(Apply(s, es[0]), es[1..])
  }

  // ---- the counting invariant

  predicate HoldsCreateLock(pc: Pc) {
    pc.LLoad? || pc.LStore? || pc.LCount? || pc.LRelease? || pc.UCount? || pc.UDelete? || pc.URelease?
  }

  /** Counted in the entry's refCount: after LockOrder's increment, before UnlockOrder's decrement. */
  predicate Counted(pc: Pc) {
    pc.LRelease? || pc.LMutex? || pc.Holding? || pc.UMutex? || pc.UAcquire? || pc.UCount?
  }

  /** Between rcm.mu.Lock() and rcm.mu.Unlock(). */
  predicate Critical(pc: Pc) {
    pc.Holding? || pc.UMutex?
  }

  /** The local variable `rcm` must still be the table's entry. */
  predicate Bound(pc: Pc) {
    Counted(pc) || pc.LCount? || pc.UDelete?
  }

  function Registered(s: State, key: string): set<nat> {
    set t | 0 <= t < |s.threads| && Counted(s.threads[t].pc) && s.threads[t].key == key
  }

  ghost predicate CreateLockInv(s: State) {
    && (forall t :: 0 <= t < |s.threads| ==> (HoldsCreateLock(s.threads[t].pc) <==> s.createLock == Held(t)))
    && (s.createLock.Held? ==> s.createLock.owner < |s.threads|)
  }

  ghost predicate TableInv(s: State) {
    && (forall k :: k in s.table ==> s.table[k] in s.heap)
    && (forall k, l :: k in s.table && l in s.table && s.table[k] == s.table[l] ==> k == l)
  }

  ghost predicate PointerInv(s: State) {
    forall t :: 0 <= t < |s.threads| ==>
      var th := s.threads[t];
      && (Bound(th.pc) ==> th.key in s.table && s.table[th.key] == th.taken)
      && (th.pc.UMutex? || th.pc.UAcquire? || th.pc.UCount? || th.pc.UDelete? ==> th.found == th.taken)
      && (th.pc == LStore ==> th.key !in s.table)
  }

  /** The holder of createLock is about to raise the count of `k` or to test it for zero. */
  predicate BeingCounted(s: State, k: string) {
    && s.createLock.Held? && s.createLock.owner < |s.threads|
    && var th := s.threads[s.createLock.owner];
       th.key == k && (th.pc.LCount? || th.pc.UDelete?)
  }

  predicate CountedAt(s: State, k: string, r: nat)
    requires r in s.heap
  {
    && s.heap[r].refCount == |Registered(s, k)|
    && (Registered(s, k) == {} ==> BeingCounted(s, k))
  }

  ghost predicate CountInv(s: State)
    requires TableInv(s)
  {
    forall k :: k in s.table ==> CountedAt(s, k, s.table[k])
  }

  ghost predicate MutexInv(s: State)
    requires TableInv(s) && PointerInv(s)
  {
    && (forall t :: 0 <= t < |s.threads| && Critical(s.threads[t].pc) ==> s.heap[s.threads[t].taken].mu == Held(t))
    && (forall k :: k in s.table && s.heap[s.table[k]].mu.Held? ==>
          var t := s.heap[s.table[k]].mu.owner;
          t < |s.threads| && Critical(s.threads[t].pc) && s.threads[t].key == k)
  }

  ghost predicate Inv(s: State) {
    && CreateLockInv(s) && TableInv(s) && PointerInv(s) && CountInv(s) && MutexInv(s)
    && !s.crashed && !s.missed
  }

  lemma InitInv(s: State)
    requires Init(s)
    ensures Inv(s)
  {
  }

  ghost predicate OnlyMoves(s: State, s': State, t: nat) {
    && t < |s.threads| == |s'.threads|
    && forall u :: 0 <= u < |s.threads| && u != t ==> s'.threads[u] == s.threads[u]
  }

  predicate CountedFor(th: Thread, k: string) {
    Counted(th.pc) && th.key == k
  }

  lemma RegisteredKept(s: State, s': State, t: nat, k: string)
    requires OnlyMoves(s, s', t) && CountedFor(s'.threads[t], k) == CountedFor(s.threads[t], k)
    ensures Registered(s', k) == Registered(s, k)
  {
  }

  lemma RegisteredMore(s: State, s': State, t: nat, k: string)
    requires OnlyMoves(s, s', t) && !CountedFor(s.threads[t], k) && CountedFor(s'.threads[t], k)
    ensures Registered(s', k) == Registered(s, k) + {t} && |Registered(s', k)| == |Registered(s, k)| + 1
  {
    assert t !in Registered(s, k);
  }

  lemma CallInv(s: State, t: nat, key: string)
    requires Inv(s) && t < |s.threads| && s.threads[t].pc == Idle
    ensures Inv(Call(s, t, key))
  {
    var s' := Call(s, t, key);
    forall k | k in s'.table
      ensures s'.table[k] in s'.heap && CountedAt(s', k, s'.table[k])
    {
      RegisteredKept(s, s', t, k);
    }
  }

  lemma AcquireInv(s: State, t: nat, next: Pc)
    requires Inv(s) && t < |s.threads| && s.createLock == Free && ((s.threads[t].pc == LAcquire && next == LLoad) || (s.threads[t].pc == UAcquire && next == UCount))
    ensures Inv(Acquire(s, t, next))
  {
    var s' := Acquire(s, t, next);
    forall k | k in s'.table
      ensures s'.table[k] in s'.heap && CountedAt(s', k, s'.table[k])
    {
      RegisteredKept(s, s', t, k);
    }
  }

  lemma ReleaseInv(s: State, t: nat, next: Pc)
    requires Inv(s) && t < |s.threads| && ((s.threads[t].pc == LRelease && next == LMutex) || (s.threads[t].pc == URelease && next == Idle))
    ensures Inv(Release(s, t, next))
  {
    var s' := Release(s, t, next);
    forall k | k in s'.table
      ensures s'.table[k] in s'.heap && CountedAt(s', k, s'.table[k])
    {
      RegisteredKept(s, s', t, k);
    }
  }

  lemma LoadInv(s: State, t: nat)
    requires Inv(s) && t < |s.threads| && s.threads[t].pc == LLoad
    ensures Inv(Load(s, t))
  {
    var s' := Load(s, t);
    forall k | k in s'.table
      ensures s'.table[k] in s'.heap && CountedAt(s', k, s'.table[k])
    {
      RegisteredKept(s, s', t, k);
    }
  }

  lemma StoreInv(s: State, t: nat, address: nat)
    requires Inv(s) && t < |s.threads| && s.threads[t].pc == LStore && address !in s.heap
    ensures Inv(Store(s, t, address))
  {
    var s' := Store(s, t, address);
    forall k | k in s'.table
      ensures s'.table[k] in s'.heap && CountedAt(s', k, s'.table[k])
    {
      RegisteredKept(s, s', t, k);
    }
  }

  lemma CountingInv(s: State, t: nat)
    requires Inv(s) && t < |s.threads| && s.threads[t].pc == LCount
    ensures Inv(Count(s, t))
  {
    var s' := Count(s, t);
    forall k | k in s'.table
      ensures s'.table[k] in s'.heap && CountedAt(s', k, s'.table[k])
    {
      if k == s.threads[t].key { RegisteredMore(s, s', t, k); } else { RegisteredKept(s, s', t, k); }
    }
  }

  lemma LockMutexInv(s: State, t: nat)
    requires Inv(s) && t < |s.threads| && s.threads[t].pc == LMutex && EntryAt(s, s.threads[t].taken).mu == Free
    ensures Inv(LockMutex(s, t))
  {
    var s' := LockMutex(s, t);
    forall k | k in s'.table
      ensures s'.table[k] in s'.heap && CountedAt(s', k, s'.table[k])
    {
      RegisteredKept(s, s', t, k);
    }
  }

  lemma FindInv(s: State, t: nat)
    requires Inv(s) && t < |s.threads| && s.threads[t].pc == Holding
    ensures Inv(Find(s, t))
  {
    var s' := Find(s, t);
    forall k | k in s'.table
      ensures s'.table[k] in s'.heap && CountedAt(s', k, s'.table[k])
    {
      RegisteredKept(s, s', t, k);
    }
  }

  lemma UnlockMutexInv(s: State, t: nat)
    requires Inv(s) && t < |s.threads| && s.threads[t].pc == UMutex
    ensures Inv(UnlockMutex(s, t))
  {
    var s' := UnlockMutex(s, t);
    forall k | k in s'.table
      ensures s'.table[k] in s'.heap && CountedAt(s', k, s'.table[k])
    {
      RegisteredKept(s, s', t, k);
    }
  }

  lemma DiscountInv(s: State, t: nat)
    requires Inv(s) && t < |s.threads| && s.threads[t].pc == UCount
    ensures Inv(Discount(s, t))
  {
    var s' := Discount(s, t);
    forall k | k in s'.table
      ensures s'.table[k] in s'.heap && CountedAt(s', k, s'.table[k])
    {
      if k == s.threads[t].key { RegisteredMore(s', s, t, k); } else { RegisteredKept(s, s', t, k); }
    }
  }

  /** When the count has dropped to zero, no other goroutine points at the entry. */
  lemma LastUser(s: State, t: nat, u: nat)
    requires Inv(s) && t < |s.threads| && s.threads[t].pc == UDelete && EntryAt(s, s.threads[t].found).refCount == 0
    requires u < |s.threads| && u != t && s.threads[u].key == s.threads[t].key
    ensures !Bound(s.threads[u].pc)
  {
    assert Registered(s, s.threads[t].key) == {};
    assert u !in Registered(s, s.threads[t].key);
    assert HoldsCreateLock(s.threads[t].pc);
    assert HoldsCreateLock(s.threads[u].pc) ==> s.createLock == Held(u);
  }

  lemma DeleteUnusedCounts(s: State, t: nat, k: string)
    requires Inv(s) && t < |s.threads| && s.threads[t].pc == UDelete && k in DeleteUnused(s, t).table
    ensures var s' := DeleteUnused(s, t); s'.table[k] in s'.heap && CountedAt(s', k, s'.table[k])
  {
    var s' := DeleteUnused(s, t);
    RegisteredKept(s, s', t, k);
    assert CountedAt(s, k, s.table[k]);
  }

  lemma DeleteEntryPointers(s: State, t: nat)
    requires Inv(s) && t < |s.threads| && s.threads[t].pc == UDelete && EntryAt(s, s.threads[t].found).refCount == 0
    ensures PointerInv(DeleteUnused(s, t))
  {
    forall u | 0 <= u < |s.threads| && u != t && s.threads[u].key == s.threads[t].key
      ensures !Bound(s.threads[u].pc)
    {
      LastUser(s, t, u);
    }
  }

  lemma DeleteEntryInv(s: State, t: nat)
    requires Inv(s) && t < |s.threads| && s.threads[t].pc == UDelete && EntryAt(s, s.threads[t].found).refCount == 0
    ensures Inv(DeleteUnused(s, t))
  {
    DeleteEntryPointers(s, t);
    forall k | k in DeleteUnused(s, t).table
      ensures DeleteUnused(s, t).table[k] in s.heap && CountedAt(DeleteUnused(s, t), k, DeleteUnused(s, t).table[k])
    {
      DeleteUnusedCounts(s, t, k);
    }
  }

  lemma KeepEntryInv(s: State, t: nat)
    requires Inv(s) && t < |s.threads| && s.threads[t].pc == UDelete && EntryAt(s, s.threads[t].found).refCount != 0
    ensures Inv(DeleteUnused(s, t))
  {
    forall k | k in DeleteUnused(s, t).table
      ensures DeleteUnused(s, t).table[k] in s.heap && CountedAt(DeleteUnused(s, t), k, DeleteUnused(s, t).table[k])
    {
      DeleteUnusedCounts(s, t, k);
    }
  }

  lemma DeleteUnusedInv(s: State, t: nat)
    requires Inv(s) && t < |s.threads| && s.threads[t].pc == UDelete
    ensures Inv(DeleteUnused(s, t))
  {
    if EntryAt(s, s.threads[t].found).refCount == 0 {
      DeleteEntryInv(s, t);
    } else {
      KeepEntryInv(s, t);
    }
  }

  lemma StepInv(s: State, e: Event)
    requires Inv(s) && Enabled(s, e)
    ensures Inv(Apply(s, e))
  {
    match e
    case Begin(t, key) => CallInv(s, t, key);
    case Step(t, address) =>
      match s.threads[t].pc
      case LAcquire => AcquireInv(s, t, LLoad);
      case LLoad => LoadInv(s, t);
      case LStore => StoreInv(s, t, address);
      case LCount => CountingInv(s, t);
      case LRelease => ReleaseInv(s, t, LMutex);
      case LMutex => LockMutexInv(s, t);
      case Holding => FindInv(s, t);
      case UMutex => UnlockMutexInv(s, t);
      case UAcquire => AcquireInv(s, t, UCount);
      case UCount => DiscountInv(s, t);
      case UDelete => DeleteUnusedInv(s, t);
      case URelease => ReleaseInv(s, t, Idle);
  }

  /** The invariant holds in every state of every run of every number of goroutines. */
  lemma {:induction false} RunInv(s: State, es: seq<Event>)
    requires Inv(s) && ValidRun(s, es)
    ensures Inv(Final(s, es))
    decreases |es|
  {
    if es != [] {
      StepInv(s, es[0]);
      RunInv(Apply(s, es[0]), es[1..]);
    }
  }

  // ---- the calls, read off the events

  predicate Begins(e: Event, t: nat) {
    e.Begin? && e.t == t
  }

  /** The last call of goroutine `t` in the run is LockOrder(key). */
  ghost predicate Asked(es: seq<Event>, t: nat, key: string) {
    exists i :: LastCall(es, t, i) && es[i].key == key
  }

  ghost predicate LastCall(es: seq<Event>, t: nat, i: int) {
    0 <= i < |es| && Begins(es[i], t) && forall j :: i < j < |es| ==> !Begins(es[j], t)
  }

  ghost predicate Calls(es: seq<Event>, t: nat) {
    exists i :: 0 <= i < |es| && Begins(es[i], t)
  }

  lemma AskedOnce(es: seq<Event>, t: nat, key: string, other: string)
    requires Asked(es, t, key) && Asked(es, t, other)
    ensures key == other
  {
    var i :| LastCall(es, t, i) && es[i].key == key;
    var j :| LastCall(es, t, j) && es[j].key == other;
    assert i == j;
  }

  /** What one event does to goroutine `t`. */
  lemma EventOn(s: State, e: Event, t: nat)
    requires Enabled(s, e) && t < |s.threads|
    ensures |Apply(s, e).threads| == |s.threads|
    ensures e.t != t ==> Apply(s, e).threads[t] == s.threads[t]
    ensures e.t == t ==> Apply(s, e).threads[t].key == if e.Begin? then e.key else s.threads[t].key
    ensures e.t == t && e.Step? ==> Follows(s.threads[t].pc, Apply(s, e).threads[t].pc)
    ensures e.t == t && e.Begin? ==> Locking(Apply(s, e).threads[t].pc)
  {
    if e.Step? {
      match s.threads[e.t].pc
      case LAcquire =>
      case LLoad =>
      case LStore =>
      case LCount =>
      case LRelease =>
      case LMutex =>
      case Holding =>
      case UMutex =>
      case UAcquire =>
      case UCount =>
      case UDelete =>
      case URelease =>
    }
  }

  /** Inside LockOrder. */
  predicate Locking(pc: Pc) {
    pc.LAcquire? || pc.LLoad? || pc.LStore? || pc.LCount? || pc.LRelease? || pc.LMutex?
  }

  /** Inside UnlockOrder, after its table lookup. */
  predicate Unlocking(pc: Pc) {
    pc.UMutex? || pc.UAcquire? || pc.UCount? || pc.UDelete? || pc.URelease?
  }

  /** A call of LockOrder ends by holding, and one of UnlockOrder starts from holding; a missed lookup,
      which `MutualExclusion` rules out, ends it at once. */
  predicate Follows(pc: Pc, next: Pc) {
    if Locking(pc) then Locking(next) || next.Holding?
    else if pc.Holding? then Unlocking(next) || next.Idle?
    else Unlocking(next) || next.Idle?
  }

  lemma {:induction false} KeyAsked(s: State, es: seq<Event>, t: nat)
    requires ValidRun(s, es) && t < |s.threads|
    ensures t < |Final(s, es).threads|
    ensures Calls(es, t) ==> Asked(es, t, Final(s, es).threads[t].key)
    ensures !Calls(es, t) ==> Final(s, es).threads[t].key == s.threads[t].key
    ensures !Calls(es, t) && s.threads[t].pc == Idle ==> Final(s, es).threads[t].pc == Idle
    decreases |es|
  {
    if es != [] {
      EventOn(s, es[0], t);
      KeyAsked(Apply(s, es[0]), es[1..], t);
      CallsCons(es, t);
      if Calls(es[1..], t) {
        AskedCons(es, t, Final(s, es).threads[t].key);
      } else if Begins(es[0], t) {
        assert forall j :: 0 < j < |es| ==> es[j] == es[1..][j - 1];
        assert LastCall(es, t, 0);
      }
    }
  }

  lemma CallsCons(es: seq<Event>, t: nat)
    requires es != []
    ensures Calls(es, t) <==> Begins(es[0], t) || Calls(es[1..], t)
  {
    assert forall j :: 0 < j < |es| ==> es[j] == es[1..][j - 1];
    if i :| 0 <= i < |es[1..]| && Begins(es[1..][i], t) {
      assert Begins(es[i + 1], t);
    }
  }

  lemma AskedCons(es: seq<Event>, t: nat, key: string)
    requires es != [] && Asked(es[1..], t, key)
    ensures Asked(es, t, key)
  {
    var i :| LastCall(es[1..], t, i) && es[1..][i].key == key;
    assert forall j :: 0 < j < |es| ==> es[j] == es[1..][j - 1];
    assert LastCall(es, t, i + 1);
  }

  /** A goroutine inside the protocol works on the trade number of its last call. */
  lemma KeyIsAsked(s0: State, es: seq<Event>, t: nat)
    requires Init(s0) && ValidRun(s0, es) && t < |s0.threads|
    ensures t < |Final(s0, es).threads|
    ensures Final(s0, es).threads[t].pc != Idle ==> Asked(es, t, Final(s0, es).threads[t].key)
  {
    KeyAsked(s0, es, t);
  }

  lemma {:induction false} SameThreads(s: State, es: seq<Event>)
    requires ValidRun(s, es)
    ensures |Final(s, es).threads| == |s.threads|
    decreases |es|
  {
    if es != [] {
      EventOn(s, es[0], es[0].t);
      SameThreads(Apply(s, es[0]), es[1..]);
    }
  }

  // ---- what the lock promises

  /** At most one goroutine is between LockOrder and UnlockOrder of a trade number, even while its
      entry is deleted and created again; no unlock hits an unlocked mutex or a missing entry. */
  lemma MutualExclusion(s0: State, es: seq<Event>, t: nat, u: nat, key: string)
    requires Init(s0) && ValidRun(s0, es) && t < |s0.threads| && u < |s0.threads|
    requires Asked(es, t, key) && Asked(es, u, key)
    ensures |Final(s0, es).threads| == |s0.threads|
    ensures var s := Final(s0, es);
            && !s.crashed && !s.missed
            && (Critical(s.threads[t].pc) && Critical(s.threads[u].pc) ==> t == u)
  {
    InitInv(s0);
    RunInv(s0, es);
    SameThreads(s0, es);
    KeyIsAsked(s0, es, t);
    KeyIsAsked(s0, es, u);
    var s := Final(s0, es);
    if Critical(s.threads[t].pc) && Critical(s.threads[u].pc) {
      AskedOnce(es, t, key, s.threads[t].key);
      AskedOnce(es, u, key, s.threads[u].key);
    }
  }

  /** A goroutine that holds an order finds, in the shared table and without createLock, the very
      entry whose mutex it locked. */
  lemma UnlockFindsItsMutex(s0: State, es: seq<Event>, t: nat, key: string)
    requires Init(s0) && ValidRun(s0, es) && t < |s0.threads| && Asked(es, t, key)
    ensures t < |Final(s0, es).threads|
    ensures var s := Final(s0, es);
            s.threads[t].pc == Holding ==>
              && key in s.table && s.table[key] == s.threads[t].taken
              && s.table[key] in s.heap && s.heap[s.table[key]].mu == Held(t)
  {
    InitInv(s0);
    RunInv(s0, es);
    KeyIsAsked(s0, es, t);
    if Final(s0, es).threads[t].pc == Holding {
      AskedOnce(es, t, key, Final(s0, es).threads[t].key);
    }
  }

  /** The goroutines that have registered for a trade number and not yet deregistered. */
  ghost function Users(s: State, es: seq<Event>, key: string): set<nat> {
    set t | 0 <= t < |s.threads| && Counted(s.threads[t].pc) && Asked(es, t, key)
  }

  lemma UsersAreRegistered(s0: State, es: seq<Event>, key: string)
    requires Init(s0) && ValidRun(s0, es)
    ensures Users(Final(s0, es), es, key) == Registered(Final(s0, es), key)
  {
    var s := Final(s0, es);
    SameThreads(s0, es);
    forall t | 0 <= t < |s.threads| && Counted(s.threads[t].pc)
      ensures Asked(es, t, key) <==> s.threads[t].key == key
    {
      KeyIsAsked(s0, es, t);
      if Asked(es, t, key) {
        AskedOnce(es, t, key, s.threads[t].key);
      }
    }
  }

  /** Whenever createLock is free, an entry's count is the number of goroutines registered for its
      key, all of them point at that entry, and a key is absent exactly when there are none. */
  lemma CountsMatch(s0: State, es: seq<Event>, key: string)
    requires Init(s0) && ValidRun(s0, es)
    requires Final(s0, es).createLock == Free
    ensures var s := Final(s0, es);
            && (key in s.table <==> Users(s, es, key) != {})
            && (key in s.table ==>
                  && s.table[key] in s.heap && s.heap[s.table[key]].refCount == |Users(s, es, key)|
                  && forall t :: t in Users(s, es, key) ==> s.threads[t].taken == s.table[key])
  {
    InitInv(s0);
    RunInv(s0, es);
    UsersAreRegistered(s0, es, key);
    var s := Final(s0, es);
    if Registered(s, key) != {} {
      var t :| t in Registered(s, key);
      assert Bound(s.threads[t].pc);
    }
  }

  /** The state after `n` events. */
  function After(s: State, es: seq<Event>, n: nat): State
    requires ValidRun(s, es) && n <= |es|
    decreases n
  {
    if n == 0 then s else After(Apply(s, es[0]), es[1..], n - 1)
  }

  lemma {:induction false} PassesHolding(s: State, es: seq<Event>, t: nat) returns (n: nat)
    requires ValidRun(s, es) && t < |s.threads| && Locking(s.threads[t].pc) && !Calls(es, t)
    requires t < |Final(s, es).threads| && !Locking(Final(s, es).threads[t].pc)
    ensures n <= |es| && t < |After(s, es, n).threads|
    ensures After(s, es, n).threads[t].pc == Holding && After(s, es, n).threads[t].key == s.threads[t].key
    decreases |es|
  {
    var next := Apply(s, es[0]);
    EventOn(s, es[0], t);
    CallsCons(es, t);
    if next.threads[t].pc == Holding {
      n := 1;
    } else {
      var m := PassesHolding(next, es[1..], t);
      n := m + 1;
    }
  }

  lemma {:induction false} PrefixRun(s: State, es: seq<Event>, n: nat)
    requires ValidRun(s, es) && n <= |es|
    ensures ValidRun(s, es[..n]) && Final(s, es[..n]) == After(s, es, n)
    decreases n
  {
    if n > 0 {
      PrefixRun(Apply(s, es[0]), es[1..], n - 1);
      assert es[..n][1..] == es[1..][..n - 1];
    }
  }

  /** Every call that is over has held its order: between LockOrder(key) and the moment the goroutine is
      done, it was at some point the owner of the mutex that the table had under `key`. */
  lemma EveryCallHolds(s0: State, before: seq<Event>, t: nat, key: string, rest: seq<Event>) returns (n: nat)
    requires Init(s0) && ValidRun(s0, before + [Begin(t, key)] + rest) && t < |s0.threads| && !Calls(rest, t)
    requires var s := Final(s0, before + [Begin(t, key)] + rest); t < |s.threads| && !Locking(s.threads[t].pc)
    ensures var es := before + [Begin(t, key)] + rest;
            && |before| < n <= |es| && ValidRun(s0, es[..n])
            && var s := Final(s0, es[..n]);
            && t < |s.threads| && s.threads[t].pc == Holding
            && key in s.table && s.table[key] in s.heap && s.heap[s.table[key]].mu == Held(t)
  {
    var first, es := before + [Begin(t, key)], before + [Begin(t, key)] + rest;
    assert es[..|before|] == before && es[..|first|] == first && es[|first|..] == rest;
    RunSplit(s0, es, |before|);
    RunSplit(s0, es, |first|);
    SameThreads(s0, before);
    SameThreads(s0, first);
    var s := Final(s0, before);
    assert es[|before|..] == [Begin(t, key)] + rest;
    EventOn(s, Begin(t, key), t);
    StepOver(s0, before, Begin(t, key));
    var m := PassesHolding(Final(s0, first), rest, t);
    n := |first| + m;
    PrefixRun(Final(s0, first), rest, m);
    assert es[..n] == first + rest[..m];
    RunConcat(s0, first, rest[..m]);
    assert Asked(es[..n], t, key) by {
      assert es[..n][|before|] == Begin(t, key);
      forall j | |before| < j < n
        ensures !Begins(es[..n][j], t)
      {
        assert es[..n][j] == rest[j - |first|];
      }
      assert LastCall(es[..n], t, |before|);
    }
    UnlockFindsItsMutex(s0, es[..n], t, key);
  }

  lemma {:induction false} RunSplit(s: State, es: seq<Event>, n: nat)
    requires ValidRun(s, es) && n <= |es|
    ensures ValidRun(s, es[..n]) && ValidRun(Final(s, es[..n]), es[n..])
    ensures Final(Final(s, es[..n]), es[n..]) == Final(s, es)
    decreases n
  {
    if n == 0 {
      assert es[..0] == [] && es[0..] == es;
    } else {
      RunSplit(Apply(s, es[0]), es[1..], n - 1);
      assert es[..n][1..] == es[1..][..n - 1] && es[1..][n - 1..] == es[n..];
    }
  }

  lemma StepOver(s: State, es: seq<Event>, e: Event)
    requires ValidRun(s, es) && ValidRun(s, es + [e])
    ensures Enabled(Final(s, es), e) && Final(s, es + [e]) == Apply(Final(s, es), e)
  {
    RunSplit(s, es + [e], |es|);
    assert (es + [e])[..|es|] == es && (es + [e])[|es|..] == [e];
    var last := Final(s, es);
    assert [e][1..] == [];
    assert Final(last, [e]) == Final(Apply(last, e), []);
  }

  /** An idle goroutine can call LockOrder with any trade number, whatever the others do. */
  lemma CanAlwaysCall(s0: State, es: seq<Event>, t: nat, key: string)
    requires Init(s0) && ValidRun(s0, es) && t < |s0.threads|
    requires t < |Final(s0, es).threads| && Final(s0, es).threads[t].pc == Idle
    ensures ValidRun(s0, es + [Begin(t, key)]) && Asked(es + [Begin(t, key)], t, key)
  {
    var all := es + [Begin(t, key)];
    assert [Begin(t, key)][1..] == [];
    RunConcat(s0, es, [Begin(t, key)]);
    assert LastCall(all, t, |es|) && all[|es|].key == key;
  }

  /** No deadlock: while some goroutine is inside the protocol, one of them can run. */
  lemma SomeStepEnabled(s0: State, es: seq<Event>, t: nat) returns (e: Event)
    requires Init(s0) && ValidRun(s0, es)
    requires t < |Final(s0, es).threads| && Final(s0, es).threads[t].pc != Idle
    ensures e.Step? && Enabled(Final(s0, es), e)
  {
    InitInv(s0);
    RunInv(s0, es);
    var s := Final(s0, es);
    var address := Unused(s.heap);
    var th := s.threads[t];
    if s.createLock.Held? {
      e := Step(s.createLock.owner, address);
    } else if th.pc == LMutex && s.heap[th.taken].mu.Held? {
      e := Step(s.heap[th.taken].mu.owner, address);
    } else {
      e := Step(t, address);
    }
  }

  /** An address outside the heap. */
  lemma Unused(heap: map<nat, Entry>) returns (r: nat)
    ensures r !in heap
  {
    var m := heap.Keys;
    r := 0;
    while r in m
      invariant forall i :: 0 <= i < r ==> i in heap
      invariant m <= heap.Keys && (forall i :: i in heap && i !in m ==> i < r)
      decreases |m|
    {
      m := m - {r};
      r := r + 1;
    }
  }

  // ---- progress

  /** Statements left until the goroutine is idle again. */
  function Remaining(pc: Pc): nat {
    match pc
    case Idle => 0
    case LAcquire => 12
    case LLoad => 11
    case LStore => 10
    case LCount => 9
    case LRelease => 8
    case LMutex => 7
    case Holding => 6
    case UMutex => 5
    case UAcquire => 4
    case UCount => 3
    case UDelete => 2
    case URelease => 1
  }

  function Work(threads: seq<Thread>): nat {
    if threads == [] then 0 else Remaining(threads[0].pc) + Work(threads[1..])
  }

  lemma {:induction false} WorkUpdate(threads: seq<Thread>, t: nat, th: Thread)
    requires t < |threads|
    ensures Work(threads[t := th]) == Work(threads) - Remaining(threads[t].pc) + Remaining(th.pc)
  {
    if t == 0 {
      assert threads[0 := th][1..] == threads[1..];
    } else {
      WorkUpdate(threads[1..], t - 1, th);
      assert threads[t := th][1..] == threads[1..][t - 1 := th];
    }
  }

  lemma {:induction false} NoWork(threads: seq<Thread>, t: nat)
    requires Work(threads) == 0 && t < |threads|
    ensures threads[t].pc == Idle
  {
    if t > 0 {
      NoWork(threads[1..], t - 1);
    }
  }

  lemma StepThreads(s: State, e: Event)
    requires Enabled(s, e) && e.Step?
    ensures var s' := Apply(s, e);
            |s'.threads| == |s.threads| && s'.threads == s.threads[e.t := s'.threads[e.t]]
  {
    match s.threads[e.t].pc
    case LAcquire =>
    case LLoad =>
    case LStore =>
    case LCount =>
    case LRelease =>
    case LMutex =>
    case Holding =>
    case UMutex =>
    case UAcquire =>
    case UCount =>
    case UDelete =>
    case URelease =>
  }

  lemma StepRemaining(s: State, e: Event)
    requires Enabled(s, e) && e.Step?
    ensures |Apply(s, e).threads| == |s.threads|
    ensures Remaining(Apply(s, e).threads[e.t].pc) < Remaining(s.threads[e.t].pc)
  {
    match s.threads[e.t].pc
    case LAcquire =>
    case LLoad =>
    case LStore =>
    case LCount =>
    case LRelease =>
    case LMutex =>
    case Holding =>
    case UMutex =>
    case UAcquire =>
    case UCount =>
    case UDelete =>
    case URelease =>
  }

  lemma StepWork(s: State, e: Event)
    requires Enabled(s, e) && e.Step?
    ensures Work(Apply(s, e).threads) < Work(s.threads)
  {
    StepThreads(s, e);
    StepRemaining(s, e);
    WorkUpdate(s.threads, e.t, Apply(s, e).threads[e.t]);
  }

  lemma {:induction false} RunWork(s: State, es: seq<Event>)
    requires ValidRun(s, es) && (forall i :: 0 <= i < |es| ==> es[i].Step?)
    ensures Work(Final(s, es).threads) + |es| <= Work(s.threads)
    decreases |es|
  {
    if es != [] {
      StepWork(s, es[0]);
      RunWork(Apply(s, es[0]), es[1..]);
    }
  }

  /** Once callers stop calling LockOrder, every run is finite, and one that cannot be extended has
      released every order, freed createLock and emptied the table. */
  lemma Drains(s0: State, before: seq<Event>, es: seq<Event>)
    requires Init(s0) && ValidRun(s0, before)
    requires ValidRun(Final(s0, before), es) && (forall i :: 0 <= i < |es| ==> es[i].Step?)
    ensures |es| <= Work(Final(s0, before).threads)
    ensures (forall e: Event :: e.Step? ==> !Enabled(Final(Final(s0, before), es), e)) ==>
              var s := Final(Final(s0, before), es);
              && (forall t :: 0 <= t < |s.threads| ==> s.threads[t].pc == Idle)
              && s.table == map[] && s.createLock == Free
  {
    RunWork(Final(s0, before), es);
    var s := Final(Final(s0, before), es);
    if forall e: Event :: e.Step? ==> !Enabled(s, e) {
      RunConcat(s0, before, es);
      forall t | 0 <= t < |s.threads|
        ensures s.threads[t].pc == Idle
      {
        if s.threads[t].pc != Idle {
          var e := SomeStepEnabled(s0, before + es, t);
        }
      }
      InitInv(s0);
      RunInv(s0, before + es);
      forall k
        ensures k !in s.table
      {
        CountsMatch(s0, before + es, k);
      }
    }
  }

  lemma {:induction false} RunConcat(s: State, es: seq<Event>, fs: seq<Event>)
    requires ValidRun(s, es) && ValidRun(Final(s, es), fs)
    ensures ValidRun(s, es + fs) && Final(s, es + fs) == Final(Final(s, es), fs)
    decreases |es|
  {
    if es == [] {
      assert es + fs == fs;
    } else {
      RunConcat(Apply(s, es[0]), es[1..], fs);
      assert (es + fs)[1..] == es[1..] + fs;
    }
  }
}
