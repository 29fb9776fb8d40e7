/**
 Updating the pair of group-ratio options, which live in three copies: the database, the runtime
 tables and the option map. The database commits first; the other two follow, and are restored from
 the database when a later step fails. Normalisation of the texts is a parameter; the runtime tables are
 represented by the text they render to. Another node may write the database in between.
*/
module GroupRatio {
  import opened Options

  datatype Pair = Pair(groupRatio: string, groupGroupRatio: string)

  /** Parsing and normalising the two texts. */
  datatype Norms = Norms(ratio: string -> Option<string>, groupRatio: string -> Option<string>)

  function Normal(norms: Norms, p: Pair): Option<Pair> {
    var a, b := norms.ratio(p.groupRatio), norms.groupRatio(p.groupGroupRatio);
    if a.Some? && b.Some? then Some(Pair(a.value, b.value)) else None
  }

  /** Normalised texts normalise to themselves. */
  ghost predicate Idempotent(norms: Norms) {
    && (forall s :: norms.ratio(s).Some? ==> norms.ratio(norms.ratio(s).value) == norms.ratio(s))
    && (forall s :: norms.groupRatio(s).Some? ==> norms.groupRatio(norms.groupRatio(s).value) == norms.groupRatio(s))
  }

  lemma NormalIdempotent(norms: Norms, p: Pair)
    requires Idempotent(norms) && Normal(norms, p).Some?
    ensures Normal(norms, Normal(norms, p).value) == Normal(norms, p)
  {
  }

  datatype Copies = Copies(database: Option<Pair>, runtime: Pair, optionMap: Option<Pair>)

  /** All copies have the normal form `n`; the option map holds it literally. */
  predicate AgreeOn(norms: Norms, s: Copies, n: Pair) {
    && s.database.Some? && Normal(norms, s.database.value) == Some(n)
    && Normal(norms, s.runtime) == Some(n) && s.optionMap == Some(n)
  }

  predicate Agree(norms: Norms, s: Copies) {
    s.optionMap.Some? && AgreeOn(norms, s, s.optionMap.value)
  }

  /** The runtime applier: the real one, or one that leaves anything behind. */
  datatype Applier = Real | Other(fails: bool, leaves: Pair)

  /** Which steps fail, and what another node writes between commit, readback and restore. */
  datatype World = World(updateFails: bool, applier: Applier, intruder: Option<Pair>, readFails: bool, listFails: bool,
                         lateIntruder: Option<Pair>, restoreReadFails: bool)

  datatype Outcome = BadRequest | NotCommitted | Restored | RestoreFailed | Success(readback: Pair)

  function Written(database: Option<Pair>, other: Option<Pair>): Option<Pair> {
    if other.Some? then other else database
  }

  function Applied(norms: Norms, runtime: Pair, p: Pair, applier: Applier): (bool, Pair) {
    match applier
    case Real => if Normal(norms, p).Some? then (true, Normal(norms, p).value) else (false, runtime)
    case Other(fails, leaves) => (!fails, leaves)
  }

  class GroupRatioOptions {
    const norms: Norms
    var database: Option<Pair>
    var runtime: Pair
    var optionMap: Option<Pair>

    function Value(): Copies
      reads this
    {
      Copies(database, runtime, optionMap)
    }

    constructor (norms: Norms, runtime: Pair)
      ensures this.norms == norms && Value() == Copies(None, runtime, None)
    {
      this.norms, this.runtime, database, optionMap := norms, runtime, None, None;
    }

    method ReadDatabase(fails: bool) returns (p: Option<Pair>)
      ensures p == if fails || database.None? then None else Normal(norms, database.value)
    {
      if fails || database.None? {
        return None;
      }
      return Normal(norms, database.value);
    }

    /** On success runtime and option map hold the normalised database content. */
    method Restore(world: World) returns (ok: bool)
      requires Idempotent(norms)
      modifies this`database, this`runtime, this`optionMap
      ensures database == Written(old(database), world.lateIntruder)
      ensures ok ==> Agree(norms, Value()) && optionMap == Some(runtime)
      ensures !ok ==> runtime == old(runtime) && optionMap == old(optionMap)
      ensures ok <==> !world.restoreReadFails && database.Some? && Normal(norms, database.value).Some?
    {
      database := Written(database, world.lateIntruder);
      var stored := ReadDatabase(world.restoreReadFails);
      if stored.None? {
        return false;
      }
      NormalIdempotent(norms, database.value);
      var applied := Applied(norms, runtime, stored.value, Real);
      if !applied.0 {
        return false;
      }
      runtime := applied.1;
      optionMap := Some(stored.value);
      return true;
    }

    /** The database and the runtime are read back and compared with the submission. */
    method Reconcile(expected: Pair, world: World) returns (ok: bool)
      modifies this`database, this`optionMap
      ensures database == Written(old(database), world.intruder)
      ensures ok <==>
              && !world.readFails && !world.listFails && database.Some?
              && Normal(norms, database.value) == Some(expected) && Normal(norms, runtime) == Some(expected)
      ensures optionMap == if ok then Some(expected) else old(optionMap)
    {
      database := Written(database, world.intruder);
      var stored := ReadDatabase(world.readFails);
      var live := Normal(norms, runtime);
      if stored.None? || live.None? {
        return false;
      }
      if stored.value != expected || live.value != stored.value || world.listFails {
        return false;
      }
      optionMap := live;
      return true;
    }

    /** The update. Success: the submission is committed, and all copies agree on its normal form.
        Failure before the commit: nothing changed. Failure after it, restored: all copies agree on what
        the database now holds. This needs no agreement beforehand. */
    method Update(request: Pair, world: World) returns (outcome: Outcome)
      requires Idempotent(norms)
      modifies this`database, this`runtime, this`optionMap
      ensures outcome.BadRequest? <==>
              norms.ratio(request.groupRatio).None? || norms.groupRatio(request.groupGroupRatio).None?
      ensures outcome.Success? ==>
                && norms.ratio(request.groupRatio) == Some(outcome.readback.groupRatio)
                && norms.groupRatio(request.groupGroupRatio) == Some(outcome.readback.groupGroupRatio)
      ensures outcome.Restored? || outcome.RestoreFailed? ==>
                && !world.updateFails && database.Some?
                && (outcome.Restored? <==>
                      && !world.restoreReadFails
                      && norms.ratio(database.value.groupRatio).Some? && norms.groupRatio(database.value.groupGroupRatio).Some?)
      ensures outcome.NotCommitted? <==> !outcome.BadRequest? && world.updateFails
      ensures outcome.BadRequest? || outcome.NotCommitted? ==> Value() == old(Value())
      ensures outcome.Success? ==> !world.updateFails && !world.readFails && !world.listFails
      ensures outcome.Success? ==>
                && Normal(norms, request) == Some(outcome.readback) && AgreeOn(norms, Value(), outcome.readback)
                && (world.intruder.None? ==> database == Some(outcome.readback))
                && (world.applier.Real? ==> runtime == outcome.readback)
      ensures outcome.Restored? ==> Agree(norms, Value()) && Normal(norms, runtime) == Some(runtime)
      ensures outcome == Expected(norms, request, world)
      ensures Value() == Final(norms, old(Value()), request, world)
    {
      var normalized := Normal(norms, request);
      if normalized.None? {
        return BadRequest;
      }
      var n := normalized.value;
      NormalIdempotent(norms, request);
      if world.updateFails {
        return NotCommitted;
      }
      database := Some(n);
      var applied := Applied(norms, runtime, n, world.applier);
      runtime := applied.1;
      var ok := applied.0;
      if ok {
        ok := Reconcile(n, world);
      } else {
        database := Written(database, world.intruder);
      }
      if ok {
        return Success(n);
      }
      ok := Restore(world);
      return if ok then Restored else RestoreFailed;
    }
  }

  /** What the database holds when the update reads it back, and when it restores. */
  function Stored(n: Pair, world: World): Pair {
    if world.intruder.Some? then world.intruder.value else n
  }

  function LateStored(n: Pair, world: World): Pair {
    if world.lateIntruder.Some? then world.lateIntruder.value else Stored(n, world)
  }

  /** The outcome, from the failures alone. */
  function Expected(norms: Norms, request: Pair, world: World): Outcome {
    if Normal(norms, request).None? then BadRequest
    else if world.updateFails then NotCommitted
    else
      var n := Normal(norms, request).value;
      if && (world.applier.Real? || (!world.applier.fails && Normal(norms, world.applier.leaves) == Some(n)))
         && !world.readFails && !world.listFails && Normal(norms, Stored(n, world)) == Some(n)
      then Success(n)
      else if !world.restoreReadFails && Normal(norms, LateStored(n, world)).Some? then Restored
      else RestoreFailed
  }

  /** The copies after the update. */
  function Final(norms: Norms, s: Copies, request: Pair, world: World): Copies {
    match Expected(norms, request, world)
    case BadRequest => s
    case NotCommitted => s
    case Success(n) => Copies(Some(Stored(n, world)), Applied(norms, s.runtime, n, world.applier).1, Some(n))
    case Restored =>
      var late := LateStored(Normal(norms, request).value, world);
      Copies(Some(late), Normal(norms, late).value, Normal(norms, late))
    case RestoreFailed =>
      var n := Normal(norms, request).value;
      Copies(Some(LateStored(n, world)), Applied(norms, s.runtime, n, world.applier).1, s.optionMap)
  }

  /** An update that nothing disturbs commits the normalised pair. */
  lemma CleanUpdateSucceeds(norms: Norms, request: Pair)
    requires Idempotent(norms) && norms.ratio(request.groupRatio).Some? && norms.groupRatio(request.groupGroupRatio).Some?
    ensures Expected(norms, request, World(false, Real, None, false, false, None, false)) ==
            Success(Pair(norms.ratio(request.groupRatio).value, norms.groupRatio(request.groupGroupRatio).value))
  {
    NormalIdempotent(norms, request);
  }

  datatype Request = Request(pair: Pair, world: World)

  function Run(norms: Norms, s: Copies, requests: seq<Request>, n: nat): Copies
    requires n <= |requests|
  {
    if n == 0 then s
    else Final(norms, Run(norms, s, requests, n - 1), requests[n - 1].pair, requests[n - 1].world)
  }

  function OutcomeOf(norms: Norms, r: Request): Outcome {
    Expected(norms, r.pair, r.world)
  }

  predicate Aligns(o: Outcome) {
    o.Success? || o.Restored?
  }

  /** Success and restore bring the copies together from any state; a refusal keeps them. */
  lemma StepAligns(norms: Norms, s: Copies, r: Request)
    requires Idempotent(norms)
    ensures var after := Final(norms, s, r.pair, r.world); var o := OutcomeOf(norms, r);
            && (Aligns(o) ==> Agree(norms, after))
            && (!Aligns(o) && !o.RestoreFailed? ==> after == s)
            && (o.RestoreFailed? ==> after.optionMap == s.optionMap)
  {
    if Normal(norms, r.pair).Some? {
      NormalIdempotent(norms, r.pair);
      var late := LateStored(Normal(norms, r.pair).value, r.world);
      if Normal(norms, late).Some? {
        NormalIdempotent(norms, late);
      }
    }
  }

  /** The last update that went past the commit decides: from agreeing copies, or from any copies once
      some update aligned them, they agree as long as no later restore fails. */
  lemma {:induction false} RunAgrees(norms: Norms, s: Copies, requests: seq<Request>, k: nat, n: nat)
    requires Idempotent(norms) && k <= n <= |requests|
    requires (k == 0 && Agree(norms, s)) || (k > 0 && Aligns(OutcomeOf(norms, requests[k - 1])))
    requires forall i :: k <= i < n ==> !OutcomeOf(norms, requests[i]).RestoreFailed?
    ensures Agree(norms, Run(norms, s, requests, n))
    decreases n
  {
    if n > 0 {
      StepAligns(norms, Run(norms, s, requests, n - 1), requests[n - 1]);
      if k < n {
        RunAgrees(norms, s, requests, k, n - 1);
      }
    }
  }

  /** After a failed restore the copies still agree exactly when the database and what the applier left
      both have the normal form the option map already held. */
  predicate StillAgrees(norms: Norms, s: Copies, r: Request) {
    && s.optionMap.Some? && Normal(norms, r.pair).Some?
    && var n := Normal(norms, r.pair).value;
    && Normal(norms, LateStored(n, r.world)) == s.optionMap
    && Normal(norms, Applied(norms, s.runtime, n, r.world.applier).1) == s.optionMap
  }

  /** Exactly when one update keeps the copies in agreement. */
  lemma StepAgreesIff(norms: Norms, s: Copies, r: Request)
    requires Idempotent(norms) && Agree(norms, s)
    ensures Agree(norms, Final(norms, s, r.pair, r.world)) <==>
            !OutcomeOf(norms, r).RestoreFailed? || StillAgrees(norms, s, r)
  {
    StepAligns(norms, s, r);
  }

  /** With the real applier and no other writer, a failed restore keeps the agreement exactly when the
      submission does not change the options. */
  lemma UndisturbedAgreesIff(norms: Norms, s: Copies, r: Request)
    requires Idempotent(norms) && Agree(norms, s)
    requires r.world.applier.Real? && r.world.intruder.None? && r.world.lateIntruder.None?
    ensures Agree(norms, Final(norms, s, r.pair, r.world)) <==>
            !OutcomeOf(norms, r).RestoreFailed? || Normal(norms, r.pair) == s.optionMap
  {
    StepAgreesIff(norms, s, r);
    if Normal(norms, r.pair).Some? {
      NormalIdempotent(norms, r.pair);
    }
  }

  /** Update `i` of the run is harmless: it aligns the copies, leaves them alone, or fails to restore copies
      that did not need it. */
  predicate Harmless(norms: Norms, s: Copies, requests: seq<Request>, i: nat)
    requires i < |requests|
  {
    !OutcomeOf(norms, requests[i]).RestoreFailed? || StillAgrees(norms, Run(norms, s, requests, i), requests[i])
  }

  predicate AlwaysHarmless(norms: Norms, s: Copies, requests: seq<Request>, n: nat)
    requires n <= |requests|
  {
    n == 0 || (AlwaysHarmless(norms, s, requests, n - 1) && Harmless(norms, s, requests, n - 1))
  }

  predicate AlwaysAgree(norms: Norms, s: Copies, requests: seq<Request>, n: nat)
    requires n <= |requests|
  {
    Agree(norms, Run(norms, s, requests, n)) && (n == 0 || AlwaysAgree(norms, s, requests, n - 1))
  }

  /** From agreeing copies, they agree after every update of a run exactly when every update is harmless. */
  lemma {:induction false} RunAgreesIff(norms: Norms, s: Copies, requests: seq<Request>, n: nat)
    requires Idempotent(norms) && Agree(norms, s) && n <= |requests|
    ensures AlwaysAgree(norms, s, requests, n) <==> AlwaysHarmless(norms, s, requests, n)
  {
    if n > 0 {
      RunAgreesIff(norms, s, requests, n - 1);
      if Agree(norms, Run(norms, s, requests, n - 1)) {
        StepAgreesIff(norms, Run(norms, s, requests, n - 1), requests[n - 1]);
      }
    }
  }

  /** Read off the outcomes: the last update that aligned the copies or failed to restore them decides. */
  predicate EndsAgreed(norms: Norms, s: Copies, requests: seq<Request>, n: nat)
    requires n <= |requests|
  {
    if n == 0 then Agree(norms, s)
    else
      var o := OutcomeOf(norms, requests[n - 1]);
      if Aligns(o) then true
      else if o.RestoreFailed? then StillAgrees(norms, Run(norms, s, requests, n - 1), requests[n - 1])
      else EndsAgreed(norms, s, requests, n - 1)
  }

  /** From any copies: exactly when they agree at the end of a run. */
  lemma {:induction false} EndAgreesIff(norms: Norms, s: Copies, requests: seq<Request>, n: nat)
    requires Idempotent(norms) && n <= |requests|
    ensures Agree(norms, Run(norms, s, requests, n)) <==> EndsAgreed(norms, s, requests, n)
  {
    if n > 0 {
      EndAgreesIff(norms, s, requests, n - 1);
      StepAligns(norms, Run(norms, s, requests, n - 1), requests[n - 1]);
    }
  }

  /** A failed restore that does leave the copies apart, for every changing submission: the runtime is what
      a failing applier left, the option map is the old one. */
  lemma FailedRestoreDiverges(norms: Norms, s: Copies, request: Pair, left: Pair)
    requires Normal(norms, request).Some? && s.optionMap.Some? && s.optionMap != Normal(norms, request)
    requires Idempotent(norms)
    ensures var world := World(false, Other(true, left), None, false, false, None, true);
            && Expected(norms, request, world).RestoreFailed?
            && !Agree(norms, Final(norms, s, request, world))
  {
    NormalIdempotent(norms, request);
  }
}
