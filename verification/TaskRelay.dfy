/**
 Submitting an asynchronous task: a retry loop over channels, each attempt writing to a buffered
 response, then one task row and one settlement, or one refund and an error response.
 The outside world (channel availability, request body, upstream, billing session, database) is an
 arbitrary sequence of answers, one per attempt.
*/
module TaskRelay {
  import opened Options
  import opened ResponseBuffer

  datatype TaskError = TaskError(code: string, message: string, status: int, local: bool)

  datatype RequestBody = Readable | TooLarge | Unreadable

  datatype Submission = Submitted(quota: int) | Rejected(error: TaskError)

  /** The answers of the outside world during one attempt. */
  datatype Attempt = Attempt(
    autoEnabled: bool,                   // some automatic group is configured
    available: (nat, nat) -> bool,       // has the automatic group a channel at this priority
    found: bool,                         // has the fixed group a channel
    setupFails: bool,                    // preparing the context for the chosen channel
    body: RequestBody,
    bills: bool,                         // the submission opens a billing session
    ops: seq<Op>,                        // what the submission does to the response writer
    submission: Submission,
    affinitySkip: bool,                  // a failed preferred channel forbids retries
    message: string)                     // text of a local error

  datatype Config = Config(
    retryTimes: int,
    locked: bool,                        // bound to the channel of its origin task
    auto: bool,                          // token group "auto"
    crossGroup: bool,
    groups: nat,                         // number of automatic groups of the user
    specific: bool,                      // the request names its channel
    alwaysSkip: int -> bool,             // status codes never retried
    json: TaskError -> seq<Op>)          // how an error is rendered

  function Local(code: string, message: string, status: int): TaskError {
    TaskError(code, message, status, true)
  }

  predicate ShouldRetry(cfg: Config, a: Attempt, error: TaskError, retryTimes: int) {
    if a.affinitySkip || retryTimes <= 0 || cfg.specific then false
    else if error.status == 429 || error.status == 307 then true
    else if error.status / 100 == 5 then !cfg.alwaysSkip(error.status)
    else if error.status == 400 || error.status == 408 || error.local || error.status / 100 == 2 then false
    else true
  }

  /** With attempts left and no pinned channel: overload, redirect and server errors are retried even when
      raised locally, other errors only when the upstream raised them and they are not 2xx, 400 or 408. */
  lemma RetriesIff(cfg: Config, a: Attempt, error: TaskError, retryTimes: int)
    ensures ShouldRetry(cfg, a, error, retryTimes) <==>
            && retryTimes > 0 && !a.affinitySkip && !cfg.specific
            && (|| error.status == 429 || error.status == 307
                || (500 <= error.status < 600 && !cfg.alwaysSkip(error.status))
                || (!error.local && error.status != 400 && error.status != 408
                    && !(200 <= error.status < 300) && !(500 <= error.status < 600)))
  {
  }

  // ---- choosing a channel

  /** The retry counter, its "do not count the next step" flag and the automatic group in use. */
  datatype Cursor = Cursor(retry: nat, resetNextTry: bool, group: nat)

  /** The first group from `i` on with a channel: at `priority` in group `i`, at 0 in later ones. */
  function FirstGroup(available: (nat, nat) -> bool, i: nat, groups: nat, priority: nat): (g: nat)
    ensures i <= g
    ensures g < groups ==> available(g, if g == i then priority else 0)
    ensures i < g && i < groups ==> !available(i, priority)
    ensures forall j: nat :: i < j < g && j < groups ==> !available(j, 0)
    decreases groups - i
  {
    if i >= groups || available(i, priority) then i else FirstGroup(available, i + 1, groups, 0)
  }

  method FindGroup(available: (nat, nat) -> bool, start: nat, groups: nat, retry: nat) returns (i: nat)
    ensures i == FirstGroup(available, start, groups, retry)
  {
    i := start;
    var priorityRetry := retry;
    while i < groups
      invariant FirstGroup(available, start, groups, retry) == FirstGroup(available, i, groups, priorityRetry)
    {
      if available(i, priorityRetry) {
        return;
      }
      i := i + 1;
      priorityRetry := 0;
    }
  }

  /** Group `i` can be tried: not before the current one, which continues at its priority; later ones start at 0. */
  predicate HasChannel(a: Attempt, group: nat, retry: nat, i: nat) {
    i >= group && a.available(i, if i == group then retry else 0)
  }

  predicate Found(cfg: Config, a: Attempt, c: Cursor) {
    if cfg.auto then a.autoEnabled && FirstGroup(a.available, c.group, cfg.groups, c.retry) < cfg.groups else a.found
  }

  function CursorAt(cfg: Config, c: Cursor, g: nat): Cursor {
    var priority := if g == c.group then c.retry else 0;
    if cfg.crossGroup && priority >= cfg.retryTimes
    then Cursor(0, true, g + 1)
    else Cursor(priority, c.resetNextTry, g)
  }

  function Selected(cfg: Config, a: Attempt, c: Cursor): Cursor {
    if cfg.auto then CursorAt(cfg, c, FirstGroup(a.available, c.group, cfg.groups, c.retry)) else c
  }

  function Increased(c: Cursor): Cursor {
    if c.resetNextTry then Cursor(c.retry, false, c.group) else Cursor(c.retry + 1, false, c.group)
  }

  class RetryParam {
    var retry: nat
    var resetNextTry: bool
    var group: nat

    function Value(): Cursor
      reads this
    {
      Cursor(retry, resetNextTry, group)
    }

    constructor (startGroup: nat)
      ensures Value() == Cursor(0, false, startGroup)
    {
      retry, resetNextTry, group := 0, false, startGroup;
    }

    method IncreaseRetry()
      modifies this
      ensures Value() == Increased(old(Value()))
    {
      if resetNextTry {
        resetNextTry := false;
        return;
      }
      retry := retry + 1;
    }

    /** Picks a channel for the next attempt and moves the cursor. */
    method Select(cfg: Config, a: Attempt) returns (found: bool)
      modifies this
      ensures found == Found(cfg, a, old(Value()))
      ensures !cfg.auto ==> found == a.found
      ensures cfg.auto ==> (found <==> a.autoEnabled && exists i: nat :: i < cfg.groups && HasChannel(a, old(group), old(retry), i))
      ensures found ==> Value() == Selected(cfg, a, old(Value()))
      ensures found && !cfg.auto ==> Value() == old(Value())
      ensures found && cfg.auto ==>
                var g := FirstGroup(a.available, old(group), cfg.groups, old(retry));
                var priority := if g > old(group) then 0 else old(retry);
                if cfg.crossGroup && priority >= cfg.retryTimes then retry == 0 && resetNextTry && group == g + 1
                else retry == priority && resetNextTry == old(resetNextTry) && group == g
    {
      if !cfg.auto {
        return a.found;
      }
      if !a.autoEnabled {
        return false;
      }
      var i := FindGroup(a.available, group, cfg.groups, retry);
      assert i < cfg.groups ==> HasChannel(a, group, retry, i);
      if i > group {
        retry := 0;
      }
      group := i;
      if i >= cfg.groups {
        return false;
      }
      if cfg.crossGroup && retry >= cfg.retryTimes {
        group := i + 1;
        retry := 0;
        resetNextTry := true;
      }
      return true;
    }
  }

  // ---- one attempt, and the run

  datatype LoopState = LoopState(cursor: Cursor, meta: bool, billed: bool)

  datatype End = Failed(error: TaskError) | Accepted(quota: int)

  datatype StepResult = Stop(billed: bool, end: End) | Again(next: LoopState)

  function BodyError(a: Attempt): TaskError {
    Local("read_request_body_failed", a.message, if a.body.TooLarge? then 413 else 400)
  }

  function Submit(cfg: Config, a: Attempt, c: Cursor, billed: bool): StepResult {
    if !a.body.Readable? then Stop(billed, Failed(BodyError(a)))
    else match a.submission
      case Submitted(quota) => Stop(billed || a.bills, Accepted(quota))
      case Rejected(error) =>
        if ShouldRetry(cfg, a, error, cfg.retryTimes - c.retry)
        then Again(LoopState(Increased(c), true, billed || a.bills))
        else Stop(billed || a.bills, Failed(error))
  }

  function Step(cfg: Config, a: Attempt, s: LoopState): StepResult {
    if cfg.locked then
      if s.cursor.retry > 0 && a.setupFails
      then Stop(s.billed, Failed(Local("setup_locked_channel_failed", a.message, 500)))
      else Submit(cfg, a, s.cursor, s.billed)
    else if !s.meta then Submit(cfg, a, s.cursor, s.billed)
    else if !Found(cfg, a, s.cursor) || a.setupFails
    then Stop(s.billed, Failed(Local("get_channel_failed", a.message, 500)))
    else Submit(cfg, a, Selected(cfg, a, s.cursor), s.billed)
  }

  function Left(cfg: Config, c: Cursor): nat {
    if c.group < cfg.groups then cfg.groups - c.group else 0
  }

  /** Attempts the retry limit still allows: every remaining group gets a full round. */
  function Budget(cfg: Config, c: Cursor): nat
    requires c.retry <= cfg.retryTimes
  {
    Left(cfg, c) * (cfg.retryTimes + 1) + (cfg.retryTimes - c.retry)
  }

  lemma BudgetDrops(cfg: Config, c: Cursor, d: Cursor)
    requires c.retry <= cfg.retryTimes && d.retry <= cfg.retryTimes
    requires Left(cfg, d) < Left(cfg, c) || (Left(cfg, d) == Left(cfg, c) && d.retry > c.retry)
    ensures Budget(cfg, d) < Budget(cfg, c)
  {
    if Left(cfg, d) < Left(cfg, c) {
      FullRound(Left(cfg, c), Left(cfg, d), cfg.retryTimes + 1);
    }
  }

  lemma FullRound(more: nat, fewer: nat, round: nat)
    requires more > fewer
    ensures more * round >= fewer * round + round
  {
    assert more * round == fewer * round + round + (more - fewer - 1) * round;
  }

  lemma SelectionProgress(cfg: Config, a: Attempt, c: Cursor)
    requires c.retry <= cfg.retryTimes && Found(cfg, a, c) && !c.resetNextTry
    ensures var d := Selected(cfg, a, c);
            && d.retry <= cfg.retryTimes
            && (d == c || Left(cfg, d) < Left(cfg, c))
            && (d.resetNextTry ==> Left(cfg, d) < Left(cfg, c))
  {
  }

  lemma RetryProgress(cfg: Config, a: Attempt, c: Cursor, d: Cursor, billed: bool)
    requires c.retry <= cfg.retryTimes && d.retry <= cfg.retryTimes
    requires d == c || Left(cfg, d) < Left(cfg, c)
    requires !c.resetNextTry && (d.resetNextTry ==> Left(cfg, d) < Left(cfg, c))
    requires Submit(cfg, a, d, billed).Again?
    ensures var e := Submit(cfg, a, d, billed).next.cursor;
            && e.retry <= cfg.retryTimes && !e.resetNextTry
            && Budget(cfg, e) < Budget(cfg, c)
  {
    var e := Increased(d);
    assert Left(cfg, e) == Left(cfg, d);
    BudgetDrops(cfg, c, e);
  }

  lemma StepProgress(cfg: Config, a: Attempt, s: LoopState)
    requires s.cursor.retry <= cfg.retryTimes && !s.cursor.resetNextTry && Step(cfg, a, s).Again?
    ensures var e := Step(cfg, a, s).next.cursor;
            && e.retry <= cfg.retryTimes && !e.resetNextTry
            && Budget(cfg, e) < Budget(cfg, s.cursor)
  {
    if cfg.locked || !s.meta {
      RetryProgress(cfg, a, s.cursor, s.cursor, s.billed);
    } else {
      SelectionProgress(cfg, a, s.cursor);
      RetryProgress(cfg, a, s.cursor, Selected(cfg, a, s.cursor), s.billed);
    }
  }

  datatype Verdict = Verdict(attempts: nat, billed: bool, end: End)

  /** The loop from attempt `k` on. */
  function Run(cfg: Config, world: nat -> Attempt, k: nat, s: LoopState): (v: Verdict)
    requires s.cursor.retry <= cfg.retryTimes && !s.cursor.resetNextTry
    ensures k < v.attempts
    decreases Budget(cfg, s.cursor)
  {
    match Step(cfg, world(k), s)
    case Stop(billed, end) => Verdict(k + 1, billed, end)
    case Again(next) => StepProgress(cfg, world(k), s); Run(cfg, world, k + 1, next)
  }

  predicate Retryable(cfg: Config, a: Attempt) {
    a.body.Readable? && a.submission.Rejected? && ShouldRetry(cfg, a, a.submission.error, 1)
  }

  /** The attempt failed before it reached the upstream. */
  predicate LocalFailure(cfg: Config, a: Attempt, error: TaskError) {
    || (a.body.TooLarge? && error == TaskError("read_request_body_failed", a.message, 413, true))
    || (a.body.Unreadable? && error == TaskError("read_request_body_failed", a.message, 400, true))
    || (cfg.locked && a.setupFails && error == TaskError("setup_locked_channel_failed", a.message, 500, true))
    || (!cfg.locked && error == TaskError("get_channel_failed", a.message, 500, true))
  }

  /** The loop stops, within one full round per remaining group. */
  lemma {:induction false} AttemptsBounded(cfg: Config, world: nat -> Attempt, k: nat, s: LoopState)
    requires s.cursor.retry <= cfg.retryTimes && !s.cursor.resetNextTry
    ensures Run(cfg, world, k, s).attempts <= k + Budget(cfg, s.cursor) + 1
    decreases Budget(cfg, s.cursor)
  {
    match Step(cfg, world(k), s)
    case Stop(_, _) =>
    case Again(next) =>
      StepProgress(cfg, world(k), s);
      AttemptsBounded(cfg, world, k + 1, next);
  }

  /** Without automatic groups, or on a locked channel, there are at most `retryTimes` retries. */
  lemma {:induction false} PlainAttemptsBounded(cfg: Config, world: nat -> Attempt, k: nat, s: LoopState)
    requires s.cursor.retry <= cfg.retryTimes && !s.cursor.resetNextTry && (cfg.locked || !cfg.auto)
    ensures Run(cfg, world, k, s).attempts <= k + (cfg.retryTimes - s.cursor.retry) + 1
    decreases Budget(cfg, s.cursor)
  {
    match Step(cfg, world(k), s)
    case Stop(_, _) =>
    case Again(next) =>
      StepProgress(cfg, world(k), s);
      PlainAttemptsBounded(cfg, world, k + 1, next);
  }

  /** Every attempt before the last was rejected by the upstream with an error worth a retry; the last
      one decides. */
  lemma {:induction false} OnlyLastDecides(cfg: Config, world: nat -> Attempt, k: nat, s: LoopState)
    requires s.cursor.retry <= cfg.retryTimes && !s.cursor.resetNextTry
    ensures var v := Run(cfg, world, k, s);
            && (forall j: nat :: k <= j < v.attempts - 1 ==> Retryable(cfg, world(j)))
            && DecidedBy(cfg, world(v.attempts - 1), v.end)
    decreases Budget(cfg, s.cursor)
  {
    StepDecides(cfg, world(k), s);
    match Step(cfg, world(k), s)
    case Stop(_, _) =>
    case Again(next) =>
      StepProgress(cfg, world(k), s);
      OnlyLastDecides(cfg, world, k + 1, next);
  }

  lemma StepDecides(cfg: Config, a: Attempt, s: LoopState)
    ensures Step(cfg, a, s).Again? ==> Retryable(cfg, a)
    ensures Step(cfg, a, s).Stop? ==> DecidedBy(cfg, a, Step(cfg, a, s).end)
  {
  }

  predicate DecidedBy(cfg: Config, a: Attempt, end: End) {
    if end.Accepted? then a.submission == Submitted(end.quota)
    else a.submission == Rejected(end.error) || LocalFailure(cfg, a, end.error)
  }

  // ---- when the loop stops

  /** The attempt gets a channel and can read the request, so it reaches the upstream. */
  predicate Reaches(cfg: Config, a: Attempt, s: LoopState) {
    GetsChannel(cfg, a, s) && a.body.Readable?
  }

  /** The first attempt uses the channel the request came with; later ones need one that can be prepared. */
  predicate GetsChannel(cfg: Config, a: Attempt, s: LoopState) {
    if cfg.locked then s.cursor.retry == 0 || !a.setupFails
    else !s.meta || (Found(cfg, a, s.cursor) && !a.setupFails)
  }

  /** What an attempt that does not reach the upstream fails with. */
  function LocalError(cfg: Config, a: Attempt, channel: bool): TaskError {
    if !channel then TaskError(if cfg.locked then "setup_locked_channel_failed" else "get_channel_failed", a.message, 500, true)
    else TaskError("read_request_body_failed", a.message, if a.body.TooLarge? then 413 else 400, true)
  }

  /** The cursor the attempt is counted with. */
  function Used(cfg: Config, a: Attempt, s: LoopState): Cursor {
    if cfg.locked || !s.meta then s.cursor else Selected(cfg, a, s.cursor)
  }

  /** The state the last attempt starts from. */
  function LastState(cfg: Config, world: nat -> Attempt, k: nat, s: LoopState): LoopState
    requires s.cursor.retry <= cfg.retryTimes && !s.cursor.resetNextTry
    decreases Budget(cfg, s.cursor)
  {
    match Step(cfg, world(k), s)
    case Stop(_, _) => s
    case Again(next) => StepProgress(cfg, world(k), s); LastState(cfg, world, k + 1, next)
  }

  /** The loop gives up on a rejection worth a retry only when the limit is used up. */
  lemma {:induction false} GivesUpOnlyExhausted(cfg: Config, world: nat -> Attempt, k: nat, s: LoopState)
    requires s.cursor.retry <= cfg.retryTimes && !s.cursor.resetNextTry
    ensures var v, last := Run(cfg, world, k, s), LastState(cfg, world, k, s); var a := world(v.attempts - 1);
            && (Reaches(cfg, a, last) && Retryable(cfg, a) ==> Used(cfg, a, last).retry >= cfg.retryTimes)
            && (Reaches(cfg, a, last) && a.submission.Rejected? ==> v.end == Failed(a.submission.error))
            && (Reaches(cfg, a, last) && a.submission.Submitted? ==> v.end == Accepted(a.submission.quota))
            && (!Reaches(cfg, a, last) ==> v.end == Failed(LocalError(cfg, a, GetsChannel(cfg, a, last))))
    decreases Budget(cfg, s.cursor)
  {
    match Step(cfg, world(k), s)
    case Stop(_, _) =>
    case Again(next) =>
      StepProgress(cfg, world(k), s);
      GivesUpOnlyExhausted(cfg, world, k + 1, next);
  }

  /** Across automatic groups, with at least one retry allowed, it never does: the run ends with success, an
      error not worth a retry, or no channel left. */
  lemma CrossGroupNeverGivesUp(cfg: Config, world: nat -> Attempt, k: nat, s: LoopState)
    requires s.cursor.retry <= cfg.retryTimes && !s.cursor.resetNextTry
    requires cfg.auto && cfg.crossGroup && !cfg.locked && cfg.retryTimes >= 1 && (!s.meta ==> s.cursor.retry == 0)
    ensures var v, last := Run(cfg, world, k, s), LastState(cfg, world, k, s);
            !(Reaches(cfg, world(v.attempts - 1), last) && Retryable(cfg, world(v.attempts - 1)))
  {
    GivesUpOnlyExhausted(cfg, world, k, s);
    var v, last := Run(cfg, world, k, s), LastState(cfg, world, k, s);
    LastMeta(cfg, world, k, s);
    CrossGroupResets(cfg, world(v.attempts - 1), last);
  }

  lemma {:induction false} LastMeta(cfg: Config, world: nat -> Attempt, k: nat, s: LoopState)
    requires s.cursor.retry <= cfg.retryTimes && !s.cursor.resetNextTry && (!s.meta ==> s.cursor.retry == 0)
    ensures var last := LastState(cfg, world, k, s);
            last.cursor.retry <= cfg.retryTimes && !last.cursor.resetNextTry && (!last.meta ==> last.cursor.retry == 0)
    decreases Budget(cfg, s.cursor)
  {
    match Step(cfg, world(k), s)
    case Stop(_, _) =>
    case Again(next) =>
      StepProgress(cfg, world(k), s);
      LastMeta(cfg, world, k + 1, next);
  }

  lemma CrossGroupResets(cfg: Config, a: Attempt, s: LoopState)
    requires cfg.auto && cfg.crossGroup && !cfg.locked && cfg.retryTimes >= 1 && (!s.meta ==> s.cursor.retry == 0)
    ensures Reaches(cfg, a, s) ==> Used(cfg, a, s).retry < cfg.retryTimes
  {
  }

  /** Attempt `j` finds a channel at priority `p` of group `g` and is rejected with an error worth a retry. */
  predicate FailsIn(cfg: Config, a: Attempt, g: nat, p: nat) {
    && a.autoEnabled && a.available(g, p) && !a.setupFails && Retryable(cfg, a)
  }

  /** From attempt `k` on, group `g` has a channel at every priority from `p` to the limit, and all are rejected. */
  ghost predicate RoundFails(cfg: Config, world: nat -> Attempt, k: nat, g: nat, p: nat) {
    forall j: nat :: k <= j <= k + cfg.retryTimes - p ==> FailsIn(cfg, world(j), g, p + (j - k))
  }

  lemma RoundFailsStep(cfg: Config, world: nat -> Attempt, k: nat, g: nat, p: nat)
    requires p <= cfg.retryTimes && RoundFails(cfg, world, k, g, p)
    ensures FailsIn(cfg, world(k), g, p) && RoundFails(cfg, world, k + 1, g, p + 1)
  {
    assert FailsIn(cfg, world(k), g, p + (k - k));
    forall j: nat | k + 1 <= j <= k + 1 + cfg.retryTimes - (p + 1)
      ensures FailsIn(cfg, world(j), g, p + 1 + (j - (k + 1)))
    {
      assert FailsIn(cfg, world(j), g, p + (j - k));
    }
  }

  /** Across groups, each group with channels gets its full round, one attempt at each priority from the
      current one to the limit, before the loop turns to the next group. */
  lemma {:induction false} FullRoundInGroup(cfg: Config, world: nat -> Attempt, k: nat, s: LoopState) returns (billed: bool)
    requires cfg.auto && cfg.crossGroup && !cfg.locked && cfg.retryTimes >= 1
    requires s.meta && !s.cursor.resetNextTry && s.cursor.retry <= cfg.retryTimes && s.cursor.group < cfg.groups
    requires RoundFails(cfg, world, k, s.cursor.group, s.cursor.retry)
    ensures Run(cfg, world, k, s) ==
            Run(cfg, world, k + (cfg.retryTimes - s.cursor.retry) + 1,
                LoopState(Cursor(0, false, s.cursor.group + 1), true, billed))
    decreases cfg.retryTimes - s.cursor.retry
  {
    RoundFailsStep(cfg, world, k, s.cursor.group, s.cursor.retry);
    var next := RoundStep(cfg, world, k, s);
    if s.cursor.retry < cfg.retryTimes {
      billed := FullRoundInGroup(cfg, world, k + 1, next);
    } else {
      billed := next.billed;
    }
  }

  /** Within one group, the round ends the run with the last rejection. */
  lemma {:induction false} SingleGroupRound(cfg: Config, world: nat -> Attempt, k: nat, s: LoopState)
    requires cfg.auto && !cfg.crossGroup && !cfg.locked
    requires s.meta && !s.cursor.resetNextTry && s.cursor.retry <= cfg.retryTimes && s.cursor.group < cfg.groups
    requires RoundFails(cfg, world, k, s.cursor.group, s.cursor.retry)
    ensures RejectedAt(world, Run(cfg, world, k, s), k + (cfg.retryTimes - s.cursor.retry))
    decreases cfg.retryTimes - s.cursor.retry
  {
    RoundFailsStep(cfg, world, k, s.cursor.group, s.cursor.retry);
    if s.cursor.retry < cfg.retryTimes {
      var next := SingleGroupGoesOn(cfg, world, k, s);
      SingleGroupRound(cfg, world, k + 1, next);
    } else {
      SingleGroupEnds(cfg, world, k, s);
    }
  }

  /** The run ends with attempt `last`, rejected by the upstream. */
  predicate RejectedAt(world: nat -> Attempt, v: Verdict, last: nat) {
    v.attempts == last + 1 && world(last).submission.Rejected? && v.end == Failed(world(last).submission.error)
  }

  lemma SingleGroupEnds(cfg: Config, world: nat -> Attempt, k: nat, s: LoopState)
    requires cfg.auto && !cfg.crossGroup && !cfg.locked
    requires s.meta && !s.cursor.resetNextTry && s.cursor.retry == cfg.retryTimes && s.cursor.group < cfg.groups
    requires FailsIn(cfg, world(k), s.cursor.group, s.cursor.retry)
    ensures RejectedAt(world, Run(cfg, world, k, s), k)
  {
    SingleGroupStep(cfg, world(k), s);
  }

  lemma SingleGroupGoesOn(cfg: Config, world: nat -> Attempt, k: nat, s: LoopState) returns (next: LoopState)
    requires cfg.auto && !cfg.crossGroup && !cfg.locked
    requires s.meta && !s.cursor.resetNextTry && s.cursor.retry < cfg.retryTimes && s.cursor.group < cfg.groups
    requires FailsIn(cfg, world(k), s.cursor.group, s.cursor.retry)
    ensures next.meta && next.cursor == Cursor(s.cursor.retry + 1, false, s.cursor.group)
    ensures Run(cfg, world, k, s) == Run(cfg, world, k + 1, next)
  {
    SingleGroupStep(cfg, world(k), s);
    next := Step(cfg, world(k), s).next;
    StepProgress(cfg, world(k), s);
  }

  lemma SingleGroupStep(cfg: Config, a: Attempt, s: LoopState)
    requires cfg.auto && !cfg.crossGroup && !cfg.locked
    requires s.meta && !s.cursor.resetNextTry && s.cursor.retry <= cfg.retryTimes && s.cursor.group < cfg.groups
    requires FailsIn(cfg, a, s.cursor.group, s.cursor.retry)
    ensures Step(cfg, a, s) ==
            if s.cursor.retry < cfg.retryTimes
            then Again(LoopState(Cursor(s.cursor.retry + 1, false, s.cursor.group), true, s.billed || a.bills))
            else Stop(s.billed || a.bills, Failed(a.submission.error))
  {
    assert FirstGroup(a.available, s.cursor.group, cfg.groups, s.cursor.retry) == s.cursor.group;
  }

  lemma RoundStep(cfg: Config, world: nat -> Attempt, k: nat, s: LoopState) returns (next: LoopState)
    requires cfg.auto && cfg.crossGroup && !cfg.locked && cfg.retryTimes >= 1
    requires s.meta && !s.cursor.resetNextTry && s.cursor.retry <= cfg.retryTimes && s.cursor.group < cfg.groups
    requires FailsIn(cfg, world(k), s.cursor.group, s.cursor.retry)
    ensures next.meta && next.cursor == if s.cursor.retry < cfg.retryTimes then Cursor(s.cursor.retry + 1, false, s.cursor.group)
                                        else Cursor(0, false, s.cursor.group + 1)
    ensures Run(cfg, world, k, s) == Run(cfg, world, k + 1, next)
  {
    GroupStep(cfg, world(k), s);
    next := Step(cfg, world(k), s).next;
    StepProgress(cfg, world(k), s);
  }

  lemma GroupStep(cfg: Config, a: Attempt, s: LoopState)
    requires cfg.auto && cfg.crossGroup && !cfg.locked && cfg.retryTimes >= 1
    requires s.meta && !s.cursor.resetNextTry && s.cursor.retry <= cfg.retryTimes && s.cursor.group < cfg.groups
    requires FailsIn(cfg, a, s.cursor.group, s.cursor.retry)
    ensures Step(cfg, a, s) ==
            var c := if s.cursor.retry < cfg.retryTimes then Cursor(s.cursor.retry + 1, false, s.cursor.group)
                     else Cursor(0, false, s.cursor.group + 1);
            Again(LoopState(c, true, s.billed || a.bills))
  {
    assert FirstGroup(a.available, s.cursor.group, cfg.groups, s.cursor.retry) == s.cursor.group;
  }

  /** On a fixed group or a locked channel, whether attempt `j` of a request reaches the upstream. */
  predicate PlainlyReaches(cfg: Config, world: nat -> Attempt, meta: bool, j: nat) {
    PlainlyGets(cfg, world, meta, j) && world(j).body.Readable?
  }

  predicate PlainlyGets(cfg: Config, world: nat -> Attempt, meta: bool, j: nat) {
    if cfg.locked then j == 0 || !world(j).setupFails else (j == 0 && !meta) || (world(j).found && !world(j).setupFails)
  }

  /** How a request ends at its last attempt. */
  predicate PlainEnd(cfg: Config, world: nat -> Attempt, meta: bool, last: nat, end: End) {
    if !PlainlyReaches(cfg, world, meta, last)
    then end == Failed(LocalError(cfg, world(last), PlainlyGets(cfg, world, meta, last)))
    else match world(last).submission
      case Submitted(quota) => end == Accepted(quota)
      case Rejected(error) => end == Failed(error) && (last >= cfg.retryTimes || !Retryable(cfg, world(last)))
  }

  /** The run described by the answers of the world alone. */
  ghost predicate PlainRun(cfg: Config, world: nat -> Attempt, meta: bool, k: nat, v: Verdict) {
    && k < v.attempts <= cfg.retryTimes + 1
    && (forall j: nat :: k <= j < v.attempts - 1 ==> PlainlyReaches(cfg, world, meta, j) && Retryable(cfg, world(j)))
    && PlainEnd(cfg, world, meta, v.attempts - 1, v.end)
  }

  lemma PlainStep(cfg: Config, world: nat -> Attempt, meta: bool, k: nat, s: LoopState)
    requires (cfg.locked || !cfg.auto) && k <= cfg.retryTimes
    requires s.cursor.retry == k && !s.cursor.resetNextTry && s.meta == (k > 0 || meta)
    ensures match Step(cfg, world(k), s)
            case Stop(_, end) => PlainEnd(cfg, world, meta, k, end)
            case Again(next) =>
              && PlainlyReaches(cfg, world, meta, k) && Retryable(cfg, world(k)) && k < cfg.retryTimes
              && next.cursor == Cursor(k + 1, false, s.cursor.group) && next.meta
  {
  }

  lemma {:induction false} PlainRunFrom(cfg: Config, world: nat -> Attempt, meta: bool, k: nat, s: LoopState)
    requires (cfg.locked || !cfg.auto) && k <= cfg.retryTimes
    requires s.cursor.retry == k && !s.cursor.resetNextTry && s.meta == (k > 0 || meta)
    ensures PlainRun(cfg, world, meta, k, Run(cfg, world, k, s))
    decreases cfg.retryTimes - k
  {
    PlainStep(cfg, world, meta, k, s);
    match Step(cfg, world(k), s)
    case Stop(_, _) =>
    case Again(next) =>
      StepProgress(cfg, world(k), s);
      PlainRunFrom(cfg, world, meta, k + 1, next);
  }

  lemma PlainRunNotLonger(cfg: Config, world: nat -> Attempt, meta: bool, v: Verdict, w: Verdict)
    requires PlainRun(cfg, world, meta, 0, v) && PlainRun(cfg, world, meta, 0, w)
    ensures v.attempts <= w.attempts
  {
  }

  /** That description leaves only one number of attempts and one end. */
  lemma PlainRunUnique(cfg: Config, world: nat -> Attempt, meta: bool, v: Verdict, w: Verdict)
    requires PlainRun(cfg, world, meta, 0, v) && PlainRun(cfg, world, meta, 0, w)
    ensures v.attempts == w.attempts && v.end == w.end
  {
    PlainRunNotLonger(cfg, world, meta, v, w);
    PlainRunNotLonger(cfg, world, meta, w, v);
  }

  /** A request on a fixed group or a locked channel makes exactly the attempts it should: it goes on while the
      upstream rejects with an error worth a retry and retries are left, and stops otherwise. */
  lemma PlainRunExact(cfg: Config, world: nat -> Attempt, startGroup: nat, meta: bool, billed: bool)
    requires (cfg.locked || !cfg.auto) && cfg.retryTimes >= 0
    ensures PlainRun(cfg, world, meta, 0, Run(cfg, world, 0, Start(startGroup, meta, billed)))
  {
    PlainRunFrom(cfg, world, meta, 0, Start(startGroup, meta, billed));
  }

  /** A billing session never disappears, and one exists after the run only if it existed before or some
      attempt opened it. */
  lemma {:induction false} BilledByAttempt(cfg: Config, world: nat -> Attempt, k: nat, s: LoopState)
    requires s.cursor.retry <= cfg.retryTimes && !s.cursor.resetNextTry
    ensures var v := Run(cfg, world, k, s);
            && (s.billed ==> v.billed)
            && (forall j: nat :: k <= j < v.attempts - 1 && world(j).bills ==> v.billed)
            && (v.end.Accepted? && world(v.attempts - 1).bills ==> v.billed)
            && (v.billed ==> s.billed || exists j: nat :: k <= j < v.attempts && world(j).bills)
    decreases Budget(cfg, s.cursor)
  {
    match Step(cfg, world(k), s)
    case Stop(_, _) =>
    case Again(next) =>
      StepProgress(cfg, world(k), s);
      BilledByAttempt(cfg, world, k + 1, next);
      assert next.billed ==> s.billed || world(k).bills;
  }

  // ---- the request handler

  datatype TaskRow = TaskRow(quota: int, settleFailed: bool)

  /** What the database and the billing service see. */
  class Books {
    var tasks: seq<TaskRow>
    var settlements: seq<int>     // settlement attempts
    var refunds: nat

    constructor ()
      ensures tasks == [] && settlements == [] && refunds == 0
    {
      tasks, settlements, refunds := [], [], 0;
    }
  }

  /** Answers of database and billing after an accepted submission. */
  datatype Closing = Closing(insertFails: bool, settleFails: bool, auditFails: bool, message: string)

  function InsertError(closing: Closing): TaskError {
    Local("insert_task_failed", closing.message, 500)
  }

  method Finalize(books: Books, closing: Closing, quota: int) returns (error: Option<TaskError>)
    modifies books
    ensures books.refunds == old(books.refunds)
    ensures error == if closing.insertFails then Some(TaskError("insert_task_failed", closing.message, 500, true)) else None
    ensures closing.insertFails ==> books.tasks == old(books.tasks) && books.settlements == old(books.settlements)
    ensures !closing.insertFails ==>
              && books.tasks == old(books.tasks) + [TaskRow(quota, closing.settleFails && !closing.auditFails)]
              && books.settlements == old(books.settlements) + [quota]
  {
    if closing.insertFails {
      return Some(InsertError(closing));
    }
    books.tasks := books.tasks + [TaskRow(quota, false)];
    books.settlements := books.settlements + [quota];
    if closing.settleFails && !closing.auditFails {
      books.tasks := books.tasks[|books.tasks| - 1 := TaskRow(quota, true)];
    }
    return None;
  }

  /** The body of the retry loop: `error` and `quota` are the source's `taskErr` and `result`. */
  method TryOnce(cfg: Config, a: Attempt, param: RetryParam, buffer: ResponseWriter, meta: bool, billed: bool)
    returns (stop: bool, error: Option<TaskError>, quota: Option<int>, meta': bool, billed': bool)
    requires !param.resetNextTry
    modifies param, buffer
    ensures var step := Step(cfg, a, LoopState(old(param.Value()), meta, billed));
            && (stop == step.Stop?)
            && (step.Stop? ==> billed' == step.billed)
            && (step.Stop? && step.end.Failed? ==> error == Some(step.end.error))
            && (step.Stop? && step.end.Accepted? ==> error == None && quota == Some(step.end.quota))
            && (step.Stop? && step.end.Accepted? ==> buffer.Value() == After(BLANK, a.ops, |a.ops|))
            && (step.Again? ==> error.Some? && step.next == LoopState(Increased(param.Value()), meta', billed'))
  {
    buffer.Reset();
    stop, error, quota, meta', billed' := true, None, None, meta, billed;
    if cfg.locked {
      if param.retry > 0 && a.setupFails {
        error := Some(Local("setup_locked_channel_failed", a.message, 500));
        return;
      }
    } else if meta {
      var found := param.Select(cfg, a);
      if !found || a.setupFails {
        error := Some(Local("get_channel_failed", a.message, 500));
        return;
      }
    }
    stop, error, quota, meta', billed' := SubmitOnce(cfg, a, param.Value(), buffer, meta, billed);
  }

  method SubmitOnce(cfg: Config, a: Attempt, c: Cursor, buffer: ResponseWriter, meta: bool, billed: bool)
    returns (stop: bool, error: Option<TaskError>, quota: Option<int>, meta': bool, billed': bool)
    requires buffer.Value() == BLANK
    modifies buffer
    ensures var step := Submit(cfg, a, c, billed);
            && (stop == step.Stop?)
            && (step.Stop? ==> billed' == step.billed)
            && (step.Stop? && step.end.Failed? ==> error == Some(step.end.error))
            && (step.Stop? && step.end.Accepted? ==> error == None && quota == Some(step.end.quota))
            && (step.Stop? && step.end.Accepted? ==> buffer.Value() == After(BLANK, a.ops, |a.ops|))
            && (step.Again? ==> error.Some? && step.next == LoopState(Increased(c), meta', billed'))
  {
    stop, error, quota, meta', billed' := true, None, None, meta, billed;
    if !a.body.Readable? {
      error := Some(BodyError(a));
      return;
    }
    buffer.Replay(a.ops);
    meta', billed' := true, billed || a.bills;
    match a.submission {
      case Submitted(q) => quota := Some(q);
      case Rejected(e) =>
        error := Some(e);
        stop := !ShouldRetry(cfg, a, e, cfg.retryTimes - c.retry);
    }
  }

  predicate Ended(v: Verdict, billed: bool, error: Option<TaskError>, quota: Option<int>) {
    && v.billed == billed
    && (v.end.Failed? ==> error == Some(v.end.error))
    && (v.end.Accepted? ==> error == None && quota == Some(v.end.quota))
  }

  /** The retry loop; `n` counts attempts. A negative limit skips it. */
  method RetryLoop(cfg: Config, world: nat -> Attempt, param: RetryParam, buffer: ResponseWriter, meta: bool, billed: bool)
    returns (n: nat, error: Option<TaskError>, quota: Option<int>, billed': bool)
    requires param.retry == 0 && !param.resetNextTry
    modifies param, buffer
    ensures cfg.retryTimes < 0 ==> error == None && quota == None && billed' == billed
    ensures cfg.retryTimes >= 0 ==>
              var v := Run(cfg, world, 0, LoopState(old(param.Value()), meta, billed));
              && n == v.attempts && Ended(v, billed', error, quota)
              && (error == None ==> buffer.Value() == After(BLANK, world(n - 1).ops, |world(n - 1).ops|))
  {
    n, error, quota, billed' := 0, None, None, billed;
    var meta', stop := meta, false;
    if cfg.retryTimes < 0 {
      return;
    }
    ghost var v := Run(cfg, world, 0, LoopState(param.Value(), meta, billed));
    while param.retry <= cfg.retryTimes
      invariant !param.resetNextTry && param.retry <= cfg.retryTimes
      invariant v == Run(cfg, world, n, LoopState(param.Value(), meta', billed'))
      decreases Budget(cfg, param.Value())
    {
      ghost var s := LoopState(param.Value(), meta', billed');
      stop, error, quota, meta', billed' := TryOnce(cfg, world(n), param, buffer, meta', billed');
      n := n + 1;
      if stop {
        return;
      }
      StepProgress(cfg, world(n - 1), s);
      param.IncreaseRetry();
    }
  }

  const OVERLOADED := "当前分组上游负载已饱和，请稍后再试"

  function Shown(error: TaskError): TaskError {
    if error.status == 429 then TaskError(error.code, OVERLOADED, 429, error.local) else error
  }

  /** The error the client sees: its own, with another text when the upstream is busy. */
  predicate RewordedIfBusy(error: TaskError, shown: TaskError) {
    && shown.code == error.code && shown.status == error.status && shown.local == error.local
    && shown.message == if error.status == 429 then "当前分组上游负载已饱和，请稍后再试" else error.message
  }

  datatype Outcome = Crashed | Errored(error: TaskError) | Flushed

  function Start(startGroup: nat, meta: bool, billed: bool): LoopState {
    LoopState(Cursor(0, false, startGroup), meta, billed)
  }

  /** How the run must end: an error from the last attempt or from storing its row, or success. */
  function Verdicts(cfg: Config, v: Verdict, closing: Closing): Outcome {
    if v.end.Failed? then Errored(v.end.error)
    else if closing.insertFails then Errored(InsertError(closing))
    else Flushed
  }

  /** The whole run of the handler after origin resolution. It ends in exactly one of two ways. Failure:
      an error response, no task row, no settlement attempt, one refund if a billing session exists.
      Success: one task row, one settlement attempt, no refund, and the response of the last attempt
      alone. Only a negative retry limit, which skips the loop, makes it dereference a missing result. */
  method RelayTask(cfg: Config, world: nat -> Attempt, closing: Closing, startGroup: nat, meta: bool, billed: bool,
                   original: ResponseWriter, books: Books)
    returns (outcome: Outcome)
    requires !Written(original.Value()) && original.body == []
    modifies original, books
    ensures outcome.Crashed? <==> cfg.retryTimes < 0
    ensures outcome.Crashed? ==> unchanged(original) && unchanged(books)
    ensures !outcome.Crashed? ==> outcome == Verdicts(cfg, Run(cfg, world, 0, Start(startGroup, meta, billed)), closing)
    ensures outcome.Errored? ==>
              && books.tasks == old(books.tasks) && books.settlements == old(books.settlements)
              && var v := Run(cfg, world, 0, Start(startGroup, meta, billed));
              && books.refunds == old(books.refunds) + (if v.billed then 1 else 0)
              && exists shown :: RewordedIfBusy(outcome.error, shown)
                   && original.Value() == After(old(original.Value()), cfg.json(shown), |cfg.json(shown)|)
    ensures outcome.Flushed? ==>
              && books.refunds == old(books.refunds)
              && var v := Run(cfg, world, 0, Start(startGroup, meta, billed));
              && books.tasks == old(books.tasks) + [TaskRow(v.end.quota, closing.settleFails && !closing.auditFails)]
              && books.settlements == old(books.settlements) + [v.end.quota]
              && DeliversLast(old(original.Value()), original.Value(), world(v.attempts - 1).ops)
  {
    var buffer := new ResponseWriter();
    var param := new RetryParam(startGroup);
    var n, error, quota, isBilled := RetryLoop(cfg, world, param, buffer, meta, billed);
    if error.None? {
      if quota.None? {
        return Crashed;
      }
      AfterShows(world(n - 1).ops);
      UnsentIsEmpty(world(n - 1).ops);
      StatusStaysPositive(BLANK, world(n - 1).ops, |world(n - 1).ops|);
      error := Finalize(books, closing, quota.value);
    }
    if error.Some? {
      assert RewordedIfBusy(error.value, Shown(error.value));
      original.Replay(cfg.json(Shown(error.value)));
      if isBilled {
        books.refunds := books.refunds + 1;
      }
      return Errored(error.value);
    }
    buffer.FlushToOriginal(original);
    return Flushed;
  }

  /** The client gets the header, status and body the operations mean, key by key on top of what was there. */
  ghost predicate DeliversLast(before: Page, after: Page, ops: seq<Op>) {
    exists page :: Shows(page, ops) && Reached(before, page, after)
  }
}
