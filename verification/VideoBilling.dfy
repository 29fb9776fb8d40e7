/**
 Polling an asynchronous video task: the status switch that re-bills a successful task by its actual
 usage and refunds a failed one. Each poll works on a copy of the stored row, so a failed update of the row
 loses the changes made to it, but not the money moved before.
*/
module VideoBilling {
  import opened Options

  datatype Status = Submitted | Queued | InProgress | Success | Failure

  datatype Row = Row(status: Status, quota: int)

  /** What the upstream reports: one of the statuses, nothing, or an unknown word. */
  datatype Report = Known(status: Status) | Empty | Unknown

  /** One poll: the report, the quota computed from the reported usage (if the model is billed by usage),
      and which database calls fail. */
  datatype Poll = Poll(report: Report, actual: Option<int>, chargeFails: bool, updateFails: bool, refundFails: bool)

  /** The stored row and what the user has paid for it so far. */
  datatype State = State(row: Row, paid: int)

  function StatusOf(p: Poll): Status
    requires !p.report.Unknown?
  {
    if p.report.Empty? then Failure else p.report.status
  }

  /** The poll moves money to match the actual usage. */
  predicate Rebills(row: Row, p: Poll) {
    && p.report == Known(Success) && p.actual.Some? && p.actual.value != row.quota && !p.chargeFails
  }

  function NewRow(row: Row, p: Poll): Row
    requires !p.report.Unknown?
  {
    Row(StatusOf(p), if Rebills(row, p) then p.actual.value else row.quota)
  }

  /** The poll pays the quota back: a video task fails now, was not failed before, and its row was updated. */
  predicate Refunds(row: Row, p: Poll) {
    !p.report.Unknown? && StatusOf(p).Failure? && !row.status.Failure? && row.quota != 0 && !p.updateFails
  }

  function Step(s: State, p: Poll): State {
    if p.report.Unknown? then s
    else State(if p.updateFails then s.row else NewRow(s.row, p),
               s.paid + (if Rebills(s.row, p) then p.actual.value - s.row.quota else 0)
                      - (if Refunds(s.row, p) && !p.refundFails then s.row.quota else 0))
  }

  class Account {
    var balance: int

    constructor (balance: int)
      ensures this.balance == balance
    {
      this.balance := balance;
    }

    method Increase(amount: int, fails: bool)
      modifies this
      ensures balance == old(balance) + (if fails then 0 else amount)
    {
      if !fails {
        balance := balance + amount;
      }
    }
  }

  class VideoTask {
    var status: Status
    var quota: int

    function Value(): Row
      reads this
    {
      Row(status, quota)
    }

    constructor (quota: int)
      ensures Value() == Row(Submitted, quota)
    {
      status, this.quota := Submitted, quota;
    }

    /** The billing and status part of one poll: what is paid for it leaves the user's balance. */
    method Update(p: Poll, user: Account) returns (ok: bool)
      modifies this, user
      ensures ok == !p.report.Unknown?
      ensures Value() == Step(State(old(Value()), 0), p).row
      ensures user.balance == old(user.balance) - Step(State(old(Value()), 0), p).paid
      ensures p.report.Known? && !p.updateFails ==> status == p.report.status
      ensures p.report.Empty? && !p.updateFails ==> status == Failure
      ensures p.report == Known(Failure) && !old(status).Failure? && !p.updateFails && !p.refundFails ==>
                user.balance == old(user.balance) + old(quota)
    {
      if p.report.Unknown? {
        return false;
      }
      var shouldRefund := false;
      var charged := quota;
      var newStatus, newQuota := StatusOf(p), quota;
      match newStatus {
        case Submitted =>
        case Queued =>
        case InProgress =>
        case Success =>
          if p.actual.Some? {
            var delta := p.actual.value - quota;
            if delta > 0 {
              user.Increase(-delta, p.chargeFails);
              if !p.chargeFails {
                newQuota := p.actual.value;
              }
            } else if delta < 0 {
              user.Increase(-delta, p.chargeFails);
              if !p.chargeFails {
                newQuota := p.actual.value;
              }
            }
          }
        case Failure =>
          if charged != 0 && !status.Failure? {
            shouldRefund := true;
          }
      }
      if p.updateFails {
        shouldRefund := false;
      } else {
        status, quota := newStatus, newQuota;
      }
      if shouldRefund {
        user.Increase(charged, p.refundFails);
      }
      return true;
    }
  }

  // ---- conservation over runs

  /** The user has paid the stored quota, and nothing once a video task has failed. */
  predicate Settled(s: State) {
    s.paid == if s.row.status.Failure? then 0 else s.row.quota
  }

  /** The money moved by the poll is matched by the row. */
  predicate Booked(row: Row, p: Poll) {
    if row.status.Failure? then
      || p.report.Unknown? || StatusOf(p).Failure?
      || (if Rebills(row, p) then !p.updateFails && row.quota == 0 else p.updateFails || row.quota == 0)
    else
      !(Rebills(row, p) && p.updateFails) && !(Refunds(row, p) && p.refundFails)
  }

  /** Exactly when one poll keeps the books right. */
  lemma StepSettledIff(s: State, p: Poll)
    requires Settled(s)
    ensures Settled(Step(s, p)) <==> Booked(s.row, p)
  {
  }

  /** A known or missing status is stored as reported, when the update succeeds; an unknown one changes nothing. */
  lemma StoresReport(s: State, p: Poll)
    ensures !p.updateFails ==>
              match p.report
              case Known(status) => Step(s, p).row.status == status
              case Empty => Step(s, p).row.status == Failure
              case Unknown => Step(s, p) == s
    ensures p.updateFails ==> Step(s, p).row == s.row
  {
  }

  /** A task that fails is paid back in full. */
  lemma FailureRefunds(s: State, p: Poll)
    requires Settled(s) && !s.row.status.Failure? && (p.report == Known(Failure) || p.report == Empty)
    requires !p.updateFails && !p.refundFails
    ensures Step(s, p) == State(Row(Failure, s.row.quota), 0)
  {
  }

  /** A task that succeeds with a known usage costs that usage, whether it was charged more or less before;
      without one it costs what was charged. */
  lemma SuccessCharges(s: State, p: Poll)
    requires Settled(s) && !s.row.status.Failure? && p.report == Known(Success) && !p.updateFails && !p.chargeFails
    ensures var price := if p.actual.Some? then p.actual.value else s.row.quota;
            Step(s, p) == State(Row(Success, price), price)
  {
  }

  /** A status on the way moves no money. */
  lemma ProgressIsFree(s: State, p: Poll)
    requires p.report == Known(Submitted) || p.report == Known(Queued) || p.report == Known(InProgress)
    ensures Step(s, p).paid == s.paid && Step(s, p).row.quota == s.row.quota
  {
  }

  function Run(s: State, ps: seq<Poll>, n: nat): State
    requires n <= |ps|
  {
    if n == 0 then s else Step(Run(s, ps, n - 1), ps[n - 1])
  }

  /** What the polling loop and the database must grant: an update after re-billing succeeds, the refund
      credit succeeds, and a failed task is not polled again. */
  predicate Orderly(row: Row, p: Poll) {
    && !row.status.Failure?
    && (Rebills(row, p) ==> !p.updateFails)
    && (Refunds(row, p) ==> !p.refundFails)
  }

  /** Over every orderly run the net charge is the stored quota until failure and zero after it, however
      often success is polled again. */
  lemma {:induction false} RunSettled(s: State, ps: seq<Poll>, n: nat)
    requires Settled(s) && n <= |ps|
    requires forall i :: 0 <= i < n ==> Orderly(Run(s, ps, i).row, ps[i])
    ensures Settled(Run(s, ps, n))
  {
    if n > 0 {
      RunSettled(s, ps, n - 1);
      StepSettledIff(Run(s, ps, n - 1), ps[n - 1]);
    }
  }

  predicate AlwaysSettled(s: State, ps: seq<Poll>, n: nat)
    requires n <= |ps|
  {
    Settled(Run(s, ps, n)) && (n == 0 || AlwaysSettled(s, ps, n - 1))
  }

  predicate AlwaysBooked(s: State, ps: seq<Poll>, n: nat)
    requires n <= |ps|
  {
    n == 0 || (AlwaysBooked(s, ps, n - 1) && Booked(Run(s, ps, n - 1).row, ps[n - 1]))
  }

  /** Exactly: the books are right after every poll of a run if and only if every poll was booked. */
  lemma {:induction false} RunSettledIff(s: State, ps: seq<Poll>, n: nat)
    requires Settled(s) && n <= |ps|
    ensures AlwaysSettled(s, ps, n) <==> AlwaysBooked(s, ps, n)
  {
    if n > 0 {
      RunSettledIff(s, ps, n - 1);
      if Settled(Run(s, ps, n - 1)) {
        StepSettledIff(Run(s, ps, n - 1), ps[n - 1]);
      }
    }
  }

  /** After every orderly run, a task last reported failed with its row updated has cost nothing. */
  lemma FailedTaskIsFree(s: State, ps: seq<Poll>, n: nat)
    requires Settled(s) && 0 < n <= |ps| && forall i :: 0 <= i < n ==> Orderly(Run(s, ps, i).row, ps[i])
    requires (ps[n - 1].report == Known(Failure) || ps[n - 1].report == Empty) && !ps[n - 1].updateFails
    ensures Run(s, ps, n).row.status == Failure && Run(s, ps, n).paid == 0
  {
    RunSettled(s, ps, n);
    StoresReport(Run(s, ps, n - 1), ps[n - 1]);
  }

  /** A failed update after re-billing loses the new quota: the next poll bills the difference again. */
  lemma LostUpdateBillsTwice(quota: int, actual: int)
    requires actual != quota
    ensures var p := Poll(Known(Success), Some(actual), false, true, false);
            var q := Poll(Known(Success), Some(actual), false, false, false);
            Run(State(Row(InProgress, quota), quota), [p, q], 2) == State(Row(Success, actual), actual + (actual - quota))
  {
    var p := Poll(Known(Success), Some(actual), false, true, false);
    var q := Poll(Known(Success), Some(actual), false, false, false);
    var s := State(Row(InProgress, quota), quota);
    assert Run(s, [p, q], 1) == State(Row(InProgress, quota), actual);
  }
}
