/** The laws of the step system, as laws of the programs: what holds of a service object after any
    calls, with any interference. */
module ServiceLaws {
  import opened Lifecycle
  import opened RowSafety
  import opened LifecycleLaws
  import opened Service
  import BudgetLaws
  import Causes
  import NonceLaws
  import RowLaws

  /** The service has been through the steps of its trace. */
  lemma StateOf(service: WalletService)
    requires service.Valid()
    ensures var w := Exec(Init(service.config), service.trace);
            && w == service.State() && w.runs == service.book.runs && w.sent == service.book.sent
            && w.everFailed == service.book.everFailed && w.rows == service.requestRepo.rows
  {
    hide Exec;
  }

  /** Whatever a service has been through, the nonces its runs have sent are exclusive, two of its
      runs have sent for one row only if that row has been failed, its published rows are
      complete, and no row has more attempts than the maximum. */
  lemma UnderAnySchedule(service: WalletService)
    requires service.Valid()
    ensures var sent := service.book.sent;
            forall i, j :: 0 <= i < j < |sent| && sent[i].sender.ByRun? && sent[j].sender.ByRun? ==>
              && (sent[i].slot != sent[j].slot || sent[i].tx.nonce != sent[j].tx.nonce)
              && (sent[i].row == sent[j].row ==> sent[i].row in service.book.everFailed)
    ensures forall id :: id in service.requestRepo.rows ==>
              && (Published(service.requestRepo.rows[id].status) ==> Complete(service.requestRepo.rows[id]))
              && service.requestRepo.rows[id].attempts <= service.config.maxAttempts
  {
    hide Exec;
    StateOf(service);
    NonceLaws.NonceExclusive(service.config, service.trace);
    RowLaws.RowCompleteness(service.config, service.trace);
    var sent := service.book.sent;
    forall i: nat, j: nat | i < j < |sent| && sent[i].sender.ByRun? && sent[j].sender.ByRun?
      ensures sent[i].row == sent[j].row ==> sent[i].row in service.book.everFailed
    {
      RowLaws.SentOnceUntilFailed(service.config, service.trace, i, j);
    }
    forall id | id in service.requestRepo.rows
      ensures service.requestRepo.rows[id].attempts <= service.config.maxAttempts
    {
      BudgetLaws.AttemptsWithinMax(service.config, service.trace, id);
    }
  }

  /** Whatever a service has been through, what its book says was sent was sent for cause, and so has
      the status of each of its rows. */
  lemma CausesUnderAnySchedule(service: WalletService)
    requires service.Valid()
    ensures var past := Causes.Past(service.config, service.trace);
            && (forall e :: e in service.book.sent ==> Causes.SentCause(past, service.config.bumpPercent, e))
            && (forall id :: id in service.requestRepo.rows ==>
                  Causes.RowCause(past, id, service.requestRepo.rows[id]))
  {
    hide Exec, Causes.Past, Causes.SentCause, Causes.StatusCause;
    StateOf(service);
    forall e | e in service.book.sent
      ensures Causes.SentCause(Causes.Past(service.config, service.trace), service.config.bumpPercent, e)
    {
      var i :| 0 <= i < |service.book.sent| && service.book.sent[i] == e;
      Causes.SentWithCause(service.config, service.trace, i);
    }
    forall id | id in service.requestRepo.rows
      ensures Causes.RowCause(Causes.Past(service.config, service.trace), id, service.requestRepo.rows[id])
    {
      Causes.StatusHasCause(service.config, service.trace, id);
    }
  }

  /** A service whose schedule kept to the guard has one owner per key and faithful replacements,
      and its confirmed and dropped rows have stayed so ever since. */
  lemma UnderTheGuard(service: WalletService)
    requires service.Valid() && Guarded(Init(service.config), service.trace)
    ensures forall q, r :: Owners(service.State(), q, r) ==> q == r
    ensures var sent := service.book.sent;
            forall i, j :: 0 <= i < |sent| && 0 <= j < |sent| && SameNonce(sent[i], sent[j]) ==>
                SameTransaction(sent[i], sent[j])
    ensures forall k, id :: 0 <= k <= |service.trace| && EndedBy(service.config, service.trace, k, id) ==>
              && id in service.requestRepo.rows
              && service.requestRepo.rows[id].status
                 == Exec(Init(service.config), service.trace[..k]).rows[id].status
  {
    hide Exec, Owners, SameNonce, SameTransaction;
    StateOf(service);
    forall q, r | Owners(service.State(), q, r)
      ensures q == r
    {
      OneOwnerPerKey(service.config, service.trace, q, r);
    }
    ReplacementFidelity(service.config, service.trace);
    forall k, id | 0 <= k <= |service.trace| && EndedBy(service.config, service.trace, k, id)
      ensures id in service.requestRepo.rows
      ensures service.requestRepo.rows[id].status
           == Exec(Init(service.config), service.trace[..k]).rows[id].status
    {
      StaysEnded(service.config, service.trace, k, id);
    }
  }

  /** After k steps the row was confirmed or dropped. */
  predicate EndedBy(config: Config, steps: seq<Step>, k: nat, id: RowId)
    requires k <= |steps|
  {
    var rows := Exec(Init(config), steps[..k]).rows;
    id in rows && Final(rows[id].status)
  }

  lemma {:induction false} StaysEnded(config: Config, steps: seq<Step>, k: nat, id: RowId)
    requires Guarded(Init(config), steps) && k <= |steps| && EndedBy(config, steps, k, id)
    ensures var w, last := Exec(Init(config), steps[..k]), Exec(Init(config), steps);
            id in last.rows && last.rows[id].status == w.rows[id].status
  {
    hide Exec, Guarded, Inv;
    assert steps[..k] + steps[k..] == steps;
    GuardedSplit(Init(config), steps[..k], steps[k..]);
    ExecConcat(Init(config), steps[..k], steps[k..]);
    InitInv(config);
    InvRuns(Init(config), steps[..k]);
    InvRuns(Exec(Init(config), steps[..k]), steps[k..]);
  }

  /** A service that recorded every replacement on a row with as many attempts as its poll had
      read has counted them. */
  lemma WhileCounted(service: WalletService)
    requires service.Valid() && Counted(Init(service.config), service.trace)
    ensures forall id :: id in service.requestRepo.rows ==>
              id in service.book.recorded
              && service.requestRepo.rows[id].attempts == service.book.recorded[id] <= service.config.maxAttempts
  {
    hide Exec;
    StateOf(service);
    forall id | id in service.requestRepo.rows
      ensures id in service.book.recorded
      ensures service.requestRepo.rows[id].attempts == service.book.recorded[id] <= service.config.maxAttempts
    {
      BudgetLaws.SpeedUpBudget(service.config, service.trace, id);
    }
  }
}
