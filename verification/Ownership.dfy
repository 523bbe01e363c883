/** Row ownership under the guard: from the gate to its final status write a run is alone on
    its row, and a poll writes only rows no run is working on. Lifecycle safety follows. */
module Ownership {
  import opened Base
  import opened Fees
  import opened Lifecycle
  import opened KeySafety
  import opened RowSafety

  /** The row a run past the gate is working on. A run about to reset owns nothing yet. */
  function OwnRow(pc: Pc): Option<RowId> {
    if pc.AtReset? then None else PcRow(pc)
  }

  /** The status of a run's row while the run is at this point. */
  function Expected(pc: Pc): Status {
    if pc.AtReset? then Failed
    else if HashStored(pc) then Signed
    else Pending
  }

  predicate Shared(a: Pc, b: Pc) {
    OwnRow(a).Some? && OwnRow(a) == OwnRow(b)
  }

  ghost predicate Owned(runs: map<RunId, Run>, rows: map<RowId, Row>) {
    && (forall r :: r in runs && OwnRow(runs[r].pc).Some? ==>
          OwnRow(runs[r].pc).value in rows && rows[OwnRow(runs[r].pc).value].status == Expected(runs[r].pc))
    && (forall q, r :: q in runs && r in runs && Shared(runs[q].pc, runs[r].pc) ==> q == r)
  }

  /** The monitor writes one of these statuses. */
  predicate MonitorTarget(u: RowUpdate) {
    u.status == Some(Broadcasted) || u.status == Some(Confirmed) || u.status == Some(Failed)
        || u.status == Some(Dropped)
  }

  predicate WritesTarget(pc: PollPc) {
    pc.AtWrite? ==> MonitorTarget(pc.update)
  }

  ghost predicate OwnInv(w: World) {
    Owned(w.runs, w.rows) && forall p :: p in w.polls ==> WritesTarget(w.polls[p].pc)
  }

  // -------------------------------------------------------------------------
  // Steps of a run
  // -------------------------------------------------------------------------

  /** The status changes the lifecycle allows. */
  predicate Allowed(was: Status, now: Status) {
    || was == now
    || (was == Pending && (now == Signed || now == Failed))
    || (was == Signed && (now == Broadcasted || now == Failed))
    || (was == Broadcasted && (now == Confirmed || now == Failed || now == Dropped))
    || (was == Failed && now == Pending)
  }

  /** Every row the step finds changes its status as the lifecycle allows. */
  ghost predicate StatusesAllowed(w: World, w': World) {
    forall id :: id in w.rows ==> id in w'.rows && Allowed(w.rows[id].status, w'.rows[id].status)
  }

  /** The status an update leaves on a row that had `status`. */
  function StatusAfter(status: Status, write: RowWrite): Status {
    if write.UpdateRow? && write.update.status.Some? then write.update.status.value else status
  }

  ghost predicate OwnsWell(run: Run, e: Effect) {
    var pc, pc' := run.pc, e.run.pc;
    && (e.write.UpdateRow? ==>
        PcRow(pc) == Some(e.write.id) && Allowed(Expected(pc), StatusAfter(Expected(pc), e.write)))
    && (if e.write.InsertRow? then pc' == AtReserve(e.write.id)
        else OwnRow(pc').Some? ==> PcRow(pc) == OwnRow(pc') && Expected(pc') == StatusAfter(Expected(pc), e.write))
    && (pc.AtReset? && OwnRow(e.run.pc).Some? ==> e.write.UpdateRow?)
    && (e.nonce.GiveBack? || e.nonce.HandOver? || e.nonce.WalkAway? ==> Holds(pc))
  }

  lemma ActionOwnsWell(run: Run, v: View, act: RunAction)
    requires PcFits(run.pc, act)
    ensures OwnsWell(run, RunEffect(run, v, act))
    ensures run.pc.AtReset? && RunEffect(run, v, act).write.UpdateRow? ==> act == Reset
  {
    match act
    case _ =>
  }

  /** The run's row has the status the run expects, and nobody else works on it: the run owns
      it, or is about to reset it and it has still failed. */
  ghost predicate AloneOn(runs: map<RunId, Run>, rows: map<RowId, Row>, r: RunId)
    requires r in runs && PcRow(runs[r].pc).Some?
  {
    var id := PcRow(runs[r].pc).value;
    && id in rows && rows[id].status == Expected(runs[r].pc)
    && forall q :: q in runs && q != r ==> OwnRow(runs[q].pc) != Some(id)
  }

  lemma WriterAlone(w: World, r: RunId, act: RunAction)
    requires OwnInv(w) && RunAt(w, r, act) && StepGuarded(w, Do(r, act))
    requires PcRow(w.runs[r].pc).Some? && (w.runs[r].pc.AtReset? ==> act == Reset)
    ensures AloneOn(w.runs, w.rows, r)
  {
  }

  lemma UpdateKeepsOwners(runs: map<RunId, Run>, rows: map<RowId, Row>, r: RunId, e: Effect)
    requires Owned(runs, rows) && r in runs && e.write.UpdateRow? && OwnsWell(runs[r], e) && AloneOn(runs, rows, r)
    ensures Owned(runs[r := e.run], rows[e.write.id := Merge(rows[e.write.id], e.write.update)])
    ensures Allowed(rows[e.write.id].status, Merge(rows[e.write.id], e.write.update).status)
  {
    MergedStatus(rows[e.write.id], e.write.update);
    hide Merge;
  }

  lemma InsertKeepsOwners(runs: map<RunId, Run>, rows: map<RowId, Row>, r: RunId, run': Run, id: RowId, row: Row)
    requires Owned(runs, rows) && id !in rows && run'.pc == AtReserve(id) && row.status == Pending
    ensures Owned(runs[r := run'], rows[id := row])
  {
  }

  /** A run that writes nothing keeps its place or leaves its row. */
  lemma MoveKeepsOwners(runs: map<RunId, Run>, rows: map<RowId, Row>, r: RunId, e: Effect)
    requires Owned(runs, rows) && r in runs && e.write.NoWrite? && OwnsWell(runs[r], e)
    ensures Owned(runs[r := e.run], rows)
  {
  }

  lemma EffectKeepsOwners(w: World, r: RunId, e: Effect)
    requires OwnInv(w) && r in w.runs && OwnsWell(w.runs[r], e)
    requires e.write.InsertRow? ==> e.write.id !in w.rows
    requires e.write.UpdateRow? ==> AloneOn(w.runs, w.rows, r)
    ensures OwnInv(ApplyRun(w, r, e))
    ensures StatusesAllowed(w, ApplyRun(w, r, e))
  {
    hide NewRow, Owned, WritesTarget;
    match e.write
    case NoWrite => MoveKeepsOwners(w.runs, w.rows, r, e);
    case InsertRow(id) =>
      NewRowPending(w.runs[r]);
      InsertKeepsOwners(w.runs, w.rows, r, e.run, id, NewRow(w.runs[r]));
    case UpdateRow(id, u) => UpdateKeepsOwners(w.runs, w.rows, r, e);
  }

  lemma NewRowPending(run: Run)
    ensures NewRow(run).status == Pending
  {
    hide Key;
  }

  lemma RunStepOwns(w: World, r: RunId, act: RunAction)
    requires OwnInv(w) && RunAt(w, r, act) && StepGuarded(w, Do(r, act))
    ensures OwnInv(Next(w, Do(r, act))) && StatusesAllowed(w, Next(w, Do(r, act)))
  {
    hide StatusesAllowed, Key, RunEffect, ApplyRun;
    var v := ViewOf(w, w.runs[r], act);
    var e := RunEffect(w.runs[r], v, act);
    ActionOwnsWell(w.runs[r], v, act);
    ActionKeepsRequest(w.runs[r], v, act);
    if e.write.UpdateRow? {
      WriterAlone(w, r, act);
    }
    hide OwnInv, OwnsWell, AloneOn;
    EffectKeepsOwners(w, r, e);
  }

  lemma OnlyFindRacedResets(run: Run, v: View, act: RunAction)
    requires PcFits(run.pc, act)
    ensures RunEffect(run, v, act).run.pc.AtReset? ==> act.FindRaced?
  {
    match act
    case _ =>
  }

  // -------------------------------------------------------------------------
  // Steps of a poll
  // -------------------------------------------------------------------------

  lemma MonitorOwnsWell(config: Config, poller: Poller, act: PollAction)
    requires PollFits(poller, act)
    ensures var e := PollEffect(config, poller, act);
            && WritesTarget(e.poller.pc)
            && (e.write.Some? ==> poller.pc.AtWrite? && act == OnWrite(true)
                                  && e.write.value.id == poller.pc.id && e.write.value.update == poller.pc.update)
  {
    hide ReplacementTx, BumpQuote;
    match act
    case _ =>
  }

  lemma WriteKeepsOwners(runs: map<RunId, Run>, rows: map<RowId, Row>, id: RowId, u: RowUpdate)
    requires Owned(runs, rows) && id in rows && rows[id].status == Broadcasted && MonitorTarget(u)
    ensures Owned(runs, rows[id := Merge(rows[id], u)])
    ensures Allowed(rows[id].status, Merge(rows[id], u).status)
  {
    MergedStatus(rows[id], u);
    hide Merge;
  }

  lemma PollEffectOwns(w: World, p: PollId, e: MonitorEffect)
    requires OwnInv(w) && WritesTarget(e.poller.pc)
    requires e.write.Some? ==>
               e.write.value.id in w.rows && w.rows[e.write.value.id].status == Broadcasted
                   && MonitorTarget(e.write.value.update)
    ensures OwnInv(ApplyPoll(w, p, e)) && StatusesAllowed(w, ApplyPoll(w, p, e))
  {
    hide Owned, Merge, MonitorTarget, WritesTarget, Bumped;
    if e.write.Some? {
      WriteKeepsOwners(w.runs, w.rows, e.write.value.id, e.write.value.update);
    }
  }

  lemma PollStepOwns(w: World, p: PollId, act: PollAction)
    requires OwnInv(w) && PollAt(w, p, act) && StepGuarded(w, Monitor(p, act))
    ensures OwnInv(Next(w, Monitor(p, act))) && StatusesAllowed(w, Next(w, Monitor(p, act)))
  {
    hide Owned, PollEffect, ApplyPoll, StatusesAllowed, MonitorTarget;
    MonitorOwnsWell(w.config, w.polls[p], act);
    PollEffectOwns(w, p, PollEffect(w.config, w.polls[p], act));
  }

  lemma MergedStatus(row: Row, u: RowUpdate)
    ensures Merge(row, u).status == if u.status.Some? then u.status.value else row.status
  {
  }

  // -------------------------------------------------------------------------
  // All steps
  // -------------------------------------------------------------------------

  lemma FreshRunOwns(runs: map<RunId, Run>, rows: map<RowId, Row>, r: RunId, run: Run)
    requires Owned(runs, rows) && run.pc.AtLookup?
    ensures Owned(runs[r := run], rows)
  {
  }

  lemma OwnStep(w: World, s: Step)
    requires OwnInv(w) && StepGuarded(w, s)
    ensures OwnInv(Next(w, s)) && StatusesAllowed(w, Next(w, s))
  {
    hide OwnInv, StatusesAllowed, StepGuarded;
    match s
    case Do(r, act) =>
      if RunAt(w, r, act) {
        RunStepOwns(w, r, act);
      } else {
        SameRowsAllowed(w, w);
      }
    case Monitor(p, act) =>
      if PollAt(w, p, act) {
        PollStepOwns(w, p, act);
      } else {
        SameRowsAllowed(w, w);
      }
    case _ =>
      SameRowsAllowed(w, Next(w, s));
      FrameStepOwns(w, s);
  }

  lemma SameRowsAllowed(w: World, w': World)
    requires w'.rows == w.rows
    ensures StatusesAllowed(w, w')
  {
  }

  lemma FrameStepOwns(w: World, s: Step)
    requires OwnInv(w) && !s.Do? && !s.Monitor?
    ensures OwnInv(Next(w, s))
  {
    hide Owned;
    if s.Begin? {
      FreshRunOwns(w.runs, w.rows, s.r, Run(s.wallet, s.req, AtLookup, FeeQuote(0, 0, 0), None));
    }
  }
}
