/** The speed-up budget. In every interleaving no row has more attempts than the maximum. The
    attempts count the recorded replacements, and the original hash stays, as long as each
    replacement is recorded on a row with as many attempts as the poll read. */
module Budget {
  import opened Base
  import opened Fees
  import opened Lifecycle
  import opened KeySafety
  import opened RowSafety

  /** What a poll decided after it found the row in the mempool. */
  ghost predicate PollBudget(pc: PollPc, max: nat) {
    && (pc.AtContext? || pc.AtQuote? || pc.AtBumpSign? || pc.AtBumpSend? ==> pc.row.attempts < max)
    && (pc.AtWrite? ==>
          if pc.bumped then pc.row.attempts < max && IsReplacement(pc.row, pc.update)
          else pc.update.attempts.None? && pc.update.originalHash.None? && EndsBroadcast(pc.update))
  }

  predicate IsReplacement(row: Row, u: RowUpdate) {
    u.hash.Some? && u == ReplacementUpdate(row, u.hash.value)
  }

  predicate EndsBroadcast(u: RowUpdate) {
    u.status.Some? && u.status != Some(Broadcasted)
  }

  ghost predicate PollsBudgeted(polls: map<PollId, Poller>, max: nat) {
    forall p :: p in polls ==> PollBudget(polls[p].pc, max)
  }

  ghost predicate WithinMax(rows: map<RowId, Row>, max: nat) {
    forall id :: id in rows ==> rows[id].attempts <= max
  }

  ghost predicate BudgetInv(w: World) {
    WithinMax(w.rows, w.config.maxAttempts) && PollsBudgeted(w.polls, w.config.maxAttempts)
  }

  /** The attempts of a row are the replacements recorded on it. */
  ghost predicate Counts(rows: map<RowId, Row>, recorded: map<RowId, nat>) {
    forall id :: id in rows ==> id in recorded && rows[id].attempts == recorded[id]
  }

  // -------------------------------------------------------------------------
  // The steps that record no replacement
  // -------------------------------------------------------------------------

  /** The step is the stored write of a replacement into an existing row. */
  predicate Records(w: World, s: Step) {
    s.Monitor? && s.does == OnWrite(true) && PollAt(w, s.p, s.does) && w.polls[s.p].pc.bumped
        && w.polls[s.p].pc.id in w.rows
  }

  /** Rows keep their attempts, counts and original hashes, and new rows have none. */
  ghost predicate Untouched(rows: map<RowId, Row>, recorded: map<RowId, nat>,
                            rows': map<RowId, Row>, recorded': map<RowId, nat>)
  {
    && (forall id :: id in rows ==>
          id in rows' && rows'[id].attempts == rows[id].attempts && rows'[id].originalHash == rows[id].originalHash)
    && (forall id :: id in rows' && id !in rows ==>
          id in recorded' && recorded'[id] == rows'[id].attempts == 0 && rows'[id].originalHash.None?)
    && (forall id :: id in rows && id in recorded ==> id in recorded' && recorded'[id] == recorded[id])
  }

  lemma Unchanged(rows: map<RowId, Row>, recorded: map<RowId, nat>)
    ensures Untouched(rows, recorded, rows, recorded)
  {
  }

  lemma UpdateLeavesBudget(rows: map<RowId, Row>, recorded: map<RowId, nat>, id: RowId, u: RowUpdate)
    requires id in rows && u.attempts.None? && u.originalHash.None?
    ensures Untouched(rows, recorded, rows[id := Merge(rows[id], u)], recorded)
  {
  }

  lemma InsertLeavesBudget(rows: map<RowId, Row>, recorded: map<RowId, nat>, id: RowId, run: Run)
    requires id !in rows
    ensures Untouched(rows, recorded, rows[id := NewRow(run)], recorded[id := 0])
  {
    hide Key;
  }

  /** A run never writes the speed-up columns. */
  lemma ActionLeavesBudget(run: Run, v: View, act: RunAction)
    requires PcFits(run.pc, act)
    ensures var e := RunEffect(run, v, act);
            e.write.UpdateRow? ==> e.write.update.attempts.None? && e.write.update.originalHash.None?
  {
    match act
    case _ =>
  }

  lemma RunLeavesBudget(w: World, r: RunId, act: RunAction)
    requires RunAt(w, r, act)
    ensures Untouched(w.rows, w.recorded, Next(w, Do(r, act)).rows, Next(w, Do(r, act)).recorded)
  {
    hide Key, Untouched, NewRow, RunEffect, Merge;
    var run := w.runs[r];
    var v := ViewOf(w, run, act);
    var e := RunEffect(run, v, act);
    ActionLeavesBudget(run, v, act);
    ActionKeepsRequest(run, v, act);
    Unchanged(w.rows, w.recorded);
    match e.write
    case NoWrite =>
    case InsertRow(id) => InsertLeavesBudget(w.rows, w.recorded, id, run);
    case UpdateRow(id, u) =>
      if id in w.rows {
        UpdateLeavesBudget(w.rows, w.recorded, id, u);
      }
  }

  lemma MonitorBudget(config: Config, poller: Poller, act: PollAction)
    requires PollFits(poller, act) && PollBudget(poller.pc, config.maxAttempts)
    ensures var e := PollEffect(config, poller, act);
            && PollBudget(e.poller.pc, config.maxAttempts)
            && (e.write.Some? ==> act == OnWrite(true) && e.write.value == WriteOf(poller.pc))
  {
    hide ReplacementTx, BumpQuote;
    match act
    case _ =>
  }

  function WriteOf(pc: PollPc): PollWrite
    requires pc.AtWrite?
  {
    PollWrite(pc.id, pc.update, pc.bumped)
  }

  lemma PollLeavesBudget(w: World, p: PollId, act: PollAction)
    requires BudgetInv(w) && PollAt(w, p, act) && !Records(w, Monitor(p, act))
    ensures Untouched(w.rows, w.recorded, Next(w, Monitor(p, act)).rows, Next(w, Monitor(p, act)).recorded)
  {
    hide Untouched, PollEffect, Merge, IsReplacement, EndsBroadcast, WithinMax;
    var poller := w.polls[p];
    MonitorBudget(w.config, poller, act);
    Unchanged(w.rows, w.recorded);
    if act == OnWrite(true) && poller.pc.id in w.rows {
      UpdateLeavesBudget(w.rows, w.recorded, poller.pc.id, poller.pc.update);
    }
  }

  lemma StepLeavesBudget(w: World, s: Step)
    requires BudgetInv(w) && !Records(w, s)
    ensures Untouched(w.rows, w.recorded, Next(w, s).rows, Next(w, s).recorded)
  {
    hide Untouched, BudgetInv;
    Unchanged(w.rows, w.recorded);
    match s
    case Do(r, act) =>
      if RunAt(w, r, act) {
        RunLeavesBudget(w, r, act);
      }
    case Monitor(p, act) =>
      if PollAt(w, p, act) {
        PollLeavesBudget(w, p, act);
      }
    case _ => hide SkippedNonces, FindBroadcasted;
  }

  // -------------------------------------------------------------------------
  // The step that records one
  // -------------------------------------------------------------------------

  lemma RecordShape(w: World, p: PollId)
    requires BudgetInv(w) && Records(w, Monitor(p, OnWrite(true)))
    ensures var w', pc := Next(w, Monitor(p, OnWrite(true))), w.polls[p].pc;
            && pc.row.attempts < w.config.maxAttempts && IsReplacement(pc.row, pc.update)
            && w'.rows == w.rows[pc.id := Merge(w.rows[pc.id], pc.update)]
            && w'.recorded == Bumped(w.recorded, pc.id)
  {
    hide Merge, Bumped, IsReplacement;
    assert PollBudget(w.polls[p].pc, w.config.maxAttempts);
  }

  // -------------------------------------------------------------------------
  // All steps
  // -------------------------------------------------------------------------

  lemma PollsStayBudgeted(w: World, s: Step)
    requires BudgetInv(w)
    ensures PollsBudgeted(Next(w, s).polls, w.config.maxAttempts)
  {
    hide PollBudget, PollEffect, RunEffect, ViewOf, NoncesAfter, RowsAfter, FateAfter, FailedAfter, Merge, Bumped;
    if s.Monitor? && PollAt(w, s.p, s.does) {
      MonitorBudget(w.config, w.polls[s.p], s.does);
    }
    IdleBudget(w.config.maxAttempts);
  }

  lemma IdleBudget(max: nat)
    ensures PollBudget(Idle, max)
  {
  }

  /** Without any assumption no row exceeds the budget. */
  lemma BudgetStep(w: World, s: Step)
    requires BudgetInv(w)
    ensures BudgetInv(Next(w, s))
  {
    hide Next, PollsBudgeted;
    ConfigStep(w, s);
    PollsStayBudgeted(w, s);
    if Records(w, s) {
      RecordShape(w, s.p);
    } else {
      StepLeavesBudget(w, s);
    }
    hide Records;
  }

  /** The count stays exact if and only if the replacement is recorded on a row with as many
      attempts as were read. */
  lemma CountsStepExactly(w: World, s: Step)
    requires BudgetInv(w) && Counts(w.rows, w.recorded)
    ensures Counts(Next(w, s).rows, Next(w, s).recorded) <==> StepCounted(w, s)
  {
    hide Next;
    if Records(w, s) {
      RecordShape(w, s.p);
      var id := w.polls[s.p].pc.id;
      assert Counts(Next(w, s).rows, Next(w, s).recorded) ==> Next(w, s).rows[id].attempts == Next(w, s).recorded[id];
    } else {
      hide BudgetInv, WithinMax, PollsBudgeted;
      StepLeavesBudget(w, s);
    }
  }

  // -------------------------------------------------------------------------
  // The original hash
  // -------------------------------------------------------------------------

  /** A hash recorded as the original stays the original. */
  predicate OriginalKept(row: Row, row': Row) {
    row.originalHash.Some? ==> row'.originalHash == row.originalHash
  }

  ghost predicate OriginalsKept(rows: map<RowId, Row>, rows': map<RowId, Row>) {
    forall id :: id in rows ==> id in rows' && OriginalKept(rows[id], rows'[id])
  }

  /** The original hash comes with the first attempt. */
  predicate OriginalSince(row: Row) {
    row.originalHash.Some? <==> row.attempts > 0
  }

  /** The row as it was read has the original hash the row still has. */
  predicate SnapOriginal(rows: map<RowId, Row>, id: RowId, row: Row) {
    OriginalSince(row) && id in rows && OriginalKept(row, rows[id])
  }

  ghost predicate PollOriginal(rows: map<RowId, Row>, poller: Poller) {
    && (forall id :: id in poller.todo ==> SnapOriginal(rows, id, poller.todo[id]))
    && (!poller.pc.Idle? ==> SnapOriginal(rows, poller.pc.id, poller.pc.row))
  }

  ghost predicate OriginalInv(w: World) {
    && (forall id :: id in w.rows ==> OriginalSince(w.rows[id]))
    && (forall p :: p in w.polls ==> PollOriginal(w.rows, w.polls[p]))
  }

  /** Polls rely on nothing that such a change of the rows takes away. */
  lemma PollsStayOriginal(rows: map<RowId, Row>, rows': map<RowId, Row>, polls: map<PollId, Poller>)
    requires OriginalsKept(rows, rows') && forall p :: p in polls ==> PollOriginal(rows, polls[p])
    ensures forall p :: p in polls ==> PollOriginal(rows', polls[p])
  {
    hide OriginalSince;
    forall p | p in polls
      ensures PollOriginal(rows', polls[p])
    {
      assert PollOriginal(rows, polls[p]);
      assert forall id, row :: SnapOriginal(rows, id, row) ==> SnapOriginal(rows', id, row);
    }
  }

  /** The step keeps every original hash. */
  lemma StepKeepsOriginals(w: World, s: Step)
    requires RowInv(w) && BudgetInv(w) && OriginalInv(w) && StepCounted(w, s)
    ensures OriginalsKept(w.rows, Next(w, s).rows)
    ensures forall id :: id in Next(w, s).rows ==> OriginalSince(Next(w, s).rows[id])
  {
    hide Next, RowInv, BudgetInv;
    if Records(w, s) {
      RecordShape(w, s.p);
      SnapshotHashed(w, s.p);
      assert PollOriginal(w.rows, w.polls[s.p]);
    } else {
      StepLeavesBudget(w, s);
    }
  }

  lemma SnapshotHashed(w: World, p: PollId)
    requires RowInv(w) && p in w.polls && !w.polls[p].pc.Idle?
    ensures w.polls[p].pc.row.payload.Some? && w.polls[p].pc.row.hash.Some?
  {
    hide PcGood, OutcomeGood, EventGood, RowsGood;
    assert PollGood(w, w.polls[p]);
  }

  /** Where a poll goes, what it read stays as it was read. */
  lemma PollerStaysOriginal(rows: map<RowId, Row>, config: Config, poller: Poller, act: PollAction)
    requires PollFits(poller, act) && PollOriginal(rows, poller)
    ensures PollOriginal(rows, PollEffect(config, poller, act).poller)
  {
    hide SnapOriginal, ReplacementTx, BumpQuote;
    match act
    case _ =>
  }

  lemma NewPollsOriginal(w: World, s: Step)
    requires OriginalInv(w)
    ensures forall p :: p in Next(w, s).polls ==> PollOriginal(w.rows, Next(w, s).polls[p])
  {
    hide PollOriginal, PollEffect, RunEffect, ViewOf, NoncesAfter, RowsAfter, FateAfter, FailedAfter, Merge, Bumped;
    if s.Monitor? && PollAt(w, s.p, s.does) {
      PollerStaysOriginal(w.rows, w.config, w.polls[s.p], s.does);
    }
    SnapshotsOriginal(w.rows);
  }

  lemma SnapshotsOriginal(rows: map<RowId, Row>)
    requires forall id :: id in rows ==> OriginalSince(rows[id])
    ensures PollOriginal(rows, Poller(FindBroadcasted(rows), Idle))
  {
  }

  lemma OriginalStep(w: World, s: Step)
    requires RowInv(w) && BudgetInv(w) && OriginalInv(w) && StepCounted(w, s)
    ensures OriginalInv(Next(w, s)) && OriginalsKept(w.rows, Next(w, s).rows)
  {
    StepKeepsOriginals(w, s);
    NewPollsOriginal(w, s);
    hide Next, RowInv, BudgetInv, StepCounted, OriginalSince, PollOriginal;
    PollsStayOriginal(w.rows, Next(w, s).rows, Next(w, s).polls);
  }

  // -------------------------------------------------------------------------
  // Progress of one stuck pass
  // -------------------------------------------------------------------------

  /** How many answers a pass still needs before it writes. */
  function Remaining(pc: PollPc): nat {
    match pc
    case AtReceipt(_, _) => 6
    case AtMempool(_, _) => 5
    case AtContext(_, _) => 4
    case AtQuote(_, _) => 3
    case AtBumpSign(_, _, _) => 2
    case AtBumpSend(_, _, _, _) => 1
    case _ => 0
  }

  predicate QueryThrows(act: PollAction) {
    || act == OnReceipt(ReceiptError) || act == OnMempool(MempoolError)
    || act == OnContext(ContextError) || act == OnQuote(None)
  }

  /** What a stuck row is answered: no receipt although it is old enough, and nothing throws. */
  predicate StuckAnswer(act: PollAction) {
    && (act.OnReceipt? ==> act.receipt == NoReceipt(true))
    && !QueryThrows(act)
    && act != OnWrite(false)
  }

  /** From the receipt query on, a pass that is answered as for a stuck row stays on its row and
      comes at most six answers later to its write. */
  lemma StuckPassAdvances(config: Config, poller: Poller, act: PollAction)
    requires PollFits(poller, act) && Remaining(poller.pc) > 0 && poller.pc.row.payload.Some? && StuckAnswer(act)
    ensures var pc' := PollEffect(config, poller, act).poller.pc;
            && !pc'.Idle? && pc'.id == poller.pc.id && pc'.row == poller.pc.row
            && Remaining(pc') < Remaining(poller.pc)
            && (Remaining(pc') == 0 ==> pc'.AtWrite?)
  {
    hide ReplacementTx, BumpQuote;
    match act
    case _ =>
  }
}
