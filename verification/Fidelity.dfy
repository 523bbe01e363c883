/** Replacement fidelity, under the guard: a poll resends only what a run of the same row
    already sent under that nonce. */
module Fidelity {
  import opened Base
  import opened Fees
  import opened Lifecycle
  import opened KeySafety
  import opened RowSafety
  import opened Ownership

  /** Some run handed the RPC a transaction with this nonce for this row. */
  ghost predicate RunSent(sent: seq<Sent>, id: RowId, nonce: nat) {
    exists i :: 0 <= i < |sent| && sent[i].sender.ByRun? && sent[i].row == id && sent[i].tx.nonce == nonce
  }

  ghost predicate RunFaithful(run: Run, rows: map<RowId, Row>, sent: seq<Sent>) {
    && (PayloadStored(run.pc) ==>
          var id := PcRow(run.pc).value;
          id in rows && rows[id].payload.Some? && rows[id].payload.value.nonce == run.pc.nonce)
    && (run.pc.AtMarkSent? || run.pc.AtFailSend? ==> RunSent(sent, run.pc.row, run.pc.nonce))
  }

  /** The payload of a broadcasted row is a transaction a run sent for it. */
  ghost predicate RowFaithful(id: RowId, row: Row, sent: seq<Sent>) {
    row.status == Broadcasted ==> row.payload.Some? && RunSent(sent, id, row.payload.value.nonce)
  }

  ghost predicate Faithful(runs: map<RunId, Run>, rows: map<RowId, Row>, sent: seq<Sent>) {
    && (forall r :: r in runs ==> RunFaithful(runs[r], rows, sent))
    && (forall id :: id in rows ==> RowFaithful(id, rows[id], sent))
  }

  ghost predicate ResendsOnly(sent: seq<Sent>) {
    forall i :: 0 <= i < |sent| ==> RunSent(sent, sent[i].row, sent[i].tx.nonce)
  }

  /** So is the payload of a row as a poll read it, however the row has changed since. */
  ghost predicate SnapFaithful(id: RowId, row: Row, sent: seq<Sent>) {
    row.payload.Some? && RunSent(sent, id, row.payload.value.nonce)
  }

  ghost predicate PollFaithful(poller: Poller, sent: seq<Sent>) {
    && (forall id :: id in poller.todo ==> SnapFaithful(id, poller.todo[id], sent))
    && (!poller.pc.Idle? ==> SnapFaithful(poller.pc.id, poller.pc.row, sent))
  }

  ghost predicate PollsFaithful(polls: map<PollId, Poller>, sent: seq<Sent>) {
    forall p :: p in polls ==> PollFaithful(polls[p], sent)
  }

  ghost predicate FidelityInv(w: World) {
    Faithful(w.runs, w.rows, w.sent) && ResendsOnly(w.sent) && PollsFaithful(w.polls, w.sent)
  }

  lemma SentGrows(sent: seq<Sent>, more: seq<Sent>)
    ensures forall id, nonce :: RunSent(sent, id, nonce) ==> RunSent(sent + more, id, nonce)
  {
    forall id, nonce | RunSent(sent, id, nonce)
      ensures RunSent(sent + more, id, nonce)
    {
      var i :| 0 <= i < |sent| && sent[i].sender.ByRun? && sent[i].row == id && sent[i].tx.nonce == nonce;
      assert (sent + more)[i] == sent[i];
    }
  }

  lemma SentAppended(sent: seq<Sent>, e: Sent)
    requires e.sender.ByRun? || RunSent(sent, e.row, e.tx.nonce)
    ensures RunSent(sent + [e], e.row, e.tx.nonce)
    ensures ResendsOnly(sent) ==> ResendsOnly(sent + [e])
  {
    SentGrows(sent, [e]);
    assert (sent + [e])[|sent|] == e;
    forall i | ResendsOnly(sent) && 0 <= i < |sent + [e]|
      ensures RunSent(sent + [e], (sent + [e])[i].row, (sent + [e])[i].tx.nonce)
    {
      if i < |sent| {
        assert (sent + [e])[i] == sent[i];
        assert RunSent(sent, sent[i].row, sent[i].tx.nonce);
      }
    }
  }

  // -------------------------------------------------------------------------
  // Steps of a run
  // -------------------------------------------------------------------------

  /** A run's row keeps the nonce the run stored, and is marked broadcasted only by a run
      that has sent that nonce. */
  ghost predicate StoresWell(run: Run, e: Effect) {
    var pc, pc' := run.pc, e.run.pc;
    && (e.write.UpdateRow? ==>
          var u := e.write.update;
          && PcRow(pc) == Some(e.write.id)
          && (u.payload.Some? ==> pc.AtStorePayload? && u.payload.value.nonce == pc.nonce)
          && (u.status == Some(Broadcasted) ==> pc.AtMarkSent?))
    && (PayloadStored(pc') ==>
          && PcRow(pc') == PcRow(pc)
          && (if pc.AtStorePayload? then e.write.UpdateRow? && e.write.update.payload.Some? && pc'.nonce == pc.nonce
              else PayloadStored(pc) && pc'.nonce == pc.nonce))
    && (pc'.AtMarkSent? || pc'.AtFailSend? ==>
          pc'.row == PcRow(pc).value && ((e.nonce.HandOver? && pc.AtSend?) || pc.AtMarkSent? || pc.AtFailSend?))
    && (e.nonce.HandOver? ==> pc.AtSend?)
    && (e.nonce.GiveBack? || e.nonce.WalkAway? ==> Holds(pc))
  }

  lemma ActionStoresWell(run: Run, v: View, act: RunAction)
    requires PcFits(run.pc, act)
    ensures StoresWell(run, RunEffect(run, v, act))
  {
    match act
    case _ =>
  }

  lemma UpdateKeepsFaith(runs: map<RunId, Run>, rows: map<RowId, Row>, sent: seq<Sent>, r: RunId, e: Effect)
    requires Faithful(runs, rows, sent)
    requires r in runs && StoresWell(runs[r], e) && e.write.UpdateRow? && !e.nonce.HandOver?
    requires AloneOn(runs, rows, r)
    ensures Faithful(runs[r := e.run], rows[e.write.id := Merge(rows[e.write.id], e.write.update)], sent)
  {
    assert RunFaithful(runs[r], rows, sent);
    assert RowFaithful(e.write.id, rows[e.write.id], sent);
    var id := e.write.id;
    var rows' := rows[id := Merge(rows[id], e.write.update)];
    forall q | q in runs && q != r
      ensures RunFaithful(runs[q], rows', sent)
    {
      assert RunFaithful(runs[q], rows, sent);
    }
    forall i | i in rows'
      ensures RowFaithful(i, rows'[i], sent)
    {
      assert RowFaithful(i, rows[i], sent);
    }
  }

  lemma MoveKeepsFaith(runs: map<RunId, Run>, rows: map<RowId, Row>, sent: seq<Sent>, r: RunId, e: Effect)
    requires Faithful(runs, rows, sent)
    requires r in runs && StoresWell(runs[r], e) && e.write.NoWrite? && !e.nonce.HandOver?
    ensures Faithful(runs[r := e.run], rows, sent)
  {
    assert RunFaithful(runs[r], rows, sent);
  }

  lemma InsertKeepsFaith(runs: map<RunId, Run>, rows: map<RowId, Row>, sent: seq<Sent>, r: RunId, run': Run, id: RowId,
                         row: Row)
    requires Faithful(runs, rows, sent) && id !in rows && run'.pc == AtReserve(id) && row.status == Pending
    ensures Faithful(runs[r := run'], rows[id := row], sent)
  {
    var rows' := rows[id := row];
    forall q | q in runs
      ensures RunFaithful(runs[q], rows', sent)
    {
      assert RunFaithful(runs[q], rows, sent);
    }
    forall i | i in rows'
      ensures RowFaithful(i, rows'[i], sent)
    {
      if i in rows {
        assert RowFaithful(i, rows[i], sent);
      }
    }
  }

  lemma SendKeepsFaith(runs: map<RunId, Run>, rows: map<RowId, Row>, sent: seq<Sent>, r: RunId, e: Effect)
    requires Faithful(runs, rows, sent) && ResendsOnly(sent)
    requires r in runs && StoresWell(runs[r], e) && e.nonce.HandOver? && e.write.NoWrite?
    ensures Faithful(runs[r := e.run], rows, sent + [HandedOver(r, runs[r])])
              && ResendsOnly(sent + [HandedOver(r, runs[r])])
  {
    assert RunFaithful(runs[r], rows, sent);
    SentGrows(sent, [HandedOver(r, runs[r])]);
    SentAppended(sent, HandedOver(r, runs[r]));
    LogKeepsFaith(runs, rows, sent, HandedOver(r, runs[r]));
  }

  lemma LogKeepsFaith(runs: map<RunId, Run>, rows: map<RowId, Row>, sent: seq<Sent>, e: Sent)
    requires Faithful(runs, rows, sent)
    ensures Faithful(runs, rows, sent + [e])
  {
    SentGrows(sent, [e]);
    forall q | q in runs
      ensures RunFaithful(runs[q], rows, sent + [e])
    {
      assert RunFaithful(runs[q], rows, sent);
    }
    forall i | i in rows
      ensures RowFaithful(i, rows[i], sent + [e])
    {
      assert RowFaithful(i, rows[i], sent);
    }
  }

  lemma PollsStayFaithful(polls: map<PollId, Poller>, sent: seq<Sent>, e: Sent)
    requires PollsFaithful(polls, sent)
    ensures PollsFaithful(polls, sent + [e])
  {
    SentGrows(sent, [e]);
    hide RunSent;
    forall p | p in polls
      ensures PollFaithful(polls[p], sent + [e])
    {
      assert PollFaithful(polls[p], sent);
    }
  }

  lemma SendWritesNothing(run: Run, v: View, act: RunAction)
    requires PcFits(run.pc, act)
    ensures RunEffect(run, v, act).nonce.HandOver? ==> RunEffect(run, v, act).write.NoWrite?
    ensures RunEffect(run, v, act).write.InsertRow? ==>
              RunEffect(run, v, act).run.pc == AtReserve(RunEffect(run, v, act).write.id)
  {
    match act
    case _ =>
  }

  lemma EffectKeepsFaith(w: World, r: RunId, e: Effect)
    requires FidelityInv(w) && r in w.runs
    requires e.nonce.GiveBack? || e.nonce.HandOver? || e.nonce.WalkAway? ==> Holds(w.runs[r].pc)
    requires StoresWell(w.runs[r], e) && (e.nonce.HandOver? ==> e.write.NoWrite?)
    requires e.write.InsertRow? ==> e.write.id !in w.rows && e.run.pc == AtReserve(e.write.id)
    requires e.write.UpdateRow? ==> AloneOn(w.runs, w.rows, r)
    ensures FidelityInv(ApplyRun(w, r, e))
  {
    hide Key, Faithful, ResendsOnly, PollsFaithful, NewRow, StoresWell, HandedOver;
    match e.write
    case NoWrite =>
      if e.nonce.HandOver? {
        SendKeepsFaith(w.runs, w.rows, w.sent, r, e);
        PollsStayFaithful(w.polls, w.sent, HandedOver(r, w.runs[r]));
      } else {
        MoveKeepsFaith(w.runs, w.rows, w.sent, r, e);
      }
    case InsertRow(id) =>
      NewRowPending(w.runs[r]);
      InsertKeepsFaith(w.runs, w.rows, w.sent, r, e.run, id, NewRow(w.runs[r]));
    case UpdateRow(id, u) =>
      OwnWrite(w.runs[r], e);
      UpdateKeepsFaith(w.runs, w.rows, w.sent, r, e);
  }

  lemma OwnWrite(run: Run, e: Effect)
    requires StoresWell(run, e) && e.write.UpdateRow?
    ensures PcRow(run.pc) == Some(e.write.id)
  {
  }

  lemma RunStepFaith(w: World, r: RunId, act: RunAction)
    requires OwnInv(w) && FidelityInv(w) && RunAt(w, r, act) && StepGuarded(w, Do(r, act))
    ensures FidelityInv(Next(w, Do(r, act)))
  {
    hide Key, FidelityInv, RunEffect, ApplyRun, FindByKey, OwnInv, StepGuarded, OwnsWell, AloneOn;
    var run := w.runs[r];
    var v := ViewOf(w, run, act);
    var e := RunEffect(run, v, act);
    ActionStoresWell(run, v, act);
    ActionKeepsRequest(run, v, act);
    SendWritesNothing(run, v, act);
    if e.write.UpdateRow? {
      ActionOwnsWell(run, v, act);
      WriterAlone(w, r, act);
    }
    hide StoresWell;
    EffectKeepsFaith(w, r, e);
  }

  // -------------------------------------------------------------------------
  // Steps of a poll
  // -------------------------------------------------------------------------

  lemma WriteKeepsFaith(runs: map<RunId, Run>, rows: map<RowId, Row>, sent: seq<Sent>, id: RowId, u: RowUpdate)
    requires Owned(runs, rows) && Faithful(runs, rows, sent)
    requires id in rows && rows[id].status == Broadcasted && u.payload.None?
    ensures Faithful(runs, rows[id := Merge(rows[id], u)], sent)
  {
    assert RowFaithful(id, rows[id], sent);
    var rows' := rows[id := Merge(rows[id], u)];
    forall q | q in runs
      ensures RunFaithful(runs[q], rows', sent)
    {
      assert RunFaithful(runs[q], rows, sent);
    }
    forall i | i in rows'
      ensures RowFaithful(i, rows'[i], sent)
    {
      assert RowFaithful(i, rows[i], sent);
    }
  }

  /** Where a poll goes, its rows stay faithful. */
  lemma MoveStaysFaithful(poller: Poller, e: MonitorEffect, sent: seq<Sent>)
    requires PollFaithful(poller, sent) && PollsWell(poller, e)
    ensures PollFaithful(e.poller, sent)
  {
    hide RunSent;
  }

  lemma PollStepFaith(w: World, p: PollId, act: PollAction)
    requires RowInv(w) && OwnInv(w) && FidelityInv(w) && PollAt(w, p, act) && StepGuarded(w, Monitor(p, act))
    ensures FidelityInv(Next(w, Monitor(p, act)))
  {
    hide RowsGood, PcGood, OutcomeGood, EventGood, Owned, Faithful, ResendsOnly, PollFaithful, PollEffect, PollsWell,
        Merge, Carries;
    var poller := w.polls[p];
    var e := PollEffect(w.config, poller, act);
    assert PollGood(w, poller);
    MonitorWellShaped(w.config, poller, act);
    MonitorOwnsWell(w.config, poller, act);
    WritesOrSends(poller, e);
    MoveStaysFaithful(poller, e, w.sent);
    hide PollGood, RowInv;
    var polls' := w.polls[p := e.poller];
    assert PollsFaithful(polls', w.sent);
    hide PollsFaithful;
    if e.write.Some? {
      WriteKeepsFaith(w.runs, w.rows, w.sent, poller.pc.id, poller.pc.update);
    } else if e.send.Some? {
      var event := Sent(ByPoll(p), Slot(poller.pc.row.wallet, poller.pc.row.chain), poller.pc.id, poller.pc.tx,
                        poller.pc.hash);
      ResendFaithful(poller, w.sent, event);
      SentAppended(w.sent, event);
      LogKeepsFaith(w.runs, w.rows, w.sent, event);
      PollsStayFaithful(polls', w.sent, event);
    }
  }

  lemma ResendFaithful(poller: Poller, sent: seq<Sent>, e: Sent)
    requires PollFaithful(poller, sent) && poller.pc.AtBumpSend? && Replaces(poller.pc.tx, poller.pc.row)
    requires e.row == poller.pc.id && e.tx == poller.pc.tx
    ensures RunSent(sent, e.row, e.tx.nonce)
  {
    hide RunSent;
  }

  lemma WritesOrSends(poller: Poller, e: MonitorEffect)
    requires PollsWell(poller, e)
    ensures e.write.Some? ==> poller.pc.AtWrite? && e.send.None?
    ensures e.write.Some? ==> e.write.value.id == poller.pc.id && e.write.value.update == poller.pc.update
    ensures e.send.Some? ==> poller.pc.AtBumpSend?
    ensures e.send.Some? ==> e.send.value == PollSend(poller.pc.id, poller.pc.row, poller.pc.tx, poller.pc.hash)
  {
  }

  lemma SnapshotFaithful(runs: map<RunId, Run>, rows: map<RowId, Row>, sent: seq<Sent>)
    requires Faithful(runs, rows, sent)
    ensures PollFaithful(Poller(FindBroadcasted(rows), Idle), sent)
  {
    forall id | id in FindBroadcasted(rows)
      ensures SnapFaithful(id, rows[id], sent)
    {
      assert RowFaithful(id, rows[id], sent);
    }
  }

  lemma FrameStepFaith(w: World, s: Step)
    requires FidelityInv(w) && !s.Do? && !s.Monitor?
    ensures FidelityInv(Next(w, s))
  {
    hide Faithful, ResendsOnly, PollFaithful, SkippedNonces;
    match s
    case StartPoll(p) => SnapshotFaithful(w.runs, w.rows, w.sent);
    case Begin(r, wallet, req) =>
      FreshRunFaith(w.runs, w.rows, w.sent, r, Run(wallet, req, AtLookup, FeeQuote(0, 0, 0), None));
    case _ =>
  }

  lemma FaithStep(w: World, s: Step)
    requires RowInv(w) && OwnInv(w) && FidelityInv(w) && StepGuarded(w, s)
    ensures FidelityInv(Next(w, s))
  {
    hide RowInv, OwnInv, FidelityInv, StepGuarded;
    match s
    case Do(r, act) =>
      if RunAt(w, r, act) {
        RunStepFaith(w, r, act);
      }
    case Monitor(p, act) =>
      if PollAt(w, p, act) {
        PollStepFaith(w, p, act);
      }
    case _ => FrameStepFaith(w, s);
  }

  lemma FreshRunFaith(runs: map<RunId, Run>, rows: map<RowId, Row>, sent: seq<Sent>, r: RunId, run: Run)
    requires Faithful(runs, rows, sent) && run.pc.AtLookup?
    ensures Faithful(runs[r := run], rows, sent)
  {
  }
}
