/** Assumptions A (the failed-row reset is atomic) and B (one poll at a time) imply the guards:
    every reset finds its row still failed, and every poll its rows as it read them. */
module Discipline {
  import opened Fees
  import opened Lifecycle
  import opened KeySafety
  import opened Ownership

  /** At most one run is about to reset, and its row has failed. */
  ghost predicate ResetReady(runs: map<RunId, Run>, rows: map<RowId, Row>) {
    && (forall r :: r in runs && runs[r].pc.AtReset? ==>
          runs[r].pc.row in rows && rows[runs[r].pc.row].status == Failed)
    && (forall q, r :: q in runs && r in runs && runs[q].pc.AtReset? && runs[r].pc.AtReset? ==> q == r)
  }

  /** The rows a poll has left, and the one it is working on, are as it read them. */
  ghost predicate PollOwns(poller: Poller, rows: map<RowId, Row>) {
    && (forall id :: id in poller.todo ==> Current(rows, id, poller.todo[id]))
    && (!poller.pc.Idle? ==> Current(rows, poller.pc.id, poller.pc.row) && poller.pc.id !in poller.todo)
  }

  ghost predicate Polled(polls: map<PollId, Poller>, rows: map<RowId, Row>) {
    && (forall p, q :: p in polls && q in polls ==> p == q)
    && (forall p :: p in polls ==> PollOwns(polls[p], rows))
  }

  ghost predicate DisciplineInv(w: World) {
    ResetReady(w.runs, w.rows) && Polled(w.polls, w.rows)
  }

  lemma InvGuards(w: World, s: Step)
    requires DisciplineInv(w)
    ensures StepGuarded(w, s) && StepCounted(w, s)
  {
    if s.Monitor? && s.p in w.polls {
      assert PollOwns(w.polls[s.p], w.rows);
    }
  }

  // -------------------------------------------------------------------------
  // Steps of a run
  // -------------------------------------------------------------------------

  /** Only finding a failed row takes a run to its reset, and nothing is written meanwhile. */
  lemma FindingResets(run: Run, v: View, act: RunAction)
    requires PcFits(run.pc, act)
    ensures var e := RunEffect(run, v, act);
            e.run.pc.AtReset? ==>
              act.FindRaced? && e.write.NoWrite?
              && v.found.Some? && v.found.value.row.status == Failed && e.run.pc.row == v.found.value.id
  {
    match act
    case _ =>
  }

  lemma EffectReady(w: World, r: RunId, v: View, e: Effect)
    requires ResetReady(w.runs, w.rows) && r in w.runs && v.found == FindByKey(w, Key(w.runs[r]))
    requires e.nonce.GiveBack? || e.nonce.HandOver? || e.nonce.WalkAway? ==> Holds(w.runs[r].pc)
    requires forall q :: q in w.runs && q != r ==> !w.runs[q].pc.AtReset?
    requires e.run.pc.AtReset? ==>
               e.write.NoWrite? && v.found.Some? && v.found.value.row.status == Failed
                   && e.run.pc.row == v.found.value.id
    ensures var w' := ApplyRun(w, r, e); ResetReady(w'.runs, w'.rows)
  {
    hide Key, NewRow, Merge;
  }

  lemma RunStepReady(w: World, r: RunId, act: RunAction)
    requires ResetReady(w.runs, w.rows) && RunAt(w, r, act) && ResetAtomic(w, Do(r, act))
    ensures var w' := Next(w, Do(r, act)); ResetReady(w'.runs, w'.rows)
  {
    hide Key, RunEffect, ApplyRun, FindByKey;
    var v := ViewOf(w, w.runs[r], act);
    FindingResets(w.runs[r], v, act);
    EffectReady(w, r, v, RunEffect(w.runs[r], v, act));
    hide ResetReady;
  }

  /** A run writes no row that a poll may have read. */
  lemma WritesUnpolled(polls: map<PollId, Poller>, rows: map<RowId, Row>, id: RowId, row: Row)
    requires Polled(polls, rows) && (id in rows ==> rows[id].status != Broadcasted)
    ensures Polled(polls, rows[id := row])
  {
    forall p | p in polls
      ensures PollOwns(polls[p], rows[id := row])
    {
      assert PollOwns(polls[p], rows);
      assert forall i, was :: Current(rows, i, was) ==> Current(rows[id := row], i, was);
    }
  }

  lemma EffectPolled(w: World, r: RunId, e: Effect)
    requires Polled(w.polls, w.rows) && r in w.runs
    requires e.nonce.GiveBack? || e.nonce.HandOver? || e.nonce.WalkAway? ==> Holds(w.runs[r].pc)
    requires e.write.InsertRow? ==> e.write.id !in w.rows
    requires e.write.UpdateRow? ==> e.write.id in w.rows && w.rows[e.write.id].status != Broadcasted
    ensures var w' := ApplyRun(w, r, e); Polled(w'.polls, w'.rows)
  {
    hide Key, Polled, NewRow, Merge;
    match e.write
    case NoWrite =>
    case InsertRow(id) => WritesUnpolled(w.polls, w.rows, id, NewRow(w.runs[r]));
    case UpdateRow(id, u) => WritesUnpolled(w.polls, w.rows, id, Merge(w.rows[id], u));
  }

  lemma RunStepPolled(w: World, r: RunId, act: RunAction)
    requires OwnInv(w) && DisciplineInv(w) && RunAt(w, r, act)
    ensures var w' := Next(w, Do(r, act)); Polled(w'.polls, w'.rows)
  {
    hide Key, RunEffect, ApplyRun, Polled, ResetReady, OwnInv, StepGuarded;
    var v := ViewOf(w, w.runs[r], act);
    var e := RunEffect(w.runs[r], v, act);
    ActionOwnsWell(w.runs[r], v, act);
    ActionKeepsRequest(w.runs[r], v, act);
    if e.write.UpdateRow? {
      InvGuards(w, Do(r, act));
      WriterAlone(w, r, act);
      NotPolled(w, r, e);
    }
    hide AloneOn, OwnsWell;
    EffectPolled(w, r, e);
  }

  lemma NotPolled(w: World, r: RunId, e: Effect)
    requires r in w.runs && e.write.UpdateRow? && OwnsWell(w.runs[r], e) && AloneOn(w.runs, w.rows, r)
    ensures e.write.id in w.rows && w.rows[e.write.id].status != Broadcasted
  {
  }

  // -------------------------------------------------------------------------
  // Steps of a poll
  // -------------------------------------------------------------------------

  /** A poll picks from its list, stays on its row until it goes idle, and writes that row when
      it does. */
  ghost predicate PollMoves(poller: Poller, e: MonitorEffect) {
    var pc, pc' := poller.pc, e.poller.pc;
    && (if pc.Idle?
        then !pc'.Idle? && pc'.id in poller.todo && pc'.row == poller.todo[pc'.id]
            && e.poller.todo == poller.todo - {pc'.id}
        else e.poller.todo == poller.todo && (!pc'.Idle? ==> pc'.id == pc.id && pc'.row == pc.row))
    && (e.write.Some? ==> !pc.Idle? && pc'.Idle? && e.write.value.id == pc.id)
  }

  lemma MonitorMoves(config: Config, poller: Poller, act: PollAction)
    requires PollFits(poller, act)
    ensures PollMoves(poller, PollEffect(config, poller, act))
  {
    hide ReplacementTx, BumpQuote;
    match act
    case _ =>
  }

  lemma PollKeepsOwn(poller: Poller, rows: map<RowId, Row>, e: MonitorEffect)
    requires PollOwns(poller, rows) && PollMoves(poller, e)
    ensures e.write.Some? ==> e.write.value.id in rows
    ensures PollOwns(e.poller,
                     if e.write.Some? then rows[e.write.value.id := Merge(rows[e.write.value.id], e.write.value.update)]
                         else rows)
  {
    hide Merge;
  }

  lemma PollStepPolled(w: World, p: PollId, act: PollAction)
    requires Polled(w.polls, w.rows) && PollAt(w, p, act)
    ensures var w' := Next(w, Monitor(p, act)); Polled(w'.polls, w'.rows)
  {
    hide PollEffect, Merge, PollOwns;
    MonitorMoves(w.config, w.polls[p], act);
    PollKeepsOwn(w.polls[p], w.rows, PollEffect(w.config, w.polls[p], act));
  }

  /** A poll that may step at all, while nobody is about to reset, leaves it that way. */
  lemma PollStepReady(w: World, p: PollId, act: PollAction)
    requires PollAt(w, p, act) && ResetAtomic(w, Monitor(p, act))
    ensures var w' := Next(w, Monitor(p, act)); ResetReady(w'.runs, w'.rows)
  {
    hide PollEffect, Merge;
    assert forall r :: r in w.runs ==> !w.runs[r].pc.AtReset?;
  }

  // -------------------------------------------------------------------------
  // All steps
  // -------------------------------------------------------------------------

  lemma StartPolled(rows: map<RowId, Row>)
    ensures PollOwns(Poller(FindBroadcasted(rows), Idle), rows)
  {
  }

  lemma FrameStepDisciplined(w: World, s: Step)
    requires DisciplineInv(w) && PollAlone(w, s) && !s.Do? && !s.Monitor?
    ensures DisciplineInv(Next(w, s))
  {
    hide PollOwns;
    if s.StartPoll? {
      StartPolled(w.rows);
    }
  }

  lemma DisciplineStep(w: World, s: Step)
    requires OwnInv(w) && DisciplineInv(w) && StepDisciplined(w, s)
    ensures DisciplineInv(Next(w, s))
  {
    hide OwnInv, ResetReady, Polled, PollAlone, ResetAtomic;
    match s
    case Do(r, act) =>
      if RunAt(w, r, act) {
        RunStepReady(w, r, act);
        RunStepPolled(w, r, act);
      }
    case Monitor(p, act) =>
      if PollAt(w, p, act) {
        PollStepReady(w, p, act);
        PollStepPolled(w, p, act);
      }
    case _ => FrameStepDisciplined(w, s);
  }

  lemma {:induction false} DisciplinedGuarded(w: World, steps: seq<Step>)
    requires OwnInv(w) && DisciplineInv(w) && Disciplined(w, steps)
    ensures Guarded(w, steps) && Counted(w, steps) && DisciplineInv(Exec(w, steps))
    decreases |steps|
  {
    hide OwnInv, DisciplineInv, Next, StepDisciplined, StepGuarded, StepCounted;
    if steps != [] {
      InvGuards(w, steps[0]);
      OwnStep(w, steps[0]);
      DisciplineStep(w, steps[0]);
      DisciplinedGuarded(Next(w, steps[0]), steps[1..]);
    }
  }

  /** A run of the system that keeps to A and B keeps to both guards, so every law of the guarded
      and of the counted system holds under A and B. */
  lemma {:induction false} AssumptionsGuard(config: Config, steps: seq<Step>)
    requires Disciplined(Init(config), steps)
    ensures Guarded(Init(config), steps) && Counted(Init(config), steps)
  {
    DisciplinedGuarded(Init(config), steps);
  }
}
