/** The exact conditions under which the lifecycle claims hold: when every reset and every stored
    write of a poll acts on a row that no run is at work on, and writes what that row may take.
    Each theorem is an equivalence over whole runs of the system, and the guard, so assumptions A
    and B, imply the conditions. */
module Exactness {
  import opened Base
  import opened Requests
  import opened Fees
  import opened Lifecycle
  import opened NonceSafety
  import opened KeySafety
  import opened RowSafety
  import opened Ownership
  import opened Fidelity
  import opened Discipline
  import opened Budget
  import opened BudgetLaws
  import opened LifecycleLaws

  predicate Nobody(runs: map<RunId, Run>, id: RowId) {
    forall q :: q in runs ==> OwnRow(runs[q].pc) != Some(id)
  }

  /** A reset acts on a row no other run is at work on. The run itself owns nothing yet. */
  predicate ResetAlone(w: World, s: Step) {
    match s
    case Do(r, Reset) => RunAt(w, r, Reset) ==> Nobody(w.runs, w.runs[r].pc.row)
    case _ => true
  }

  /** So does a write of a poll that is stored. */
  predicate WriteAlone(w: World, s: Step) {
    match s
    case Monitor(p, OnWrite(true)) => PollAt(w, p, OnWrite(true)) ==> Nobody(w.runs, w.polls[p].pc.id)
    case _ => true
  }

  predicate StepAlone(w: World, s: Step) {
    ResetAlone(w, s) && WriteAlone(w, s)
  }

  // -------------------------------------------------------------------------
  // One step
  // -------------------------------------------------------------------------

  const ToPending := NoChange.(status := Some(Pending))

  lemma ResetShape(w: World, r: RunId)
    requires RunAt(w, r, Reset)
    ensures var w', run := Next(w, Do(r, Reset)), w.runs[r];
            var id := run.pc.row;
            && w'.runs == w.runs[r := run.(pc := AtReserve(id), claimed := Some(id))] && w'.polls == w.polls
            && w'.rows == if id in w.rows then w.rows[id := Merge(w.rows[id], ToPending)] else w.rows
  {
    hide Key, Merge;
  }

  lemma ResetExactly(runs: map<RunId, Run>, rows: map<RowId, Row>, r: RunId, run': Run, id: RowId)
    requires Owned(runs, rows) && r in runs && runs[r].pc == AtReset(id) && id in rows && run'.pc == AtReserve(id)
    ensures Owned(runs[r := run'], rows[id := Merge(rows[id], ToPending)]) <==> Nobody(runs, id)
  {
    MergedStatus(rows[id], ToPending);
    hide Merge;
    var runs' := runs[r := run'];
    if Owned(runs', rows[id := Merge(rows[id], ToPending)]) {
      forall q | q in runs
        ensures OwnRow(runs[q].pc) != Some(id)
      {
        assert q != r ==> (Shared(runs'[q].pc, runs'[r].pc) <==> OwnRow(runs[q].pc) == Some(id));
      }
    }
  }

  lemma WriteExactly(runs: map<RunId, Run>, rows: map<RowId, Row>, id: RowId, u: RowUpdate)
    requires Owned(runs, rows) && id in rows && MonitorTarget(u)
    ensures Owned(runs, rows[id := Merge(rows[id], u)]) <==> Nobody(runs, id)
  {
    MergedStatus(rows[id], u);
    hide Merge;
  }

  lemma WriteShape(w: World, p: PollId)
    requires PollAt(w, p, OnWrite(true))
    ensures var w', poller := Next(w, Monitor(p, OnWrite(true))), w.polls[p];
            var id := poller.pc.id;
            && w'.runs == w.runs && w'.polls == w.polls[p := poller.(pc := Idle)]
            && w'.rows == if id in w.rows then w.rows[id := Merge(w.rows[id], poller.pc.update)] else w.rows
  {
    hide Merge, Bumped;
  }

  /** The row a run resets, and the row a poll writes, exist. */
  lemma RowsExist(w: World)
    requires RowInv(w)
    ensures forall r :: r in w.runs && w.runs[r].pc.AtReset? ==> w.runs[r].pc.row in w.rows
    ensures forall p :: p in w.polls && w.polls[p].pc.AtWrite? ==> w.polls[p].pc.id in w.rows
  {
    hide OutcomeGood, EventGood, RowsGood, Key, Complete, Carries;
    assert forall r :: r in w.runs ==> PcGood(w, w.runs[r]);
    assert forall p :: p in w.polls ==> PollGood(w, w.polls[p]);
  }

  /** Any other step keeps the guard trivially, so it keeps ownership and the lifecycle. */
  predicate Unchecked(w: World, s: Step) {
    match s
    case Do(r, Reset) => !RunAt(w, r, Reset)
    case Monitor(p, OnWrite(true)) => !PollAt(w, p, OnWrite(true))
    case _ => true
  }

  lemma OwnedStepExactly(w: World, s: Step)
    requires RowInv(w) && OwnInv(w)
    ensures OwnInv(Next(w, s)) <==> StepAlone(w, s)
  {
    hide RowInv, Owned, Nobody, Next, Merge, MonitorTarget;
    RowsExist(w);
    if Unchecked(w, s) {
      OwnStep(w, s);
    } else if s.Do? {
      ResetOwnsExactly(w, s.r);
    } else {
      WriteOwnsExactly(w, s.p);
    }
  }

  lemma ResetOwnsExactly(w: World, r: RunId)
    requires OwnInv(w) && RunAt(w, r, Reset) && w.runs[r].pc.row in w.rows
    ensures OwnInv(Next(w, Do(r, Reset))) <==> Nobody(w.runs, w.runs[r].pc.row)
  {
    hide Owned, Nobody, Next, Merge, WritesTarget;
    var run := w.runs[r];
    var id := run.pc.row;
    ResetShape(w, r);
    ResetExactly(w.runs, w.rows, r, run.(pc := AtReserve(id), claimed := Some(id)), id);
  }

  lemma WriteOwnsExactly(w: World, p: PollId)
    requires OwnInv(w) && PollAt(w, p, OnWrite(true)) && w.polls[p].pc.id in w.rows
    ensures OwnInv(Next(w, Monitor(p, OnWrite(true)))) <==> Nobody(w.runs, w.polls[p].pc.id)
  {
    hide Owned, Nobody, Next, Merge, MonitorTarget;
    WriteShape(w, p);
    WriteExactly(w.runs, w.rows, w.polls[p].pc.id, w.polls[p].pc.update);
  }

  // -------------------------------------------------------------------------
  // Status changes
  // -------------------------------------------------------------------------

  /** The row's status may become the one the update sets. */
  predicate MayTake(w: World, id: RowId, u: RowUpdate) {
    id in w.rows && (u.status.Some? ==> Allowed(w.rows[id].status, u.status.value))
  }

  /** The status a reset or a stored write of a poll sets is one the row may take. */
  predicate StatusFits(w: World, s: Step) {
    match s
    case Do(r, Reset) => RunAt(w, r, Reset) ==> MayTake(w, w.runs[r].pc.row, ToPending)
    case Monitor(p, OnWrite(true)) =>
      PollAt(w, p, OnWrite(true)) ==> MayTake(w, w.polls[p].pc.id, w.polls[p].pc.update)
    case _ => true
  }

  predicate StepSafe(w: World, s: Step) {
    StepAlone(w, s) && StatusFits(w, s)
  }

  lemma OneRowAllowed(w: World, w': World, id: RowId, u: RowUpdate)
    requires id in w.rows && w'.rows == w.rows[id := Merge(w.rows[id], u)]
    ensures StatusesAllowed(w, w') <==> MayTake(w, id, u)
  {
    MergedStatus(w.rows[id], u);
    hide Merge, Allowed;
    assert StatusesAllowed(w, w') ==> Allowed(w.rows[id].status, w'.rows[id].status);
    assert forall status :: Allowed(status, status);
  }

  lemma StatusesExactly(w: World, s: Step)
    requires RowInv(w) && OwnInv(w)
    ensures StatusesAllowed(w, Next(w, s)) <==> StatusFits(w, s)
  {
    hide RowInv, OwnInv, Next, Merge, MayTake, StatusesAllowed;
    RowsExist(w);
    if Unchecked(w, s) {
      OwnStep(w, s);
    } else if s.Do? {
      ResetShape(w, s.r);
      OneRowAllowed(w, Next(w, s), w.runs[s.r].pc.row, ToPending);
    } else {
      WriteShape(w, s.p);
      OneRowAllowed(w, Next(w, s), w.polls[s.p].pc.id, w.polls[s.p].pc.update);
    }
  }

  // -------------------------------------------------------------------------
  // One owner per key
  // -------------------------------------------------------------------------

  ghost predicate OneOwner(runs: map<RunId, Run>) {
    forall q, r :: q in runs && r in runs && Shared(runs[q].pc, runs[r].pc) ==> q == r
  }

  ghost predicate KeysOwnedOnce(w: World) {
    forall q, r :: Owners(w, q, r) ==> q == r
  }

  lemma OwnersByKey(w: World)
    requires KeyInv(w) && RowInv(w)
    ensures KeysOwnedOnce(w) <==> OneOwner(w.runs)
  {
    hide Shared, Key, OwnRow, KeyInv, RowInv;
    forall q, r | q in w.runs && r in w.runs
      ensures Shared(w.runs[q].pc, w.runs[r].pc) <==> Owners(w, q, r)
    {
      OwnersShare(w, q, r);
    }
  }

  lemma OwnersShare(w: World, q: RunId, r: RunId)
    requires KeyInv(w) && RowInv(w) && q in w.runs && r in w.runs
    ensures Shared(w.runs[q].pc, w.runs[r].pc) <==> Owners(w, q, r)
  {
    if OwnRow(w.runs[q].pc).Some? && OwnRow(w.runs[r].pc).Some? {
      RowsByKey(w, q, r);
    }
    hide Twins, PcRow, KeyInv, RowInv;
  }

  lemma RowsByKey(w: World, q: RunId, r: RunId)
    requires KeyInv(w) && RowInv(w) && q in w.runs && r in w.runs
    requires PcRow(w.runs[q].pc).Some? && PcRow(w.runs[r].pc).Some?
    ensures Twins(w, q, r) <==> PcRow(w.runs[q].pc) == PcRow(w.runs[r].pc)
  {
    hide Key, Preimage, ValidRequest, PollGood, EventGood, RowsGood, OutcomeGood;
    assert PcGood(w, w.runs[q]) && PcGood(w, w.runs[r]);
  }

  /** Only a reset makes a run work on a row that is not new. */
  predicate Adopts(run: Run, e: Effect) {
    OwnRow(e.run.pc).Some? && OwnRow(e.run.pc) != OwnRow(run.pc)
  }

  lemma OnlyResetAdopts(run: Run, v: View, act: RunAction)
    requires PcFits(run.pc, act)
    ensures var e := RunEffect(run, v, act);
            Adopts(run, e) ==>
              || (e.write.InsertRow? && !v.conflict && act == Insert(e.write.id)
                  && OwnRow(e.run.pc) == Some(e.write.id))
              || act == Reset
    ensures act == Reset ==>
              var e := RunEffect(run, v, act);
              e.write.UpdateRow? && OwnRow(run.pc).None? && OwnRow(e.run.pc) == Some(run.pc.row)
  {
    match act
    case _ =>
  }

  lemma OwnedRowsExist(w: World, id: RowId)
    requires RowInv(w) && id !in w.rows
    ensures Nobody(w.runs, id)
  {
    hide PollGood, EventGood, RowsGood, OutcomeGood, Key;
    assert forall q :: q in w.runs ==> PcGood(w, w.runs[q]);
  }

  /** A run that starts to work on a row is the only one if and only if nobody was at work on it. */
  lemma AdoptedExactly(runs: map<RunId, Run>, r: RunId, run': Run)
    requires OneOwner(runs) && r in runs && OwnRow(run'.pc).Some? && OwnRow(runs[r].pc) != OwnRow(run'.pc)
    ensures OneOwner(runs[r := run']) <==> Nobody(runs, OwnRow(run'.pc).value)
  {
    hide OwnRow;
    var runs' := runs[r := run'];
    if OneOwner(runs') {
      forall q | q in runs
        ensures OwnRow(runs[q].pc) != OwnRow(run'.pc)
      {
        assert q != r ==> (Shared(runs'[q].pc, runs'[r].pc) <==> OwnRow(runs[q].pc) == OwnRow(run'.pc));
      }
    }
  }

  lemma KeptOwner(runs: map<RunId, Run>, r: RunId, run': Run)
    requires OneOwner(runs) && r in runs && (OwnRow(run'.pc).Some? ==> OwnRow(runs[r].pc) == OwnRow(run'.pc))
    ensures OneOwner(runs[r := run'])
  {
    hide OwnRow;
  }

  lemma RunOwnerExactly(w: World, r: RunId, act: RunAction)
    requires RowInv(w) && OneOwner(w.runs) && RunAt(w, r, act)
    ensures OneOwner(Next(w, Do(r, act)).runs) <==> (act == Reset ==> Nobody(w.runs, w.runs[r].pc.row))
  {
    hide Key, RowInv, RunEffect, OneOwner, Nobody, NoncesAfter, RowsAfter, FateAfter, FailedAfter, OwnRow;
    var run, v := w.runs[r], ViewOf(w, w.runs[r], act);
    var e := RunEffect(run, v, act);
    OnlyResetAdopts(run, v, act);
    assert Next(w, Do(r, act)).runs == w.runs[r := e.run];
    if Adopts(run, e) {
      AdoptedExactly(w.runs, r, e.run);
      if e.write.InsertRow? {
        OwnedRowsExist(w, e.write.id);
      }
    } else {
      KeptOwner(w.runs, r, e.run);
    }
  }

  lemma OneOwnerStepExactly(w: World, s: Step)
    requires RowInv(w) && OneOwner(w.runs)
    ensures OneOwner(Next(w, s).runs) <==> ResetAlone(w, s)
  {
    hide RowInv, OneOwner, Nobody;
    if s.Do? && RunAt(w, s.r, s.act) {
      RunOwnerExactly(w, s.r, s.act);
    } else {
      OthersKeepOwners(w, s);
    }
    hide Next, RunAt;
  }

  lemma OthersKeepOwners(w: World, s: Step)
    requires OneOwner(w.runs) && !(s.Do? && RunAt(w, s.r, s.act))
    ensures OneOwner(Next(w, s).runs)
  {
    hide RunEffect, PollEffect, ViewOf, DtoValid, WalletIdValid, Merge, Bumped;
    if s.Begin? {
      hide OneOwner;
      if s.r !in w.runs {
        FreshOwnsNothing(w.runs, s.r, Run(s.wallet, s.req, AtLookup, FeeQuote(0, 0, 0), None));
      }
    }
  }

  lemma FreshOwnsNothing(runs: map<RunId, Run>, r: RunId, run: Run)
    requires OneOwner(runs) && run.pc.AtLookup?
    ensures OneOwner(runs[r := run])
  {
  }

  // -------------------------------------------------------------------------
  // Replacement fidelity
  // -------------------------------------------------------------------------

  /** A stored write of a poll that marks a row broadcasted finds in it a transaction that a run
      has sent for it. */
  ghost predicate RecordsSent(w: World, s: Step) {
    match s
    case Monitor(p, OnWrite(true)) =>
      PollAt(w, p, OnWrite(true)) && w.polls[p].pc.update.status == Some(Broadcasted) ==>
          PayloadSent(w, w.polls[p].pc.id)
    case _ => true
  }

  ghost predicate PayloadSent(w: World, id: RowId) {
    id in w.rows && w.rows[id].payload.Some? && RunSent(w.sent, id, w.rows[id].payload.value.nonce)
  }

  ghost predicate StepFaithful(w: World, s: Step) {
    StepAlone(w, s) && RecordsSent(w, s)
  }

  lemma FaithfulStepExactly(w: World, s: Step)
    requires RowInv(w) && OwnInv(w) && FidelityInv(w)
    ensures FidelityInv(Next(w, s)) <==> RecordsSent(w, s)
  {
    hide RowInv, OwnInv, FidelityInv, Next, Merge, PayloadSent;
    RowsExist(w);
    if Unchecked(w, s) {
      FaithStep(w, s);
    } else if s.Do? {
      ResetFaithful(w, s.r);
    } else {
      WriteFaithfulExactly(w, s.p);
    }
  }

  lemma SameSent(w: World, s: Step)
    requires Unchecked(w, s) == false
    ensures Next(w, s).sent == w.sent
  {
    hide Key, Merge, Bumped;
  }

  lemma ResetFaithful(w: World, r: RunId)
    requires FidelityInv(w) && RunAt(w, r, Reset) && w.runs[r].pc.row in w.rows
    ensures FidelityInv(Next(w, Do(r, Reset)))
  {
    hide Next, RunSent, ResendsOnly, PollsFaithful;
    ResetShape(w, r);
    SameSent(w, Do(r, Reset));
    forall q | q in w.runs
      ensures RunFaithful(Next(w, Do(r, Reset)).runs[q], Next(w, Do(r, Reset)).rows, w.sent)
    {
      assert RunFaithful(w.runs[q], w.rows, w.sent);
    }
    forall id | id in w.rows
      ensures RowFaithful(id, Next(w, Do(r, Reset)).rows[id], w.sent)
    {
      assert RowFaithful(id, w.rows[id], w.sent);
    }
  }

  lemma WriteFaithful(runs: map<RunId, Run>, rows: map<RowId, Row>, sent: seq<Sent>, id: RowId, u: RowUpdate)
    requires Faithful(runs, rows, sent) && id in rows && u.payload.None? && u.status.Some?
    ensures Faithful(runs, rows[id := Merge(rows[id], u)], sent)
       <==> (u.status == Some(Broadcasted) ==>
                rows[id].payload.Some? && RunSent(sent, id, rows[id].payload.value.nonce))
  {
    hide RunSent;
    var rows' := rows[id := Merge(rows[id], u)];
    forall q | q in runs
      ensures RunFaithful(runs[q], rows', sent)
    {
      assert RunFaithful(runs[q], rows, sent);
    }
    forall i | i in rows && i != id
      ensures RowFaithful(i, rows'[i], sent)
    {
      assert RowFaithful(i, rows[i], sent);
    }
    assert Faithful(runs, rows', sent) ==> RowFaithful(id, rows'[id], sent);
  }

  lemma WriteFaithfulExactly(w: World, p: PollId)
    requires RowInv(w) && OwnInv(w) && FidelityInv(w) && PollAt(w, p, OnWrite(true)) && w.polls[p].pc.id in w.rows
    ensures FidelityInv(Next(w, Monitor(p, OnWrite(true)))) <==> RecordsSent(w, Monitor(p, OnWrite(true)))
  {
    hide Next, Merge, RunSent, ResendsOnly, Faithful, Owned, RowsGood, PcGood, OutcomeGood, EventGood, SnapFaithful;
    WriteShape(w, p);
    SameSent(w, Monitor(p, OnWrite(true)));
    assert PollGood(w, w.polls[p]);
    WriteFaithful(w.runs, w.rows, w.sent, w.polls[p].pc.id, w.polls[p].pc.update);
  }

  // -------------------------------------------------------------------------
  // Whole runs of the system
  // -------------------------------------------------------------------------

  lemma {:induction false} Reachable(config: Config, steps: seq<Step>, k: nat)
    requires k < |steps|
    ensures At(config, steps, k + 1) == Next(At(config, steps, k), steps[k])
    ensures KeyInv(At(config, steps, k)) && RowInv(At(config, steps, k))
  {
    hide Next, Exec, KeyInv, RowInv;
    AtNext(config, steps, k);
    InitRows(config);
    RowRuns(Init(config), steps[..k]);
  }

  ghost predicate Throughout(config: Config, steps: seq<Step>, inv: World -> bool) {
    forall k :: 0 <= k <= |steps| ==> inv(At(config, steps, k))
  }

  ghost predicate EveryStep(config: Config, steps: seq<Step>, fits: (World, Step) -> bool) {
    forall k :: 0 <= k < |steps| ==> fits(At(config, steps, k), steps[k])
  }

  /** A condition under which exactly a step keeps an invariant is the condition under which
      exactly the invariant holds throughout. */
  lemma {:induction false} KeptExactly(config: Config, steps: seq<Step>, inv: World -> bool,
                                       fits: (World, Step) -> bool)
    requires inv(Init(config))
    requires forall w, s :: KeyInv(w) && RowInv(w) && inv(w) ==> (inv(Next(w, s)) <==> fits(w, s))
    ensures Throughout(config, steps, inv) <==> EveryStep(config, steps, fits)
  {
    hide Next, Exec, KeyInv, RowInv;
    if Throughout(config, steps, inv) {
      forall k | 0 <= k < |steps|
        ensures fits(At(config, steps, k), steps[k])
      {
        Reachable(config, steps, k);
        assert inv(At(config, steps, k)) && inv(At(config, steps, k + 1));
      }
    }
    if EveryStep(config, steps, fits) {
      HoldsUpTo(config, steps, inv, fits, |steps|);
    }
  }

  lemma {:induction false} HoldsUpTo(config: Config, steps: seq<Step>, inv: World -> bool, fits: (World, Step) -> bool,
                                     n: nat)
    requires inv(Init(config)) && n <= |steps| && EveryStep(config, steps, fits)
    requires forall w, s :: KeyInv(w) && RowInv(w) && inv(w) ==> (inv(Next(w, s)) <==> fits(w, s))
    ensures forall k :: 0 <= k <= n ==> inv(At(config, steps, k))
  {
    hide Next, Exec, KeyInv, RowInv;
    if n == 0 {
      AtStart(config, steps);
    } else {
      HoldsUpTo(config, steps, inv, fits, n - 1);
      Reachable(config, steps, n - 1);
    }
  }

  /** Row ownership, exactly: every run is alone on its row, which has the status the run relies
      on, in every state if and only if every reset and every stored write of a poll acts on a
      row no other run is at work on. */
  lemma {:induction false} OwnershipExactly(config: Config, steps: seq<Step>)
    ensures (forall k :: 0 <= k <= |steps| ==> OwnInv(At(config, steps, k)))
       <==> (forall k :: 0 <= k < |steps| ==> StepAlone(At(config, steps, k), steps[k]))
  {
    hide OwnInv, KeyInv, RowInv, StepAlone, Next, Exec;
    InitOwned(config);
    forall w, s | KeyInv(w) && RowInv(w) && OwnInv(w)
      ensures OwnInv(Next(w, s)) <==> StepAlone(w, s)
    {
      OwnedStepExactly(w, s);
    }
    KeptExactly(config, steps, (w: World) => OwnInv(w), (w: World, s: Step) => StepAlone(w, s));
  }

  lemma InitOwned(config: Config)
    ensures OwnInv(Init(config)) && OneOwner(Init(config).runs)
  {
  }

  /** Lifecycle safety, exactly: besides, every status change is one the lifecycle allows if and
      only if those resets and writes set a status that their row may take. */
  lemma {:induction false} LifecycleExactly(config: Config, steps: seq<Step>)
    ensures (forall k :: 0 <= k <= |steps| ==> OwnInv(At(config, steps, k)))
            && (forall k :: 0 <= k < |steps| ==>
                StatusesAllowed(At(config, steps, k), Next(At(config, steps, k), steps[k])))
       <==> (forall k :: 0 <= k < |steps| ==> StepSafe(At(config, steps, k), steps[k]))
  {
    hide OwnInv, KeyInv, RowInv, StepAlone, StatusFits, Next, Exec, StatusesAllowed;
    OwnershipExactly(config, steps);
    forall k | 0 <= k < |steps| && OwnInv(At(config, steps, k))
      ensures StatusesAllowed(At(config, steps, k), Next(At(config, steps, k), steps[k]))
         <==> StatusFits(At(config, steps, k), steps[k])
    {
      Reachable(config, steps, k);
      StatusesExactly(At(config, steps, k), steps[k]);
    }
  }

  /** One owner per key, exactly: at no time are two runs of one key past the gate and not yet
      done with their row if and only if every reset acts on a row no run is at work on. */
  lemma {:induction false} OneOwnerExactly(config: Config, steps: seq<Step>)
    ensures (forall k :: 0 <= k <= |steps| ==> KeysOwnedOnce(At(config, steps, k)))
       <==> (forall k :: 0 <= k < |steps| ==> ResetAlone(At(config, steps, k), steps[k]))
  {
    hide OneOwner, KeyInv, RowInv, ResetAlone, Next, Exec, KeysOwnedOnce;
    InitOwned(config);
    forall w, s | KeyInv(w) && RowInv(w) && OneOwner(w.runs)
      ensures OneOwner(Next(w, s).runs) <==> ResetAlone(w, s)
    {
      OneOwnerStepExactly(w, s);
    }
    KeptExactly(config, steps, (w: World) => OneOwner(w.runs), (w: World, s: Step) => ResetAlone(w, s));
    forall k | 0 <= k <= |steps|
      ensures KeysOwnedOnce(At(config, steps, k)) <==> OneOwner(At(config, steps, k).runs)
    {
      InitRows(config);
      RowRuns(Init(config), steps[..k]);
      OwnersByKey(At(config, steps, k));
    }
  }

  /** The invariant behind replacement fidelity, exactly: rows are owned, and whatever a
      broadcasted row holds or a poll has read or resent was sent by a run for that row, if and
      only if those resets and writes are alone on their rows and a row is marked broadcasted
      again only while it holds a transaction a run has sent for it. */
  lemma {:induction false} FidelityExactly(config: Config, steps: seq<Step>)
    ensures (forall k :: 0 <= k <= |steps| ==> OwnInv(At(config, steps, k)) && FidelityInv(At(config, steps, k)))
       <==> (forall k :: 0 <= k < |steps| ==> StepFaithful(At(config, steps, k), steps[k]))
  {
    hide OwnInv, FidelityInv, KeyInv, RowInv, StepAlone, RecordsSent, Next, Exec;
    InitFaithful(config);
    forall w, s | KeyInv(w) && RowInv(w) && OwnInv(w) && FidelityInv(w)
      ensures OwnInv(Next(w, s)) && FidelityInv(Next(w, s)) <==> StepFaithful(w, s)
    {
      OwnedStepExactly(w, s);
      FaithfulStepExactly(w, s);
    }
    KeptExactly(config, steps, (w: World) => OwnInv(w) && FidelityInv(w),
                (w: World, s: Step) => StepFaithful(w, s));
  }

  lemma InitFaithful(config: Config)
    ensures OwnInv(Init(config)) && FidelityInv(Init(config))
  {
  }

  /** The speed-up budget, exactly: the attempts of every row are the replacements recorded on it
      throughout if and only if each replacement is recorded on a row with as many attempts as
      the poll read. */
  lemma {:induction false} BudgetExactly(config: Config, steps: seq<Step>)
    ensures (forall k :: 0 <= k <= |steps| ==>
               Counts(At(config, steps, k).rows, At(config, steps, k).recorded))
       <==> (forall k :: 0 <= k < |steps| ==> StepCounted(At(config, steps, k), steps[k]))
  {
    hide BudgetInv, Counts, KeyInv, RowInv, CountInv, StepCounted, Next, Exec;
    InitCounts(config);
    forall w, s | BudgetInv(w) && Counts(w.rows, w.recorded)
      ensures BudgetInv(Next(w, s)) && Counts(Next(w, s).rows, Next(w, s).recorded) <==> StepCounted(w, s)
    {
      BudgetStep(w, s);
      CountsStepExactly(w, s);
    }
    KeptExactly(config, steps, (w: World) => BudgetInv(w) && Counts(w.rows, w.recorded),
                (w: World, s: Step) => StepCounted(w, s));
    forall k | 0 <= k <= |steps|
      ensures BudgetInv(At(config, steps, k))
    {
      BudgetRuns(Init(config), steps[..k]);
    }
  }

  lemma InitCounts(config: Config)
    ensures BudgetInv(Init(config)) && Counts(Init(config).rows, Init(config).recorded)
  {
  }

  /** Under the exact condition all transactions ever sent under one wallet, chain and nonce are
      one request's and differ in fees only. */
  lemma {:induction false} FaithfulMeans(config: Config, steps: seq<Step>)
    requires forall k :: 0 <= k < |steps| ==> StepFaithful(At(config, steps, k), steps[k])
    ensures var sent := Exec(Init(config), steps).sent;
            forall i, j :: 0 <= i < |sent| && 0 <= j < |sent| && SameNonce(sent[i], sent[j]) ==>
                SameTransaction(sent[i], sent[j])
  {
    hide Exec, SameNonce, SameTransaction, StepFaithful, NonceInv, KeyInv, RowInv, OwnInv, FidelityInv;
    FidelityExactly(config, steps);
    assert steps[..|steps|] == steps;
    assert FidelityInv(At(config, steps, |steps|));
    InitNonce(config);
    NonceRuns(Init(config), steps);
    InitRows(config);
    RowRuns(Init(config), steps);
    FaithfulPairs(Exec(Init(config), steps));
  }

  /** The guard, and so assumptions A and B, imply the exact conditions. */
  lemma {:induction false} GuardedSafe(config: Config, steps: seq<Step>)
    requires Guarded(Init(config), steps)
    ensures forall k :: 0 <= k < |steps| ==>
              StepSafe(At(config, steps, k), steps[k]) && StepFaithful(At(config, steps, k), steps[k])
  {
    hide Inv, OwnInv, FidelityInv, Next, Exec, StatusesAllowed, StepSafe, StepFaithful, Guarded, StepGuarded;
    InitInv(config);
    forall k | 0 <= k <= |steps|
      ensures OwnInv(At(config, steps, k)) && FidelityInv(At(config, steps, k))
      ensures k < |steps| ==> StatusesAllowed(At(config, steps, k), Next(At(config, steps, k), steps[k]))
    {
      assert steps[..k] + steps[k..] == steps;
      GuardedSplit(Init(config), steps[..k], steps[k..]);
      InvRuns(Init(config), steps[..k]);
      InvOwns(At(config, steps, k));
      if k < |steps| {
        Reachable(config, steps, k);
        GuardedFirst(At(config, steps, k), steps[k..]);
        InvStep(At(config, steps, k), steps[k]);
      }
    }
    LifecycleExactly(config, steps);
    FidelityExactly(config, steps);
  }

  lemma InvOwns(w: World)
    requires Inv(w)
    ensures OwnInv(w) && FidelityInv(w)
  {
  }

  lemma {:induction false} GuardedFirst(w: World, steps: seq<Step>)
    requires Guarded(w, steps) && steps != []
    ensures StepGuarded(w, steps[0])
  {
  }

  lemma {:induction false} AssumptionsSafe(config: Config, steps: seq<Step>)
    requires Disciplined(Init(config), steps)
    ensures forall k :: 0 <= k < |steps| ==>
              StepSafe(At(config, steps, k), steps[k]) && StepFaithful(At(config, steps, k), steps[k])
  {
    AssumptionsGuard(config, steps);
    GuardedSafe(config, steps);
  }
}
