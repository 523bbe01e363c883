/** A stuck row does not stay broadcasted forever. A whole poll that finds it stuck takes it out
    of broadcasted or uses up one attempt; so after more such polls than there are attempts left
    it has been out of broadcasted, whatever runs, syncs and other polls interleave, as long as
    each replacement is recorded on a row with as many attempts as the poll read. */
module SpeedUpTermination {
  import opened Lifecycle
  import opened RowSafety
  import opened Budget
  import opened BudgetLaws

  predicate Broadcast(w: World, id: RowId) {
    id in w.rows && w.rows[id].status == Broadcasted
  }

  /** The row is broadcasted in every state from here to the end of the steps. */
  predicate StaysBroadcast(w: World, steps: seq<Step>, id: RowId)
    decreases |steps|
  {
    Broadcast(w, id) && (steps == [] || StaysBroadcast(Next(w, steps[0]), steps[1..], id))
  }

  /** Whenever poll `p` works on the row, it is answered as for a stuck row. */
  predicate StepStuck(w: World, s: Step, p: PollId, id: RowId) {
    s.Monitor? && s.p == p && PollAt(w, p, s.does) && WorksOn(w.polls[p], id) ==> StuckAnswer(s.does)
  }

  predicate AnswersStuck(w: World, steps: seq<Step>, p: PollId, id: RowId)
    decreases |steps|
  {
    steps == [] || (StepStuck(w, steps[0], p, id) && AnswersStuck(Next(w, steps[0]), steps[1..], p, id))
  }

  // -------------------------------------------------------------------------
  // Attempts never fall
  // -------------------------------------------------------------------------

  predicate AttemptsKept(rows: map<RowId, Row>, rows': map<RowId, Row>) {
    forall id :: id in rows ==> id in rows' && rows'[id].attempts >= rows[id].attempts
  }

  lemma StepKeepsAttempts(w: World, s: Step)
    requires BudgetInv(w) && StepCounted(w, s)
    ensures AttemptsKept(w.rows, Next(w, s).rows)
  {
    hide BudgetInv, Next;
    if Records(w, s) {
      RecordShape(w, s.p);
    } else {
      StepLeavesBudget(w, s);
    }
  }

  lemma {:induction false} RunsKeepAttempts(w: World, steps: seq<Step>)
    requires CountInv(w) && Counted(w, steps)
    ensures AttemptsKept(w.rows, Exec(w, steps).rows)
    decreases |steps|
  {
    hide CountInv, Next, StepCounted;
    if steps != [] {
      InvBudget(w);
      StepKeepsAttempts(w, steps[0]);
      CountStep(w, steps[0]);
      RunsKeepAttempts(Next(w, steps[0]), steps[1..]);
    }
  }

  lemma InvBudget(w: World)
    requires CountInv(w)
    ensures BudgetInv(w) && RowInv(w)
  {
  }

  // -------------------------------------------------------------------------
  // One poll
  // -------------------------------------------------------------------------

  /** The poll has the row ahead of it, or is working on it. */
  predicate Due(polls: map<PollId, Poller>, p: PollId, id: RowId) {
    p in polls && (id in polls[p].todo || WorksOn(polls[p], id))
  }

  /** A step of the poll itself: while its row is due it stays due, until a stored write. */
  lemma PollerStaysDue(config: Config, poller: Poller, act: PollAction, id: RowId)
    requires PollFits(poller, act) && (id in poller.todo || WorksOn(poller, id))
    requires WorksOn(poller, id) ==> poller.pc.row.payload.Some? && StuckAnswer(act)
    ensures var poller' := PollEffect(config, poller, act).poller;
            id in poller'.todo || WorksOn(poller', id) || (WorksOn(poller, id) && act == OnWrite(true))
  {
    if WorksOn(poller, id) && Remaining(poller.pc) > 0 {
      StuckPassAdvances(config, poller, act);
    } else {
      hide ReplacementTx, ReplacementUpdate, AfterReceipt, AfterMempool, AfterContext, AfterQuote;
    }
  }

  /** The stored write ends the row's time as broadcasted or uses up an attempt. */
  lemma StoredWriteCounts(w: World, p: PollId)
    requires RowInv(w) && BudgetInv(w) && PollAt(w, p, OnWrite(true)) && StepCounted(w, Monitor(p, OnWrite(true)))
    ensures var id, w' := w.polls[p].pc.id, Next(w, Monitor(p, OnWrite(true)));
            && id in w.rows && id in w'.rows
            && (w'.rows[id].status != Broadcasted || w'.rows[id].attempts == w.rows[id].attempts + 1)
  {
    hide RowInv, WithinMax, PollsBudgeted, Bumped;
    SnapshotRow(w, p);
    assert PollBudget(w.polls[p].pc, w.config.maxAttempts) by {
      BudgetOf(w, p);
    }
  }

  lemma BudgetOf(w: World, p: PollId)
    requires BudgetInv(w) && p in w.polls
    ensures PollBudget(w.polls[p].pc, w.config.maxAttempts)
  {
  }

  lemma SnapshotRow(w: World, p: PollId)
    requires RowInv(w) && p in w.polls && !w.polls[p].pc.Idle?
    ensures w.polls[p].pc.id in w.rows
  {
    hide PcGood, OutcomeGood, EventGood, RowsGood;
    assert PollGood(w, w.polls[p]);
  }

  lemma DueStep(w: World, s: Step, p: PollId, id: RowId)
    requires RowInv(w) && BudgetInv(w) && StepCounted(w, s)
    requires Due(w.polls, p, id) && Broadcast(w, id) && StepStuck(w, s, p, id) && Broadcast(Next(w, s), id)
    ensures Due(Next(w, s).polls, p, id) || Next(w, s).rows[id].attempts > w.rows[id].attempts
  {
    hide RowInv, BudgetInv;
    if s.Monitor? && s.p == p && PollAt(w, p, s.does) {
      if WorksOn(w.polls[p], id) {
        SnapshotHashed(w, p);
      }
      PollerStaysDue(w.config, w.polls[p], s.does, id);
      if WorksOn(w.polls[p], id) && s.does == OnWrite(true) {
        StoredWriteCounts(w, p);
      }
      hide PollEffect, StepCounted;
    } else {
      OthersLeaveDue(w, s, p, id);
    }
  }

  lemma OthersLeaveDue(w: World, s: Step, p: PollId, id: RowId)
    requires Due(w.polls, p, id) && !(s.Monitor? && s.p == p && PollAt(w, p, s.does))
    ensures Due(Next(w, s).polls, p, id)
  {
    hide RunEffect, PollEffect, ViewOf, NoncesAfter, RowsAfter, FateAfter, FailedAfter, Merge, Bumped;
    hide SkippedNonces, FindBroadcasted;
  }

  /** A whole poll that finds the row stuck raises the attempts, if the row stays broadcasted. */
  lemma {:induction false} DuePollRaises(w: World, steps: seq<Step>, p: PollId, id: RowId)
    requires CountInv(w) && Counted(w, steps) && StaysBroadcast(w, steps, id)
    requires Due(w.polls, p, id) && AnswersStuck(w, steps, p, id) && p !in Exec(w, steps).polls
    ensures id in Exec(w, steps).rows && Exec(w, steps).rows[id].attempts > w.rows[id].attempts
    decreases |steps|
  {
    hide CountInv, Next, StepCounted, StepStuck, Broadcast;
    if steps != [] {
      var s, rest := steps[0], steps[1..];
      var w' := Next(w, s);
      InvBudget(w);
      CountStep(w, s);
      StepKeepsAttempts(w, s);
      assert Broadcast(w', id);
      InRows(w, id);
      DueStep(w, s, p, id);
      RunsKeepAttempts(w', rest);
      if Due(w'.polls, p, id) {
        DuePollRaises(w', rest, p, id);
      }
    }
  }

  lemma InRows(w: World, id: RowId)
    requires Broadcast(w, id)
    ensures id in w.rows
  {
  }

  // -------------------------------------------------------------------------
  // Poll after poll
  // -------------------------------------------------------------------------

  /** Some steps, then a poll from its start to its end. Anything else may act during the poll. */
  datatype Round = Round(gap: seq<Step>, p: PollId, during: seq<Step>)

  function RoundSteps(round: Round): seq<Step> {
    round.gap + ([StartPoll(round.p)] + round.during)
  }

  function AllSteps(rounds: seq<Round>): seq<Step> {
    if rounds == [] then [] else RoundSteps(rounds[0]) + AllSteps(rounds[1..])
  }

  /** The poll starts after the gap, is over at the end, and finds the row stuck. */
  ghost predicate RoundStuck(w: World, round: Round, id: RowId) {
    var before := Exec(w, round.gap);
    var started := Next(before, StartPoll(round.p));
    && round.p !in before.polls
    && round.p !in Exec(started, round.during).polls
    && AnswersStuck(started, round.during, round.p, id)
  }

  ghost predicate RoundsStuck(w: World, rounds: seq<Round>, id: RowId)
    decreases |rounds|
  {
    rounds == [] || (RoundStuck(w, rounds[0], id) && RoundsStuck(Exec(w, RoundSteps(rounds[0])), rounds[1..], id))
  }

  lemma {:induction false} StaysSplit(w: World, a: seq<Step>, b: seq<Step>, id: RowId)
    requires StaysBroadcast(w, a + b, id)
    ensures StaysBroadcast(w, a, id) && StaysBroadcast(Exec(w, a), b, id)
    decreases |a|
  {
    hide Next, Broadcast;
    if a == [] {
      assert a + b == b;
    } else {
      assert (a + b)[0] == a[0] && (a + b)[1..] == a[1..] + b;
      StaysSplit(Next(w, a[0]), a[1..], b, id);
    }
  }

  lemma StartMakesDue(w: World, p: PollId, id: RowId)
    requires Broadcast(w, id) && p !in w.polls
    ensures Due(Next(w, StartPoll(p)).polls, p, id)
  {
  }

  /** One round: if the row stays broadcasted throughout, its attempts rise. */
  lemma {:induction false} RoundRaises(w: World, round: Round, id: RowId)
    requires CountInv(w) && Counted(w, RoundSteps(round))
    requires StaysBroadcast(w, RoundSteps(round), id) && RoundStuck(w, round, id)
    ensures var w' := Exec(w, RoundSteps(round));
            CountInv(w') && id in w.rows && id in w'.rows && w'.rows[id].attempts > w.rows[id].attempts
  {
    hide CountInv, Next, Due;
    var gap, tail := round.gap, [StartPoll(round.p)] + round.during;
    CountedSplit(w, gap, tail);
    StaysSplit(w, gap, tail, id);
    ExecConcat(w, gap, tail);
    CountRuns(w, gap);
    RunsKeepAttempts(w, gap);
    var before := Exec(w, gap);
    var started := Next(before, StartPoll(round.p));
    ExecOne(before, StartPoll(round.p), round.during);
    assert tail[1..] == round.during;
    StaysEnds(w, gap, id);
    StartMakesDue(before, round.p, id);
    CountStep(before, StartPoll(round.p));
    InvBudget(before);
    StepKeepsAttempts(before, StartPoll(round.p));
    DuePollRaises(started, round.during, round.p, id);
    CountRuns(started, round.during);
  }

  lemma {:induction false} StaysEnds(w: World, steps: seq<Step>, id: RowId)
    requires StaysBroadcast(w, steps, id)
    ensures Broadcast(w, id) && Broadcast(Exec(w, steps), id)
    decreases |steps|
  {
    hide Next;
    if steps != [] {
      StaysEnds(Next(w, steps[0]), steps[1..], id);
    }
  }

  lemma {:induction false} RoundsRaise(w: World, rounds: seq<Round>, id: RowId)
    requires CountInv(w) && Counted(w, AllSteps(rounds))
    requires StaysBroadcast(w, AllSteps(rounds), id) && RoundsStuck(w, rounds, id)
    ensures var w' := Exec(w, AllSteps(rounds));
            CountInv(w') && id in w.rows && id in w'.rows && w'.rows[id].attempts >= w.rows[id].attempts + |rounds|
    decreases |rounds|
  {
    hide CountInv, Next, RoundSteps, RoundStuck, Broadcast;
    StaysEnds(w, AllSteps(rounds), id);
    InRows(w, id);
    if rounds != [] {
      var first, rest := RoundSteps(rounds[0]), AllSteps(rounds[1..]);
      CountedSplit(w, first, rest);
      StaysSplit(w, first, rest, id);
      RoundRaises(w, rounds[0], id);
      RoundsRaise(Exec(w, first), rounds[1..], id);
      ExecConcat(w, first, rest);
    }
  }

  /** At some point of the steps the row exists and is not broadcasted. */
  ghost predicate Leaves(w: World, steps: seq<Step>, id: RowId) {
    exists k :: 0 <= k <= |steps| && LeftAfter(w, steps[..k], id)
  }

  predicate LeftAfter(w: World, steps: seq<Step>, id: RowId) {
    id in Exec(w, steps).rows && Exec(w, steps).rows[id].status != Broadcasted
  }

  lemma {:induction false} StaysOrLeaves(w: World, steps: seq<Step>, id: RowId)
    requires CountInv(w) && Counted(w, steps) && id in w.rows
    ensures StaysBroadcast(w, steps, id) || Leaves(w, steps, id)
    decreases |steps|
  {
    hide CountInv, Next, StepCounted;
    if w.rows[id].status != Broadcasted {
      assert LeftAfter(w, steps[..0], id);
    } else if steps != [] {
      CountStep(w, steps[0]);
      StaysOrLeaves(Next(w, steps[0]), steps[1..], id);
      if k :| 0 <= k <= |steps[1..]| && LeftAfter(Next(w, steps[0]), steps[1..][..k], id) {
        assert steps[..k + 1] == [steps[0]] + steps[1..][..k];
        ExecOne(w, steps[0], steps[1..][..k]);
        assert LeftAfter(w, steps[..k + 1], id);
      }
    }
  }

  /** Termination of the speed-up. After more stuck polls than attempts are left, a row has been
      out of broadcasted at some point: max + 1 such polls always suffice. */
  lemma {:induction false} StuckRowLeaves(config: Config, before: seq<Step>, rounds: seq<Round>, id: RowId)
    requires Counted(Init(config), before + AllSteps(rounds))
    requires var w := Exec(Init(config), before);
             id in w.rows && RoundsStuck(w, rounds, id) && w.rows[id].attempts + |rounds| > config.maxAttempts
    ensures Leaves(Exec(Init(config), before), AllSteps(rounds), id)
  {
    hide CountInv, Next, AllSteps, RoundsStuck, Leaves, StaysBroadcast, Counted;
    var w, steps := Exec(Init(config), before), AllSteps(rounds);
    InitBudget(config);
    CountedSplit(Init(config), before, steps);
    CountRuns(Init(config), before);
    StaysOrLeaves(w, steps, id);
    if StaysBroadcast(w, steps, id) {
      RoundsRaise(w, rounds, id);
      ExecConcat(Init(config), before, steps);
      AttemptsWithinMax(config, before + steps, id);
      assert false;
    }
  }
}
