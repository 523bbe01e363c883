/** What the speed-up columns satisfy in every run of the system, and in every run in which each
    replacement is recorded on a row with as many attempts as the poll read. */
module BudgetLaws {
  import opened Lifecycle
  import opened KeySafety
  import opened RowSafety
  import opened Budget

  lemma InitBudget(config: Config)
    ensures CountInv(Init(config))
  {
    InitRows(config);
  }

  lemma {:induction false} BudgetRuns(w: World, steps: seq<Step>)
    requires BudgetInv(w)
    ensures BudgetInv(Exec(w, steps))
    decreases |steps|
  {
    hide BudgetInv, Next;
    if steps != [] {
      BudgetStep(w, steps[0]);
      BudgetRuns(Next(w, steps[0]), steps[1..]);
    }
  }

  /** The budget: in every interleaving no row has more attempts than the maximum. */
  lemma {:induction false} AttemptsWithinMax(config: Config, steps: seq<Step>, id: RowId)
    requires id in Exec(Init(config), steps).rows
    ensures Exec(Init(config), steps).rows[id].attempts <= config.maxAttempts
  {
    BudgetRuns(Init(config), steps);
    ConfigFixed(Init(config), steps);
  }

  // -------------------------------------------------------------------------
  // While replacements are counted
  // -------------------------------------------------------------------------

  ghost predicate CountInv(w: World) {
    KeyInv(w) && RowInv(w) && BudgetInv(w) && Counts(w.rows, w.recorded) && OriginalInv(w)
  }

  lemma CountStep(w: World, s: Step)
    requires CountInv(w) && StepCounted(w, s)
    ensures CountInv(Next(w, s)) && OriginalsKept(w.rows, Next(w, s).rows)
  {
    hide KeyInv, RowInv, BudgetInv, Counts, OriginalInv, Next, StepCounted, OriginalsKept;
    KeyStep(w, s);
    RowStep(w, s);
    BudgetStep(w, s);
    CountsStepExactly(w, s);
    OriginalStep(w, s);
  }

  lemma {:induction false} CountRuns(w: World, steps: seq<Step>)
    requires CountInv(w) && Counted(w, steps)
    ensures CountInv(Exec(w, steps))
    ensures OriginalsKept(w.rows, Exec(w, steps).rows)
    decreases |steps|
  {
    hide CountInv, Next, StepCounted;
    if steps != [] {
      CountStep(w, steps[0]);
      CountRuns(Next(w, steps[0]), steps[1..]);
    }
  }

  lemma {:induction false} CountedSplit(w: World, a: seq<Step>, b: seq<Step>)
    requires Counted(w, a + b)
    ensures Counted(w, a) && Counted(Exec(w, a), b)
    decreases |a|
  {
    hide Next, StepCounted;
    if a == [] {
      assert a + b == b;
    } else {
      assert (a + b)[0] == a[0] && (a + b)[1..] == a[1..] + b;
      CountedSplit(Next(w, a[0]), a[1..], b);
    }
  }

  /** Over a row's whole life, retries included, the attempts are the recorded replacement
      broadcasts. */
  lemma {:induction false} SpeedUpBudget(config: Config, steps: seq<Step>, id: RowId)
    requires Counted(Init(config), steps) && id in Exec(Init(config), steps).rows
    ensures var w := Exec(Init(config), steps);
            id in w.recorded && w.rows[id].attempts == w.recorded[id] <= config.maxAttempts
  {
    InitBudget(config);
    CountRuns(Init(config), steps);
    AttemptsWithinMax(config, steps, id);
  }

  /** `original_tx_hash`, once set, never changes. */
  lemma {:induction false} OriginalHashFixed(config: Config, a: seq<Step>, b: seq<Step>, id: RowId)
    requires Counted(Init(config), a + b)
    requires id in Exec(Init(config), a).rows && Exec(Init(config), a).rows[id].originalHash.Some?
    ensures var last := Exec(Init(config), a + b);
            id in last.rows && last.rows[id].originalHash == Exec(Init(config), a).rows[id].originalHash
  {
    hide Next, CountInv;
    CountedSplit(Init(config), a, b);
    InitBudget(config);
    CountRuns(Init(config), a);
    CountRuns(Exec(Init(config), a), b);
    ExecConcat(Init(config), a, b);
  }
}
