/** What holds of every run of the system that keeps to the guard, and so of every run that
    keeps to assumptions A and B (`Discipline.AssumptionsGuard`). */
module LifecycleLaws {
  import opened Requests
  import opened Lifecycle
  import opened NonceSafety
  import opened KeySafety
  import opened RowSafety
  import opened Ownership
  import opened Fidelity
  import opened Discipline

  ghost predicate Inv(w: World) {
    NonceInv(w) && KeyInv(w) && RowInv(w) && OwnInv(w) && FidelityInv(w)
  }

  lemma InitInv(config: Config)
    ensures Inv(Init(config))
  {
    InitNonce(config);
    InitRows(config);
  }

  lemma InvStep(w: World, s: Step)
    requires Inv(w) && StepGuarded(w, s)
    ensures Inv(Next(w, s)) && StatusesAllowed(w, Next(w, s))
  {
    hide NonceInv, KeyInv, RowInv, OwnInv, FidelityInv, Next, StatusesAllowed, StepGuarded;
    NonceStep(w, s);
    KeyStep(w, s);
    RowStep(w, s);
    OwnStep(w, s);
    FaithStep(w, s);
  }

  lemma {:induction false} InvRuns(w: World, steps: seq<Step>)
    requires Inv(w) && Guarded(w, steps)
    ensures Inv(Exec(w, steps))
    ensures forall id :: id in w.rows ==> id in Exec(w, steps).rows
    ensures forall id :: id in w.rows && Final(w.rows[id].status) ==>
              Exec(w, steps).rows[id].status == w.rows[id].status
    decreases |steps|
  {
    hide Inv, Next;
    if steps != [] {
      InvStep(w, steps[0]);
      InvRuns(Next(w, steps[0]), steps[1..]);
    }
  }

  predicate Final(status: Status) {
    status == Confirmed || status == Dropped
  }

  lemma {:induction false} GuardedSplit(w: World, a: seq<Step>, b: seq<Step>)
    requires Guarded(w, a + b)
    ensures Guarded(w, a) && Guarded(Exec(w, a), b)
    decreases |a|
  {
    hide Next, StepGuarded;
    if a == [] {
      assert a + b == b;
    } else {
      assert (a + b)[0] == a[0] && (a + b)[1..] == a[1..] + b;
      GuardedSplit(Next(w, a[0]), a[1..], b);
    }
  }

  /** Lifecycle safety: every status change of every step is one the lifecycle allows, and
      confirmed and dropped are absorbing, although `update` writes status unconditionally. */
  lemma {:induction false} LifecycleSafety(config: Config, before: seq<Step>, s: Step, after: seq<Step>)
    requires Guarded(Init(config), before + [s] + after)
    ensures var w := Exec(Init(config), before);
            StatusesAllowed(w, Next(w, s))
    ensures var w, last := Exec(Init(config), before), Exec(Init(config), before + [s] + after);
            forall id :: id in w.rows && Final(w.rows[id].status) ==>
                id in last.rows && last.rows[id].status == w.rows[id].status
  {
    hide Next, Inv, StatusesAllowed;
    var tail := [s] + after;
    assert before + [s] + after == before + tail;
    GuardedSplit(Init(config), before, tail);
    InitInv(config);
    InvRuns(Init(config), before);
    var w := Exec(Init(config), before);
    InvStep(w, s);
    InvRuns(w, tail);
    ExecConcat(Init(config), before, tail);
  }

  /** Two runs for one idempotency key. */
  predicate Twins(w: World, q: RunId, r: RunId) {
    q in w.runs && r in w.runs && Key(w.runs[q]) == Key(w.runs[r])
  }

  /** Two runs of one key, each past the gate and not yet done with its row. */
  predicate Owners(w: World, q: RunId, r: RunId) {
    Twins(w, q, r) && OwnRow(w.runs[q].pc).Some? && OwnRow(w.runs[r].pc).Some?
  }

  /** At most one run per idempotency key is past the gate and not yet done with its row. */
  lemma {:induction false} OneOwnerPerKey(config: Config, steps: seq<Step>, q: RunId, r: RunId)
    requires Guarded(Init(config), steps)
    ensures Owners(Exec(Init(config), steps), q, r) ==> q == r
  {
    InitInv(config);
    InvRuns(Init(config), steps);
    SameRow(Exec(Init(config), steps), q, r);
  }

  /** Runs of one key work on one row. */
  lemma SameRow(w: World, q: RunId, r: RunId)
    requires KeyInv(w) && RowInv(w) && OwnInv(w)
    ensures Twins(w, q, r) && PcRow(w.runs[q].pc).Some? && PcRow(w.runs[r].pc).Some? ==>
              PcRow(w.runs[q].pc) == PcRow(w.runs[r].pc)
    ensures Owners(w, q, r) ==> q == r
  {
    hide Key, Preimage, ValidRequest, PollGood, EventGood, RowsGood, OutcomeGood;
    if q in w.runs && r in w.runs {
      assert PcGood(w, w.runs[q]) && PcGood(w, w.runs[r]);
    }
  }

  /** Under A and B, even a run that has only found the failed row is alone with it. */
  lemma {:induction false} OneFinderPerKey(config: Config, steps: seq<Step>, q: RunId, r: RunId)
    requires Disciplined(Init(config), steps)
    ensures var w := Exec(Init(config), steps);
            Twins(w, q, r) && PcRow(w.runs[q].pc).Some? && PcRow(w.runs[r].pc).Some? ==> q == r
  {
    InitInv(config);
    AssumptionsGuard(config, steps);
    DisciplinedGuarded(Init(config), steps);
    InvRuns(Init(config), steps);
    var w := Exec(Init(config), steps);
    SameRow(w, q, r);
    if Twins(w, q, r) && PcRow(w.runs[q].pc).Some? && PcRow(w.runs[r].pc).Some? {
      FinderAlone(w, q, r);
    }
  }

  lemma FinderAlone(w: World, q: RunId, r: RunId)
    requires OwnInv(w) && DisciplineInv(w) && q in w.runs && r in w.runs
    requires PcRow(w.runs[q].pc).Some? && PcRow(w.runs[q].pc) == PcRow(w.runs[r].pc)
    ensures q == r
  {
    hide Polled;
  }

  /** Same wallet, chain and nonce. */
  predicate SameNonce(e: Sent, f: Sent) {
    e.slot == f.slot && e.tx.nonce == f.tx.nonce
  }

  /** For one signing request, and differing in fees only. */
  predicate SameTransaction(e: Sent, f: Sent) {
    && e.row == f.row
    && e.tx.chain == f.tx.chain && e.tx.to == f.tx.to && e.tx.value == f.tx.value && e.tx.data == f.tx.data
  }

  /** Replacement fidelity: all transactions ever sent under one wallet, chain and nonce,
      originals and replacements, belong to one signing request and carry the same
      destination, value, calldata and chain, although released nonces are reissued and
      failed rows are recycled with new nonces. */
  lemma {:induction false} ReplacementFidelity(config: Config, steps: seq<Step>)
    requires Guarded(Init(config), steps)
    ensures var sent := Exec(Init(config), steps).sent;
            forall i, j :: 0 <= i < |sent| && 0 <= j < |sent| && SameNonce(sent[i], sent[j]) ==>
                SameTransaction(sent[i], sent[j])
  {
    hide Exec, SameNonce, SameTransaction;
    InitInv(config);
    InvRuns(Init(config), steps);
    FaithfulPairs(Exec(Init(config), steps));
  }

  lemma FaithfulPairs(w: World)
    requires NonceInv(w) && RowInv(w) && FidelityInv(w)
    ensures forall i, j :: 0 <= i < |w.sent| && 0 <= j < |w.sent| && SameNonce(w.sent[i], w.sent[j]) ==>
              SameTransaction(w.sent[i], w.sent[j])
  {
    hide SameNonce, SameTransaction, NonceInv, KeyInv, RowInv, OwnInv, FidelityInv;
    forall i, j | 0 <= i < |w.sent| && 0 <= j < |w.sent| && SameNonce(w.sent[i], w.sent[j])
      ensures SameTransaction(w.sent[i], w.sent[j])
    {
      FaithfulPair(w, i, j);
    }
  }

  lemma FaithfulPair(w: World, i: nat, j: nat)
    requires NonceInv(w) && RowInv(w) && FidelityInv(w)
    requires i < |w.sent| && j < |w.sent| && SameNonce(w.sent[i], w.sent[j])
    ensures SameTransaction(w.sent[i], w.sent[j])
  {
    hide PollGood, PcGood, OutcomeGood, RowsGood, Faithful;
    var e, f := w.sent[i], w.sent[j];
    assert RunSent(w.sent, e.row, e.tx.nonce) && RunSent(w.sent, f.row, f.tx.nonce);
    var k :| 0 <= k < |w.sent| && w.sent[k].sender.ByRun? && w.sent[k].row == e.row && w.sent[k].tx.nonce == e.tx.nonce;
    var l :| 0 <= l < |w.sent| && w.sent[l].sender.ByRun? && w.sent[l].row == f.row && w.sent[l].tx.nonce == f.tx.nonce;
    assert EventGood(w, e) && EventGood(w, f) && EventGood(w, w.sent[k]) && EventGood(w, w.sent[l]);
    assert w.sent[k].slot == w.sent[l].slot;
    assert k == l;
  }
}
