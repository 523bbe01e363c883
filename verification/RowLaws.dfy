/** What the row invariants mean for every run of the system, without assumptions. */
module RowLaws {
  import opened Base
  import opened Requests
  import opened Fees
  import opened Lifecycle
  import opened NonceSafety
  import opened KeySafety
  import opened RowSafety

  /** Row completeness: a row in status signed, broadcasted, confirmed or dropped has a hash
      and a payload, and so has every row a poll is working on. The defensive branches of the
      monitor and of speedUp (no tx_hash, no tx_payload) are never taken. */
  lemma {:induction false} RowCompleteness(config: Config, steps: seq<Step>)
    ensures var w := Exec(Init(config), steps);
            && (forall id :: id in w.rows && Published(w.rows[id].status) ==> Complete(w.rows[id]))
            && (forall p, id :: p in w.polls && id in w.polls[p].todo ==> Complete(w.polls[p].todo[id]))
            && (forall p :: p in w.polls && !w.polls[p].pc.Idle? ==> Complete(w.polls[p].pc.row))
  {
    InitRows(config);
    RowRuns(Init(config), steps);
    var w := Exec(Init(config), steps);
    forall id | id in w.rows && Published(w.rows[id].status)
      ensures Complete(w.rows[id])
    {
      assert RowGood(w.rows[id], w.asked[id], id in w.everFailed);
    }
  }

  /** Whatever is sent for a row, by any run or poll, goes from the row's wallet on the row's
      chain and does what the row's request asked for; and the key of the row determines that
      request. */
  lemma {:induction false} SentAsRequested(config: Config, steps: seq<Step>, i: nat)
    requires i < |Exec(Init(config), steps).sent|
    ensures var w := Exec(Init(config), steps);
            var e := w.sent[i];
            && e.row in w.rows && e.row in w.asked
            && e.slot == Slot(w.rows[e.row].wallet, w.rows[e.row].chain)
            && Carries(e.tx, w.asked[e.row])
            && w.rows[e.row].key == Preimage(w.rows[e.row].wallet, w.asked[e.row])
  {
    InitRows(config);
    RowRuns(Init(config), steps);
    var w := Exec(Init(config), steps);
    assert EventGood(w, w.sent[i]);
    assert CreatedFor(w.rows[w.sent[i].row], w.asked[w.sent[i].row]);
  }

  // -------------------------------------------------------------------------
  // Duplicate suppression
  // -------------------------------------------------------------------------

  /** The run has not got past row creation. */
  predicate BeforeGate(pc: Pc) {
    pc.AtLookup? || pc.AtPolicy? || pc.AtEstimate? || pc.AtInsert? || pc.AtFind? || pc.AtReset?
  }

  predicate Claims(runs: map<RunId, Run>, r: RunId, id: RowId) {
    r in runs && runs[r].claimed == Some(id)
  }

  /** Every row has been claimed, and by one run only unless it has failed. */
  ghost predicate Gated(runs: map<RunId, Run>, rows: set<RowId>, everFailed: set<RowId>) {
    && (forall r :: r in runs && BeforeGate(runs[r].pc) ==> runs[r].claimed.None?)
    && (forall r :: r in runs && !BeforeGate(runs[r].pc) && !runs[r].pc.Done? ==> runs[r].claimed.Some?)
    && (forall id :: id in rows ==> exists r :: Claims(runs, r, id))
    && (forall q, r, id :: Claims(runs, q, id) && Claims(runs, r, id) && id !in everFailed ==> q == r)
  }

  ghost predicate GateInv(w: World) {
    Gated(w.runs, w.rows.Keys, w.everFailed)
  }

  /** How an action treats the gate. */
  ghost predicate PassesGate(run: Run, e: Effect) {
    && !run.pc.Done?
    && (BeforeGate(e.run.pc) ==> BeforeGate(run.pc) && e.run.claimed == run.claimed)
    && (!BeforeGate(e.run.pc) && !e.run.pc.Done? && BeforeGate(run.pc) ==> e.run.claimed.Some?)
    && (!BeforeGate(run.pc) ==> e.run.claimed == run.claimed)
    && (e.run.claimed != run.claimed ==>
          if e.write.InsertRow? then e.run.claimed == Some(e.write.id)
          else run.pc.AtReset? && e.run.claimed == Some(run.pc.row))
    && (e.write.InsertRow? ==> e.run.claimed == Some(e.write.id))
  }

  lemma ActionPassesGate(run: Run, v: View, act: RunAction)
    requires PcFits(run.pc, act)
    ensures PassesGate(run, RunEffect(run, v, act))
  {
    match act
    case _ =>
  }

  /** How the runs change: only the acting one, and rows and failures only grow. */
  ghost predicate Acted(w: World, w': World, r: RunId, e: Effect) {
    && r in w.runs && w'.runs == w.runs[r := e.run]
    && w'.rows.Keys == w.rows.Keys + (if e.write.InsertRow? then {e.write.id} else {})
    && w.everFailed <= w'.everFailed
  }

  lemma ClaimsStay(w: World, w': World, r: RunId, e: Effect)
    requires GateInv(w) && Acted(w, w', r, e) && PassesGate(w.runs[r], e)
    ensures forall id :: id in w'.rows ==> exists q :: Claims(w'.runs, q, id)
  {
    forall id | id in w'.rows
      ensures exists q :: Claims(w'.runs, q, id)
    {
      if id in w.rows {
        var q :| Claims(w.runs, q, id);
        assert q == r ==> !BeforeGate(w.runs[r].pc);
        assert Claims(w'.runs, q, id);
      } else {
        assert Claims(w'.runs, r, id);
      }
    }
  }

  /** A new claim is on a new row or on one that has failed. */
  lemma ClaimsApart(w: World, w': World, r: RunId, e: Effect)
    requires GateInv(w) && Acted(w, w', r, e) && PassesGate(w.runs[r], e)
    requires e.write.InsertRow? ==> e.write.id !in w.rows
    requires forall q, id :: Claims(w.runs, q, id) ==> id in w.rows
    requires w.runs[r].pc.AtReset? ==> w.runs[r].pc.row in w.everFailed
    ensures forall q, s, id :: Claims(w'.runs, q, id) && Claims(w'.runs, s, id) && id !in w'.everFailed ==> q == s
  {
    forall q, s, id | Claims(w'.runs, q, id) && Claims(w'.runs, s, id) && id !in w'.everFailed
      ensures q == s
    {
      assert q != r ==> Claims(w.runs, q, id);
      assert s != r ==> Claims(w.runs, s, id);
      assert e.run.claimed == w.runs[r].claimed ==> (Claims(w'.runs, r, id) ==> Claims(w.runs, r, id));
    }
  }

  /** A claim is on a row, and a run about to reset has found it failed. */
  lemma ClaimsAreRows(w: World, r: RunId)
    requires RowInv(w) && r in w.runs
    ensures forall q, id :: Claims(w.runs, q, id) ==> id in w.rows
    ensures w.runs[r].pc.AtReset? ==> w.runs[r].pc.row in w.everFailed
  {
    hide PollGood, EventGood, RowsGood, Key;
    assert PcGood(w, w.runs[r]);
    assert forall q :: q in w.runs ==> OutcomeGood(w, w.runs[q]);
  }

  /** Before the gate a run claims nothing, past it its row. */
  lemma GatesStay(w: World, w': World, r: RunId, e: Effect)
    requires GateInv(w) && Acted(w, w', r, e) && PassesGate(w.runs[r], e)
    ensures forall q :: q in w'.runs && BeforeGate(w'.runs[q].pc) ==> w'.runs[q].claimed.None?
    ensures forall q :: q in w'.runs && !BeforeGate(w'.runs[q].pc) && !w'.runs[q].pc.Done? ==>
              w'.runs[q].claimed.Some?
  {
    hide Claims;
  }

  lemma EffectActs(w: World, r: RunId, e: Effect)
    requires r in w.runs
    requires e.nonce.GiveBack? || e.nonce.HandOver? || e.nonce.WalkAway? ==> Holds(w.runs[r].pc)
    ensures Acted(w, ApplyRun(w, r, e), r, e)
  {
    hide Key, NewRow, Merge, NoncesAfter, FateAfter;
  }

  lemma EffectKeepsGate(w: World, r: RunId, e: Effect)
    requires GateInv(w) && RowInv(w) && r in w.runs && PassesGate(w.runs[r], e)
    requires e.nonce.GiveBack? || e.nonce.HandOver? || e.nonce.WalkAway? ==> Holds(w.runs[r].pc)
    requires e.write.InsertRow? ==> e.write.id !in w.rows
    ensures GateInv(ApplyRun(w, r, e))
  {
    hide RowInv, ApplyRun, PassesGate, BeforeGate, Claims;
    var w' := ApplyRun(w, r, e);
    EffectActs(w, r, e);
    ClaimsAreRows(w, r);
    GatesStay(w, w', r, e);
    ClaimsStay(w, w', r, e);
    ClaimsApart(w, w', r, e);
  }

  lemma GateStep(w: World, s: Step)
    requires KeyInv(w) && RowInv(w) && GateInv(w)
    ensures GateInv(Next(w, s))
  {
    hide KeyInv, RowInv, GateInv, PassesGate, ApplyRun, Key;
    match s
    case Do(r, act) =>
      if RunAt(w, r, act) {
        var v := ViewOf(w, w.runs[r], act);
        ActionPassesGate(w.runs[r], v, act);
        ActionKeepsRequest(w.runs[r], v, act);
        EffectKeepsGate(w, r, RunEffect(w.runs[r], v, act));
      }
    case _ => RunsUnclaimed(w, s);
  }

  lemma RunsUnclaimed(w: World, s: Step)
    requires GateInv(w) && !s.Do?
    ensures GateInv(Next(w, s))
  {
    hide Gated, DtoValid, WalletIdValid, PollEffect;
    match s
    case Begin(r, wallet, req) => FreshRunUnclaimed(w.runs, w.rows.Keys, w.everFailed, r, wallet, req);
    case Monitor(p, act) =>
      if PollAt(w, p, act) {
        PollLeavesClaims(w, p, PollEffect(w.config, w.polls[p], act));
      }
    case _ =>
  }

  lemma FreshRunUnclaimed(runs: map<RunId, Run>, rows: set<RowId>, everFailed: set<RowId>, r: RunId, wallet: string,
                          req: SignRequest)
    requires Gated(runs, rows, everFailed)
    ensures r !in runs ==> Gated(runs[r := Run(wallet, req, AtLookup, FeeQuote(0, 0, 0), None)], rows, everFailed)
  {
    var runs' := runs[r := Run(wallet, req, AtLookup, FeeQuote(0, 0, 0), None)];
    assert r !in runs ==> forall q, id :: Claims(runs', q, id) <==> Claims(runs, q, id);
  }

  lemma PollLeavesClaims(w: World, p: PollId, e: MonitorEffect)
    requires GateInv(w)
    ensures GateInv(ApplyPoll(w, p, e))
  {
    var w' := ApplyPoll(w, p, e);
    assert w'.runs == w.runs && w'.rows.Keys == w.rows.Keys && w.everFailed <= w'.everFailed;
  }

  lemma {:induction false} GateRuns(w: World, steps: seq<Step>)
    requires KeyInv(w) && RowInv(w) && GateInv(w)
    ensures KeyInv(Exec(w, steps)) && RowInv(Exec(w, steps)) && GateInv(Exec(w, steps))
    decreases |steps|
  {
    hide KeyInv, RowInv, GateInv, Next;
    if steps != [] {
      KeyStep(w, steps[0]);
      RowStep(w, steps[0]);
      GateStep(w, steps[0]);
      GateRuns(Next(w, steps[0]), steps[1..]);
    }
  }

  /** A run with the row's key holds a nonce only past the gate of that row, and if it
      completes, it returns that row. */
  ghost predicate GateMeans(w: World, r: RunId, id: RowId)
    requires r in w.runs && id in w.rows
  {
    var run := w.runs[r];
    Key(run) == w.rows[id].key ==>
      && (Holds(run.pc) ==> Claims(w.runs, r, id))
      && (run.pc.Done? && !run.pc.outcome.Errored? ==> run.pc.outcome.result.row == id)
  }

  /** Duplicate suppression. Until a row first becomes failed, exactly one run has got past
      its creation; only such a run can hold a nonce; and every other run with the same key
      that completes returns that row's id. */
  lemma {:induction false} DuplicateSuppression(config: Config, steps: seq<Step>, id: RowId)
    requires id in Exec(Init(config), steps).rows
    ensures var w := Exec(Init(config), steps);
            && (exists r :: Claims(w.runs, r, id))
            && (id !in w.everFailed ==> forall q, r :: Claims(w.runs, q, id) && Claims(w.runs, r, id) ==> q == r)
            && (forall r :: r in w.runs ==> GateMeans(w, r, id))
  {
    InitRows(config);
    GateRuns(Init(config), steps);
    forall r | r in Exec(Init(config), steps).runs
      ensures GateMeans(Exec(Init(config), steps), r, id)
    {
      hide Exec;
      GateMeaning(Exec(Init(config), steps), r, id);
    }
  }

  lemma GateMeaning(w: World, r: RunId, id: RowId)
    requires KeyInv(w) && RowInv(w) && GateInv(w) && r in w.runs && id in w.rows
    ensures GateMeans(w, r, id)
  {
    hide KeyInv, Indexed, Key, PollGood, EventGood, RowsGood, PcGood, RowOfRun;
    var run := w.runs[r];
    assert OutcomeGood(w, run);
    if run.claimed.Some? && RowOfRun(w, run.claimed.value, run) {
      OneRowPerKey(w, run, run.claimed.value, id);
    }
    if run.pc.Done? && run.pc.outcome.Duplicate? {
      OneRowPerKey(w, run, run.pc.outcome.result.row, id);
    }
  }

  lemma OneRowPerKey(w: World, run: Run, mine: RowId, id: RowId)
    requires KeyInv(w) && RowOfRun(w, mine, run) && id in w.rows
    ensures Key(run) == w.rows[id].key ==> id == mine
  {
    hide Key;
    assert w.index[w.rows[id].key] == id;
    assert w.index[w.rows[mine].key] == mine;
  }

  // -------------------------------------------------------------------------
  // At most one send per key until its row has failed
  // -------------------------------------------------------------------------

  /** A run has sent only for the row it claims. */
  ghost predicate SendsClaimed(runs: map<RunId, Run>, sent: seq<Sent>) {
    forall i :: 0 <= i < |sent| && sent[i].sender.ByRun? ==> Claims(runs, sent[i].sender.run, sent[i].row)
  }

  ghost predicate ClaimsKept(runs: map<RunId, Run>, runs': map<RunId, Run>) {
    forall q, id :: Claims(runs, q, id) ==> Claims(runs', q, id)
  }

  lemma SendsStayClaimed(runs: map<RunId, Run>, runs': map<RunId, Run>, sent: seq<Sent>, more: seq<Sent>)
    requires SendsClaimed(runs, sent) && ClaimsKept(runs, runs')
    requires |more| <= 1
    requires more != [] && more[0].sender.ByRun? ==> Claims(runs', more[0].sender.run, more[0].row)
    ensures SendsClaimed(runs', sent + more)
  {
    hide Claims;
    forall i | 0 <= i < |sent + more| && (sent + more)[i].sender.ByRun?
      ensures Claims(runs', (sent + more)[i].sender.run, (sent + more)[i].row)
    {
      assert i < |sent| ==> (sent + more)[i] == sent[i];
    }
  }

  lemma ActionSends(run: Run, v: View, act: RunAction)
    requires PcFits(run.pc, act)
    ensures var e := RunEffect(run, v, act);
            e.nonce.HandOver? ==> run.pc.AtSend? && e.run.claimed == run.claimed
  {
    match act
    case _ =>
  }

  lemma ActingKeepsClaims(w: World, w': World, r: RunId, e: Effect)
    requires GateInv(w) && Acted(w, w', r, e) && PassesGate(w.runs[r], e)
    ensures ClaimsKept(w.runs, w'.runs)
  {
  }

  lemma RunSendsClaimed(w: World, r: RunId, act: RunAction)
    requires RowInv(w) && GateInv(w) && SendsClaimed(w.runs, w.sent) && RunAt(w, r, act)
    ensures var w' := Next(w, Do(r, act)); SendsClaimed(w'.runs, w'.sent)
  {
    hide Key, RowInv, GateInv, SendsClaimed, ClaimsKept, PassesGate, RunEffect, Acted;
    var v := ViewOf(w, w.runs[r], act);
    var e := RunEffect(w.runs[r], v, act);
    ActionPassesGate(w.runs[r], v, act);
    ActionSends(w.runs[r], v, act);
    EffectActs(w, r, e);
    var w' := ApplyRun(w, r, e);
    ActingKeepsClaims(w, w', r, e);
    if e.nonce.HandOver? {
      SenderClaims(w, r);
      SendsStayClaimed(w.runs, w'.runs, w.sent, [HandedOver(r, w.runs[r])]);
    } else {
      SendsStayClaimed(w.runs, w'.runs, w.sent, []);
      assert w.sent + [] == w.sent;
    }
  }

  lemma SenderClaims(w: World, r: RunId)
    requires RowInv(w) && r in w.runs && w.runs[r].pc.AtSend?
    ensures w.runs[r].claimed == Some(w.runs[r].pc.row)
  {
    hide PollGood, EventGood, RowsGood, OutcomeGood, RowOfRun;
    assert PcGood(w, w.runs[r]);
  }

  lemma OthersSendClaimed(w: World, s: Step)
    requires SendsClaimed(w.runs, w.sent) && !s.Do?
    ensures SendsClaimed(Next(w, s).runs, Next(w, s).sent)
  {
    hide SendsClaimed, ClaimsKept, Next;
    var w' := Next(w, s);
    OthersKeepClaims(w, s);
    OthersSendByPoll(w, s);
    SendsStayClaimed(w.runs, w'.runs, w.sent, w'.sent[|w.sent|..]);
  }

  lemma OthersKeepClaims(w: World, s: Step)
    requires !s.Do?
    ensures ClaimsKept(w.runs, Next(w, s).runs)
  {
    hide ViewOf, ApplyRun, RunEffect, PollEffect, RunAt, PollAt, IsFinished, DtoValid, WalletIdValid, Merge;
    assert s.Begin? || Next(w, s).runs == w.runs;
  }

  lemma OthersSendByPoll(w: World, s: Step)
    requires !s.Do?
    ensures var more := Next(w, s).sent;
            && w.sent <= more && |more| <= |w.sent| + 1 && more == w.sent + more[|w.sent|..]
            && (|more| > |w.sent| ==> more[|w.sent|].sender.ByPoll?)
  {
    if s.Monitor? && PollAt(w, s.p, s.does) {
      PollSends(w, s.p, PollEffect(w.config, w.polls[s.p], s.does));
    } else {
      FrameSends(w, s);
    }
    hide ViewOf, ApplyRun, RunEffect, PollEffect, PollAt, IsFinished, DtoValid, WalletIdValid, ApplyPoll;
  }

  lemma PollSends(w: World, p: PollId, e: MonitorEffect)
    ensures var sent' := ApplyPoll(w, p, e).sent;
            sent' == w.sent || (sent' == w.sent + [sent'[|w.sent|]] && sent'[|w.sent|].sender.ByPoll?)
  {
    hide Merge, Bumped;
  }

  lemma FrameSends(w: World, s: Step)
    requires !s.Do? && !(s.Monitor? && PollAt(w, s.p, s.does))
    ensures Next(w, s).sent == w.sent
  {
    hide ViewOf, ApplyRun, RunEffect, PollEffect, ApplyPoll, IsFinished, DtoValid, WalletIdValid;
  }

  lemma {:induction false} ClaimedRuns(w: World, steps: seq<Step>)
    requires KeyInv(w) && RowInv(w) && GateInv(w) && SendsClaimed(w.runs, w.sent)
    ensures SendsClaimed(Exec(w, steps).runs, Exec(w, steps).sent)
    decreases |steps|
  {
    hide KeyInv, RowInv, GateInv, SendsClaimed, Next;
    if steps != [] {
      var s := steps[0];
      KeyStep(w, s);
      RowStep(w, s);
      GateStep(w, s);
      if s.Do? && RunAt(w, s.r, s.act) {
        RunSendsClaimed(w, s.r, s.act);
      } else if s.Do? {
        IdleStep(w, s);
      } else {
        OthersSendClaimed(w, s);
      }
      ClaimedRuns(Next(w, s), steps[1..]);
    }
  }

  lemma IdleStep(w: World, s: Step)
    requires s.Do? && !RunAt(w, s.r, s.act)
    ensures Next(w, s) == w
  {
  }

  /** At most one send per idempotency key until its row has failed: if two of the transactions
      requestSign runs have sent are for one row, then that row has been failed; and they are
      for one row exactly when their runs have one key. */
  lemma {:induction false} SentOnceUntilFailed(config: Config, steps: seq<Step>, i: nat, j: nat)
    requires var sent := Exec(Init(config), steps).sent;
             i < j < |sent| && sent[i].sender.ByRun? && sent[j].sender.ByRun?
    ensures var w := Exec(Init(config), steps);
            var q, r := w.sent[i].sender.run, w.sent[j].sender.run;
            && q in w.runs && r in w.runs
            && (w.sent[i].row == w.sent[j].row ==> w.sent[i].row in w.everFailed)
            && (w.sent[i].row == w.sent[j].row <==> Key(w.runs[q]) == Key(w.runs[r]))
  {
    hide Exec, Key;
    InitRows(config);
    InitNonce(config);
    GateRuns(Init(config), steps);
    ClaimedRuns(Init(config), steps);
    NonceRuns(Init(config), steps);
    SentOnce(Exec(Init(config), steps), i, j);
  }

  lemma SentOnce(w: World, i: nat, j: nat)
    requires NonceInv(w) && KeyInv(w) && RowInv(w) && GateInv(w) && SendsClaimed(w.runs, w.sent)
    requires i < j < |w.sent| && w.sent[i].sender.ByRun? && w.sent[j].sender.ByRun?
    ensures var q, r := w.sent[i].sender.run, w.sent[j].sender.run;
            && q in w.runs && r in w.runs
            && (w.sent[i].row == w.sent[j].row ==> w.sent[i].row in w.everFailed)
            && (w.sent[i].row == w.sent[j].row <==> Key(w.runs[q]) == Key(w.runs[r]))
  {
    hide FatesBelowCounter, HoldersMatch, Key, RowInv, KeyInv;
    var e, f := w.sent[i], w.sent[j];
    assert Claims(w.runs, e.sender.run, e.row) && Claims(w.runs, f.sender.run, f.row);
    assert e.sender != f.sender;
    ClaimedRow(w, e.sender.run, e.row);
    ClaimedRow(w, f.sender.run, f.row);
    OneRowPerKey(w, w.runs[e.sender.run], e.row, f.row);
  }

  lemma ClaimedRow(w: World, r: RunId, id: RowId)
    requires RowInv(w) && Claims(w.runs, r, id)
    ensures RowOfRun(w, id, w.runs[r])
  {
    hide PcGood, PollGood, EventGood, RowsGood, Key;
    assert OutcomeGood(w, w.runs[r]);
  }
}
