/** Why things are as they are, in every interleaving: a transaction is sent, and a row is created,
    only with the policy's leave and a fee quote; and the status of every row, with the columns
    that go with it, has its cause in what a signer, the RPC or the chain has answered. */
module Causes {
  import opened Base
  import opened ErrorClassifier
  import opened Requests
  import opened Fees
  import opened Lifecycle
  import opened KeySafety
  import opened RowSafety
  import opened RowLaws

  // -------------------------------------------------------------------------
  // What has happened
  // -------------------------------------------------------------------------

  /** The actions that applied: those of each run, those of runs at work on a row, and the answers
      polls have got while at work on a row. */
  datatype History = History(
    taken: set<(RunId, RunAction)>,
    done: set<(RowId, RunAction)>,
    told: set<(PollId, RowId, PollAction)>)

  function Extend(w: World, s: Step, h: History): History {
    match s
    case Do(r, act) =>
      if RunAt(w, r, act) then AfterAction(h, r, w.runs[r].pc, act) else h
    case Monitor(p, act) =>
      if PollAt(w, p, act) then AfterAnswer(h, p, w.polls[p].pc, act) else h
    case _ => h
  }

  function AfterAction(h: History, r: RunId, pc: Pc, act: RunAction): History {
    h.(taken := h.taken + {(r, act)},
       done := if PcRow(pc).Some? then h.done + {(PcRow(pc).value, act)} else h.done)
  }

  function AfterAnswer(h: History, p: PollId, pc: PollPc, act: PollAction): History {
    if pc.Idle? then h else h.(told := h.told + {(p, pc.id, act)})
  }

  function Record(w: World, steps: seq<Step>, h: History): History
    decreases |steps|
  {
    if steps == [] then h else Record(Next(w, steps[0]), steps[1..], Extend(w, steps[0], h))
  }

  /** What has happened in a run of the system. */
  function Past(config: Config, steps: seq<Step>): History {
    Record(Init(config), steps, History({}, {}, {}))
  }

  /** Nothing is in the history but what was among the steps. */
  ghost predicate AmongSteps(h: History, steps: seq<Step>) {
    && (forall r, act :: (r, act) in h.taken ==> Do(r, act) in steps)
    && (forall id, act :: (id, act) in h.done ==> exists r :: Do(r, act) in steps)
    && (forall p, id, act :: (p, id, act) in h.told ==> Monitor(p, act) in steps)
  }

  lemma {:induction false} RecordAmong(w: World, before: seq<Step>, steps: seq<Step>, h: History)
    requires AmongSteps(h, before)
    ensures AmongSteps(Record(w, steps, h), before + steps)
    decreases |steps|
  {
    hide Next, AmongSteps;
    if steps == [] {
      assert before + steps == before;
    } else {
      ExtendAmong(w, before, steps[0], h);
      RecordAmong(Next(w, steps[0]), before + [steps[0]], steps[1..], Extend(w, steps[0], h));
      assert before + [steps[0]] + steps[1..] == before + steps;
    }
  }

  lemma ExtendAmong(w: World, before: seq<Step>, s: Step, h: History)
    requires AmongSteps(h, before)
    ensures AmongSteps(Extend(w, s, h), before + [s])
  {
    hide RunAt, PollAt;
    assert forall t :: t in before ==> t in before + [s];
    assert s in before + [s];
  }

  lemma {:induction false} PastAmong(config: Config, steps: seq<Step>)
    ensures AmongSteps(Past(config, steps), steps)
  {
    RecordAmong(Init(config), [], steps, History({}, {}, {}));
    assert [] + steps == steps;
  }

  predicate Longer(h: History, h': History) {
    h.taken <= h'.taken && h.done <= h'.done && h.told <= h'.told
  }

  // -------------------------------------------------------------------------
  // Causes
  // -------------------------------------------------------------------------

  predicate PastPolicy(run: Run) {
    run.claimed.Some? || !(run.pc.AtLookup? || run.pc.AtPolicy? || run.pc.Done?)
  }

  predicate PastFees(run: Run) {
    run.claimed.Some? || !(run.pc.AtLookup? || run.pc.AtPolicy? || run.pc.AtEstimate? || run.pc.Done?)
  }

  /** The policy has refused the run's request, or there was no fee quote. */
  predicate Refused(h: History, r: RunId) {
    (r, Policy(false)) in h.taken || (r, Estimate(None)) in h.taken
  }

  ghost predicate SignedFor(h: History, id: RowId, hash: string) {
    exists signature: string :: (id, Sign(Some(hash), signature)) in h.done
  }

  ghost predicate RunCause(h: History, sent: seq<Sent>, r: RunId, run: Run) {
    && (PastPolicy(run) ==> (r, Policy(true)) in h.taken)
    && (PastFees(run) ==> (r, Estimate(Some(run.quote))) in h.taken)
    && (Refused(h, r) ==> run.pc == Done(Errored) && run.claimed.None?)
    && (run.pc.AtStoreSignature? ==> (run.pc.row, Sign(Some(run.pc.hash), run.pc.signature)) in h.done)
    && (run.pc.AtSend? ==> SignedFor(h, run.pc.row, run.pc.hash))
    && (run.pc.AtMarkSent? ==>
          (run.pc.row, Send(true)) in h.done && Logged(sent, r, run, run.pc.row, run.pc.nonce, run.pc.hash))
    && (run.pc.Done? && run.pc.outcome.Accepted? ==>
          var result := run.pc.outcome.result;
          && (result.row, Send(true)) in h.done && (result.row, MarkSent(true)) in h.done
          && result.status == Broadcasted && result.key == Key(run)
          && Logged(sent, r, run, result.row, result.nonce, result.hash))
  }

  /** The run has handed its transaction to the RPC. */
  ghost predicate Logged(sent: seq<Sent>, r: RunId, run: Run, id: RowId, nonce: nat, hash: string) {
    Sent(ByRun(r), SlotOf(run), id, TxOf(run, nonce), hash) in sent
  }

  /** A quote with both fees bumped, and the gas limit as quoted. */
  predicate IsBumped(fees: FeeQuote, quote: FeeQuote, percent: nat) {
    && fees.gasLimit == quote.gasLimit
    && fees.maxFee == Bump(quote.maxFee, percent) && fees.maxPriority == Bump(quote.maxPriority, percent)
  }

  ghost predicate QuotedFor(h: History, p: PollId, id: RowId, fees: FeeQuote, percent: nat) {
    exists quote :: (p, id, OnQuote(Some(quote))) in h.told && IsBumped(fees, quote, percent)
  }

  predicate FoundStuck(h: History, p: PollId, id: RowId) {
    (p, id, OnReceipt(NoReceipt(true))) in h.told
  }

  /** Why a transaction was sent. */
  ghost predicate SentCause(h: History, percent: nat, e: Sent) {
    match e.sender
    case ByRun(r) =>
      && (r, Policy(true)) in h.taken && (r, Estimate(Some(e.tx.fees))) in h.taken && SignedFor(h, e.row, e.hash)
    case ByPoll(p) =>
      && FoundStuck(h, p, e.row) && (p, e.row, OnMempool(InMempool)) in h.told
      && (p, e.row, OnContext(ContextFound)) in h.told && QuotedFor(h, p, e.row, e.tx.fees, percent)
      && (p, e.row, OnBumpSign(Some(e.hash))) in h.told
  }

  /** The poll's answer fails the row, for this reason. */
  predicate Fails(act: PollAction, reason: string, kind: ErrorType) {
    match act
    case OnReceipt(Receipt(false, _)) => reason == "transaction reverted on-chain" && kind == Permanent
    case OnMempool(InMempool) => reason == "max speed-up attempts reached" && kind == Permanent
    case OnContext(WalletMissing) => reason == "wallet metadata unavailable for speed-up" && kind == Permanent
    case OnContext(SeedMissing) => reason == "organization seed unavailable for speed-up" && kind == Permanent
    case OnBumpSign(None) => reason == "speed-up signing failed" && kind == Retryable
    case OnBumpSend(false) => reason == "speed-up broadcast failed" && kind == Retryable
    case _ => false
  }

  ghost predicate FailedByPoll(h: History, id: RowId, reason: string, kind: ErrorType) {
    exists p: PollId, act :: (p, id, act) in h.told && Fails(act, reason, kind)
  }

  ghost predicate FailedByRun(h: History, id: RowId, reason: string, kind: ErrorType) {
    || ((id, FailSign(reason)) in h.done && kind == Classify(reason))
    || (exists message: string ::
          (id, FailSend(message)) in h.done && reason == "broadcast failed: " + message && kind == Classify(message))
  }

  ghost predicate ConfirmedAt(h: History, id: RowId, block: nat) {
    exists p: PollId :: (p, id, OnReceipt(Receipt(true, block))) in h.told
  }

  ghost predicate DroppedByPoll(h: History, id: RowId) {
    exists p: PollId :: FoundStuck(h, p, id) && (p, id, OnMempool(NotFound)) in h.told
  }

  ghost predicate ReplacedBy(h: History, id: RowId, hash: string) {
    exists p: PollId :: (p, id, OnBumpSign(Some(hash))) in h.told && (p, id, OnBumpSend(true)) in h.told
  }

  predicate BroadcastByRun(h: History, id: RowId) {
    (id, Send(true)) in h.done && (id, MarkSent(true)) in h.done
  }

  /** Why a row has the status it has, with the columns that go with it. */
  ghost predicate StatusCause(h: History, id: RowId, status: Status, hash: Option<string>, signature: Option<string>,
                              reason: Option<string>, kind: Option<ErrorType>, block: Option<nat>)
  {
    match status
    case Pending => true
    case Signed => hash.Some? && signature.Some? && (id, Sign(hash, signature.value)) in h.done
    case Broadcasted => BroadcastByRun(h, id) || (hash.Some? && ReplacedBy(h, id, hash.value))
    case Confirmed => block.Some? && ConfirmedAt(h, id, block.value)
    case Dropped => DroppedByPoll(h, id) && reason == Some("transaction not found on-chain or in mempool")
    case Failed =>
      reason.Some? && kind.Some?
          && (FailedByRun(h, id, reason.value, kind.value) || FailedByPoll(h, id, reason.value, kind.value))
  }

  ghost predicate RowCause(h: History, id: RowId, row: Row) {
    StatusCause(h, id, row.status, row.hash, row.signature, row.failureReason, row.errorType, row.blockNumber)
  }

  /** An update brings the columns of the status it sets, or touches the payload only. */
  ghost predicate UpdateCause(h: History, id: RowId, u: RowUpdate) {
    if u.status.Some?
    then StatusCause(h, id, u.status.value, u.hash, u.signature, u.failureReason, u.errorType, u.blockNumber)
    else u == NoChange.(payload := u.payload)
  }

  /** What a poll has been told before it comes to this point. */
  ghost predicate PollCause(h: History, config: Config, p: PollId, pc: PollPc) {
    match pc
    case Idle => true
    case AtReceipt(_, _) => true
    case AtMempool(id, _) => FoundStuck(h, p, id)
    case AtContext(id, _) => FoundStuck(h, p, id) && (p, id, OnMempool(InMempool)) in h.told
    case AtQuote(id, _) =>
      FoundStuck(h, p, id) && (p, id, OnMempool(InMempool)) in h.told && (p, id, OnContext(ContextFound)) in h.told
    case AtBumpSign(id, _, tx) => BumpCause(h, config, p, id, tx)
    case AtBumpSend(id, _, tx, hash) =>
      BumpCause(h, config, p, id, tx) && (p, id, OnBumpSign(Some(hash))) in h.told
    case AtWrite(id, _, update, _) => UpdateCause(h, id, update)
  }

  ghost predicate BumpCause(h: History, config: Config, p: PollId, id: RowId, tx: Tx) {
    && FoundStuck(h, p, id) && (p, id, OnMempool(InMempool)) in h.told && (p, id, OnContext(ContextFound)) in h.told
    && QuotedFor(h, p, id, tx.fees, config.bumpPercent)
  }

  ghost predicate CauseInv(w: World, h: History) {
    && (forall r :: (forall act :: (r, act) in h.taken ==> r in w.runs))
    && (forall r :: r in w.runs ==> RunCause(h, w.sent, r, w.runs[r]))
    && (forall p :: p in w.polls ==> PollCause(h, w.config, p, w.polls[p].pc))
    && (forall id :: id in w.rows ==> RowCause(h, id, w.rows[id]))
    && (forall i :: 0 <= i < |w.sent| ==> SentCause(h, w.config.bumpPercent, w.sent[i]))
  }

  // -------------------------------------------------------------------------
  // Causes stay
  // -------------------------------------------------------------------------

  lemma StatusCauseStays(h: History, h': History, id: RowId, row: Row)
    requires Longer(h, h') && RowCause(h, id, row)
    ensures RowCause(h', id, row)
  {
  }

  lemma UpdateCauseStays(h: History, h': History, id: RowId, u: RowUpdate)
    requires Longer(h, h') && UpdateCause(h, id, u)
    ensures UpdateCause(h', id, u)
  {
  }

  lemma PollCauseStays(h: History, h': History, config: Config, p: PollId, pc: PollPc)
    requires Longer(h, h') && PollCause(h, config, p, pc)
    ensures PollCause(h', config, p, pc)
  {
    if pc.AtWrite? {
      UpdateCauseStays(h, h', pc.id, pc.update);
    }
    hide UpdateCause;
  }

  lemma SentCauseStays(h: History, h': History, percent: nat, e: Sent)
    requires Longer(h, h') && SentCause(h, percent, e)
    ensures SentCause(h', percent, e)
  {
  }

  /** Another run's action, or a poll's answer, leaves a run's causes alone. */
  lemma RunCauseStays(h: History, h': History, sent: seq<Sent>, sent': seq<Sent>, r: RunId, run: Run)
    requires Longer(h, h') && sent <= sent' && RunCause(h, sent, r, run) && (Refused(h', r) ==> Refused(h, r))
    ensures RunCause(h', sent', r, run)
  {
    hide Key;
    assert forall e :: e in sent ==> e in sent' by {
      forall e | e in sent
        ensures e in sent'
      {
        var i :| 0 <= i < |sent| && sent[i] == e;
        assert sent'[i] == e;
      }
    }
  }

  /** A row that is updated has the cause of the update, or keeps its own. */
  lemma MergeCause(h: History, id: RowId, row: Row, u: RowUpdate)
    requires RowCause(h, id, row) && UpdateCause(h, id, u)
    ensures RowCause(h, id, Merge(row, u))
  {
  }

  // -------------------------------------------------------------------------
  // Steps of a run
  // -------------------------------------------------------------------------

  lemma ActionExtends(h: History, r: RunId, pc: Pc, act: RunAction)
    ensures Longer(h, AfterAction(h, r, pc, act))
  {
  }

  /** A run that has not been refused and now is was about to be. */
  lemma ActionCause(h: History, sent: seq<Sent>, r: RunId, run: Run, v: View, act: RunAction)
    requires PcFits(run.pc, act) && RunCause(h, sent, r, run) && (BeforeGate(run.pc) ==> run.claimed.None?)
    requires act.Send? ==> HandedOver(r, run) in sent
    ensures RunCause(AfterAction(h, r, run.pc, act), sent, r, RunEffect(run, v, act).run)
  {
    hide Preimage;
    match act
    case _ =>
  }

  /** What a run writes it has the cause for. */
  lemma ActionUpdateCause(h: History, sent: seq<Sent>, r: RunId, run: Run, v: View, act: RunAction)
    requires PcFits(run.pc, act) && RunCause(h, sent, r, run)
    ensures var e := RunEffect(run, v, act);
            e.write.UpdateRow? ==> UpdateCause(AfterAction(h, r, run.pc, act), e.write.id, e.write.update)
  {
    hide Key, Classify, Logged;
    match act
    case _ =>
  }

  lemma ActionSendCause(h: History, sent: seq<Sent>, percent: nat, r: RunId, run: Run)
    requires run.pc.AtSend? && RunCause(h, sent, r, run)
    ensures SentCause(h, percent, HandedOver(r, run))
  {
    hide Key;
  }

  lemma RunStepCause(w: World, h: History, r: RunId, act: RunAction)
    requires RowInv(w) && GateInv(w) && CauseInv(w, h) && RunAt(w, r, act)
    ensures CauseInv(Next(w, Do(r, act)), Extend(w, Do(r, act), h))
  {
    hide RowInv, RunCause, PollCause, RowCause, SentCause, UpdateCause, Gated, RunEffect, Key, BeforeGate;
    var run, v := w.runs[r], ViewOf(w, w.runs[r], act);
    var e := RunEffect(run, v, act);
    var h' := AfterAction(h, r, run.pc, act);
    var w' := ApplyRun(w, r, e);
    ActionExtends(h, r, run.pc, act);
    ActionSends(run, v, act);
    ActingRunCause(w, h, r, act, e);
    ActedRowCause(w, h, r, act, e);
    ActedSentCause(w, h, r, act, e);
    OthersStay(w, h, h', r, act);
    hide Longer, AfterAction, ApplyRun;
    assert w'.config == w.config && w'.polls == w.polls && w'.runs == w.runs[r := e.run];
  }

  lemma ActingRunCause(w: World, h: History, r: RunId, act: RunAction, e: Effect)
    requires GateInv(w) && CauseInv(w, h) && RunAt(w, r, act)
    requires e == RunEffect(w.runs[r], ViewOf(w, w.runs[r], act), act)
    ensures RunCause(AfterAction(h, r, w.runs[r].pc, act), ApplyRun(w, r, e).sent, r, e.run)
  {
    hide RunCause, PollCause, RowCause, SentCause, Key, NoncesAfter, RowsAfter, FateAfter, FailedAfter;
    var run, v := w.runs[r], ViewOf(w, w.runs[r], act);
    var sent' := ApplyRun(w, r, e).sent;
    SendHandsOver(run, v, act);
    RunCauseStays(h, h, w.sent, sent', r, run);
    ActionCause(h, sent', r, run, v, act);
  }

  lemma SendHandsOver(run: Run, v: View, act: RunAction)
    requires PcFits(run.pc, act)
    ensures act.Send? ==> RunEffect(run, v, act).nonce.HandOver?
    ensures RunEffect(run, v, act).nonce.HandOver? ==> act.Send?
  {
    match act
    case _ =>
  }

  lemma ActedRowCause(w: World, h: History, r: RunId, act: RunAction, e: Effect)
    requires CauseInv(w, h) && RunAt(w, r, act) && e == RunEffect(w.runs[r], ViewOf(w, w.runs[r], act), act)
    ensures var w', h' := ApplyRun(w, r, e), AfterAction(h, r, w.runs[r].pc, act);
            forall id :: id in w'.rows ==> RowCause(h', id, w'.rows[id])
  {
    hide RunCause, PollCause, RowCause, SentCause, UpdateCause, Key, NewRow, NoncesAfter, FateAfter, FailedAfter;
    var run, v := w.runs[r], ViewOf(w, w.runs[r], act);
    var w', h' := ApplyRun(w, r, e), AfterAction(h, r, run.pc, act);
    ActionUpdateCause(h, w.sent, r, run, v, act);
    NewRowCause(h', run);
    hide RunEffect, AfterAction, Merge;
    forall id | id in w'.rows
      ensures RowCause(h', id, w'.rows[id])
    {
      if id in w.rows {
        ActionExtends(h, r, run.pc, act);
        StatusCauseStays(h, h', id, w.rows[id]);
        if e.write.UpdateRow? && e.write.id == id {
          MergeCause(h', id, w.rows[id], e.write.update);
        }
      }
    }
  }

  lemma NewRowCause(h: History, run: Run)
    ensures forall id :: RowCause(h, id, NewRow(run))
  {
    hide Key;
  }

  lemma ActedSentCause(w: World, h: History, r: RunId, act: RunAction, e: Effect)
    requires CauseInv(w, h) && RunAt(w, r, act) && e == RunEffect(w.runs[r], ViewOf(w, w.runs[r], act), act)
    ensures var w', h' := ApplyRun(w, r, e), AfterAction(h, r, w.runs[r].pc, act);
            && w.sent <= w'.sent
            && forall i :: 0 <= i < |w'.sent| ==> SentCause(h', w.config.bumpPercent, w'.sent[i])
  {
    hide RunCause, PollCause, RowCause, SentCause, Key, NoncesAfter, RowsAfter, FateAfter, FailedAfter;
    var run, v := w.runs[r], ViewOf(w, w.runs[r], act);
    var w', h' := ApplyRun(w, r, e), AfterAction(h, r, run.pc, act);
    ActionExtends(h, r, run.pc, act);
    ActionSends(run, v, act);
    hide RunEffect, AfterAction;
    forall i | 0 <= i < |w'.sent|
      ensures SentCause(h', w.config.bumpPercent, w'.sent[i])
    {
      if i >= |w.sent| {
        ActionSendCause(h, w.sent, w.config.bumpPercent, r, run);
      }
      SentCauseStays(h, h', w.config.bumpPercent, w'.sent[i]);
    }
  }

  /** The other runs and the polls. */
  lemma OthersStay(w: World, h: History, h': History, r: RunId, act: RunAction)
    requires CauseInv(w, h) && r in w.runs && h' == AfterAction(h, r, w.runs[r].pc, act)
    ensures forall q, sent' :: q in w.runs && q != r && w.sent <= sent' ==> RunCause(h', sent', q, w.runs[q])
    ensures forall p :: p in w.polls ==> PollCause(h', w.config, p, w.polls[p].pc)
  {
    hide RunCause, PollCause, RowCause, SentCause;
    ActionExtends(h, r, w.runs[r].pc, act);
    forall q, sent' | q in w.runs && q != r && w.sent <= sent'
      ensures RunCause(h', sent', q, w.runs[q])
    {
      RunCauseStays(h, h', w.sent, sent', q, w.runs[q]);
    }
    forall p | p in w.polls
      ensures PollCause(h', w.config, p, w.polls[p].pc)
    {
      PollCauseStays(h, h', w.config, p, w.polls[p].pc);
    }
  }

  // -------------------------------------------------------------------------
  // Steps of a poll
  // -------------------------------------------------------------------------

  lemma AnswerExtends(h: History, p: PollId, pc: PollPc, act: PollAction)
    ensures var h' := AfterAnswer(h, p, pc, act);
            Longer(h, h') && h'.taken == h.taken && h'.done == h.done
  {
  }

  /** A poll's answer brings the cause of where it goes. */
  lemma AnswerCause(h: History, config: Config, p: PollId, poller: Poller, act: PollAction)
    requires PollFits(poller, act) && PollCause(h, config, p, poller.pc)
    requires act.PickRow? ==> poller.todo[act.id].hash.Some?
    requires !poller.pc.Idle? ==> poller.pc.row.payload.Some?
    ensures PollCause(AfterAnswer(h, p, poller.pc, act), config, p, PollEffect(config, poller, act).poller.pc)
  {
    match act
    case OnReceipt(answer) => ReceiptCause(h, config, p, poller.pc.id, poller.pc.row, answer);
    case OnMempool(answer) => MempoolCause(h, config, p, poller.pc.id, poller.pc.row, answer);
    case OnContext(answer) => ContextCause(h, config, p, poller.pc.id, poller.pc.row, answer);
    case _ => hide Bump, AfterReceipt, AfterMempool, AfterContext;
  }

  lemma ReceiptCause(h: History, config: Config, p: PollId, id: RowId, row: Row, answer: ReceiptAnswer)
    ensures PollCause(h.(told := h.told + {(p, id, OnReceipt(answer))}), config, p, AfterReceipt(id, row, answer))
  {
    hide AfterMempool, AfterContext;
    assert (p, id, OnReceipt(answer)) in h.(told := h.told + {(p, id, OnReceipt(answer))}).told;
  }

  lemma MempoolCause(h: History, config: Config, p: PollId, id: RowId, row: Row, answer: MempoolAnswer)
    requires FoundStuck(h, p, id) && row.payload.Some?
    ensures PollCause(h.(told := h.told + {(p, id, OnMempool(answer))}), config, p,
                      AfterMempool(config, id, row, answer))
  {
    assert (p, id, OnMempool(answer)) in h.(told := h.told + {(p, id, OnMempool(answer))}).told;
  }

  lemma ContextCause(h: History, config: Config, p: PollId, id: RowId, row: Row, answer: ContextAnswer)
    requires FoundStuck(h, p, id) && (p, id, OnMempool(InMempool)) in h.told
    ensures PollCause(h.(told := h.told + {(p, id, OnContext(answer))}), config, p, AfterContext(id, row, answer))
  {
    assert (p, id, OnContext(answer)) in h.(told := h.told + {(p, id, OnContext(answer))}).told;
  }

  /** And the cause of what it sends. */
  lemma AnswerSendCause(h: History, config: Config, p: PollId, poller: Poller, act: PollAction)
    requires PollFits(poller, act) && PollCause(h, config, p, poller.pc)
    ensures var e := PollEffect(config, poller, act);
            && (e.send.Some? ==> SentCause(h, config.bumpPercent, Resent(p, e.send.value)))
            && (e.write.Some? ==> poller.pc.AtWrite? && act == OnWrite(true)
                                  && e.write.value.id == poller.pc.id && e.write.value.update == poller.pc.update)
  {
    hide ReplacementUpdate, ReplacementTx, BumpQuote, IsBumped;
    match act
    case _ =>
  }

  lemma PollStepCause(w: World, h: History, p: PollId, act: PollAction)
    requires RowInv(w) && CauseInv(w, h) && PollAt(w, p, act)
    ensures CauseInv(Next(w, Monitor(p, act)), Extend(w, Monitor(p, act), h))
  {
    hide RowInv, RunCause, PollCause, RowCause, SentCause, UpdateCause, PollEffect, Merge, Bumped;
    var poller := w.polls[p];
    var e := PollEffect(w.config, poller, act);
    var h' := AfterAnswer(h, p, poller.pc, act);
    var w' := ApplyPoll(w, p, e);
    AnswerExtends(h, p, poller.pc, act);
    SnapshotsHashed(w, p);
    AnswerCause(h, w.config, p, poller, act);
    AnswerSendCause(h, w.config, p, poller, act);
    if e.send.Some? {
      SentCauseStays(h, h', w.config.bumpPercent, Resent(p, e.send.value));
    }
    WatchedRowCause(w, h, h', p, e);
    hide AfterAnswer, Longer;
    assert forall r :: Refused(h', r) <==> Refused(h, r);
    forall r | r in w.runs
      ensures RunCause(h', w'.sent, r, w.runs[r])
    {
      RunCauseStays(h, h', w.sent, w'.sent, r, w.runs[r]);
    }
    forall q | q in w.polls && q != p
      ensures PollCause(h', w.config, q, w.polls[q].pc)
    {
      PollCauseStays(h, h', w.config, q, w.polls[q].pc);
    }
    forall i | 0 <= i < |w'.sent|
      ensures SentCause(h', w.config.bumpPercent, w'.sent[i])
    {
      if i < |w.sent| {
        SentCauseStays(h, h', w.config.bumpPercent, w.sent[i]);
      }
    }
  }

  lemma WatchedRowCause(w: World, h: History, h': History, p: PollId, e: MonitorEffect)
    requires CauseInv(w, h) && Longer(h, h') && p in w.polls
    requires e.write.Some? ==>
               && w.polls[p].pc.AtWrite? && e.write.value.id == w.polls[p].pc.id
               && e.write.value.update == w.polls[p].pc.update
    ensures var w' := ApplyPoll(w, p, e);
            forall id :: id in w'.rows ==> RowCause(h', id, w'.rows[id])
  {
    hide RunCause, RowCause, SentCause, UpdateCause, Merge, Bumped;
    var w' := ApplyPoll(w, p, e);
    assert PollCause(h, w.config, p, w.polls[p].pc);
    forall id | id in w'.rows
      ensures RowCause(h', id, w'.rows[id])
    {
      StatusCauseStays(h, h', id, w.rows[id]);
      if e.write.Some? && e.write.value.id == id {
        UpdateCauseStays(h, h', id, e.write.value.update);
        MergeCause(h', id, w.rows[id], e.write.value.update);
      }
    }
  }

  lemma SnapshotsHashed(w: World, p: PollId)
    requires RowInv(w) && p in w.polls
    ensures forall id :: id in w.polls[p].todo ==> w.polls[p].todo[id].hash.Some?
    ensures !w.polls[p].pc.Idle? ==> w.polls[p].pc.row.payload.Some?
  {
    hide PcGood, OutcomeGood, EventGood, RowsGood;
    assert PollGood(w, w.polls[p]);
  }

  // -------------------------------------------------------------------------
  // All steps
  // -------------------------------------------------------------------------

  lemma FreshRunCause(h: History, sent: seq<Sent>, r: RunId, run: Run)
    requires run.pc.AtLookup? && run.claimed.None? && forall act :: (r, act) !in h.taken
    ensures RunCause(h, sent, r, run)
  {
  }

  lemma FrameCause(w: World, h: History, s: Step)
    requires CauseInv(w, h) && !s.Do? && !s.Monitor?
    ensures CauseInv(Next(w, s), h)
  {
    hide RunCause, PollCause, RowCause, SentCause, DtoValid, WalletIdValid;
    IdleCause(h, w.config);
    match s
    case Begin(r, wallet, req) =>
      if r !in w.runs {
        FreshRunCause(h, w.sent, r, Run(wallet, req, AtLookup, FeeQuote(0, 0, 0), None));
      }
    case _ =>
  }

  lemma IdleCause(h: History, config: Config)
    ensures forall p :: PollCause(h, config, p, Idle)
  {
  }

  lemma CauseStep(w: World, h: History, s: Step)
    requires RowInv(w) && GateInv(w) && CauseInv(w, h)
    ensures CauseInv(Next(w, s), Extend(w, s, h))
  {
    hide RowInv, GateInv, CauseInv, AfterAction, AfterAnswer;
    match s
    case Do(r, act) =>
      if RunAt(w, r, act) {
        RunStepCause(w, h, r, act);
      }
    case Monitor(p, act) =>
      if PollAt(w, p, act) {
        PollStepCause(w, h, p, act);
      }
    case _ => FrameCause(w, h, s);
  }

  lemma {:induction false} CauseRuns(w: World, steps: seq<Step>, h: History)
    requires KeyInv(w) && RowInv(w) && GateInv(w) && CauseInv(w, h)
    ensures CauseInv(Exec(w, steps), Record(w, steps, h))
    decreases |steps|
  {
    hide KeyInv, RowInv, GateInv, CauseInv, Next, Extend;
    if steps != [] {
      KeyStep(w, steps[0]);
      RowStep(w, steps[0]);
      GateStep(w, steps[0]);
      CauseStep(w, h, steps[0]);
      CauseRuns(Next(w, steps[0]), steps[1..], Extend(w, steps[0], h));
    }
  }

  lemma {:induction false} CausesHold(config: Config, steps: seq<Step>)
    ensures CauseInv(Exec(Init(config), steps), Past(config, steps))
    ensures Exec(Init(config), steps).config == config
  {
    InitRows(config);
    CauseRuns(Init(config), steps, History({}, {}, {}));
    ConfigFixed(Init(config), steps);
  }

  // -------------------------------------------------------------------------
  // What it means
  // -------------------------------------------------------------------------

  /** Every transaction ever sent has its cause: a run's was allowed by the policy, carries the fee
      quote the run was given, and was signed under its hash; a poll's replaces one found stuck
      and still in the mempool, with a bumped new quote, and was signed under its hash. */
  lemma {:induction false} SentWithCause(config: Config, steps: seq<Step>, i: nat)
    requires i < |Exec(Init(config), steps).sent|
    ensures SentCause(Past(config, steps), config.bumpPercent, Exec(Init(config), steps).sent[i])
  {
    hide Exec, Past, RunCause, PollCause, RowCause, SentCause;
    CausesHold(config, steps);
  }

  /** In particular the policy's leave, the quote and the signature of what a run has sent are
      among the steps. */
  lemma {:induction false} SentWithLeave(config: Config, steps: seq<Step>, i: nat)
    requires i < |Exec(Init(config), steps).sent| && Exec(Init(config), steps).sent[i].sender.ByRun?
    ensures var e := Exec(Init(config), steps).sent[i];
            && Do(e.sender.run, Policy(true)) in steps && Do(e.sender.run, Estimate(Some(e.tx.fees))) in steps
            && exists r, signature :: Do(r, Sign(Some(e.hash), signature)) in steps
  {
    hide Exec, Past;
    SentWithCause(config, steps, i);
    PastAmong(config, steps);
  }

  /** Every row has been claimed by a run that asked for what the row was created for and that the
      policy allowed and a quote was given for; and so has any other run that claims a row. */
  lemma {:induction false} ClaimedWithLeave(config: Config, steps: seq<Step>, id: RowId)
    requires id in Exec(Init(config), steps).rows
    ensures var w, past := Exec(Init(config), steps), Past(config, steps);
            && (exists r :: Claims(w.runs, r, id))
            && forall r :: Claims(w.runs, r, id) ==>
                 && id in w.asked && w.asked[id] == w.runs[r].req
                 && (r, Policy(true)) in past.taken && (r, Estimate(Some(w.runs[r].quote))) in past.taken
                 && Do(r, Policy(true)) in steps && Do(r, Estimate(Some(w.runs[r].quote))) in steps
  {
    PastAmong(config, steps);
    InitRows(config);
    GateRuns(Init(config), steps);
    CausesHold(config, steps);
    hide Exec, Past;
    var w, past := Exec(Init(config), steps), Past(config, steps);
    assert exists r :: Claims(w.runs, r, id) by {
      RowClaimed(w, id);
    }
    forall r | Claims(w.runs, r, id)
      ensures id in w.asked && w.asked[id] == w.runs[r].req
      ensures (r, Policy(true)) in past.taken && (r, Estimate(Some(w.runs[r].quote))) in past.taken
      ensures Do(r, Policy(true)) in steps && Do(r, Estimate(Some(w.runs[r].quote))) in steps
    {
      ClaimedRow(w, r, id);
      hide RowInv, KeyInv, GateInv, Key, PollCause, RowCause, SentCause;
      assert RunCause(past, w.sent, r, w.runs[r]);
    }
  }

  lemma RowClaimed(w: World, id: RowId)
    requires GateInv(w) && id in w.rows
    ensures exists r :: Claims(w.runs, r, id)
  {
  }

  /** A run whose request the policy refused, or that got no quote, ends in error: it claims no
      row and sends nothing. */
  lemma {:induction false} RefusedStops(config: Config, steps: seq<Step>, r: RunId)
    requires Refused(Past(config, steps), r)
    ensures var w := Exec(Init(config), steps);
            && r in w.runs && w.runs[r].pc == Done(Errored) && w.runs[r].claimed.None?
            && forall i :: 0 <= i < |w.sent| ==> w.sent[i].sender != ByRun(r)
  {
    InitRows(config);
    GateRuns(Init(config), steps);
    ClaimedRuns(Init(config), steps);
    CausesHold(config, steps);
    hide Exec, Past, KeyInv, RowInv, GateInv, PollCause, RowCause, SentCause;
    var w := Exec(Init(config), steps);
    assert RunCause(Past(config, steps), w.sent, r, w.runs[r]);
  }

  /** Every row's status has its cause. A signed row shows the hash and signature it was signed
      with. A broadcasted row was accepted by the RPC and marked by a run, or shows the hash of a
      replacement the RPC accepted. A row is confirmed only in the block of a successful receipt,
      and dropped only when there was no receipt and the transaction was not found. A failed row
      shows the reason, and the class of error, of the failure that befell it. */
  lemma {:induction false} StatusHasCause(config: Config, steps: seq<Step>, id: RowId)
    requires id in Exec(Init(config), steps).rows
    ensures var row := Exec(Init(config), steps).rows[id];
            StatusCause(Past(config, steps), id, row.status, row.hash, row.signature, row.failureReason, row.errorType,
                        row.blockNumber)
  {
    hide Exec, Past, RunCause, PollCause, SentCause, StatusCause;
    CausesHold(config, steps);
    assert RowCause(Past(config, steps), id, Exec(Init(config), steps).rows[id]);
  }

  /** A run that reports success was accepted by the RPC and has marked the row it reports; the
      nonce and the hash it reports are those of the transaction it sent. */
  lemma {:induction false} SuccessIsTrue(config: Config, steps: seq<Step>, r: RunId)
    requires var w := Exec(Init(config), steps);
             r in w.runs && w.runs[r].pc.Done? && w.runs[r].pc.outcome.Accepted?
    ensures var w, past := Exec(Init(config), steps), Past(config, steps);
            var run := w.runs[r];
            var result := run.pc.outcome.result;
            && (result.row, Send(true)) in past.done && (result.row, MarkSent(true)) in past.done
            && result.status == Broadcasted && result.key == Key(run)
            && Sent(ByRun(r), SlotOf(run), result.row, TxOf(run, result.nonce), result.hash) in w.sent
  {
    hide Exec, Past, PollCause, RowCause, SentCause;
    CausesHold(config, steps);
    assert RunCause(Past(config, steps), Exec(Init(config), steps).sent, r, Exec(Init(config), steps).runs[r]);
  }

  /** The result shows the row: its id, key, status, hash and nonce. */
  predicate Shows(result: SignResult, id: RowId, row: Row) {
    && result.row == id && result.key == row.key && result.status == row.status
    && (row.hash.Some? ==> result.hash == row.hash.value) && (row.hash.None? ==> result.hash == "")
    && (row.payload.Some? ==> result.nonce == row.payload.value.nonce) && (row.payload.None? ==> result.nonce == 0)
  }

  ghost predicate IsDuplicate(w: World, run: Run, result: SignResult) {
    exists id :: id in w.rows && w.rows[id].key == Key(run) && w.rows[id].status != Failed
        && Shows(result, id, w.rows[id])
  }

  /** A lookup ends the run as a duplicate exactly when a row with its key has not failed, and
      the result shows that row as it is. */
  lemma {:induction false} DuplicateIsShown(config: Config, steps: seq<Step>, r: RunId, act: RunAction)
    requires RunAt(Exec(Init(config), steps), r, act) && (act.Lookup? || act.FindRaced?)
    ensures var w := Exec(Init(config), steps);
            var pc' := Next(w, Do(r, act)).runs[r].pc;
            && (pc'.Done? && pc'.outcome.Duplicate? ==> IsDuplicate(w, w.runs[r], pc'.outcome.result))
            && ((exists id :: id in w.rows && w.rows[id].key == Key(w.runs[r]) && w.rows[id].status != Failed) ==>
                  pc'.Done? && pc'.outcome.Duplicate?)
  {
    InitRows(config);
    RowRuns(Init(config), steps);
    hide Exec;
    LookupShows(Exec(Init(config), steps), r, act);
  }

  lemma LookupShows(w: World, r: RunId, act: RunAction)
    requires KeyInv(w) && RunAt(w, r, act) && (act.Lookup? || act.FindRaced?)
    ensures var pc' := Next(w, Do(r, act)).runs[r].pc;
            && (pc'.Done? && pc'.outcome.Duplicate? ==> IsDuplicate(w, w.runs[r], pc'.outcome.result))
            && ((exists id :: id in w.rows && w.rows[id].key == Key(w.runs[r]) && w.rows[id].status != Failed) ==>
                  pc'.Done? && pc'.outcome.Duplicate?)
  {
    hide Key, Preimage, ValidRequest, CreatedFor, NoncesAfter, RowsAfter, FateAfter, FailedAfter, Counter;
    var found := FindByKey(w, Key(w.runs[r]));
    if found.Some? {
      assert w.rows[found.value.id].key == Key(w.runs[r]);
    }
  }
}
