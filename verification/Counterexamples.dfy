/** Without assumption A or B the lifecycle claims fail, even if the other one holds, and some
    claims fail under both. For every valid request there is an interleaving that shows it. */
module Counterexamples {
  import opened Base
  import opened Requests
  import opened Fees
  import opened Lifecycle
  import opened KeySafety
  import opened Fidelity
  import opened NonceSafety
  import opened Scenes

  // -------------------------------------------------------------------------
  // One request, up to its result
  // -------------------------------------------------------------------------

  /** The run asks for what the row was created for. */
  predicate Asks(c: Scene, r: RunId, wallet: string, req: SignRequest) {
    r in c.runs && c.runs[r].wallet == wallet && c.runs[r].req == req && c.row.key == Preimage(wallet, req)
  }

  /** From the gate to the signer's answer, none or a hash. */
  lemma Signs(config: Config, before: seq<Step>, c: Scene, r: RunId, wallet: string, req: SignRequest,
              hash: Option<string>)
    returns (steps: seq<Step>, c': Scene, n: nat)
    requires Reaches(config, before, c) && Asks(c, r, wallet, req) && c.runs[r].pc == AtReserve(0)
    ensures Reaches(config, steps, c') && n == Counter(Exec(Init(config), before), SlotOf(c.runs[r]))
    ensures var pc := if hash.None? then AtFailSign(0, n) else AtStoreSignature(0, n, hash.value, "");
            c' == Scene(c.runs[r := c.runs[r].(pc := pc)],
                        Merge(c.row, NoChange.(payload := Some(TxOf(c.runs[r], n)))), c.polls, c.sent)
    ensures Calm(config, before) ==> Calm(config, steps)
    ensures Lone(config, before) ==> Lone(config, steps)
  {
    hide Key, Reaches, Preimage, Calm, Lone, Exec, Merge;
    var run := c.runs[r];
    var like := Initial(wallet, req);
    KeyOf(run, like);
    steps, n := ActReserve(config, before, c, r);
    run := run.(pc := AtStorePayload(0, n));
    c' := c.(runs := c.runs[r := run]);
    KeyOf(run, like);
    steps, c' := Act(config, steps, c', r, StorePayload,
                     Effect(run.(pc := AtSign(0, n)), NoNonce,
                            UpdateRow(0, NoChange.(payload := Some(TxOf(run, n))))));
    KeptKey(c.row, NoChange.(payload := Some(TxOf(run, n))));
    run := run.(pc := AtSign(0, n));
    KeyOf(run, like);
    var pc := if hash.None? then AtFailSign(0, n) else AtStoreSignature(0, n, hash.value, "");
    steps, c' := Act(config, steps, c', r, Sign(hash, ""), Effect(run.(pc := pc), NoNonce, NoWrite));
    assert c'.runs == c.runs[r := c.runs[r].(pc := pc)];
  }

  lemma KeptKey(row: Row, u: RowUpdate)
    ensures Merge(row, u).key == row.key
  {
  }

  function SignedUpdate(hash: string): RowUpdate {
    NoChange.(status := Some(Signed), hash := Some(hash), signature := Some(""))
  }

  /** The signed row, and the transaction handed to the RPC. */
  lemma Sends(config: Config, before: seq<Step>, c: Scene, r: RunId, wallet: string, req: SignRequest, n: nat,
              hash: string, accepted: bool)
    returns (steps: seq<Step>, c': Scene)
    requires Reaches(config, before, c) && Asks(c, r, wallet, req) && c.runs[r].pc == AtStoreSignature(0, n, hash, "")
    ensures Reaches(config, steps, c')
    ensures var pc := if accepted then AtMarkSent(0, n, hash) else AtFailSend(0, n);
            c' == Scene(c.runs[r := c.runs[r].(pc := pc)], Merge(c.row, SignedUpdate(hash)), c.polls,
                        c.sent + [Sent(ByRun(r), SlotOf(c.runs[r]), 0, TxOf(c.runs[r], n), hash)])
    ensures Calm(config, before) ==> Calm(config, steps)
    ensures Lone(config, before) ==> Lone(config, steps)
  {
    hide Key, Reaches, Preimage, Calm, Lone, Merge;
    var run := c.runs[r];
    var like := Initial(wallet, req);
    KeyOf(run, like);
    steps, c' := Act(config, before, c, r, StoreSignature,
                     Effect(run.(pc := AtSend(0, n, hash)), NoNonce, UpdateRow(0, SignedUpdate(hash))));
    KeptKey(c.row, SignedUpdate(hash));
    run := run.(pc := AtSend(0, n, hash));
    KeyOf(run, like);
    var pc := if accepted then AtMarkSent(0, n, hash) else AtFailSend(0, n);
    steps, c' := Act(config, steps, c', r, Send(accepted), Effect(run.(pc := pc), HandOver, NoWrite));
    assert c'.runs == c.runs[r := c.runs[r].(pc := pc)];
  }

  /** The send is accepted and recorded. */
  lemma Broadcasts(config: Config, before: seq<Step>, c: Scene, r: RunId, wallet: string, req: SignRequest, n: nat,
                   hash: string)
    returns (steps: seq<Step>, c': Scene)
    requires Reaches(config, before, c) && Asks(c, r, wallet, req) && c.runs[r].pc == AtStoreSignature(0, n, hash, "")
    ensures Reaches(config, steps, c') && r in c'.runs && c'.runs == c.runs[r := c'.runs[r]] && c'.polls == c.polls
    ensures c'.row == c.row.(status := Broadcasted, hash := Some(hash), signature := Some(""))
    ensures c'.sent == c.sent + [Sent(ByRun(r), SlotOf(c.runs[r]), 0, TxOf(c.runs[r], n), hash)]
    ensures Calm(config, before) ==> Calm(config, steps)
    ensures Lone(config, before) ==> Lone(config, steps)
  {
    hide Key, Reaches, Preimage, Calm, Lone;
    steps, c' := Sends(config, before, c, r, wallet, req, n, hash, true);
    var run := c'.runs[r];
    KeyOf(run, Initial(wallet, req));
    steps, c' := Act(config, steps, c', r, MarkSent(true),
                     RunEffect(run, View(Some(Found(0, c'.row)), false, 0), MarkSent(true)));
  }

  /** The first request of all is broadcast. */
  lemma FirstBroadcast(config: Config, wallet: string, req: SignRequest, hash: string)
    returns (steps: seq<Step>, c: Scene, n: nat)
    requires ValidRequest(wallet, req)
    ensures Reaches(config, steps, c) && Calm(config, steps) && Lone(config, steps)
    ensures c.runs.Keys == {0} && c.polls == map[] && c.row.key == Preimage(wallet, req)
    ensures c.row == NewRow(Initial(wallet, req)).(status := Broadcasted, hash := Some(hash), signature := Some(""),
                                                   payload := Some(FirstTx(req, n)))
    ensures c.sent == [Sent(ByRun(0), Slot(wallet, req.chainId), 0, FirstTx(req, n), hash)]
  {
    hide Key, Reaches, Preimage, ValidRequest, Calm, Lone, Exec;
    Opens(config, wallet, req);
    OpeningOrderly(config, wallet, req);
    c := Opened(wallet, req);
    KeyOf(c.runs[0], Initial(wallet, req));
    steps, c, n := Signs(config, Opening(wallet, req), c, 0, wallet, req, Some(hash));
    KeyOf(c.runs[0], Initial(wallet, req));
    steps, c := Broadcasts(config, steps, c, 0, wallet, req, n, hash);
    KeyOf(Initial(wallet, req), Initial(wallet, req));
  }

  function FirstTx(req: SignRequest, n: nat): Tx {
    Tx(req.chainId, n, req.to, req.value, req.data, Quote)
  }

  // -------------------------------------------------------------------------
  // Retries
  // -------------------------------------------------------------------------

  /** A retry that has found the failed row but not reset it yet. */
  function Retry(wallet: string, req: SignRequest): Run {
    Run(wallet, req, AtReset(0), Quote, None)
  }

  lemma RetryFindsRow(config: Config, before: seq<Step>, c: Scene, r: RunId, wallet: string, req: SignRequest)
    returns (steps: seq<Step>)
    requires Reaches(config, before, c) && c.row.status == Failed && c.row.key == Preimage(wallet, req) && r !in c.runs
               && ValidRequest(wallet, req)
    ensures Reaches(config, steps, c.(runs := c.runs[r := Retry(wallet, req)]))
    ensures Lone(config, before) ==> Lone(config, steps)
    ensures Calm(config, before) ==> Calm(config, steps + [Do(r, Reset)])
  {
    hide Key, Preimage, ValidRequest, Reaches, Calm, Lone;
    var run := Initial(wallet, req).(pc := AtInsert, quote := Quote);
    steps := RetryInserts(config, before, c, r, wallet, req);
    var d := c.(runs := c.runs[r := run]);
    KeyOf(run, Initial(wallet, req));
    steps, d := Act(config, steps, d, r, Insert(1), Effect(run.(pc := AtFind), NoNonce, NoWrite));
    KeyOf(run.(pc := AtFind), run);
    if Calm(config, before) {
      CalmReset(config, steps, r);
    }
    steps, d := Act(config, steps, d, r, FindRaced, Effect(run.(pc := AtReset(0)), NoNonce, NoWrite));
    assert d.runs == c.runs[r := Retry(wallet, req)];
  }

  /** The retry gets through lookup, policy and fees. */
  lemma RetryInserts(config: Config, before: seq<Step>, c: Scene, r: RunId, wallet: string, req: SignRequest)
    returns (steps: seq<Step>)
    requires Reaches(config, before, c) && c.row.status == Failed && c.row.key == Preimage(wallet, req) && r !in c.runs
               && ValidRequest(wallet, req)
    ensures Reaches(config, steps, c.(runs := c.runs[r := Initial(wallet, req).(pc := AtInsert, quote := Quote)]))
    ensures Lone(config, before) ==> Lone(config, steps)
    ensures Calm(config, before) ==> Calm(config, steps)
  {
    hide Key, Preimage, ValidRequest, Reaches, Calm, Lone;
    var run := Initial(wallet, req);
    Begun(config, before, c, r, wallet, req);
    steps := before + [Begin(r, wallet, req)];
    var d := c.(runs := c.runs[r := run]);
    KeyOf(run, run);
    steps, d := Act(config, steps, d, r, Lookup, Effect(run.(pc := AtPolicy), NoNonce, NoWrite));
    KeyOf(run.(pc := AtPolicy), run);
    steps, d := Act(config, steps, d, r, Policy(true), Effect(run.(pc := AtEstimate), NoNonce, NoWrite));
    KeyOf(run.(pc := AtEstimate), run);
    steps, d := Act(config, steps, d, r, Estimate(Some(Quote)),
                    Effect(run.(pc := AtInsert, quote := Quote), NoNonce, NoWrite));
    assert d.runs == c.runs[r := run.(pc := AtInsert, quote := Quote)];
  }

  /** Finding the failed row and resetting it, in one go. */
  lemma RetryResets(config: Config, before: seq<Step>, c: Scene, r: RunId, wallet: string, req: SignRequest)
    returns (steps: seq<Step>, c': Scene)
    requires Reaches(config, before, c) && c.row.status == Failed && c.row.key == Preimage(wallet, req) && r !in c.runs
               && ValidRequest(wallet, req)
    requires Calm(config, before)
    ensures Reaches(config, steps, c') && Calm(config, steps)
    ensures Lone(config, before) ==> Lone(config, steps)
    ensures c' == Scene(c.runs[r := Retry(wallet, req).(pc := AtReserve(0), claimed := Some(0))],
                        Merge(c.row, NoChange.(status := Some(Pending))), c.polls, c.sent)
  {
    hide Key, Preimage, ValidRequest, Reaches, Calm, Lone;
    steps := RetryFindsRow(config, before, c, r, wallet, req);
    var run := Retry(wallet, req);
    KeyOf(run, run);
    var through := run.(pc := AtReserve(0), claimed := Some(0));
    steps, c' := Act(config, steps, c.(runs := c.runs[r := run]), r, Reset,
                     Effect(through, NoNonce, UpdateRow(0, NoChange.(status := Some(Pending)))));
    assert c.runs[r := run][r := through] == c.runs[r := through];
  }

  // -------------------------------------------------------------------------
  // Polls
  // -------------------------------------------------------------------------

  /** Taking a poll from its start to failing the row it read, reverted on-chain. */
  lemma PollFails(config: Config, steps: seq<Step>, c: Scene, p: PollId, row: Row)
    returns (steps': seq<Step>, c': Scene)
    requires Reaches(config, steps, c) && p in c.polls && c.polls[p] == Poller(map[0 := row], Idle) && row.hash.Some?
    ensures Reaches(config, steps', c')
    ensures c' == Scene(c.runs, Merge(c.row, FailedUpdate("transaction reverted on-chain", Permanent)),
                        c.polls[p := Poller(map[], Idle)], c.sent)
    ensures Calm(config, steps) ==> Calm(config, steps')
    ensures Lone(config, steps) ==> Lone(config, steps')
  {
    hide Reaches, Exec, Next, Calm, Lone;
    assert map[0 := row] - {0} == map[];
    var busy := Poller(map[], AtReceipt(0, row));
    var update := FailedUpdate("transaction reverted on-chain", Permanent);
    steps', c' := ActPoll(config, steps, c, p, PickRow(0), MonitorEffect(busy, None, None));
    var write := AtWrite(0, row, update, false);
    steps', c' := ActPoll(config, steps', c', p, OnReceipt(Receipt(false, 0)),
                          MonitorEffect(busy.(pc := write), None, None));
    steps', c' := ActPoll(config, steps', c', p, OnWrite(true),
                          MonitorEffect(busy.(pc := Idle), None, Some(PollWrite(0, update, false))));
  }

  /** Taking a poll from its start to the fee quote of a stuck row. */
  lemma PollStuck(config: Config, steps: seq<Step>, c: Scene, p: PollId, row: Row)
    returns (steps': seq<Step>, c': Scene)
    requires Reaches(config, steps, c) && p in c.polls && c.polls[p] == Poller(map[0 := row], Idle)
    requires row.hash.Some? && row.payload.Some? && row.attempts < config.maxAttempts
    ensures steps <= steps' && Reaches(config, steps', c')
    ensures c' == c.(polls := c.polls[p := Poller(map[], AtQuote(0, row))])
    ensures Calm(config, steps) ==> Calm(config, steps')
    ensures Lone(config, steps) ==> Lone(config, steps')
  {
    hide Reaches, Exec, Next, Calm, Lone;
    assert map[0 := row] - {0} == map[];
    var busy := Poller(map[], AtReceipt(0, row));
    steps', c' := ActPoll(config, steps, c, p, PickRow(0), MonitorEffect(busy, None, None));
    steps', c' := ActPoll(config, steps', c', p, OnReceipt(NoReceipt(true)),
                          MonitorEffect(busy.(pc := AtMempool(0, row)), None, None));
    steps', c' := ActPoll(config, steps', c', p, OnMempool(InMempool),
                          MonitorEffect(busy.(pc := AtContext(0, row)), None, None));
    steps', c' := ActPoll(config, steps', c', p, OnContext(ContextFound),
                          MonitorEffect(busy.(pc := AtQuote(0, row)), None, None));
    assert c'.polls == c.polls[p := Poller(map[], AtQuote(0, row))];
  }

  function Replacement(config: Config, p: PollId, row: Row, quote: FeeQuote, hash: string): Sent
    requires row.payload.Some?
  {
    Sent(ByPoll(p), Slot(row.wallet, row.chain), 0, ReplacementTx(row, BumpQuote(quote, config.bumpPercent)), hash)
  }

  /** From there to the signed replacement. */
  lemma PollSigns(config: Config, steps: seq<Step>, c: Scene, p: PollId, row: Row, quote: FeeQuote, hash: string)
    returns (steps': seq<Step>, c': Scene)
    requires Reaches(config, steps, c) && p in c.polls && c.polls[p] == Poller(map[], AtQuote(0, row))
    requires row.payload.Some?
    ensures steps <= steps' && Reaches(config, steps', c')
    ensures var tx := ReplacementTx(row, BumpQuote(quote, config.bumpPercent));
            c' == c.(polls := c.polls[p := Poller(map[], AtBumpSend(0, row, tx, hash))])
    ensures Calm(config, steps) ==> Calm(config, steps')
    ensures Lone(config, steps) ==> Lone(config, steps')
  {
    hide Reaches, Exec, Next, Calm, Lone, ReplacementTx, BumpQuote;
    var tx := ReplacementTx(row, BumpQuote(quote, config.bumpPercent));
    steps', c' := ActPoll(config, steps, c, p, OnQuote(Some(quote)),
                          MonitorEffect(Poller(map[], AtBumpSign(0, row, tx)), None, None));
    steps', c' := ActPoll(config, steps', c', p, OnBumpSign(Some(hash)),
                          MonitorEffect(Poller(map[], AtBumpSend(0, row, tx, hash)), None, None));
    assert c'.polls == c.polls[p := Poller(map[], AtBumpSend(0, row, tx, hash))];
  }

  /** Taking a poll from its start to recording a replacement of the row it read. */
  lemma PollReplaces(config: Config, steps: seq<Step>, c: Scene, p: PollId, row: Row, quote: FeeQuote, hash: string)
    returns (steps': seq<Step>, c': Scene)
    requires Reaches(config, steps, c) && p in c.polls && c.polls[p] == Poller(map[0 := row], Idle)
    requires row.hash.Some? && row.payload.Some? && row.attempts < config.maxAttempts
    ensures steps <= steps' && Reaches(config, steps', c')
    ensures c' == Scene(c.runs, Merge(c.row, ReplacementUpdate(row, hash)), c.polls[p := Poller(map[], Idle)],
                        c.sent + [Replacement(config, p, row, quote, hash)])
    ensures Calm(config, steps) ==> Calm(config, steps')
    ensures Lone(config, steps) ==> Lone(config, steps')
  {
    hide Reaches, Exec, Next, Calm, Lone, ReplacementTx, BumpQuote, Merge, ReplacementUpdate;
    var busy := Poller(map[], AtQuote(0, row));
    var tx := ReplacementTx(row, BumpQuote(quote, config.bumpPercent));
    var write := AtWrite(0, row, ReplacementUpdate(row, hash), true);
    steps', c' := PollStuck(config, steps, c, p, row);
    steps', c' := PollSigns(config, steps', c', p, row, quote, hash);
    steps', c' := ActPoll(config, steps', c', p, OnBumpSend(true),
                          MonitorEffect(busy.(pc := write), Some(PollSend(0, row, tx, hash)), None));
    steps', c' := ActPoll(config, steps', c', p, OnWrite(true),
                          MonitorEffect(busy.(pc := Idle), None, Some(PollWrite(0, write.update, true))));
    assert c'.polls == c.polls[p := Poller(map[], Idle)];
  }

  // -------------------------------------------------------------------------
  // Without A: two retries of one failed request both get past the gate
  // -------------------------------------------------------------------------

  /** The first request of all gets no signature. */
  lemma FirstFailure(config: Config, wallet: string, req: SignRequest) returns (steps: seq<Step>, c: Scene)
    requires ValidRequest(wallet, req)
    ensures Reaches(config, steps, c) && Calm(config, steps) && Lone(config, steps)
    ensures c.runs.Keys == {0} && c.row.status == Failed && c.row.key == Preimage(wallet, req)
  {
    hide Key, Reaches, Preimage, ValidRequest, Calm, Lone, Exec;
    Opens(config, wallet, req);
    OpeningOrderly(config, wallet, req);
    c := Opened(wallet, req);
    KeyOf(c.runs[0], Initial(wallet, req));
    var n;
    steps, c, n := Signs(config, Opening(wallet, req), c, 0, wallet, req, None);
    KeyOf(c.runs[0], Initial(wallet, req));
    steps, c := Act(config, steps, c, 0, FailSign(""),
                    RunEffect(c.runs[0], View(Some(Found(0, c.row)), false, 0), FailSign("")));
  }

  predicate TwoPastTheGate(w: World) {
    && 1 in w.runs && 2 in w.runs && Key(w.runs[1]) == Key(w.runs[2])
    && w.runs[1].pc == AtReserve(0) && w.runs[2].pc == AtReserve(0)
  }

  /** Assumption A is needed: when two retries both find the failed row before either resets
      it, two runs of one key are past the gate at once, without a single poll. */
  lemma WithoutAtomicReset(config: Config, wallet: string, req: SignRequest) returns (steps: seq<Step>)
    requires ValidRequest(wallet, req)
    ensures PollsAlone(Init(config), steps) && TwoPastTheGate(Exec(Init(config), steps))
  {
    hide Key, Preimage, ValidRequest, Exec, Calm, Lone;
    var c: Scene;
    steps, c := FirstFailure(config, wallet, req);
    steps := RetryFindsRow(config, steps, c, 1, wallet, req);
    var d := c.(runs := c.runs[1 := Retry(wallet, req)]);
    steps := RetryFindsRow(config, steps, d, 2, wallet, req);
    d := d.(runs := d.runs[2 := Retry(wallet, req)]);
    var run := Retry(wallet, req);
    KeyOf(run, Initial(wallet, req));
    var through := run.(pc := AtReserve(0), claimed := Some(0));
    steps, d := Act(config, steps, d, 1, Reset,
                    Effect(through, NoNonce, UpdateRow(0, NoChange.(status := Some(Pending)))));
    steps, d := Act(config, steps, d, 2, Reset,
                    Effect(through, NoNonce, UpdateRow(0, NoChange.(status := Some(Pending)))));
    ShownRuns(config, steps, d);
    LoneAlone(config, steps);
  }

  // -------------------------------------------------------------------------
  // Without B: overlapping polls
  // -------------------------------------------------------------------------

  /** Assumption B is needed: of two overlapping polls the first confirms the row and the
      second, whose queries ran against a lagging provider, drops it. */
  lemma WithOverlappingPolls(config: Config, wallet: string, req: SignRequest, hash: string, block: nat)
    returns (steps: seq<Step>, last: Step)
    requires ValidRequest(wallet, req)
    ensures ResetsAtomic(Init(config), steps + [last])
    ensures var w := Exec(Init(config), steps);
            && 0 in w.rows && w.rows[0].status == Confirmed
            && 0 in Next(w, last).rows && Next(w, last).rows[0].status == Dropped
  {
    hide Key, Reaches, ValidRequest, Exec, Next, Calm, Lone;
    var c: Scene;
    var n: nat;
    steps, c, n := FirstBroadcast(config, wallet, req, hash);
    PollStarted(config, steps, c, 0);
    steps := steps + [StartPoll(0)];
    var poll := Poller(map[0 := c.row], Idle);
    var row := c.row;
    c := c.(polls := c.polls[0 := poll]);
    PollStarted(config, steps, c, 1);
    steps := steps + [StartPoll(1)];
    c := c.(polls := c.polls[1 := poll]);
    var busy := Poller(poll.todo - {0}, AtReceipt(0, row));
    steps, c := ActPoll(config, steps, c, 0, PickRow(0), MonitorEffect(busy, None, None));
    steps, c := ActPoll(config, steps, c, 1, PickRow(0), MonitorEffect(busy, None, None));
    steps, c := ActPoll(config, steps, c, 1, OnReceipt(NoReceipt(true)),
                        MonitorEffect(busy.(pc := AtMempool(0, row)), None, None));
    var drop := AtWrite(0, row,
                        NoChange.(status := Some(Dropped),
                                  failureReason := Some("transaction not found on-chain or in mempool")), false);
    steps, c := ActPoll(config, steps, c, 1, OnMempool(NotFound), MonitorEffect(busy.(pc := drop), None, None));
    var confirm := AtWrite(0, row, NoChange.(status := Some(Confirmed), blockNumber := Some(block)), false);
    steps, c := ActPoll(config, steps, c, 0, OnReceipt(Receipt(true, block)),
                        MonitorEffect(busy.(pc := confirm), None, None));
    steps, c := ActPoll(config, steps, c, 0, OnWrite(true),
                        MonitorEffect(busy.(pc := Idle), None, Some(PollWrite(0, confirm.update, false))));
    ShownRow(config, steps, c);
    last := Monitor(1, OnWrite(true));
    var after: Scene;
    var steps';
    steps', after := ActPoll(config, steps, c, 1, OnWrite(true),
                             MonitorEffect(busy.(pc := Idle), None, Some(PollWrite(0, drop.update, false))));
    ShownRow(config, steps', after);
    ExecSnoc(Init(config), steps, last);
    CalmAtomic(config, steps');
  }

  /** Assumption B is needed for one owner per key too, although every reset is atomic: the
      second of two overlapping polls fails the row again while a retry is already past the
      gate, and lets the next retry in. */
  lemma OverlappingPollsAdmitTwo(config: Config, wallet: string, req: SignRequest, hash: string)
    returns (steps: seq<Step>)
    requires ValidRequest(wallet, req)
    ensures ResetsAtomic(Init(config), steps) && TwoPastTheGate(Exec(Init(config), steps))
  {
    hide Key, Preimage, Reaches, ValidRequest, Exec, Next, Calm, Lone;
    var c: Scene;
    var n: nat;
    steps, c, n := FirstBroadcast(config, wallet, req, hash);
    var row := c.row;
    var poll := Poller(map[0 := row], Idle);
    PollStarted(config, steps, c, 0);
    steps := steps + [StartPoll(0)];
    c := c.(polls := c.polls[0 := poll]);
    PollStarted(config, steps, c, 1);
    steps := steps + [StartPoll(1)];
    c := c.(polls := c.polls[1 := poll]);
    steps, c := PollFails(config, steps, c, 0, row);
    steps, c := RetryResets(config, steps, c, 1, wallet, req);
    steps, c := PollFails(config, steps, c, 1, row);
    steps, c := RetryResets(config, steps, c, 2, wallet, req);
    var through := Retry(wallet, req).(pc := AtReserve(0), claimed := Some(0));
    assert c.runs[1] == through && c.runs[2] == through;
    ShownRuns(config, steps, c);
    CalmAtomic(config, steps);
  }

  /** What a run has sent is below the counter, so the next number is another one. */
  lemma {:induction false} SentBelow(config: Config, steps: seq<Step>, c: Scene, i: nat)
    requires Reaches(config, steps, c) && i < |c.sent| && c.sent[i].sender.ByRun?
    ensures c.sent[i].tx.nonce < Counter(Exec(Init(config), steps), c.sent[i].slot)
  {
    hide Exec;
    InitNonce(config);
    NonceRuns(Init(config), steps);
    assert Exec(Init(config), steps).sent[i] == c.sent[i];
  }

  /** Assumption B is needed for replacement fidelity: the second of two overlapping polls marks
      the row broadcasted again while a retry has stored its own nonce in it, and the next poll
      sends, as a replacement, a transaction under that nonce, which no run has sent. */
  lemma OverlappingPollsSendUnsent(config: Config, wallet: string, req: SignRequest, hash: string, quote: FeeQuote)
    returns (steps: seq<Step>)
    requires ValidRequest(wallet, req) && config.maxAttempts >= 2
    ensures ResetsAtomic(Init(config), steps)
    ensures var sent := Exec(Init(config), steps).sent;
            exists i :: 0 <= i < |sent| && sent[i].sender.ByPoll? && !RunSent(sent, sent[i].row, sent[i].tx.nonce)
  {
    hide Key, Preimage, Reaches, ValidRequest, Exec, Next, Calm, Lone, BumpQuote;
    var c, n, m;
    steps, c, n := FirstBroadcast(config, wallet, req, hash);
    var row := c.row;
    var first := c.sent;
    PollStarted(config, steps, c, 0);
    steps, c := steps + [StartPoll(0)], c.(polls := c.polls[0 := Poller(map[0 := row], Idle)]);
    PollStarted(config, steps, c, 1);
    steps, c := steps + [StartPoll(1)], c.(polls := c.polls[1 := Poller(map[0 := row], Idle)]);
    steps, c := PollFails(config, steps, c, 0, row);
    steps, c := RetryResets(config, steps, c, 1, wallet, req);
    SentBelow(config, steps, c, 0);
    steps, c, m := Signs(config, steps, c, 1, wallet, req, Some(hash));
    steps, c := PollReplaces(config, steps, c, 1, row, quote, hash);
    PollStarted(config, steps, c, 2);
    var again := c.row;
    steps, c := steps + [StartPoll(2)], c.(polls := c.polls[2 := Poller(map[0 := again], Idle)]);
    steps, c := PollReplaces(config, steps, c, 2, again, quote, hash);
    assert c.sent == [first[0], Replacement(config, 1, row, quote, hash), Replacement(config, 2, again, quote, hash)];
    assert !RunSent(c.sent, 0, m);
    assert c.sent[2].tx.nonce == m;
    ShownSent(config, steps, c);
    CalmAtomic(config, steps);
  }
  /** Assumption B is needed for the count of attempts: two overlapping polls each send and record
      a replacement, and the row shows one attempt. */
  lemma OverlappingPollsMiscount(config: Config, wallet: string, req: SignRequest, hash: string, quote: FeeQuote)
    returns (steps: seq<Step>)
    requires ValidRequest(wallet, req) && config.maxAttempts > 0
    ensures ResetsAtomic(Init(config), steps)
    ensures var w := Exec(Init(config), steps);
            && |w.sent| == 3 && w.sent[1].sender == ByPoll(0) && w.sent[2].sender == ByPoll(1)
            && 0 in w.rows && w.rows[0].attempts == 1
  {
    hide Key, Preimage, Reaches, ValidRequest, Exec, Next, Calm, Lone, BumpQuote;
    var c, n;
    steps, c, n := FirstBroadcast(config, wallet, req, hash);
    var row := c.row;
    PollStarted(config, steps, c, 0);
    steps, c := steps + [StartPoll(0)], c.(polls := c.polls[0 := Poller(map[0 := row], Idle)]);
    PollStarted(config, steps, c, 1);
    steps, c := steps + [StartPoll(1)], c.(polls := c.polls[1 := Poller(map[0 := row], Idle)]);
    steps, c := PollReplaces(config, steps, c, 0, row, quote, hash);
    steps, c := PollReplaces(config, steps, c, 1, row, quote, hash);
    ShownSent(config, steps, c);
    ShownRow(config, steps, c);
    CalmAtomic(config, steps);
  }

  /** Assumption B is needed for the original hash too: a poll that read the row in an earlier
      life writes that life's hash over the one recorded since. */
  lemma OverlappingPollsChangeOriginal(config: Config, wallet: string, req: SignRequest, first: string, second: string,
                                       quote: FeeQuote)
    returns (before: seq<Step>, steps: seq<Step>)
    requires ValidRequest(wallet, req) && config.maxAttempts > 0
    ensures ResetsAtomic(Init(config), steps) && before <= steps
    ensures var w, last := Exec(Init(config), before), Exec(Init(config), steps);
            && 0 in w.rows && w.rows[0].originalHash == Some(second)
            && 0 in last.rows && last.rows[0].originalHash == Some(first)
  {
    hide Key, Preimage, Reaches, ValidRequest, Exec, Next, Calm, Lone, BumpQuote;
    var c, n;
    before, c, n := FirstBroadcast(config, wallet, req, first);
    var row := c.row;
    PollStarted(config, before, c, 0);
    before, c := before + [StartPoll(0)], c.(polls := c.polls[0 := Poller(map[0 := row], Idle)]);
    PollStarted(config, before, c, 1);
    before, c := before + [StartPoll(1)], c.(polls := c.polls[1 := Poller(map[0 := row], Idle)]);
    before, c := PollFails(config, before, c, 0, row);
    before, c := RetryResets(config, before, c, 1, wallet, req);
    before, c, n := Signs(config, before, c, 1, wallet, req, Some(second));
    before, c := Broadcasts(config, before, c, 1, wallet, req, n, second);
    PollStarted(config, before, c, 2);
    var again := c.row;
    before, c := before + [StartPoll(2)], c.(polls := c.polls[2 := Poller(map[0 := again], Idle)]);
    before, c := PollReplaces(config, before, c, 2, again, quote, second);
    ShownRow(config, before, c);
    steps, c := PollReplaces(config, before, c, 1, row, quote, first);
    ShownRow(config, steps, c);
    CalmAtomic(config, steps);
  }

  // -------------------------------------------------------------------------
  // What fails although both assumptions hold
  // -------------------------------------------------------------------------

  /** After a failed broadcast a retry sends again: two transactions for one key, the first of
      which the RPC may have taken nevertheless, under different nonces. */
  lemma ResentAfterFailure(config: Config, wallet: string, req: SignRequest, hash: string) returns (steps: seq<Step>)
    requires ValidRequest(wallet, req)
    ensures ResetsAtomic(Init(config), steps) && PollsAlone(Init(config), steps)
    ensures var sent := Exec(Init(config), steps).sent;
            && |sent| == 2 && sent[0].sender == ByRun(0) && sent[1].sender == ByRun(1)
            && sent[0].row == sent[1].row && sent[0].tx.nonce < sent[1].tx.nonce
            && sent[1].tx == sent[0].tx.(nonce := sent[1].tx.nonce)
  {
    hide Key, Preimage, Reaches, ValidRequest, Exec, Next, Calm, Lone;
    Opens(config, wallet, req);
    OpeningOrderly(config, wallet, req);
    var c, n := Opened(wallet, req), 0;
    KeyOf(c.runs[0], Initial(wallet, req));
    KeyOf(Initial(wallet, req), Initial(wallet, req));
    steps, c, n := Signs(config, Opening(wallet, req), c, 0, wallet, req, Some(hash));
    steps, c := Refused(config, steps, c, 0, wallet, req, n, hash);
    steps, c := RetryResets(config, steps, c, 1, wallet, req);
    SentBelow(config, steps, c, 0);
    steps, c, n := Signs(config, steps, c, 1, wallet, req, Some(hash));
    steps, c := Sends(config, steps, c, 1, wallet, req, n, hash, true);
    ShownSent(config, steps, c);
    CalmAtomic(config, steps);
    LoneAlone(config, steps);
  }

  /** The RPC refuses the transaction, and the row fails. */
  lemma Refused(config: Config, before: seq<Step>, c: Scene, r: RunId, wallet: string, req: SignRequest, n: nat,
                hash: string)
    returns (steps: seq<Step>, c': Scene)
    requires Reaches(config, before, c) && Asks(c, r, wallet, req) && c.runs[r].pc == AtStoreSignature(0, n, hash, "")
    ensures Reaches(config, steps, c') && r in c'.runs && c'.runs == c.runs[r := c'.runs[r]] && c'.polls == c.polls
    ensures c'.row.status == Failed && c'.row.key == c.row.key
    ensures c'.sent == c.sent + [Sent(ByRun(r), SlotOf(c.runs[r]), 0, TxOf(c.runs[r], n), hash)]
    ensures Calm(config, before) ==> Calm(config, steps)
    ensures Lone(config, before) ==> Lone(config, steps)
  {
    hide Key, Reaches, Preimage, Calm, Lone;
    steps, c' := Sends(config, before, c, r, wallet, req, n, hash, false);
    var run := c'.runs[r];
    KeyOf(run, Initial(wallet, req));
    steps, c' := Act(config, steps, c', r, FailSend(""),
                     RunEffect(run, View(Some(Found(0, c'.row)), false, 0), FailSend("")));
  }

  /** A replacement is priced from a new quote, whatever it replaces: for every quote there is a
      run in which a poll replaces a run's transaction, and each of its fees is above the one
      before exactly if the bumped new fee is. */
  lemma ReplacementPricedAfresh(config: Config, wallet: string, req: SignRequest, hash: string, quote: FeeQuote)
    returns (steps: seq<Step>)
    requires ValidRequest(wallet, req) && config.maxAttempts > 0
    ensures ResetsAtomic(Init(config), steps) && PollsAlone(Init(config), steps)
    ensures var sent := Exec(Init(config), steps).sent;
            && |sent| == 2 && sent[0].sender == ByRun(0) && sent[1].sender == ByPoll(0)
            && sent[0].tx.fees == Quote && sent[1].tx == sent[0].tx.(fees := sent[1].tx.fees)
            && (sent[1].tx.fees.maxFee > Quote.maxFee
                <==> quote.maxFee * config.bumpPercent > 100 * Quote.maxFee)
            && (sent[1].tx.fees.maxPriority > Quote.maxPriority
                <==> quote.maxPriority * config.bumpPercent > 100 * Quote.maxPriority)
  {
    hide Key, Preimage, Reaches, ValidRequest, Exec, Next, Calm, Lone, Bump;
    var c, n;
    steps, c, n := FirstBroadcast(config, wallet, req, hash);
    var row := c.row;
    PollStarted(config, steps, c, 0);
    steps, c := steps + [StartPoll(0)], c.(polls := c.polls[0 := Poller(map[0 := row], Idle)]);
    steps, c := PollReplaces(config, steps, c, 0, row, quote, hash);
    BumpExceeds(quote.maxFee, config.bumpPercent, Quote.maxFee);
    BumpExceeds(quote.maxPriority, config.bumpPercent, Quote.maxPriority);
    ShownSent(config, steps, c);
    CalmAtomic(config, steps);
    LoneAlone(config, steps);
  }

  /** `original_tx_hash` can belong to an earlier life of a recycled row: broadcast, replaced,
      reverted, retried and broadcast again, the row still names the first hash. */
  lemma OriginalOfEarlierLife(config: Config, wallet: string, req: SignRequest, first: string, second: string,
                              third: string, quote: FeeQuote)
    returns (steps: seq<Step>)
    requires ValidRequest(wallet, req) && config.maxAttempts > 0
    ensures ResetsAtomic(Init(config), steps) && PollsAlone(Init(config), steps)
    ensures var w := Exec(Init(config), steps);
            && 0 in w.rows && w.rows[0].status == Broadcasted && w.rows[0].hash == Some(third)
            && w.rows[0].originalHash == Some(first)
  {
    hide Key, Preimage, Reaches, ValidRequest, Exec, Next, Calm, Lone, BumpQuote;
    var c, n;
    steps, c, n := FirstBroadcast(config, wallet, req, first);
    var row := c.row;
    steps, c := PollBegun(config, steps, c);
    steps, c := PollReplaces(config, steps, c, 0, row, quote, second);
    steps, c := PollDone(config, steps, c);
    row := c.row;
    steps, c := PollBegun(config, steps, c);
    steps, c := PollFails(config, steps, c, 0, row);
    steps, c := PollDone(config, steps, c);
    steps, c := RetryResets(config, steps, c, 1, wallet, req);
    steps, c, n := Signs(config, steps, c, 1, wallet, req, Some(third));
    steps, c := Broadcasts(config, steps, c, 1, wallet, req, n, third);
    ShownRow(config, steps, c);
    CalmAtomic(config, steps);
    LoneAlone(config, steps);
  }

  lemma PollBegun(config: Config, steps: seq<Step>, c: Scene) returns (steps': seq<Step>, c': Scene)
    requires Reaches(config, steps, c) && c.polls == map[] && c.row.status == Broadcasted
    ensures Reaches(config, steps', c') && c' == c.(polls := map[0 := Poller(map[0 := c.row], Idle)])
    ensures Calm(config, steps) ==> Calm(config, steps')
    ensures Lone(config, steps) ==> Lone(config, steps')
  {
    hide Reaches, Calm, Lone;
    PollStarted(config, steps, c, 0);
    steps', c' := steps + [StartPoll(0)], c.(polls := c.polls[0 := Poller(map[0 := c.row], Idle)]);
  }

  lemma PollDone(config: Config, steps: seq<Step>, c: Scene) returns (steps': seq<Step>, c': Scene)
    requires Reaches(config, steps, c) && c.polls == map[0 := Poller(map[], Idle)]
    ensures Reaches(config, steps', c') && c' == c.(polls := map[])
    ensures Calm(config, steps) ==> Calm(config, steps')
    ensures Lone(config, steps) ==> Lone(config, steps')
  {
    hide Reaches, Calm, Lone;
    PollEnded(config, steps, c, 0);
    steps', c' := steps + [EndPoll(0)], c.(polls := c.polls - {0});
    assert c.polls - {0} == map[];
  }

  /** A lost write leaves the row behind: the RPC has taken the replacement, the update throws, and
      the row goes on showing the hash of the transaction that was replaced. */
  lemma LostWriteKeepsHash(config: Config, wallet: string, req: SignRequest, first: string, second: string,
                           quote: FeeQuote)
    returns (steps: seq<Step>)
    requires ValidRequest(wallet, req) && config.maxAttempts > 0
    ensures ResetsAtomic(Init(config), steps) && PollsAlone(Init(config), steps)
    ensures var w := Exec(Init(config), steps);
            && w.polls == map[] && 0 in w.rows && w.rows[0].status == Broadcasted && w.rows[0].hash == Some(first)
            && |w.sent| == 2 && w.sent[1].row == 0 && w.sent[1].hash == second
  {
    hide Key, Preimage, Reaches, ValidRequest, Exec, Next, Calm, Lone, BumpQuote;
    var c, n;
    steps, c, n := FirstBroadcast(config, wallet, req, first);
    var row := c.row;
    steps, c := PollBegun(config, steps, c);
    steps, c := PollStuck(config, steps, c, 0, row);
    steps, c := PollSigns(config, steps, c, 0, row, quote, second);
    var write := AtWrite(0, row, ReplacementUpdate(row, second), true);
    steps, c := ActPoll(config, steps, c, 0, OnBumpSend(true),
                        MonitorEffect(Poller(map[], write), Some(PollSend(0, row, c.polls[0].pc.tx, second)), None));
    steps, c := ActPoll(config, steps, c, 0, OnWrite(false), MonitorEffect(Poller(map[], Idle), None, None));
    assert c.polls == map[0 := Poller(map[], Idle)];
    steps, c := PollDone(config, steps, c);
    ShownSent(config, steps, c);
    ShownRow(config, steps, c);
    ShownPolls(config, steps, c);
    CalmAtomic(config, steps);
    LoneAlone(config, steps);
  }
}
