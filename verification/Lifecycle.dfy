/** The transaction lifecycle as a step system.

    Any number of `requestSign` runs, monitor polls and nonce syncs share the nonce counters
    and the signing-request rows. Every database, signer or RPC action is one step; the
    answers of the signer, the RPC and the policy engine are carried by the step. A step
    that does not apply to the current state changes nothing, so `Next` is total and every
    sequence of steps is an interleaving. */
module Lifecycle {
  import opened Base
  import opened ErrorClassifier
  import opened Requests
  import opened Fees

  type RunId = nat
  type PollId = nat
  type RowId = nat

  /** One nonce sequence: the unique index (wallet_id, chain_id). */
  datatype Slot = Slot(wallet: string, chain: nat)

  datatype Tx = Tx(chain: nat, nonce: nat, to: string, value: string, data: string, fees: FeeQuote)

  datatype Status = Pending | Signed | Broadcasted | Confirmed | Failed | Dropped

  /** A row of signing_requests; timestamps are left out. */
  datatype Row = Row(
    key: string, wallet: string, chain: nat, status: Status,
    payload: Option<Tx>, hash: Option<string>, signature: Option<string>,
    failureReason: Option<string>, errorType: Option<ErrorType>,
    blockNumber: Option<nat>, attempts: nat, originalHash: Option<string>)

  /** The argument of `SigningRequestRepository.update`; None is JavaScript's undefined. */
  datatype RowUpdate = RowUpdate(
    status: Option<Status>,
    payload: Option<Tx>, hash: Option<string>, signature: Option<string>,
    failureReason: Option<string>, errorType: Option<ErrorType>,
    blockNumber: Option<nat>, attempts: Option<nat>, originalHash: Option<string>)

  const NoChange := RowUpdate(None, None, None, None, None, None, None, None, None)

  function Kept<T>(given: Option<T>, stored: Option<T>): Option<T> {
    if given.Some? then given else stored
  }

  /** Undefined fields are dropped, so an update never clears a column. */
  function Merge(row: Row, u: RowUpdate): Row {
    Row(row.key, row.wallet, row.chain,
        if u.status.Some? then u.status.value else row.status,
        Kept(u.payload, row.payload), Kept(u.hash, row.hash), Kept(u.signature, row.signature),
        Kept(u.failureReason, row.failureReason), Kept(u.errorType, row.errorType),
        Kept(u.blockNumber, row.blockNumber),
        if u.attempts.Some? then u.attempts.value else row.attempts,
        Kept(u.originalHash, row.originalHash))
  }

  // -------------------------------------------------------------------------
  // One requestSign run
  // -------------------------------------------------------------------------

  datatype SignResult = SignResult(row: RowId, hash: string, status: Status, nonce: nat, key: string)

  datatype Outcome =
    | Duplicate(result: SignResult) // an existing request was returned
    | Accepted(result: SignResult)  // this run broadcast the transaction
    | Errored

  /** The next action of a run, with the locals it needs. */
  datatype Pc =
    | AtLookup
    | AtPolicy
    | AtEstimate
    | AtInsert
    | AtFind
    | AtReset(row: RowId)
    | AtReserve(row: RowId)
    | AtStorePayload(row: RowId, nonce: nat)
    | AtSign(row: RowId, nonce: nat)
    | AtFailSign(row: RowId, nonce: nat)
    | AtRelease(nonce: nat)
    | AtStoreSignature(row: RowId, nonce: nat, hash: string, signature: string)
    | AtSend(row: RowId, nonce: nat, hash: string)
    | AtMarkSent(row: RowId, nonce: nat, hash: string)
    | AtFailSend(row: RowId, nonce: nat)
    | Done(outcome: Outcome)

  /** `claimed` is the row this run got past the creation gate with, if any. */
  datatype Run = Run(wallet: string, req: SignRequest, pc: Pc, quote: FeeQuote, claimed: Option<RowId>)

  function Key(run: Run): string {
    Preimage(run.wallet, run.req)
  }

  function SlotOf(run: Run): Slot {
    Slot(run.wallet, run.req.chainId)
  }

  function TxOf(run: Run, nonce: nat): Tx {
    Tx(run.req.chainId, nonce, run.req.to, run.req.value, run.req.data, run.quote)
  }

  /** The run owns a reserved nonce it has not handed to the RPC. */
  predicate Holds(pc: Pc) {
    pc.AtStorePayload? || pc.AtSign? || pc.AtFailSign? || pc.AtRelease? || pc.AtStoreSignature? || pc.AtSend?
  }

  function BuildResult(id: RowId, row: Row): SignResult {
    SignResult(id, if row.hash.Some? then row.hash.value else "", row.status,
               if row.payload.Some? then row.payload.value.nonce else 0, row.key)
  }

  // -------------------------------------------------------------------------
  // One monitor poll
  // -------------------------------------------------------------------------

  datatype PollPc =
    | Idle
    | AtReceipt(id: RowId, row: Row)
    | AtMempool(id: RowId, row: Row)
    | AtContext(id: RowId, row: Row)
    | AtQuote(id: RowId, row: Row)
    | AtBumpSign(id: RowId, row: Row, tx: Tx)
    | AtBumpSend(id: RowId, row: Row, tx: Tx, hash: string)
    | AtWrite(id: RowId, row: Row, update: RowUpdate, bumped: bool)

  /** `todo` is what remains of the rows read by findBroadcasted, as they were read. */
  datatype Poller = Poller(todo: map<RowId, Row>, pc: PollPc)

  datatype ReceiptAnswer =
    | ReceiptError
    | Receipt(success: bool, blockNumber: nat)
    | NoReceipt(stuck: bool) // no receipt; `stuck` when the age reached the threshold

  datatype MempoolAnswer = MempoolError | NotFound | InMempool

  datatype ContextAnswer = ContextError | WalletMissing | SeedMissing | ContextFound

  // -------------------------------------------------------------------------
  // The shared state, its tables first, then history variables
  // -------------------------------------------------------------------------

  datatype Config = Config(maxAttempts: nat, bumpPercent: nat)

  datatype Sender = ByRun(run: RunId) | ByPoll(poll: PollId)

  /** A transaction handed to the RPC under its hash, whatever the RPC answered. */
  datatype Sent = Sent(sender: Sender, slot: Slot, row: RowId, tx: Tx, hash: string)

  /** What became of a nonce below the counter. */
  datatype Fate = HeldBy(run: RunId) | SentBy(run: RunId) | Abandoned | Skipped

  datatype World = World(
    config: Config,
    nonces: map<Slot, nat>,
    rows: map<RowId, Row>,
    index: map<string, RowId>, // uq_signing_requests_idempotency
    runs: map<RunId, Run>,
    polls: map<PollId, Poller>,
    sent: seq<Sent>,
    fate: map<(Slot, nat), Fate>,
    asked: map<RowId, SignRequest>, // the request a row was created for
    everFailed: set<RowId>,
    recorded: map<RowId, nat>)      // replacement broadcasts recorded per row

  function Init(config: Config): World {
    World(config, map[], map[], map[], map[], map[], [], map[], map[], {}, map[])
  }

  function Counter(w: World, slot: Slot): nat {
    if slot in w.nonces then w.nonces[slot] else 0
  }

  /** The actions of a run, in the order of `requestSign`. */
  datatype RunAction =
    | Lookup
    | Policy(allowed: bool)
    | Estimate(quote: Option<FeeQuote>)
    | Insert(newId: RowId)
    | FindRaced
    | Reset
    | Reserve
    | StorePayload
    | Sign(hash: Option<string>, signature: string)
    | FailSign(message: string)
    | Release
    | StoreSignature
    | Send(accepted: bool)
    | MarkSent(stored: bool)
    | FailSend(message: string)
    | Abort // a database call threw outside any try block

  /** The actions of a poll, in the order of `poll`, `processRow` and `speedUp`. */
  datatype PollAction =
    | PickRow(id: RowId)
    | OnReceipt(receipt: ReceiptAnswer)
    | OnMempool(mempool: MempoolAnswer)
    | OnContext(context: ContextAnswer)
    | OnQuote(quote: Option<FeeQuote>)
    | OnBumpSign(hash: Option<string>)
    | OnBumpSend(accepted: bool)
    | OnWrite(stored: bool)

  datatype Step =
    | Begin(r: RunId, wallet: string, req: SignRequest)
    | Do(r: RunId, act: RunAction)
    | Sync(slot: Slot, chainNonce: nat)
    | StartPoll(p: PollId)
    | Monitor(p: PollId, does: PollAction)
    | EndPoll(p: PollId)

  // -------------------------------------------------------------------------
  // Steps
  // -------------------------------------------------------------------------

  /** The action is the next one of run `r`. */
  predicate RunAt(w: World, r: RunId, act: RunAction) {
    r in w.runs && PcFits(w.runs[r].pc, act)
  }

  /** The action is the next one of poll `p`. */
  predicate PollAt(w: World, p: PollId, act: PollAction) {
    p in w.polls && PollFits(w.polls[p], act)
  }

  /** The poll is at work on the row. */
  predicate WorksOn(poller: Poller, id: RowId) {
    !poller.pc.Idle? && poller.pc.id == id
  }

  predicate IsFinished(poller: Poller) {
    poller.pc.Idle? && poller.todo == map[]
  }

  function Next(w: World, s: Step): World {
    match s
    case Begin(r, wallet, req) =>
      if r in w.runs || !WalletIdValid(wallet) || !DtoValid(req) then w
      else w.(runs := w.runs[r := Run(wallet, req, AtLookup, FeeQuote(0, 0, 0), None)])
    case Do(r, act) =>
      if RunAt(w, r, act) then ApplyRun(w, r, RunEffect(w.runs[r], ViewOf(w, w.runs[r], act), act)) else w
    case Sync(slot, n) =>
      if slot in w.nonces && w.nonces[slot] >= n then w
      else w.(nonces := w.nonces[slot := n], fate := w.fate + SkippedNonces(slot, Counter(w, slot), n))
    case StartPoll(p) =>
      if p in w.polls then w
      else w.(polls := w.polls[p := Poller(FindBroadcasted(w.rows), Idle)])
    case Monitor(p, act) =>
      if PollAt(w, p, act) then ApplyPoll(w, p, PollEffect(w.config, w.polls[p], act)) else w
    case EndPoll(p) =>
      if p in w.polls && IsFinished(w.polls[p]) then w.(polls := w.polls - {p})
      else w
  }

  function SkippedNonces(slot: Slot, from: nat, to: nat): map<(Slot, nat), Fate> {
    map n: nat | from <= n < to :: (slot, n) := Skipped
  }

  function FindBroadcasted(rows: map<RowId, Row>): map<RowId, Row> {
    map id | id in rows && rows[id].status == Broadcasted :: rows[id]
  }

  // -------------------------------------------------------------------------
  // Effects of a run's step
  // -------------------------------------------------------------------------

  /** What a step reads from the tables: the row with the run's key, whether an insert would
      violate a unique index, and the run's counter. */
  datatype View = View(found: Option<Found>, conflict: bool, counter: nat)

  datatype Found = Found(id: RowId, row: Row)

  function FindByKey(w: World, key: string): Option<Found> {
    if key in w.index && w.index[key] in w.rows then Some(Found(w.index[key], w.rows[w.index[key]])) else None
  }

  function ViewOf(w: World, run: Run, act: RunAction): View {
    View(FindByKey(w, Key(run)), act.Insert? && (Key(run) in w.index || act.newId in w.rows), Counter(w, SlotOf(run)))
  }

  /** What a step does to the nonce table: nothing, take the next number, try to give the held
      one back, hand it to the RPC, or walk away from it. */
  datatype NonceOp = NoNonce | Take | GiveBack | HandOver | WalkAway

  /** What a step does to signing_requests. */
  datatype RowWrite = NoWrite | InsertRow(id: RowId) | UpdateRow(id: RowId, update: RowUpdate)

  datatype Effect = Effect(run: Run, nonce: NonceOp, write: RowWrite)

  function FailedUpdate(reason: string, kind: ErrorType): RowUpdate {
    NoChange.(status := Some(Failed), failureReason := Some(reason), errorType := Some(kind))
  }

  predicate PcFits(pc: Pc, act: RunAction) {
    match act
    case Lookup => pc.AtLookup?
    case Policy(_) => pc.AtPolicy?
    case Estimate(_) => pc.AtEstimate?
    case Insert(_) => pc.AtInsert?
    case FindRaced => pc.AtFind?
    case Reset => pc.AtReset?
    case Reserve => pc.AtReserve?
    case StorePayload => pc.AtStorePayload?
    case Sign(_, _) => pc.AtSign?
    case FailSign(_) => pc.AtFailSign?
    case Release => pc.AtRelease?
    case StoreSignature => pc.AtStoreSignature?
    case Send(_) => pc.AtSend?
    case MarkSent(_) => pc.AtMarkSent?
    case FailSend(_) => pc.AtFailSend?
    case Abort => !pc.Done?
  }

  function RunEffect(run: Run, v: View, act: RunAction): (e: Effect)
    requires PcFits(run.pc, act)
    ensures e.nonce.GiveBack? || e.nonce.HandOver? || e.nonce.WalkAway? ==> Holds(run.pc)
  {
    var pc := run.pc;
    match act
    case Lookup => Effect(run.(pc := Existing(v.found, AtPolicy, AtPolicy)), NoNonce, NoWrite)
    case Policy(allowed) => Effect(run.(pc := if allowed then AtEstimate else Done(Errored)), NoNonce, NoWrite)
    case Estimate(quote) =>
      if quote.None? then Effect(run.(pc := Done(Errored)), NoNonce, NoWrite)
      else Effect(run.(pc := AtInsert, quote := quote.value), NoNonce, NoWrite)
    case Insert(newId) =>
      if v.conflict then Effect(run.(pc := AtFind), NoNonce, NoWrite)
      else Effect(run.(pc := AtReserve(newId), claimed := Some(newId)), NoNonce, InsertRow(newId))
    case FindRaced =>
      Effect(run.(pc := Existing(v.found, Done(Errored),
                                 if v.found.Some? then AtReset(v.found.value.id) else Done(Errored))), NoNonce, NoWrite)
    case Reset =>
      // The other columns are passed as undefined, so only the status is written.
      Effect(run.(pc := AtReserve(pc.row), claimed := Some(pc.row)), NoNonce,
             UpdateRow(pc.row, NoChange.(status := Some(Pending))))
    case Reserve => Effect(run.(pc := AtStorePayload(pc.row, v.counter)), Take, NoWrite)
    case StorePayload =>
      Effect(run.(pc := AtSign(pc.row, pc.nonce)), NoNonce,
             UpdateRow(pc.row, NoChange.(payload := Some(TxOf(run, pc.nonce)))))
    case Sign(hash, signature) =>
      Effect(run.(pc := if hash.None? then AtFailSign(pc.row, pc.nonce)
                  else AtStoreSignature(pc.row, pc.nonce, hash.value, signature)), NoNonce, NoWrite)
    case FailSign(message) =>
      Effect(run.(pc := AtRelease(pc.nonce)), NoNonce, UpdateRow(pc.row, FailedUpdate(message, Classify(message))))
    case Release => Effect(run.(pc := Done(Errored)), GiveBack, NoWrite)
    case StoreSignature =>
      Effect(run.(pc := AtSend(pc.row, pc.nonce, pc.hash)), NoNonce,
             UpdateRow(pc.row, NoChange.(status := Some(Signed), hash := Some(pc.hash),
                                         signature := Some(pc.signature))))
    case Send(accepted) =>
      Effect(run.(pc := if accepted then AtMarkSent(pc.row, pc.nonce, pc.hash) else AtFailSend(pc.row, pc.nonce)),
             HandOver, NoWrite)
    case MarkSent(stored) =>
      // This update is inside the try block of the broadcast.
      if !stored then Effect(run.(pc := AtFailSend(pc.row, pc.nonce)), NoNonce, NoWrite)
      else Effect(run.(pc := Done(Accepted(SignResult(pc.row, pc.hash, Broadcasted, pc.nonce, Key(run))))), NoNonce,
                  UpdateRow(pc.row, NoChange.(status := Some(Broadcasted))))
    case FailSend(message) =>
      Effect(run.(pc := Done(Errored)), NoNonce,
             UpdateRow(pc.row, FailedUpdate("broadcast failed: " + message, Classify(message))))
    case Abort => Effect(run.(pc := Done(Errored)), if Holds(pc) then WalkAway else NoNonce, NoWrite)
  }

  /** An existing row that has not failed ends the run with that row's result. */
  function Existing(found: Option<Found>, absent: Pc, failed: Pc): Pc {
    match found
    case None => absent
    case Some(f) => if f.row.status == Failed then failed else Done(Duplicate(BuildResult(f.id, f.row)))
  }

  function NewRow(run: Run): Row {
    Row(Key(run), run.wallet, run.req.chainId, Pending, None, None, None, None, None, None, 0, None)
  }

  function ApplyRun(w: World, r: RunId, e: Effect): World
    requires r in w.runs
    requires e.nonce.GiveBack? || e.nonce.HandOver? || e.nonce.WalkAway? ==> Holds(w.runs[r].pc)
  {
    World(w.config,
          NoncesAfter(w, w.runs[r], e.nonce),
          RowsAfter(w.rows, w.runs[r], e.write),
          if e.write.InsertRow? then w.index[Key(w.runs[r]) := e.write.id] else w.index,
          w.runs[r := e.run],
          w.polls,
          if e.nonce.HandOver? then w.sent + [HandedOver(r, w.runs[r])] else w.sent,
          FateAfter(w, r, w.runs[r], e.nonce),
          if e.write.InsertRow? then w.asked[e.write.id := w.runs[r].req] else w.asked,
          FailedAfter(w.rows, w.everFailed, e.write),
          if e.write.InsertRow? then w.recorded[e.write.id := 0] else w.recorded)
  }

  function HandedOver(r: RunId, run: Run): Sent
    requires Holds(run.pc)
  {
    Sent(ByRun(r), SlotOf(run), if run.pc.AtRelease? then 0 else run.pc.row, TxOf(run, run.pc.nonce),
         if run.pc.AtSend? then run.pc.hash else "")
  }

  function NoncesAfter(w: World, run: Run, op: NonceOp): map<Slot, nat>
    requires op.GiveBack? ==> Holds(run.pc)
  {
    match op
    case Take => w.nonces[SlotOf(run) := Counter(w, SlotOf(run)) + 1]
    case GiveBack =>
      if Counter(w, SlotOf(run)) == run.pc.nonce + 1 then w.nonces[SlotOf(run) := run.pc.nonce] else w.nonces
    case _ => w.nonces
  }

  function FateAfter(w: World, r: RunId, run: Run, op: NonceOp): map<(Slot, nat), Fate>
    requires op.GiveBack? || op.HandOver? || op.WalkAway? ==> Holds(run.pc)
  {
    match op
    case NoNonce => w.fate
    case Take => w.fate[(SlotOf(run), Counter(w, SlotOf(run))) := HeldBy(r)]
    case GiveBack =>
      if Counter(w, SlotOf(run)) == run.pc.nonce + 1 then w.fate - {(SlotOf(run), run.pc.nonce)}
      else w.fate[(SlotOf(run), run.pc.nonce) := Abandoned]
    case HandOver => w.fate[(SlotOf(run), run.pc.nonce) := SentBy(r)]
    case WalkAway => w.fate[(SlotOf(run), run.pc.nonce) := Abandoned]
  }

  /** UPDATE … WHERE id = … has no effect without such a row. */
  function RowsAfter(rows: map<RowId, Row>, run: Run, write: RowWrite): map<RowId, Row> {
    match write
    case NoWrite => rows
    case InsertRow(id) => rows[id := NewRow(run)]
    case UpdateRow(id, u) => if id in rows then rows[id := Merge(rows[id], u)] else rows
  }

  function FailedAfter(rows: map<RowId, Row>, everFailed: set<RowId>, write: RowWrite): set<RowId> {
    if write.UpdateRow? && write.id in rows && write.update.status == Some(Failed)
    then everFailed + {write.id}
    else everFailed
  }

  // -------------------------------------------------------------------------
  // Effects of a monitor step
  // -------------------------------------------------------------------------

  /** The update that records a replacement. The confirmation columns the source passes as
      undefined are dropped by `update`, so they do not appear here. */
  function ReplacementUpdate(row: Row, hash: string): RowUpdate {
    NoChange.(status := Some(Broadcasted), hash := Some(hash),
              attempts := Some(row.attempts + 1),
              originalHash := Kept(row.originalHash, row.hash))
  }

  function ReplacementTx(row: Row, quote: FeeQuote): Tx
    requires row.payload.Some?
  {
    Tx(row.chain, row.payload.value.nonce, row.payload.value.to, row.payload.value.value, row.payload.value.data, quote)
  }

  /** The new poller, a transaction handed to the RPC for a row, and a row update. */
  datatype MonitorEffect = MonitorEffect(poller: Poller, send: Option<PollSend>, write: Option<PollWrite>)

  datatype PollSend = PollSend(id: RowId, row: Row, tx: Tx, hash: string)

  datatype PollWrite = PollWrite(id: RowId, update: RowUpdate, bumped: bool)

  predicate PollFits(poller: Poller, act: PollAction) {
    match act
    case PickRow(id) => poller.pc.Idle? && id in poller.todo
    case OnReceipt(_) => poller.pc.AtReceipt?
    case OnMempool(_) => poller.pc.AtMempool?
    case OnContext(_) => poller.pc.AtContext?
    case OnQuote(_) => poller.pc.AtQuote?
    case OnBumpSign(_) => poller.pc.AtBumpSign?
    case OnBumpSend(_) => poller.pc.AtBumpSend?
    case OnWrite(_) => poller.pc.AtWrite?
  }

  function PollEffect(config: Config, poller: Poller, act: PollAction): MonitorEffect
    requires PollFits(poller, act)
  {
    var pc := poller.pc;
    match act
    case PickRow(id) => MonitorEffect(Poller(poller.todo - {id}, FirstCheck(id, poller.todo[id])), None, None)
    case OnReceipt(answer) => MonitorEffect(poller.(pc := AfterReceipt(pc.id, pc.row, answer)), None, None)
    case OnMempool(answer) => MonitorEffect(poller.(pc := AfterMempool(config, pc.id, pc.row, answer)), None, None)
    case OnContext(answer) => MonitorEffect(poller.(pc := AfterContext(pc.id, pc.row, answer)), None, None)
    case OnQuote(quote) => MonitorEffect(poller.(pc := AfterQuote(config, pc.id, pc.row, quote)), None, None)
    case OnBumpSign(hash) =>
      var unsigned := AtWrite(pc.id, pc.row, FailedUpdate("speed-up signing failed", Retryable), false);
      MonitorEffect(poller.(pc := if hash.None? then unsigned else AtBumpSend(pc.id, pc.row, pc.tx, hash.value)),
                    None, None)
    case OnBumpSend(accepted) =>
      var refused := AtWrite(pc.id, pc.row, FailedUpdate("speed-up broadcast failed", Retryable), false);
      var recorded := AtWrite(pc.id, pc.row, ReplacementUpdate(pc.row, pc.hash), true);
      MonitorEffect(poller.(pc := if accepted then recorded else refused),
                    Some(PollSend(pc.id, pc.row, pc.tx, pc.hash)), None)
    case OnWrite(stored) =>
      MonitorEffect(poller.(pc := Idle), None,
                    if stored then Some(PollWrite(pc.id, pc.update, pc.bumped)) else None)
  }

  function FirstCheck(id: RowId, row: Row): PollPc {
    if row.hash.None? then AtWrite(id, row, FailedUpdate("broadcasted row missing tx_hash", Unknown), false)
    else AtReceipt(id, row)
  }

  function AfterReceipt(id: RowId, row: Row, answer: ReceiptAnswer): PollPc {
    match answer
    case ReceiptError => Idle
    case Receipt(success, blockNumber) =>
      AtWrite(id, row,
              if success then NoChange.(status := Some(Confirmed), blockNumber := Some(blockNumber))
              else FailedUpdate("transaction reverted on-chain", Permanent), false)
    case NoReceipt(stuck) => if stuck then AtMempool(id, row) else Idle
  }

  function AfterMempool(config: Config, id: RowId, row: Row, answer: MempoolAnswer): PollPc {
    match answer
    case MempoolError => Idle
    case NotFound =>
      AtWrite(id, row, NoChange.(status := Some(Dropped),
                                 failureReason := Some("transaction not found on-chain or in mempool")), false)
    case InMempool =>
      // The checks speedUp makes before its first await.
      if row.attempts >= config.maxAttempts then
        AtWrite(id, row, FailedUpdate("max speed-up attempts reached", Permanent), false)
      else if row.payload.None? then
        AtWrite(id, row, FailedUpdate("missing tx_payload for speed-up", Unknown), false)
      else AtContext(id, row)
  }

  function AfterContext(id: RowId, row: Row, answer: ContextAnswer): PollPc {
    match answer
    case ContextError => Idle
    case WalletMissing =>
      AtWrite(id, row, FailedUpdate("wallet metadata unavailable for speed-up", Permanent), false)
    case SeedMissing =>
      AtWrite(id, row, FailedUpdate("organization seed unavailable for speed-up", Permanent), false)
    case ContextFound => AtQuote(id, row)
  }

  /** An RPC error here propagates to the loop of `poll`, which goes on with the next row. */
  function AfterQuote(config: Config, id: RowId, row: Row, quote: Option<FeeQuote>): PollPc {
    if quote.None? || row.payload.None? then Idle
    else AtBumpSign(id, row, ReplacementTx(row, BumpQuote(quote.value, config.bumpPercent)))
  }

  function Resent(p: PollId, send: PollSend): Sent {
    Sent(ByPoll(p), Slot(send.row.wallet, send.row.chain), send.id, send.tx, send.hash)
  }

  function ApplyPoll(w: World, p: PollId, e: MonitorEffect): World {
    var write := if e.write.Some? && e.write.value.id in w.rows then e.write else None;
    w.(polls := w.polls[p := e.poller],
       sent := if e.send.Some? then w.sent + [Resent(p, e.send.value)] else w.sent,
       rows := if write.Some?
               then w.rows[write.value.id := Merge(w.rows[write.value.id], write.value.update)]
               else w.rows,
       everFailed := if write.Some? && write.value.update.status == Some(Failed)
                     then w.everFailed + {write.value.id}
                     else w.everFailed,
       recorded := if write.Some? && write.value.bumped then Bumped(w.recorded, write.value.id) else w.recorded)
  }

  function Bumped(counts: map<RowId, nat>, id: RowId): map<RowId, nat> {
    counts[id := (if id in counts then counts[id] else 0) + 1]
  }

  // -------------------------------------------------------------------------
  // Runs of the system
  // -------------------------------------------------------------------------

  /** The state after a sequence of steps. */
  function Exec(w: World, steps: seq<Step>): World
    decreases |steps|
  {
    if steps == [] then w else Exec(Next(w, steps[0]), steps[1..])
  }

  lemma {:induction false} ExecConcat(w: World, a: seq<Step>, b: seq<Step>)
    ensures Exec(w, a + b) == Exec(Exec(w, a), b)
    decreases |a|
  {
    if a == [] {
      assert a + b == b;
    } else {
      assert (a + b)[1..] == a[1..] + b;
      ExecConcat(Next(w, a[0]), a[1..], b);
    }
  }

  lemma {:induction false} ExecOne(w: World, s: Step, rest: seq<Step>)
    ensures Exec(w, [s] + rest) == Exec(Next(w, s), rest)
  {
    assert ([s] + rest)[1..] == rest;
  }

  lemma {:induction false} ExecSnoc(w: World, steps: seq<Step>, s: Step)
    ensures Exec(w, steps + [s]) == Next(Exec(w, steps), s)
  {
    hide Next;
    ExecConcat(w, steps, [s]);
    ExecOne(Exec(w, steps), s, []);
    assert [s] + [] == [s];
  }

  /** The state before the k-th step. */
  function At(config: Config, steps: seq<Step>, k: nat): World
    requires k <= |steps|
  {
    Exec(Init(config), steps[..k])
  }

  lemma {:induction false} AtStart(config: Config, steps: seq<Step>)
    ensures At(config, steps, 0) == Init(config)
  {
  }

  lemma {:induction false} AtNext(config: Config, steps: seq<Step>, k: nat)
    requires k < |steps|
    ensures At(config, steps, k + 1) == Next(At(config, steps, k), steps[k])
  {
    hide Next, Exec;
    assert steps[..k + 1] == steps[..k] + [steps[k]];
    ExecSnoc(Init(config), steps[..k], steps[k]);
  }

  lemma ConfigStep(w: World, s: Step)
    ensures Next(w, s).config == w.config
  {
    hide RunAt, PollAt, RunEffect, PollEffect, ViewOf, NoncesAfter, RowsAfter, FateAfter, FailedAfter, Bumped, DtoValid,
        WalletIdValid;
  }

  lemma {:induction false} ConfigFixed(w: World, steps: seq<Step>)
    ensures Exec(w, steps).config == w.config
    decreases |steps|
  {
    hide Next;
    if steps != [] {
      ConfigStep(w, steps[0]);
      ConfigFixed(Next(w, steps[0]), steps[1..]);
    }
  }

  // -------------------------------------------------------------------------
  // Conditions on the schedule
  // -------------------------------------------------------------------------

  /** Assumption A, the failed-row reset is atomic: once a run has found the failed row, its
      reset, or the failure of that update, is the very next step. */
  predicate ResetAtomic(w: World, s: Step) {
    forall r :: r in w.runs && w.runs[r].pc.AtReset? ==> s == Do(r, Reset) || s == Do(r, Abort)
  }

  /** Assumption B: a poll starts only when no poll is active. */
  predicate PollAlone(w: World, s: Step) {
    s.StartPoll? ==> w.polls == map[]
  }

  predicate StepDisciplined(w: World, s: Step) {
    ResetAtomic(w, s) && PollAlone(w, s)
  }

  predicate Disciplined(w: World, steps: seq<Step>)
    decreases |steps|
  {
    steps == [] || (StepDisciplined(w, steps[0]) && Disciplined(Next(w, steps[0]), steps[1..]))
  }

  /** Assumption A alone, over a whole run of the system. */
  predicate ResetsAtomic(w: World, steps: seq<Step>)
    decreases |steps|
  {
    steps == [] || (ResetAtomic(w, steps[0]) && ResetsAtomic(Next(w, steps[0]), steps[1..]))
  }

  /** Assumption B alone. */
  predicate PollsAlone(w: World, steps: seq<Step>)
    decreases |steps|
  {
    steps == [] || (PollAlone(w, steps[0]) && PollsAlone(Next(w, steps[0]), steps[1..]))
  }

  /** The row is as the poll read it. */
  predicate Current(rows: map<RowId, Row>, id: RowId, row: Row) {
    id in rows && rows[id] == row && row.status == Broadcasted
  }

  /** The guard: a reset acts on a row that is still failed, and a poll writes a row that is
      still broadcasted. An UPDATE that names the expected status in its WHERE clause, with a
      check of the row count, would enforce it. */
  predicate StepGuarded(w: World, s: Step) {
    match s
    case Do(r, Reset) => RunAt(w, r, Reset) ==> HasStatus(w, w.runs[r].pc.row, Failed)
    case Monitor(p, OnWrite(true)) => PollAt(w, p, OnWrite(true)) ==> HasStatus(w, w.polls[p].pc.id, Broadcasted)
    case _ => true
  }

  predicate HasStatus(w: World, id: RowId, status: Status) {
    id in w.rows && w.rows[id].status == status
  }

  predicate Guarded(w: World, steps: seq<Step>)
    decreases |steps|
  {
    steps == [] || (StepGuarded(w, steps[0]) && Guarded(Next(w, steps[0]), steps[1..]))
  }

  /** A replacement is recorded on a row that has as many attempts as the poll read. */
  predicate StepCounted(w: World, s: Step) {
    match s
    case Monitor(p, OnWrite(true)) =>
      PollAt(w, p, OnWrite(true)) && w.polls[p].pc.bumped && w.polls[p].pc.id in w.rows ==>
          w.rows[w.polls[p].pc.id].attempts == w.polls[p].pc.row.attempts
    case _ => true
  }

  predicate Counted(w: World, steps: seq<Step>)
    decreases |steps|
  {
    steps == [] || (StepCounted(w, steps[0]) && Counted(Next(w, steps[0]), steps[1..]))
  }
}
