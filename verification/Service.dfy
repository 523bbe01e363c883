/** `requestSign`, the monitor's `poll` and `syncNonce` as programs over the two tables, with
    other requests, polls and syncs interfering at every await.

    The programs change the tables through the repositories; `Interfere` stands for what others
    do to them. `trace` records the steps that have happened, and the class invariant says that
    the state is what the step system makes of that trace, so every law of the step system holds
    of these programs. Each method appends to the trace exactly the steps its script lists, and
    returns what its script's result function says. */
module Service {
  import opened Base
  import opened ErrorClassifier
  import opened Requests
  import opened Fees
  import opened Lifecycle
  import opened KeySafety
  import opened Repositories
  import opened RowSafety
  import opened Budget

  /** What interferes before the k-th await. */
  type Schedule = nat -> seq<Step>

  /** What the policy engine, the RPC, the signer and the database answer one run; `fails` says
      which of its database calls throw. */
  datatype SignAnswers = SignAnswers(
    allowed: bool, quote: Option<FeeQuote>, newId: RowId, hash: Option<string>, signature: string, signError: string,
    accepted: bool, stored: bool, sendError: string, fails: nat -> bool)

  /** What they answer for one polled row. */
  datatype RowAnswers = RowAnswers(
    receipt: ReceiptAnswer, mempool: MempoolAnswer, context: ContextAnswer, quote: Option<FeeQuote>,
    hash: Option<string>, accepted: bool, stored: bool)

  /** One call of requestSign: its run, what it asks for, what it is answered, who interferes. */
  datatype Job = Job(r: RunId, wallet: string, req: SignRequest, a: SignAnswers, env: Schedule)

  /** One poll. */
  datatype Watch = Watch(p: PollId, answers: RowId -> RowAnswers, env: Schedule)

  /** Runs, polls and history: everything of the state that is not a table. */
  datatype Book = Book(
    runs: map<RunId, Run>, polls: map<PollId, Poller>, sent: seq<Sent>, fate: map<(Slot, nat), Fate>,
    asked: map<RowId, SignRequest>, everFailed: set<RowId>, recorded: map<RowId, nat>)

  function BookOf(w: World): Book {
    Book(w.runs, w.polls, w.sent, w.fate, w.asked, w.everFailed, w.recorded)
  }

  // -------------------------------------------------------------------------
  // The script of a request
  // -------------------------------------------------------------------------

  /** The awaits of a request that are database calls outside a try block; the others are answered
      by the RPC, by the signer, or inside one. */
  const DB_AWAITS := {0, 1, 3, 4, 5, 6, 7, 9, 10, 11, 14}

  predicate Throws(j: Job, k: nat) {
    k in DB_AWAITS && j.a.fails(k)
  }

  /** The k-th await of a request: the others act, then its own action, or its call throws. */
  function Turn(j: Job, k: nat, act: RunAction): seq<Step> {
    j.env(k) + [Do(j.r, if Throws(j, k) then Abort else act)]
  }

  /** What a lookup by the request's key finds after the steps `t`. */
  function Seen(config: Config, t: seq<Step>, j: Job): Option<Found> {
    FindByKey(Exec(Init(config), t), Preimage(j.wallet, j.req))
  }

  predicate IsLive(found: Option<Found>) {
    found.Some? && found.value.row.status != Failed
  }

  /** The unique indexes would let the request's row in. */
  predicate IsFree(config: Config, t: seq<Step>, j: Job) {
    var w := Exec(Init(config), t);
    Preimage(j.wallet, j.req) !in w.index && j.a.newId !in w.rows
  }

  /** Where step 5 leaves a request. */
  datatype Gate = Stopped(outcome: Outcome) | Passed(row: RowId)

  /** The fast path, or policy, fees and row creation. */
  function GateScript(config: Config, t: seq<Step>, j: Job): seq<Step> {
    var lookup := Turn(j, 0, Lookup);
    lookup + if Throws(j, 0) || IsLive(Seen(config, t + j.env(0), j)) then [] else CheckScript(config, t + lookup, j)
  }

  function GateResult(config: Config, t: seq<Step>, j: Job): Gate {
    var found := Seen(config, t + j.env(0), j);
    if Throws(j, 0) then Stopped(Errored)
    else if IsLive(found) then Stopped(Duplicate(BuildResult(found.value.id, found.value.row)))
    else CheckResult(config, t + Turn(j, 0, Lookup), j)
  }

  predicate IsDenied(j: Job) {
    Throws(j, 1) || !j.a.allowed
  }

  /** Policy and fees. */
  function CheckScript(config: Config, t: seq<Step>, j: Job): seq<Step> {
    var policy := Turn(j, 1, Policy(j.a.allowed));
    policy + if IsDenied(j) then [] else FeeScript(config, t + policy, j)
  }

  function FeeScript(config: Config, t: seq<Step>, j: Job): seq<Step> {
    var estimate := Turn(j, 2, Estimate(j.a.quote));
    estimate + if j.a.quote.None? then [] else ClaimScript(config, t + estimate, j)
  }

  function CheckResult(config: Config, t: seq<Step>, j: Job): Gate {
    if IsDenied(j) || j.a.quote.None? then Stopped(Errored)
    else ClaimResult(config, t + Turn(j, 1, Policy(j.a.allowed)) + Turn(j, 2, Estimate(j.a.quote)), j)
  }

  /** Row creation: insert; on a conflict look the row up; if it has failed, reset it. */
  function ClaimScript(config: Config, t: seq<Step>, j: Job): seq<Step> {
    var insert := Turn(j, 3, RunAction.Insert(j.a.newId));
    insert + if Throws(j, 3) || IsFree(config, t + j.env(3), j) then [] else RaceScript(config, t + insert, j)
  }

  function ClaimResult(config: Config, t: seq<Step>, j: Job): Gate {
    if Throws(j, 3) then Stopped(Errored)
    else if IsFree(config, t + j.env(3), j) then Passed(j.a.newId)
    else RaceResult(config, t + Turn(j, 3, RunAction.Insert(j.a.newId)), j)
  }

  function RaceScript(config: Config, t: seq<Step>, j: Job): seq<Step> {
    var found := Seen(config, t + j.env(4), j);
    Turn(j, 4, FindRaced) + if Throws(j, 4) || found.None? || IsLive(found) then [] else Turn(j, 5, Reset)
  }

  function RaceResult(config: Config, t: seq<Step>, j: Job): Gate {
    if Throws(j, 4) then Stopped(Errored)
    else
      match Seen(config, t + j.env(4), j)
      case None => Stopped(Errored)
      case Some(f) =>
        if f.row.status != Failed then Stopped(Duplicate(BuildResult(f.id, f.row)))
        else if Throws(j, 5) then Stopped(Errored)
        else Passed(f.id)
  }

  /** From the reservation on. */
  function SignScript(j: Job): seq<Step> {
    Turn(j, 6, Reserve) + if Throws(j, 6) then [] else PayloadScript(j)
  }

  function PayloadScript(j: Job): seq<Step> {
    Turn(j, 7, StorePayload) + if Throws(j, 7) then [] else SignatureScript(j)
  }

  function SignatureScript(j: Job): seq<Step> {
    Turn(j, 8, Sign(j.a.hash, j.a.signature)) + if j.a.hash.None? then SignFailScript(j) else BroadcastScript(j)
  }

  /** The catch block of signing: fail the row, then release the nonce. */
  function SignFailScript(j: Job): seq<Step> {
    Turn(j, 9, FailSign(j.a.signError)) + if Throws(j, 9) then [] else Turn(j, 10, Release)
  }

  /** The stored signature, the send, and its result; the catch block fails the row only. */
  function BroadcastScript(j: Job): seq<Step> {
    Turn(j, 11, StoreSignature) + if Throws(j, 11) then [] else SendScript(j)
  }

  function SendScript(j: Job): seq<Step> {
    Turn(j, 12, Send(j.a.accepted)) + SentScript(j)
  }

  function SentScript(j: Job): seq<Step> {
    if !j.a.accepted then Turn(j, 14, FailSend(j.a.sendError))
    else Turn(j, 13, MarkSent(j.a.stored)) + if j.a.stored then [] else Turn(j, 14, FailSend(j.a.sendError))
  }

  predicate IsSent(j: Job) {
    j.a.accepted && j.a.stored
  }

  /** No call throws up to the signer's answer. */
  predicate IsPrepared(j: Job) {
    !Throws(j, 6) && !Throws(j, 7)
  }

  function SendOutcome(j: Job, id: RowId, nonce: nat): Outcome {
    if j.a.hash.Some? && !Throws(j, 11) && IsSent(j)
    then Accepted(SignResult(id, j.a.hash.value, Broadcasted, nonce, Preimage(j.wallet, j.req)))
    else Errored
  }

  /** The number the counter stands at after the steps `t`. */
  function NonceAt(config: Config, t: seq<Step>, j: Job): nat {
    Counter(Exec(Init(config), t), Slot(j.wallet, j.req.chainId))
  }

  function SignOutcome(config: Config, t: seq<Step>, j: Job, id: RowId): Outcome {
    if IsPrepared(j) then SendOutcome(j, id, NonceAt(config, t + j.env(6), j)) else Errored
  }

  function RequestScript(config: Config, t: seq<Step>, j: Job): seq<Step> {
    GateScript(config, t, j) + if GateResult(config, t, j).Passed? then SignScript(j) else []
  }

  function RequestOutcome(config: Config, t: seq<Step>, j: Job): Outcome {
    match GateResult(config, t, j)
    case Stopped(outcome) => outcome
    case Passed(id) => SignOutcome(config, t + GateScript(config, t, j), j, id)
  }

  // -------------------------------------------------------------------------
  // The script of a poll
  // -------------------------------------------------------------------------

  function Probe(v: Watch, k: nat, act: PollAction): seq<Step> {
    v.env(k) + [Monitor(v.p, act)]
  }

  /** The answer to what the poll does next with its row. */
  function Reply(pc: PollPc, a: RowAnswers): PollAction
    requires !pc.Idle?
  {
    match pc
    case AtReceipt(_, _) => OnReceipt(a.receipt)
    case AtMempool(_, _) => OnMempool(a.mempool)
    case AtContext(_, _) => OnContext(a.context)
    case AtQuote(_, _) => OnQuote(a.quote)
    case AtBumpSign(_, _, _) => OnBumpSign(a.hash)
    case AtBumpSend(_, _, _, _) => OnBumpSend(a.accepted)
    case AtWrite(_, _, _, _) => OnWrite(a.stored)
  }

  function After(config: Config, pc: PollPc, a: RowAnswers): PollPc
    requires !pc.Idle?
  {
    PollEffect(config, Poller(map[], pc), Reply(pc, a)).poller.pc
  }

  /** How many answers a pass can still take. */
  function Rank(pc: PollPc): nat {
    if pc.Idle? then 0 else Remaining(pc) + 1
  }

  lemma AnswerLowersRank(config: Config, pc: PollPc, a: RowAnswers)
    requires !pc.Idle?
    ensures Rank(After(config, pc, a)) < Rank(pc)
  {
    hide ReplacementTx, BumpQuote, ReplacementUpdate, FailedUpdate;
  }

  /** A pass over one row, from here until the poll lets go of it. */
  function PassScript(config: Config, v: Watch, pc: PollPc, a: RowAnswers, k: nat): seq<Step>
    decreases Rank(pc)
  {
    if pc.Idle? then []
    else
      AnswerLowersRank(config, pc, a);
      Probe(v, k, Reply(pc, a)) + PassScript(config, v, After(config, pc, a), a, k + 1)
  }

  /** What the pass decides to write, if anything. */
  function Verdict(config: Config, pc: PollPc, a: RowAnswers): Option<RowUpdate>
    decreases Rank(pc)
  {
    match pc
    case Idle => None
    case AtWrite(_, _, update, _) => Some(update)
    case _ =>
      AnswerLowersRank(config, pc, a);
      Verdict(config, After(config, pc, a), a)
  }

  /** One row: picked, then the pass its answers lead it through. */
  function RowScript(config: Config, v: Watch, id: RowId, row: Row, a: RowAnswers, k: nat): seq<Step> {
    Probe(v, k, PickRow(id)) + PassScript(config, v, FirstCheck(id, row), a, k + 1)
  }

  predicate AllIn(order: seq<RowId>, found: map<RowId, Row>) {
    forall i :: 0 <= i < |order| ==> order[i] in found
  }

  predicate Distinct(order: seq<RowId>) {
    forall i, k :: 0 <= i < k < |order| ==> order[i] != order[k]
  }

  /** The rows in the order they were taken, ten awaits apart. */
  function PollScript(config: Config, v: Watch, found: map<RowId, Row>, order: seq<RowId>): seq<Step>
    requires AllIn(order, found)
  {
    if order == [] then []
    else
      var n := |order| - 1;
      PollScript(config, v, found, order[..n])
          + RowScript(config, v, order[n], found[order[n]], v.answers(order[n]), 10 * n)
  }

  // -------------------------------------------------------------------------
  // What the answers mean for a row
  // -------------------------------------------------------------------------

  predicate FailedFor(now: Row, reason: string, kind: ErrorType) {
    now.status == Failed && now.failureReason == Some(reason) && now.errorType == Some(kind)
  }

  /** The replacement was signed and accepted, and the row shows it; or the row has failed. */
  predicate ReplaceTold(was: Row, a: RowAnswers, now: Row) {
    if a.hash.None? then FailedFor(now, "speed-up signing failed", Retryable)
    else if !a.accepted then FailedFor(now, "speed-up broadcast failed", Retryable)
    else
      && now.status == Broadcasted && now.hash == a.hash && now.attempts == was.attempts + 1
      && (was.originalHash.Some? ==> now.originalHash == was.originalHash)
      && (was.originalHash.None? && was.hash.Some? ==> now.originalHash == was.hash)
  }

  predicate ContextTold(was: Row, a: RowAnswers, now: Row) {
    && (a.context == WalletMissing ==> FailedFor(now, "wallet metadata unavailable for speed-up", Permanent))
    && (a.context == SeedMissing ==> FailedFor(now, "organization seed unavailable for speed-up", Permanent))
    && (a.context == ContextFound && a.quote.Some? ==> ReplaceTold(was, a, now))
  }

  predicate SpeedUpTold(config: Config, was: Row, a: RowAnswers, now: Row) {
    if was.attempts >= config.maxAttempts then FailedFor(now, "max speed-up attempts reached", Permanent)
    else if was.payload.None? then FailedFor(now, "missing tx_payload for speed-up", Unknown)
    else ContextTold(was, a, now)
  }

  predicate MempoolTold(config: Config, was: Row, a: RowAnswers, now: Row) {
    && (a.mempool == NotFound ==>
          now.status == Dropped && now.failureReason == Some("transaction not found on-chain or in mempool"))
    && (a.mempool == InMempool ==> SpeedUpTold(config, was, a, now))
  }

  /** The row after a pass over it that stored its write: confirmed in the receipt's block, failed
      if reverted, and otherwise, if it was stuck, as the mempool and the speed-up have it. */
  predicate RowTold(config: Config, was: Row, a: RowAnswers, now: Row) {
    if was.hash.None? then FailedFor(now, "broadcasted row missing tx_hash", Unknown)
    else
      match a.receipt
      case ReceiptError => true
      case Receipt(true, block) => now.status == Confirmed && now.blockNumber == Some(block)
      case Receipt(false, _) => FailedFor(now, "transaction reverted on-chain", Permanent)
      case NoReceipt(stuck) => stuck ==> MempoolTold(config, was, a, now)
  }

  /** The answers lead to a write. */
  predicate IsDecisive(config: Config, was: Row, a: RowAnswers) {
    || was.hash.None? || a.receipt.Receipt?
    || (a.receipt == NoReceipt(true)
        && (a.mempool == NotFound || (a.mempool == InMempool && IsSpedUp(config, was, a))))
  }

  predicate IsSpedUp(config: Config, was: Row, a: RowAnswers) {
    || was.attempts >= config.maxAttempts || was.payload.None? || a.context == WalletMissing || a.context == SeedMissing
    || (a.context == ContextFound && a.quote.Some?)
  }

  /** The rows after one update, which may have thrown. */
  function Updated(rows: map<RowId, Row>, id: RowId, fields: RowUpdate, stored: bool): map<RowId, Row> {
    if stored && id in rows then rows[id := Merge(rows[id], fields)] else rows
  }

  // -------------------------------------------------------------------------
  // Interference
  // -------------------------------------------------------------------------

  predicate OfRun(s: Step, r: RunId) {
    (s.Do? || s.Begin?) && s.r == r
  }

  predicate OfPoll(s: Step, p: PollId) {
    (s.Monitor? || s.StartPoll? || s.EndPoll?) && s.p == p
  }

  ghost predicate ForeignToRun(env: Schedule, r: RunId) {
    forall k, s :: s in env(k) ==> !OfRun(s, r)
  }

  ghost predicate ForeignToPoll(env: Schedule, p: PollId) {
    forall k, s :: s in env(k) ==> !OfPoll(s, p)
  }

  lemma OtherKeepsRun(w: World, s: Step, r: RunId)
    requires r in w.runs && !OfRun(s, r)
    ensures r in Next(w, s).runs && Next(w, s).runs[r] == w.runs[r]
  {
    hide RunEffect, PollEffect, DtoValid, WalletIdValid, NoncesAfter, RowsAfter, FateAfter, FailedAfter, Bumped;
  }

  lemma OtherKeepsPoll(w: World, s: Step, p: PollId)
    requires p in w.polls && !OfPoll(s, p)
    ensures p in Next(w, s).polls && Next(w, s).polls[p] == w.polls[p]
  {
    hide RunEffect, PollEffect, DtoValid, WalletIdValid, NoncesAfter, RowsAfter, FateAfter, FailedAfter, Bumped;
  }

  lemma {:induction false} OthersKeepRun(w: World, others: seq<Step>, r: RunId)
    requires r in w.runs && forall s :: s in others ==> !OfRun(s, r)
    ensures r in Exec(w, others).runs && Exec(w, others).runs[r] == w.runs[r]
    decreases |others|
  {
    hide Next;
    if others != [] {
      assert others[0] in others;
      OtherKeepsRun(w, others[0], r);
      OthersKeepRun(Next(w, others[0]), others[1..], r);
    }
  }

  lemma {:induction false} OthersKeepPoll(w: World, others: seq<Step>, p: PollId)
    requires p in w.polls && forall s :: s in others ==> !OfPoll(s, p)
    ensures p in Exec(w, others).polls && Exec(w, others).polls[p] == w.polls[p]
    decreases |others|
  {
    hide Next;
    if others != [] {
      assert others[0] in others;
      OtherKeepsPoll(w, others[0], p);
      OthersKeepPoll(Next(w, others[0]), others[1..], p);
    }
  }

  class WalletService {
    const config: Config
    const nonceRepo: WalletNonceRepository
    const requestRepo: SigningRequestRepository
    var book: Book
    ghost var trace: seq<Step>

    function State(): World
      reads this, nonceRepo, requestRepo
    {
      World(config, nonceRepo.nonces, requestRepo.rows, requestRepo.index, book.runs, book.polls, book.sent, book.fate,
            book.asked, book.everFailed, book.recorded)
    }

    ghost predicate Valid()
      reads this, nonceRepo, requestRepo
    {
      State() == Exec(Init(config), trace)
    }

    constructor (config: Config)
      ensures Valid() && this.config == config && trace == []
      ensures fresh(nonceRepo) && fresh(requestRepo)
    {
      this.config := config;
      nonceRepo := new WalletNonceRepository();
      requestRepo := new SigningRequestRepository();
      book := BookOf(Init(config));
      trace := [];
    }

    // -----------------------------------------------------------------------
    // Steps
    // -----------------------------------------------------------------------

    /** Books a step whose effect on the tables has taken place. */
    method Note(before: World, s: Step)
      requires before == Exec(Init(config), trace)
      requires nonceRepo.nonces == Next(before, s).nonces && requestRepo.rows == Next(before, s).rows
                 && requestRepo.index == Next(before, s).index
      modifies this`book, this`trace
      ensures Valid() && trace == old(trace) + [s] && State() == Next(before, s)
    {
      hide Next;
      ExecSnoc(Init(config), trace, s);
      ConfigFixed(Init(config), trace);
      ConfigStep(before, s);
      book := BookOf(Next(before, s));
      trace := trace + [s];
    }

    /** Other requests, polls and syncs take their steps: the state becomes what the step system
        makes of it. */
    method Interfere(others: seq<Step>)
      requires Valid()
      modifies this`book, this`trace, nonceRepo, requestRepo
      ensures Valid() && trace == old(trace) + others && State() == Exec(old(State()), others)
    {
      hide Next;
      ExecConcat(Init(config), trace, others);
      ConfigFixed(Init(config), trace);
      ConfigFixed(State(), others);
      var w := Exec(State(), others);
      nonceRepo.nonces := w.nonces;
      requestRepo.rows, requestRepo.index := w.rows, w.index;
      book := BookOf(w);
      trace := trace + others;
    }

    /** The repositories' own invariant follows from the step system's. */
    lemma TablesValid()
      requires Valid()
      ensures requestRepo.Valid() && KeyInv(State())
    {
      hide Exec;
      InitRows(config);
      RowRuns(Init(config), trace);
      hide RowInv;
      assert KeyInv(State());
    }

    // -----------------------------------------------------------------------
    // Awaits of a request
    // -----------------------------------------------------------------------

    /** The request is under way as its run. */
    ghost predicate Running(j: Job)
      reads this, nonceRepo, requestRepo
    {
      && Valid() && ForeignToRun(j.env, j.r)
      && j.r in book.runs && book.runs[j.r].wallet == j.wallet && book.runs[j.r].req == j.req
    }

    /** Others act, the run stays where it is. */
    method AwaitRun(j: Job, k: nat)
      requires Running(j)
      modifies this`book, this`trace, nonceRepo, requestRepo
      ensures Running(j) && book.runs[j.r] == old(book.runs[j.r])
      ensures trace == old(trace) + j.env(k)
    {
      hide Exec;
      OthersKeepRun(State(), j.env(k), j.r);
      Interfere(j.env(k));
    }

    /** Books an action of the run. */
    method NoteRun(before: World, j: Job, act: RunAction)
      requires before == Exec(Init(config), trace) && ForeignToRun(j.env, j.r) && j.r in before.runs
      requires before.runs[j.r].wallet == j.wallet && before.runs[j.r].req == j.req && PcFits(before.runs[j.r].pc, act)
      requires var w := Next(before, Do(j.r, act));
               nonceRepo.nonces == w.nonces && requestRepo.rows == w.rows && requestRepo.index == w.index
      modifies this`book, this`trace
      ensures Running(j) && book.runs[j.r] == Next(before, Do(j.r, act)).runs[j.r]
      ensures trace == old(trace) + [Do(j.r, act)]
    {
      hide Exec, Next;
      RunKeepsRequest(before, j.r, act);
      Note(before, Do(j.r, act));
    }

    /** The run is about to take action `act`. */
    predicate Ready(j: Job, act: RunAction)
      reads this
    {
      j.r in book.runs && PcFits(book.runs[j.r].pc, act)
    }

    /** The call throws outside any try block: the run ends here and the tables stay as they are. */
    method Fail(j: Job, k: nat, act: RunAction)
      requires Running(j) && Ready(j, act) && Throws(j, k)
      modifies this`book, this`trace, nonceRepo, requestRepo
      ensures Running(j) && trace == old(trace) + Turn(j, k, act)
      ensures book.runs[j.r] == old(book.runs[j.r]).(pc := Done(Errored))
      ensures requestRepo.rows == Exec(Init(config), old(trace) + j.env(k)).rows
    {
      hide Exec;
      AwaitRun(j, k);
      AnswerLeavesTables(State(), j.r, Abort);
      NoteRun(State(), j, Abort);
      Snoc(old(trace), j.env(k), Do(j.r, Abort));
    }

    /** A lookup by idempotency key. */
    method Find(j: Job, k: nat, act: RunAction) returns (ok: bool, found: Option<Found>)
      requires Running(j) && Ready(j, act) && (act.Lookup? || act.FindRaced?)
      modifies this`book, this`trace, nonceRepo, requestRepo
      ensures Running(j) && trace == old(trace) + Turn(j, k, act) && ok == !Throws(j, k)
      ensures ok ==> found == Seen(config, old(trace) + j.env(k), j)
      ensures book.runs[j.r] == if ok then RunEffect(old(book.runs[j.r]), View(found, false, 0), act).run
                                else old(book.runs[j.r]).(pc := Done(Errored))
    {
      hide Exec;
      if Throws(j, k) {
        Fail(j, k, act);
        return false, None;
      }
      AwaitRun(j, k);
      var w := State();
      TablesValid();
      ok := true;
      found := requestRepo.FindByIdempotencyKey(Key(book.runs[j.r]));
      FoundAsIndexed(w, j.wallet, j.req, found);
      FindLeavesTables(w, j.r, act);
      NoteRun(w, j, act);
      Snoc(old(trace), j.env(k), Do(j.r, act));
    }

    /** An answer of the policy engine, the RPC or the signer, or an update that threw inside a
        try block. */
    method Answer(j: Job, k: nat, act: RunAction) returns (ok: bool)
      requires Running(j) && Ready(j, act)
      requires act.Policy? || act.Estimate? || act.Sign? || act.Send? || act == MarkSent(false)
      modifies this`book, this`trace, nonceRepo, requestRepo
      ensures Running(j) && trace == old(trace) + Turn(j, k, act) && ok == !Throws(j, k)
      ensures book.runs[j.r] == if ok then RunEffect(old(book.runs[j.r]), View(None, false, 0), act).run
                                else old(book.runs[j.r]).(pc := Done(Errored))
    {
      hide Exec;
      if Throws(j, k) {
        Fail(j, k, act);
        return false;
      }
      AwaitRun(j, k);
      AnswerLeavesTables(State(), j.r, act);
      NoteRun(State(), j, act);
      Snoc(old(trace), j.env(k), Do(j.r, act));
      ok := true;
    }

    /** The insert arbitrated by the unique index. */
    method Insert(j: Job, k: nat) returns (ok: bool, created: bool)
      requires Running(j) && Ready(j, RunAction.Insert(j.a.newId))
      modifies this`book, this`trace, nonceRepo, requestRepo
      ensures Running(j) && trace == old(trace) + Turn(j, k, RunAction.Insert(j.a.newId)) && ok == !Throws(j, k)
      ensures ok ==> created == IsFree(config, old(trace) + j.env(k), j)
      ensures book.runs[j.r] == if !ok then old(book.runs[j.r]).(pc := Done(Errored))
                                else RunEffect(old(book.runs[j.r]), View(None, !created, 0),
                                               RunAction.Insert(j.a.newId)).run
    {
      hide Exec;
      if Throws(j, k) {
        Fail(j, k, RunAction.Insert(j.a.newId));
        return false, false;
      }
      AwaitRun(j, k);
      var w := State();
      TablesValid();
      InsertOnTables(w, j.r, j.a.newId);
      ok := true;
      created := requestRepo.Create(j.a.newId, NewRow(book.runs[j.r]));
      NoteRun(w, j, RunAction.Insert(j.a.newId));
      Snoc(old(trace), j.env(k), Do(j.r, RunAction.Insert(j.a.newId)));
    }

    /** An update of the run's own row. */
    method Update(j: Job, k: nat, act: RunAction, id: RowId, fields: RowUpdate) returns (ok: bool)
      requires Running(j) && Ready(j, act) && Writes(book.runs[j.r], act, id, fields)
      modifies this`book, this`trace, nonceRepo, requestRepo
      ensures Running(j) && trace == old(trace) + Turn(j, k, act) && ok == !Throws(j, k)
      ensures book.runs[j.r] == if ok then RunEffect(old(book.runs[j.r]), View(None, false, 0), act).run
                                else old(book.runs[j.r]).(pc := Done(Errored))
      ensures requestRepo.rows == Updated(Exec(Init(config), old(trace) + j.env(k)).rows, id, fields, ok)
    {
      hide Exec, RunEffect, Key, Preimage, Merge;
      if Throws(j, k) {
        Fail(j, k, act);
        return false;
      }
      AwaitRun(j, k);
      var w := State();
      TablesValid();
      requestRepo.Update(id, fields);
      UpdateOnTables(w, j.r, act, id, fields);
      NoteRun(w, j, act);
      Snoc(old(trace), j.env(k), Do(j.r, act));
      ok := true;
    }

    method ReserveNonce(j: Job, k: nat) returns (ok: bool, nonce: nat)
      requires Running(j) && Ready(j, Reserve)
      modifies this`book, this`trace, nonceRepo, requestRepo
      ensures Running(j) && trace == old(trace) + Turn(j, k, Reserve) && ok == !Throws(j, k)
      ensures ok ==> nonce == NonceAt(config, old(trace) + j.env(k), j)
      ensures book.runs[j.r] == old(book.runs[j.r]).(pc := if ok then AtStorePayload(old(book.runs[j.r].pc.row), nonce)
                                                           else Done(Errored))
    {
      hide Exec;
      if Throws(j, k) {
        Fail(j, k, Reserve);
        return false, 0;
      }
      AwaitRun(j, k);
      var w := State();
      ok := true;
      nonce := nonceRepo.Reserve(SlotOf(book.runs[j.r]));
      ReserveOnTables(w, j.r);
      NoteRun(w, j, Reserve);
      Snoc(old(trace), j.env(k), Do(j.r, Reserve));
    }

    /** The nonce goes back if it is the newest reservation. */
    method ReleaseNonce(j: Job, k: nat) returns (released: bool)
      requires Running(j) && Ready(j, Release)
      modifies this`book, this`trace, nonceRepo, requestRepo
      ensures Running(j) && trace == old(trace) + Turn(j, k, Release)
      ensures book.runs[j.r].pc == Done(Errored)
      ensures released <==>
              !Throws(j, k) && NonceAt(config, old(trace) + j.env(k), j) == old(book.runs[j.r].pc.nonce) + 1
    {
      hide Exec;
      if Throws(j, k) {
        Fail(j, k, Release);
        return false;
      }
      AwaitRun(j, k);
      var w := State();
      released := nonceRepo.Release(SlotOf(book.runs[j.r]), book.runs[j.r].pc.nonce);
      ReleaseOnTables(w, j.r);
      NoteRun(w, j, Release);
      Snoc(old(trace), j.env(k), Do(j.r, Release));
    }

    /** Syncing one counter from the chain; also what a failed broadcast leaves behind. */
    method SyncNonce(slot: Slot, chainNonce: nat)
      requires Valid()
      modifies this`book, this`trace, nonceRepo
      ensures Valid() && trace == old(trace) + [Sync(slot, chainNonce)]
    {
      hide Exec, Next;
      var w := State();
      SyncOnTables(w, slot, chainNonce);
      nonceRepo.SyncFromChain(slot, chainNonce);
      Note(w, Sync(slot, chainNonce));
    }

    method BeginRun(j: Job)
      requires Valid() && j.r !in book.runs && ValidRequest(j.wallet, j.req) && ForeignToRun(j.env, j.r)
      modifies this`book, this`trace
      ensures Running(j) && trace == old(trace) + [Begin(j.r, j.wallet, j.req)]
      ensures book.runs[j.r] == Run(j.wallet, j.req, AtLookup, FeeQuote(0, 0, 0), None)
    {
      hide Exec, WalletIdValid, DtoValid;
      Note(State(), Begin(j.r, j.wallet, j.req));
    }

    // -----------------------------------------------------------------------
    // requestSign
    // -----------------------------------------------------------------------

    /** One request from the loaded wallet to its outcome: the steps of its script and no
        others, and the outcome the script's answers and lookups determine. */
    method RequestSign(j: Job) returns (outcome: Outcome)
      requires Valid() && j.r !in book.runs && ValidRequest(j.wallet, j.req) && ForeignToRun(j.env, j.r)
      modifies this`book, this`trace, nonceRepo, requestRepo
      ensures Running(j) && book.runs[j.r].pc == Done(outcome)
      ensures outcome.Accepted? ==>
                j.a.allowed && j.a.quote.Some? && j.a.hash == Some(outcome.result.hash) && j.a.accepted && j.a.stored
      ensures var begun := old(trace) + [Begin(j.r, j.wallet, j.req)];
              && trace == begun + RequestScript(config, begun, j)
              && outcome == RequestOutcome(config, begun, j)
    {
      hide Valid, ForeignToRun, GateScript, GateResult, SignScript, SignOutcome;
      BeginRun(j);
      ghost var begun := trace;
      GateNeverAccepts(config, begun, j);
      var gate := PassGate(j);
      match gate
      case Stopped(early) => outcome := early;
      case Passed(id) =>
        SuccessNeeds(config, trace, j, id);
        outcome := SignAndSend(j, id);
        Assoc(begun, GateScript(config, begun, j), SignScript(j));
    }

    /** Steps 2 to 5: the fast path, policy, fees, and the row that claims the key. */
    method PassGate(j: Job) returns (gate: Gate)
      requires Running(j) && book.runs[j.r].pc.AtLookup?
      modifies this`book, this`trace, nonceRepo, requestRepo
      ensures Running(j) && trace == old(trace) + GateScript(config, old(trace), j)
      ensures gate == GateResult(config, old(trace), j)
      ensures gate.Passed? ==> j.a.allowed && j.a.quote.Some?
      ensures book.runs[j.r].pc == PcAfter(gate)
    {
      hide Valid, ForeignToRun, Seen, CheckScript, CheckResult, Turn, Throws;
      GateNeedsLeave(config, trace, j);
      Unit(Turn(j, 0, Lookup));
      // Fast path: an existing request that has not failed.
      var ok, existing := Find(j, 0, Lookup);
      if !ok {
        return Stopped(Errored);
      }
      if existing.Some? && existing.value.row.status != Failed {
        return Stopped(Duplicate(BuildResult(existing.value.id, existing.value.row)));
      }
      gate := CheckPolicy(j);
      Assoc(old(trace), Turn(j, 0, Lookup), CheckScript(config, old(trace) + Turn(j, 0, Lookup), j));
    }

    /** Steps 3 and 4. */
    method CheckPolicy(j: Job) returns (gate: Gate)
      requires Running(j) && book.runs[j.r].pc.AtPolicy?
      modifies this`book, this`trace, nonceRepo, requestRepo
      ensures Running(j) && trace == old(trace) + CheckScript(config, old(trace), j)
      ensures gate == CheckResult(config, old(trace), j)
      ensures book.runs[j.r].pc == PcAfter(gate)
    {
      hide Valid, ForeignToRun, FeeScript, ClaimResult, Turn, Throws;
      ghost var policy := Turn(j, 1, Policy(j.a.allowed));
      Unit(policy);
      var ok := Answer(j, 1, Policy(j.a.allowed));
      if !ok || !j.a.allowed {
        return Stopped(Errored);
      }
      gate := EstimateFees(j);
      Assoc(old(trace), policy, FeeScript(config, old(trace) + policy, j));
    }

    method EstimateFees(j: Job) returns (gate: Gate)
      requires Running(j) && book.runs[j.r].pc.AtEstimate?
      modifies this`book, this`trace, nonceRepo, requestRepo
      ensures Running(j) && trace == old(trace) + FeeScript(config, old(trace), j)
      ensures gate == if j.a.quote.None? then Stopped(Errored)
                      else ClaimResult(config, old(trace) + Turn(j, 2, Estimate(j.a.quote)), j)
      ensures book.runs[j.r].pc == PcAfter(gate)
    {
      hide Valid, ForeignToRun, ClaimScript, ClaimResult, Turn;
      ghost var estimate := Turn(j, 2, Estimate(j.a.quote));
      Unit(estimate);
      var _ := Answer(j, 2, Estimate(j.a.quote));
      if j.a.quote.None? {
        return Stopped(Errored);
      }
      gate := ClaimRow(j);
      Assoc(old(trace), estimate, ClaimScript(config, old(trace) + estimate, j));
    }

    /** The pending row comes before the nonce; of two inserts the unique index lets one pass. */
    method ClaimRow(j: Job) returns (gate: Gate)
      requires Running(j) && book.runs[j.r].pc.AtInsert?
      modifies this`book, this`trace, nonceRepo, requestRepo
      ensures Running(j) && trace == old(trace) + ClaimScript(config, old(trace), j)
      ensures gate == ClaimResult(config, old(trace), j)
      ensures book.runs[j.r].pc == PcAfter(gate)
    {
      hide Valid, ForeignToRun, RaceScript, RaceResult, IsFree, Turn, Throws;
      ghost var insert := Turn(j, 3, RunAction.Insert(j.a.newId));
      Unit(insert);
      var ok, created := Insert(j, 3);
      if !ok {
        return Stopped(Errored);
      }
      if created {
        return Passed(j.a.newId);
      }
      gate := ReclaimRow(j);
      Assoc(old(trace), insert, RaceScript(config, old(trace) + insert, j));
    }

    /** The insert lost: the row that has the key is returned, or reset if it has failed. */
    method ReclaimRow(j: Job) returns (gate: Gate)
      requires Running(j) && book.runs[j.r].pc.AtFind?
      modifies this`book, this`trace, nonceRepo, requestRepo
      ensures Running(j) && trace == old(trace) + RaceScript(config, old(trace), j)
      ensures gate == RaceResult(config, old(trace), j)
      ensures book.runs[j.r].pc == PcAfter(gate)
    {
      hide Valid, ForeignToRun, Seen, Turn, Throws;
      Unit(Turn(j, 4, FindRaced));
      var ok, raced := Find(j, 4, FindRaced);
      if !ok || raced.None? {
        return Stopped(Errored);
      }
      if raced.value.row.status != Failed {
        return Stopped(Duplicate(BuildResult(raced.value.id, raced.value.row)));
      }
      ok := Update(j, 5, Reset, raced.value.id, NoChange.(status := Some(Pending)));
      Assoc(old(trace), Turn(j, 4, FindRaced), Turn(j, 5, Reset));
      return if ok then Passed(raced.value.id) else Stopped(Errored);
    }

    /** Steps 6 to 11. */
    method SignAndSend(j: Job, id: RowId) returns (outcome: Outcome)
      requires Running(j) && book.runs[j.r].pc == AtReserve(id)
      modifies this`book, this`trace, nonceRepo, requestRepo
      ensures Running(j) && trace == old(trace) + SignScript(j)
      ensures outcome == SignOutcome(config, old(trace), j, id)
      ensures book.runs[j.r].pc == Done(outcome)
    {
      hide Valid, ForeignToRun, NonceAt, PayloadScript, Turn, Throws, SendOutcome;
      Unit(Turn(j, 6, Reserve));
      var ok, nonce := ReserveNonce(j, 6);
      if !ok {
        return Errored;
      }
      outcome := StoreAndSign(j, id, nonce);
      Assoc(old(trace), Turn(j, 6, Reserve), PayloadScript(j));
    }

    /** The transaction with the reserved nonce is stored, then signed. */
    method StoreAndSign(j: Job, id: RowId, nonce: nat) returns (outcome: Outcome)
      requires Running(j) && book.runs[j.r].pc == AtStorePayload(id, nonce)
      modifies this`book, this`trace, nonceRepo, requestRepo
      ensures Running(j) && trace == old(trace) + PayloadScript(j)
      ensures outcome == if Throws(j, 7) then Errored else SendOutcome(j, id, nonce)
      ensures book.runs[j.r].pc == Done(outcome)
    {
      hide Valid, ForeignToRun, SignatureScript, Turn, Throws, SendOutcome, RunEffect, Updated;
      Unit(Turn(j, 7, StorePayload));
      PayloadStep(book.runs[j.r]);
      var ok := Update(j, 7, StorePayload, id, NoChange.(payload := Some(TxOf(book.runs[j.r], nonce))));
      if !ok {
        return Errored;
      }
      outcome := SignTx(j, id, nonce);
      Assoc(old(trace), Turn(j, 7, StorePayload), SignatureScript(j));
    }

    method SignTx(j: Job, id: RowId, nonce: nat) returns (outcome: Outcome)
      requires Running(j) && book.runs[j.r].pc == AtSign(id, nonce)
      modifies this`book, this`trace, nonceRepo, requestRepo
      ensures Running(j) && trace == old(trace) + SignatureScript(j)
      ensures outcome == SendOutcome(j, id, nonce) && book.runs[j.r].pc == Done(outcome)
    {
      hide Valid, ForeignToRun, SignFailScript, BroadcastScript, Turn, RunEffect;
      ghost var sign := Turn(j, 8, Sign(j.a.hash, j.a.signature));
      SignStep(book.runs[j.r], j.a.hash, j.a.signature);
      var _ := Answer(j, 8, Sign(j.a.hash, j.a.signature));
      if j.a.hash.None? {
        outcome := SignFailed(j, id);
        Assoc(old(trace), sign, SignFailScript(j));
      } else {
        outcome := Broadcast(j, id, nonce);
        Assoc(old(trace), sign, BroadcastScript(j));
      }
    }

    /** The catch block of signing: the row fails and the nonce goes back if it is the tail. */
    method SignFailed(j: Job, id: RowId) returns (outcome: Outcome)
      requires Running(j) && book.runs[j.r].pc.AtFailSign? && book.runs[j.r].pc.row == id
      modifies this`book, this`trace, nonceRepo, requestRepo
      ensures Running(j) && trace == old(trace) + SignFailScript(j)
      ensures outcome == Errored && book.runs[j.r].pc == Done(Errored)
    {
      hide Valid, ForeignToRun, Turn, Throws, Classify, RunEffect, Writes, Updated;
      ghost var failed := Turn(j, 9, FailSign(j.a.signError));
      Unit(failed);
      FailSignStep(book.runs[j.r], j.a.signError);
      var ok := Update(j, 9, FailSign(j.a.signError), id, FailedUpdate(j.a.signError, Classify(j.a.signError)));
      if ok {
        var _ := ReleaseNonce(j, 10);
        Assoc(old(trace), failed, Turn(j, 10, Release));
      }
      return Errored;
    }

    /** Steps 8 to 11: the signed row, the broadcast, and its result. Unless an update throws
        outside the try block, the row shows the result. */
    method Broadcast(j: Job, id: RowId, nonce: nat) returns (outcome: Outcome)
      requires j.a.hash.Some? && Running(j)
      requires book.runs[j.r].pc == AtStoreSignature(id, nonce, j.a.hash.value, j.a.signature)
      modifies this`book, this`trace, nonceRepo, requestRepo
      ensures Running(j) && trace == old(trace) + BroadcastScript(j)
      ensures outcome == SendOutcome(j, id, nonce) && book.runs[j.r].pc == Done(outcome)
      ensures !Throws(j, 11) ==> RowShows(j, id, outcome)
    {
      hide Turn, SendScript, Valid, ForeignToRun, Throws, RunEffect, Updated, RowShows;
      Unit(Turn(j, 11, StoreSignature));
      SignatureStep(book.runs[j.r]);
      var ok := Update(j, 11, StoreSignature, id,
                       NoChange.(status := Some(Signed), hash := j.a.hash, signature := Some(j.a.signature)));
      if !ok {
        return Errored;
      }
      outcome := SendTx(j, id, nonce);
      Assoc(old(trace), Turn(j, 11, StoreSignature), SendScript(j));
    }

    /** The row's status tells the outcome, unless the failing update threw. */
    ghost predicate RowShows(j: Job, id: RowId, outcome: Outcome)
      reads this, nonceRepo, requestRepo
    {
      && id in requestRepo.rows
      && (outcome.Accepted? ==> requestRepo.rows[id].status == Broadcasted)
      && (!outcome.Accepted? && !Throws(j, 14) ==> requestRepo.rows[id].status == Failed)
    }

    method SendTx(j: Job, id: RowId, nonce: nat) returns (outcome: Outcome)
      requires j.a.hash.Some? && Running(j) && !Throws(j, 11)
      requires book.runs[j.r].pc == AtSend(id, nonce, j.a.hash.value)
      modifies this`book, this`trace, nonceRepo, requestRepo
      ensures Running(j) && trace == old(trace) + SendScript(j)
      ensures outcome == SendOutcome(j, id, nonce) && book.runs[j.r].pc == Done(outcome)
      ensures RowShows(j, id, outcome)
    {
      hide Turn, SentScript, Valid, ForeignToRun, RunEffect, RowShows;
      SendStep(book.runs[j.r], j.a.accepted);
      var _ := Answer(j, 12, Send(j.a.accepted));
      outcome := RecordSend(j, id, nonce);
      Assoc(old(trace), Turn(j, 12, Send(j.a.accepted)), SentScript(j));
    }

    /** The result of the send: the row becomes broadcasted, or failed if the RPC refused the
        transaction or that update threw inside the try block. */
    method RecordSend(j: Job, id: RowId, nonce: nat) returns (outcome: Outcome)
      requires j.a.hash.Some? && Running(j) && !Throws(j, 11)
      requires book.runs[j.r].pc == if j.a.accepted then AtMarkSent(id, nonce, j.a.hash.value)
                 else AtFailSend(id, nonce)
      modifies this`book, this`trace, nonceRepo, requestRepo
      ensures Running(j) && trace == old(trace) + SentScript(j)
      ensures outcome == SendOutcome(j, id, nonce) && book.runs[j.r].pc == Done(outcome)
      ensures RowShows(j, id, outcome)
    {
      hide Turn, Valid, ForeignToRun, RunEffect, Writes, Updated;
      ghost var marked := Turn(j, 13, MarkSent(j.a.stored));
      if j.a.accepted {
        MarkSentStep(book.runs[j.r]);
        if j.a.stored {
          RunKey(j);
          MarkBroadcasted(j, id);
          Unit(marked);
          return SendOutcome(j, id, nonce);
        }
        var _ := Answer(j, 13, MarkSent(false));
      }
      SendFailed(j, id);
      Assoc(old(trace), marked, Turn(j, 14, FailSend(j.a.sendError)));
      outcome := Errored;
    }

    method MarkBroadcasted(j: Job, id: RowId)
      requires Running(j) && book.runs[j.r].pc.AtMarkSent? && book.runs[j.r].pc.row == id
      modifies this`book, this`trace, nonceRepo, requestRepo
      ensures Running(j) && trace == old(trace) + Turn(j, 13, MarkSent(true))
      ensures book.runs[j.r] == RunEffect(old(book.runs[j.r]), View(None, false, 0), MarkSent(true)).run
      ensures id in requestRepo.rows && requestRepo.rows[id].status == Broadcasted
    {
      hide Turn, RunEffect, Writes, Updated, Valid, ForeignToRun, Key, Preimage, Exec;
      RowExists(j, id, 13);
      MarkSentStep(book.runs[j.r]);
      UpdatedStatus(Exec(Init(config), trace + j.env(13)).rows, id, NoChange.(status := Some(Broadcasted)), true);
      var _ := Update(j, 13, MarkSent(true), id, NoChange.(status := Some(Broadcasted)));
    }

    /** The catch block of the broadcast; the nonce stays consumed. */
    method SendFailed(j: Job, id: RowId)
      requires Running(j) && book.runs[j.r].pc.AtFailSend? && book.runs[j.r].pc.row == id
      modifies this`book, this`trace, nonceRepo, requestRepo
      ensures Running(j) && trace == old(trace) + Turn(j, 14, FailSend(j.a.sendError))
      ensures book.runs[j.r].pc == Done(Errored) && RowShows(j, id, Errored)
    {
      hide Turn, Classify, RunEffect, Writes, Updated, Valid, ForeignToRun, Exec;
      RowExists(j, id, 14);
      FailSendStep(book.runs[j.r], j.a.sendError);
      var fields := FailedUpdate("broadcast failed: " + j.a.sendError, Classify(j.a.sendError));
      UpdatedStatus(Exec(Init(config), trace + j.env(14)).rows, id, fields, !Throws(j, 14));
      var _ := Update(j, 14, FailSend(j.a.sendError), id, fields);
    }

    lemma RunKey(j: Job)
      requires Running(j)
      ensures Key(book.runs[j.r]) == Preimage(j.wallet, j.req)
    {
    }

    /** The row a run works on is still there after an await. */
    lemma RowExists(j: Job, id: RowId, k: nat)
      requires Running(j) && PcRow(book.runs[j.r].pc) == Some(id)
      ensures id in Exec(Init(config), trace + j.env(k)).rows
    {
      hide Exec;
      var t := trace + j.env(k);
      OthersKeepRun(State(), j.env(k), j.r);
      ExecConcat(Init(config), trace, j.env(k));
      InitRows(config);
      RowRuns(Init(config), t);
      assert PcGood(Exec(Init(config), t), book.runs[j.r]);
    }

    // -----------------------------------------------------------------------
    // The monitor
    // -----------------------------------------------------------------------

    ghost predicate Polling(v: Watch)
      reads this, nonceRepo, requestRepo
    {
      Valid() && ForeignToPoll(v.env, v.p) && v.p in book.polls
    }

    method AwaitPoll(v: Watch, k: nat)
      requires Polling(v)
      modifies this`book, this`trace, nonceRepo, requestRepo
      ensures Polling(v) && book.polls[v.p] == old(book.polls[v.p])
      ensures trace == old(trace) + v.env(k)
    {
      hide Exec;
      OthersKeepPoll(State(), v.env(k), v.p);
      Interfere(v.env(k));
    }

    /** An answer of the RPC, the signer or another table, or an update that threw. */
    method Ask(v: Watch, k: nat, act: PollAction)
      requires Polling(v) && PollFits(book.polls[v.p], act) && act != OnWrite(true)
      modifies this`book, this`trace, nonceRepo, requestRepo
      ensures Polling(v) && trace == old(trace) + Probe(v, k, act)
      ensures book.polls[v.p] == PollEffect(config, old(book.polls[v.p]), act).poller
      ensures requestRepo.rows == Exec(Init(config), old(trace) + v.env(k)).rows
    {
      hide Exec;
      AwaitPoll(v, k);
      AskLeavesTables(State(), v.p, act);
      Note(State(), Monitor(v.p, act));
      Snoc(old(trace), v.env(k), Monitor(v.p, act));
    }

    /** What the poll has written with its last step: the verdict, if it came to one. */
    ghost predicate Settled(id: RowId, verdict: Option<RowUpdate>, stored: bool)
      reads this, nonceRepo, requestRepo
    {
      verdict.Some? ==>
        && |trace| > 0
        && requestRepo.rows == Updated(Exec(Init(config), trace[..|trace| - 1]).rows, id, verdict.value, stored)
    }

    /** The poll writes the row it is working on, or the update throws. */
    method Write(v: Watch, k: nat, id: RowId, fields: RowUpdate, stored: bool)
      requires Polling(v) && book.polls[v.p].pc.AtWrite?
      requires book.polls[v.p].pc.id == id && book.polls[v.p].pc.update == fields
      modifies this`book, this`trace, nonceRepo, requestRepo
      ensures Polling(v) && trace == old(trace) + Probe(v, k, OnWrite(stored))
      ensures book.polls[v.p] == Poller(old(book.polls[v.p].todo), Idle)
      ensures Settled(id, Some(fields), stored)
    {
      hide Exec;
      if !stored {
        Ask(v, k, OnWrite(false));
      } else {
        AwaitPoll(v, k);
        var w := State();
        TablesValid();
        requestRepo.Update(id, fields);
        WriteOnTables(w, v.p, id, fields);
        Note(w, Monitor(v.p, OnWrite(true)));
        Snoc(old(trace), v.env(k), Monitor(v.p, OnWrite(true)));
      }
      assert trace[..|trace| - 1] == old(trace) + v.env(k);
    }

    /** Reads the rows to work on. */
    method BeginPoll(v: Watch)
      requires Valid() && v.p !in book.polls && ForeignToPoll(v.env, v.p)
      modifies this`book, this`trace
      ensures Polling(v) && trace == old(trace) + [StartPoll(v.p)]
      ensures book.polls[v.p] == Poller(FindBroadcasted(requestRepo.rows), Idle)
    {
      hide Exec;
      var w := State();
      var found := requestRepo.FindBroadcasted();
      assert found == FindBroadcasted(w.rows);
      Note(w, StartPoll(v.p));
    }

    method FinishPoll(v: Watch)
      requires Polling(v) && book.polls[v.p] == Poller(map[], Idle)
      modifies this`book, this`trace
      ensures Valid() && trace == old(trace) + [EndPoll(v.p)] && v.p !in book.polls
    {
      hide Exec;
      Note(State(), EndPoll(v.p));
    }

    /** One poll: every row that is broadcasted when it starts is taken once through processRow,
        in the order returned, whatever interferes and whatever throws. */
    method Poll(v: Watch) returns (order: seq<RowId>)
      requires Valid() && v.p !in book.polls && ForeignToPoll(v.env, v.p)
      modifies this`book, this`trace, nonceRepo, requestRepo
      ensures Valid() && v.p !in book.polls
      ensures var found := FindBroadcasted(old(requestRepo.rows));
              && (forall id :: id in found ==> id in order) && AllIn(order, found) && Distinct(order)
              && trace == old(trace) + [StartPoll(v.p)] + PollScript(config, v, found, order) + [EndPoll(v.p)]
    {
      hide Valid, ForeignToPoll, FindBroadcasted, RowScript, PollScript, Verdict, Settled, Divided;
      ghost var found := FindBroadcasted(requestRepo.rows);
      BeginPoll(v);
      ghost var started := trace;
      order := [];
      NothingTaken(config, v, found);
      Unit(started);
      while book.polls[v.p].todo != map[]
        invariant Polling(v) && book.polls[v.p].pc.Idle?
        invariant Divided(found, book.polls[v.p].todo, order)
        invariant AllIn(order, found) && trace == started + PollScript(config, v, found, order)
        decreases |book.polls[v.p].todo|
      {
        var todo := book.polls[v.p].todo;
        var id :| id in todo;
        SmallerTodo(todo, id);
        OneTaken(config, v, found, todo, order, id);
        ProcessRow(v, 10 * |order|, id, v.answers(id));
        Assoc(started, PollScript(config, v, found, order),
              RowScript(config, v, id, found[id], v.answers(id), 10 * |order|));
        order := order + [id];
      }
      AllTaken(found, order);
      FinishPoll(v);
    }

    /** The row is picked and taken through its pass; the poll is done with it afterwards. */
    method ProcessRow(v: Watch, k: nat, id: RowId, a: RowAnswers)
      requires Polling(v) && book.polls[v.p].pc.Idle? && id in book.polls[v.p].todo
      modifies this`book, this`trace, nonceRepo, requestRepo
      ensures var row := old(book.polls[v.p].todo)[id];
              && Polling(v) && trace == old(trace) + RowScript(config, v, id, row, a, k)
              && Settled(id, Verdict(config, FirstCheck(id, row), a), a.stored)
              && (a.stored && IsDecisive(config, row, a) ==>
                  id in requestRepo.rows && RowTold(config, row, a, requestRepo.rows[id]))
      ensures book.polls[v.p] == Poller(old(book.polls[v.p].todo) - {id}, Idle)
    {
      hide Valid, ForeignToPoll, Probe, Settled, PassScript, Verdict, After, RowTold, IsDecisive, Exec, Merge;
      var row := book.polls[v.p].todo[id];
      PolledExists(v, id);
      RowVerdict(config, id, row, a);
      PassNonempty(config, v, FirstCheck(id, row), a, k + 1);
      Ask(v, k, PickRow(id));
      if row.hash.None? {
        Write(v, k + 1, id, FailedUpdate("broadcasted row missing tx_hash", Unknown), a.stored);
        WritePass(config, v, FirstCheck(id, row), a, k + 1);
      } else {
        CheckReceipt(v, k + 1, id, row, a);
      }
      Assoc(old(trace), Probe(v, k, PickRow(id)), PassScript(config, v, FirstCheck(id, row), a, k + 1));
      if a.stored && IsDecisive(config, row, a) {
        SettledShows(id, Verdict(config, FirstCheck(id, row), a).value, old(trace));
      }
    }

    /** The receipt decides, or the row is stuck, or it has to wait. */
    method CheckReceipt(v: Watch, k: nat, id: RowId, row: Row, a: RowAnswers)
      requires Polling(v) && book.polls[v.p].pc == AtReceipt(id, row)
      modifies this`book, this`trace, nonceRepo, requestRepo
      ensures Polling(v) && trace == old(trace) + PassScript(config, v, AtReceipt(id, row), a, k)
      ensures Settled(id, Verdict(config, AtReceipt(id, row), a), a.stored)
      ensures book.polls[v.p] == Poller(old(book.polls[v.p].todo), Idle)
    {
      hide Valid, ForeignToPoll, Probe, Settled, PassScript, Verdict;
      ghost var next := After(config, AtReceipt(id, row), a);
      PassStep(config, v, AtReceipt(id, row), a, k);
      PassEnds(config, v, a, k + 1);
      NoVerdict(id, a.stored);
      Ask(v, k, OnReceipt(a.receipt));
      match a.receipt {
        case ReceiptError =>
        case Receipt(true, block) =>
          Write(v, k + 1, id, NoChange.(status := Some(Confirmed), blockNumber := Some(block)), a.stored);
          WritePass(config, v, next, a, k + 1);
        case Receipt(false, _) =>
          Write(v, k + 1, id, FailedUpdate("transaction reverted on-chain", Permanent), a.stored);
          WritePass(config, v, next, a, k + 1);
        case NoReceipt(stuck) =>
          if stuck {
            CheckMempool(v, k + 1, id, row, a);
          }
      }
      NoVerdict(id, a.stored);
      Unit(old(trace) + Probe(v, k, OnReceipt(a.receipt)));
      Assoc(old(trace), Probe(v, k, OnReceipt(a.receipt)), PassScript(config, v, next, a, k + 1));
    }

    /** The row a poll has on its list or is at work on is in the table. */
    lemma PolledExists(v: Watch, id: RowId)
      requires Polling(v) && (id in book.polls[v.p].todo || WorksOn(book.polls[v.p], id))
      ensures id in Exec(Init(config), trace).rows
    {
      hide Exec;
      InitRows(config);
      RowRuns(Init(config), trace);
      assert PollGood(Exec(Init(config), trace), book.polls[v.p]);
    }

    /** A stored verdict shows in the row. */
    lemma {:induction false} SettledShows(id: RowId, verdict: RowUpdate, before: seq<Step>)
      requires Settled(id, Some(verdict), true) && id in Exec(Init(config), before).rows
      requires |before| < |trace| && before <= trace
      ensures id in requestRepo.rows
      ensures exists was :: requestRepo.rows[id] == Merge(was, verdict)
    {
      hide Exec, Merge;
      var front := trace[..|trace| - 1];
      var more := front[|before|..];
      assert front == before + more;
      ExecConcat(Init(config), before, more);
      RowsStayIn(Exec(Init(config), before), more);
      assert requestRepo.rows[id] == Merge(Exec(Init(config), front).rows[id], verdict);
    }

    lemma NoVerdict(id: RowId, stored: bool)
      ensures Settled(id, None, stored)
    {
    }

    /** No receipt although old enough: dropped, or on to the speed-up. */
    method CheckMempool(v: Watch, k: nat, id: RowId, row: Row, a: RowAnswers)
      requires Polling(v) && book.polls[v.p].pc == AtMempool(id, row)
      modifies this`book, this`trace, nonceRepo, requestRepo
      ensures Polling(v) && trace == old(trace) + PassScript(config, v, AtMempool(id, row), a, k)
      ensures Settled(id, Verdict(config, AtMempool(id, row), a), a.stored)
      ensures a.stored && (a.mempool == NotFound || (a.mempool == InMempool && IsSpedUp(config, row, a))) ==>
                id in requestRepo.rows && MempoolTold(config, row, a, requestRepo.rows[id])
      ensures book.polls[v.p] == Poller(old(book.polls[v.p].todo), Idle)
    {
      hide Valid, ForeignToPoll, Probe, Settled, PassScript, Verdict, MempoolTold, IsSpedUp, Exec, Merge;
      PolledExists(v, id);
      MempoolVerdict(config, id, row, a);
      PassNonempty(config, v, AtMempool(id, row), a, k);
      ghost var next := After(config, AtMempool(id, row), a);
      PassStep(config, v, AtMempool(id, row), a, k);
      PassEnds(config, v, a, k + 1);
      Ask(v, k, OnMempool(a.mempool));
      match a.mempool {
        case MempoolError =>
        case NotFound =>
          Write(v, k + 1, id,
                NoChange.(status := Some(Dropped),
                          failureReason := Some("transaction not found on-chain or in mempool")), a.stored);
          WritePass(config, v, next, a, k + 1);
        case InMempool => SpeedUp(v, k + 1, id, row, a);
      }
      NoVerdict(id, a.stored);
      Unit(old(trace) + Probe(v, k, OnMempool(a.mempool)));
      Assoc(old(trace), Probe(v, k, OnMempool(a.mempool)), PassScript(config, v, next, a, k + 1));
      if a.stored && (a.mempool == NotFound || (a.mempool == InMempool && IsSpedUp(config, row, a))) {
        SettledShows(id, Verdict(config, AtMempool(id, row), a).value, old(trace));
      }
    }

    /** Entered with the decision its first checks make already booked. */
    method SpeedUp(v: Watch, k: nat, id: RowId, row: Row, a: RowAnswers)
      requires Polling(v) && book.polls[v.p].pc == AfterMempool(config, id, row, InMempool)
      modifies this`book, this`trace, nonceRepo, requestRepo
      ensures Polling(v) && trace == old(trace) + PassScript(config, v, AfterMempool(config, id, row, InMempool), a, k)
      ensures Settled(id, Verdict(config, AfterMempool(config, id, row, InMempool), a), a.stored)
      ensures a.stored && IsSpedUp(config, row, a) ==>
                id in requestRepo.rows && SpeedUpTold(config, row, a, requestRepo.rows[id])
      ensures book.polls[v.p] == Poller(old(book.polls[v.p].todo), Idle)
    {
      hide Valid, ForeignToPoll, Probe, Settled, PassScript, Verdict, After, SpeedUpTold, IsSpedUp, Exec, Merge;
      PolledExists(v, id);
      SpeedUpVerdict(config, id, row, a);
      PassNonempty(config, v, AfterMempool(config, id, row, InMempool), a, k);
      if row.attempts >= config.maxAttempts {
        Write(v, k, id, FailedUpdate("max speed-up attempts reached", Permanent), a.stored);
        WritePass(config, v, AfterMempool(config, id, row, InMempool), a, k);
      } else if row.payload.None? {
        Write(v, k, id, FailedUpdate("missing tx_payload for speed-up", Unknown), a.stored);
        WritePass(config, v, AfterMempool(config, id, row, InMempool), a, k);
      } else {
        LoadContext(v, k, id, row, a);
      }
      if a.stored && IsSpedUp(config, row, a) {
        SettledShows(id, Verdict(config, AfterMempool(config, id, row, InMempool), a).value, old(trace));
      }
    }

    /** The wallet and the seed of the row. */
    method LoadContext(v: Watch, k: nat, id: RowId, row: Row, a: RowAnswers)
      requires Polling(v) && book.polls[v.p].pc == AtContext(id, row) && row.payload.Some?
      modifies this`book, this`trace, nonceRepo, requestRepo
      ensures Polling(v) && trace == old(trace) + PassScript(config, v, AtContext(id, row), a, k)
      ensures Settled(id, Verdict(config, AtContext(id, row), a), a.stored)
      ensures book.polls[v.p] == Poller(old(book.polls[v.p].todo), Idle)
    {
      hide Valid, ForeignToPoll, Probe, Settled, PassScript, Verdict;
      ghost var next := After(config, AtContext(id, row), a);
      PassStep(config, v, AtContext(id, row), a, k);
      PassEnds(config, v, a, k + 1);
      Ask(v, k, OnContext(a.context));
      match a.context {
        case ContextError =>
        case WalletMissing =>
          Write(v, k + 1, id, FailedUpdate("wallet metadata unavailable for speed-up", Permanent), a.stored);
          WritePass(config, v, next, a, k + 1);
        case SeedMissing =>
          Write(v, k + 1, id, FailedUpdate("organization seed unavailable for speed-up", Permanent), a.stored);
          WritePass(config, v, next, a, k + 1);
        case ContextFound => Replace(v, k + 1, id, row, a);
      }
      NoVerdict(id, a.stored);
      Unit(old(trace) + Probe(v, k, OnContext(a.context)));
      Assoc(old(trace), Probe(v, k, OnContext(a.context)), PassScript(config, v, next, a, k + 1));
    }

    /** Quote, sign, send and record the replacement. */
    method Replace(v: Watch, k: nat, id: RowId, row: Row, a: RowAnswers)
      requires Polling(v) && book.polls[v.p].pc == AtQuote(id, row) && row.payload.Some?
      modifies this`book, this`trace, nonceRepo, requestRepo
      ensures Polling(v) && trace == old(trace) + PassScript(config, v, AtQuote(id, row), a, k)
      ensures Settled(id, Verdict(config, AtQuote(id, row), a), a.stored)
      ensures a.stored && a.quote.Some? ==> id in requestRepo.rows && ReplaceTold(row, a, requestRepo.rows[id])
      ensures book.polls[v.p] == Poller(old(book.polls[v.p].todo), Idle)
    {
      hide Valid, ForeignToPoll, Probe, Settled, PassScript, Verdict, BumpQuote, ReplaceTold, Exec, Merge;
      PolledExists(v, id);
      ReplaceVerdict(config, id, row, a);
      PassNonempty(config, v, AtQuote(id, row), a, k);
      ghost var next := After(config, AtQuote(id, row), a);
      PassStep(config, v, AtQuote(id, row), a, k);
      PassEnds(config, v, a, k + 1);
      Ask(v, k, OnQuote(a.quote));
      if a.quote.Some? {
        SignReplacement(v, k + 1, id, row, ReplacementTx(row, BumpQuote(a.quote.value, config.bumpPercent)), a);
      }
      NoVerdict(id, a.stored);
      Unit(old(trace) + Probe(v, k, OnQuote(a.quote)));
      Assoc(old(trace), Probe(v, k, OnQuote(a.quote)), PassScript(config, v, next, a, k + 1));
      if a.stored && a.quote.Some? {
        SettledShows(id, Verdict(config, AtQuote(id, row), a).value, old(trace));
      }
    }

    method SignReplacement(v: Watch, k: nat, id: RowId, row: Row, tx: Tx, a: RowAnswers)
      requires Polling(v) && book.polls[v.p].pc == AtBumpSign(id, row, tx)
      modifies this`book, this`trace, nonceRepo, requestRepo
      ensures Polling(v) && trace == old(trace) + PassScript(config, v, AtBumpSign(id, row, tx), a, k)
      ensures Settled(id, Verdict(config, AtBumpSign(id, row, tx), a), a.stored)
      ensures book.polls[v.p] == Poller(old(book.polls[v.p].todo), Idle)
    {
      hide Valid, ForeignToPoll, Probe, Settled, PassScript, Verdict;
      ghost var next := After(config, AtBumpSign(id, row, tx), a);
      PassStep(config, v, AtBumpSign(id, row, tx), a, k);
      Ask(v, k, OnBumpSign(a.hash));
      if a.hash.None? {
        Write(v, k + 1, id, FailedUpdate("speed-up signing failed", Retryable), a.stored);
        WritePass(config, v, next, a, k + 1);
      } else {
        SendReplacement(v, k + 1, id, row, tx, a.hash.value, a);
      }
      Assoc(old(trace), Probe(v, k, OnBumpSign(a.hash)), PassScript(config, v, next, a, k + 1));
    }

    method SendReplacement(v: Watch, k: nat, id: RowId, row: Row, tx: Tx, hash: string, a: RowAnswers)
      requires Polling(v) && book.polls[v.p].pc == AtBumpSend(id, row, tx, hash)
      modifies this`book, this`trace, nonceRepo, requestRepo
      ensures Polling(v) && trace == old(trace) + PassScript(config, v, AtBumpSend(id, row, tx, hash), a, k)
      ensures Settled(id, Verdict(config, AtBumpSend(id, row, tx, hash), a), a.stored)
      ensures book.polls[v.p] == Poller(old(book.polls[v.p].todo), Idle)
    {
      hide Valid, ForeignToPoll, Probe, Settled, PassScript, Verdict;
      ghost var next := After(config, AtBumpSend(id, row, tx, hash), a);
      PassStep(config, v, AtBumpSend(id, row, tx, hash), a, k);
      Ask(v, k, OnBumpSend(a.accepted));
      if !a.accepted {
        Write(v, k + 1, id, FailedUpdate("speed-up broadcast failed", Retryable), a.stored);
      } else {
        var originalHash := if row.originalHash.Some? then row.originalHash else row.hash;
        Write(v, k + 1, id, NoChange.(hash := Some(hash), originalHash := originalHash,
                                      attempts := Some(row.attempts + 1), status := Some(Broadcasted)), a.stored);
      }
      WritePass(config, v, next, a, k + 1);
      Assoc(old(trace), Probe(v, k, OnBumpSend(a.accepted)), PassScript(config, v, next, a, k + 1));
    }
  }

  /** Where the gate leaves the run. */
  function PcAfter(gate: Gate): Pc {
    match gate
    case Stopped(outcome) => Done(outcome)
    case Passed(id) => AtReserve(id)
  }

  // -------------------------------------------------------------------------
  // What the scripts mean
  // -------------------------------------------------------------------------

  /** The run's own step among those of an await. */
  lemma TurnTakes(j: Job, k: nat, act: RunAction, other: RunAction)
    requires ForeignToRun(j.env, j.r)
    ensures Do(j.r, other) in Turn(j, k, act) <==> other == if Throws(j, k) then Abort else act
  {
    hide Throws;
    forall s | s in j.env(k)
      ensures s != Do(j.r, other)
    {
      assert !OfRun(s, j.r);
    }
  }

  /** The actions of a gate, and of what follows it. */
  predicate OfGate(act: RunAction) {
    act.Lookup? || act.Policy? || act.Estimate? || act.Insert? || act.FindRaced? || act.Reset?
  }

  lemma GateTakes(config: Config, t: seq<Step>, j: Job, act: RunAction)
    requires ForeignToRun(j.env, j.r) && !OfGate(act)
    ensures Do(j.r, act) in GateScript(config, t, j) ==> act.Abort?
  {
    hide Turn, Seen, IsFree, ForeignToRun, Throws;
    TurnTakes(j, 0, Lookup, act);
    TurnTakes(j, 1, Policy(j.a.allowed), act);
    TurnTakes(j, 2, Estimate(j.a.quote), act);
    TurnTakes(j, 3, RunAction.Insert(j.a.newId), act);
    TurnTakes(j, 4, FindRaced, act);
    TurnTakes(j, 5, Reset, act);
  }

  lemma SignFailTakes(j: Job, act: RunAction)
    requires ForeignToRun(j.env, j.r) && !act.Abort?
    ensures Do(j.r, act) in SignFailScript(j) <==>
            match act
            case FailSign(message) => !Throws(j, 9) && message == j.a.signError
            case Release => !Throws(j, 9) && !Throws(j, 10)
            case _ => false
  {
    hide Turn, ForeignToRun, Throws;
    TurnTakes(j, 9, FailSign(j.a.signError), act);
    TurnTakes(j, 10, Release, act);
  }

  lemma BroadcastTakes(j: Job, act: RunAction)
    requires ForeignToRun(j.env, j.r) && !act.Abort?
    ensures Do(j.r, act) in BroadcastScript(j) <==>
            !Throws(j, 11)
            && match act
               case StoreSignature => true
               case Send(accepted) => accepted == j.a.accepted
               case MarkSent(stored) => j.a.accepted && stored == j.a.stored
               case FailSend(message) => !IsSent(j) && !Throws(j, 14) && message == j.a.sendError
               case _ => false
  {
    hide Turn, ForeignToRun;
    TurnTakes(j, 11, StoreSignature, act);
    TurnTakes(j, 12, Send(j.a.accepted), act);
    TurnTakes(j, 13, MarkSent(j.a.stored), act);
    TurnTakes(j, 14, FailSend(j.a.sendError), act);
  }

  lemma SignTakes(j: Job, act: RunAction)
    requires ForeignToRun(j.env, j.r) && !act.Abort?
    ensures Do(j.r, act) in SignScript(j) <==>
            match act
            case Reserve => !Throws(j, 6)
            case StorePayload => IsPrepared(j)
            case Sign(hash, signature) => IsPrepared(j) && hash == j.a.hash && signature == j.a.signature
            case FailSign(message) => IsUnsigned(j) && message == j.a.signError
            case Release => IsUnsigned(j) && !Throws(j, 10)
            case StoreSignature => IsHandedOver(j)
            case Send(accepted) => IsHandedOver(j) && accepted == j.a.accepted
            case MarkSent(stored) => IsHandedOver(j) && j.a.accepted && stored == j.a.stored
            case FailSend(message) => IsHandedOver(j) && !IsSent(j) && !Throws(j, 14) && message == j.a.sendError
            case _ => false
  {
    hide Turn, ForeignToRun, SignFailScript, BroadcastScript;
    TurnTakes(j, 6, Reserve, act);
    TurnTakes(j, 7, StorePayload, act);
    TurnTakes(j, 8, Sign(j.a.hash, j.a.signature), act);
    SignFailTakes(j, act);
    BroadcastTakes(j, act);
  }

  /** Past the reservation: the row has been failed for want of a signature. */
  predicate IsUnsigned(j: Job) {
    IsPrepared(j) && j.a.hash.None? && !Throws(j, 9)
  }

  /** Past the reservation: the signed transaction has been handed to the RPC. */
  predicate IsHandedOver(j: Job) {
    IsPrepared(j) && j.a.hash.Some? && !Throws(j, 11)
  }

  /** A request reserves a nonce exactly when it gets past the gate and that call does not throw;
      it then releases the nonce, when it gets no signature, or sends, or a call throws before
      that; and it reports success exactly when it has marked its row broadcasted. */
  lemma RequestMeans(config: Config, t: seq<Step>, j: Job)
    requires ForeignToRun(j.env, j.r)
    ensures var script, passed := RequestScript(config, t, j), GateResult(config, t, j).Passed?;
            && (Do(j.r, Reserve) in script <==> passed && !Throws(j, 6))
            && (Do(j.r, Release) in script <==> passed && IsUnsigned(j) && !Throws(j, 10))
            && (Do(j.r, Send(j.a.accepted)) in script <==> passed && IsHandedOver(j))
            && (Do(j.r, MarkSent(true)) in script <==> RequestOutcome(config, t, j).Accepted?)
  {
    hide GateScript, SignScript, ForeignToRun, Seen, IsFree, Throws;
    TakesOneOf(config, t, j, Reserve);
    TakesOneOf(config, t, j, Release);
    TakesOneOf(config, t, j, Send(j.a.accepted));
    TakesOneOf(config, t, j, MarkSent(true));
    GateNeverAccepts(config, t, j);
  }

  /** Only with the policy's leave and a fee quote does a request get past the gate. */
  lemma GateNeedsLeave(config: Config, t: seq<Step>, j: Job)
    ensures GateResult(config, t, j).Passed? ==> j.a.allowed && j.a.quote.Some?
  {
    hide Seen, ClaimResult, Turn, Throws;
  }

  lemma SuccessNeeds(config: Config, t: seq<Step>, j: Job, id: RowId)
    ensures var outcome := SignOutcome(config, t, j, id);
            outcome.Accepted? ==> j.a.hash == Some(outcome.result.hash) && j.a.accepted && j.a.stored
  {
    hide NonceAt, Throws, Preimage;
  }

  /** A request that the policy denies, or that gets no quote, reserves no nonce and writes no row:
      it is answered with the duplicate it found, or it ends in error. */
  lemma DeniedStops(config: Config, t: seq<Step>, j: Job)
    requires ForeignToRun(j.env, j.r) && (!j.a.allowed || j.a.quote.None?)
    ensures var outcome := RequestOutcome(config, t, j);
            && !outcome.Accepted?
            && (outcome.Duplicate? <==> !Throws(j, 0) && IsLive(Seen(config, t + j.env(0), j)))
    ensures forall act :: Do(j.r, act) in RequestScript(config, t, j) ==>
              act.Lookup? || act == Policy(j.a.allowed) || (j.a.allowed && act == Estimate(None)) || act.Abort?
  {
    hide Seen, Turn, ForeignToRun, Throws, ClaimScript, ClaimResult, SignScript, SignOutcome;
    forall act | Do(j.r, act) in RequestScript(config, t, j)
      ensures act.Lookup? || act == Policy(j.a.allowed) || (j.a.allowed && act == Estimate(None)) || act.Abort?
    {
      TurnTakes(j, 0, Lookup, act);
      TurnTakes(j, 1, Policy(j.a.allowed), act);
      TurnTakes(j, 2, Estimate(j.a.quote), act);
    }
  }

  lemma GateNeverAccepts(config: Config, t: seq<Step>, j: Job)
    ensures GateResult(config, t, j).Stopped? ==> !GateResult(config, t, j).outcome.Accepted?
  {
    hide Seen, IsFree, Turn, Throws;
  }

  lemma TakesOneOf(config: Config, t: seq<Step>, j: Job, act: RunAction)
    requires ForeignToRun(j.env, j.r)
    requires act.Reserve? || act.Release? || act.Send? || act.MarkSent?
    ensures Do(j.r, act) in RequestScript(config, t, j) <==>
            GateResult(config, t, j).Passed? && Do(j.r, act) in SignScript(j)
    ensures Do(j.r, act) in SignScript(j) <==>
            match act
            case Reserve => !Throws(j, 6)
            case Release => IsUnsigned(j) && !Throws(j, 10)
            case Send(accepted) => IsHandedOver(j) && accepted == j.a.accepted
            case MarkSent(stored) => IsHandedOver(j) && j.a.accepted && stored == j.a.stored
            case _ => false
  {
    GateTakes(config, t, j, act);
    SignTakes(j, act);
    hide GateScript, SignScript, GateResult, Throws;
  }

  ghost predicate SomeThrows(j: Job) {
    exists k :: Throws(j, k)
  }

  lemma GateAborts(config: Config, t: seq<Step>, j: Job)
    requires ForeignToRun(j.env, j.r)
    ensures Do(j.r, Abort) in GateScript(config, t, j) ==>
              GateResult(config, t, j) == Stopped(Errored) && SomeThrows(j)
  {
    hide Turn, Seen, IsFree, ForeignToRun, Throws;
    TurnTakes(j, 0, Lookup, Abort);
    TurnTakes(j, 1, Policy(j.a.allowed), Abort);
    TurnTakes(j, 3, RunAction.Insert(j.a.newId), Abort);
    TurnTakes(j, 4, FindRaced, Abort);
    TurnTakes(j, 5, Reset, Abort);
    EstimateNeverAborts(j);
  }

  lemma EstimateNeverAborts(j: Job)
    requires ForeignToRun(j.env, j.r)
    ensures Do(j.r, Abort) !in Turn(j, 2, Estimate(j.a.quote))
  {
    TurnTakes(j, 2, Estimate(j.a.quote), Abort);
  }

  lemma SignFailAborts(j: Job)
    requires ForeignToRun(j.env, j.r) && Do(j.r, Abort) in SignFailScript(j)
    ensures SomeThrows(j)
  {
    hide Turn, ForeignToRun, Throws;
    TurnTakes(j, 9, FailSign(j.a.signError), Abort);
    TurnTakes(j, 10, Release, Abort);
  }

  lemma BroadcastAborts(j: Job)
    requires ForeignToRun(j.env, j.r) && Do(j.r, Abort) in BroadcastScript(j)
    ensures SomeThrows(j) && (Throws(j, 11) || !IsSent(j))
  {
    hide Turn, ForeignToRun;
    TurnTakes(j, 11, StoreSignature, Abort);
    TurnTakes(j, 12, Send(j.a.accepted), Abort);
    TurnTakes(j, 13, MarkSent(j.a.stored), Abort);
    TurnTakes(j, 14, FailSend(j.a.sendError), Abort);
  }

  lemma SignAborts(j: Job, id: RowId, nonce: nat)
    requires ForeignToRun(j.env, j.r) && Do(j.r, Abort) in SignScript(j)
    ensures SomeThrows(j) && (!IsPrepared(j) || SendOutcome(j, id, nonce) == Errored)
  {
    hide Turn, ForeignToRun, SignFailScript, BroadcastScript;
    TurnTakes(j, 6, Reserve, Abort);
    TurnTakes(j, 7, StorePayload, Abort);
    TurnTakes(j, 8, Sign(j.a.hash, j.a.signature), Abort);
    if Do(j.r, Abort) in SignFailScript(j) {
      SignFailAborts(j);
    }
    if Do(j.r, Abort) in BroadcastScript(j) {
      BroadcastAborts(j);
    }
  }

  /** A request stops halfway only if one of its database calls throws, and then in error. */
  lemma RequestAborts(config: Config, t: seq<Step>, j: Job)
    requires ForeignToRun(j.env, j.r) && Do(j.r, Abort) in RequestScript(config, t, j)
    ensures RequestOutcome(config, t, j) == Errored && SomeThrows(j)
  {
    hide GateScript, SignScript, GateResult, SendOutcome, ForeignToRun, IsPrepared, SomeThrows;
    GateAborts(config, t, j);
    if Do(j.r, Abort) in SignScript(j) {
      SignAborts(j, if GateResult(config, t, j).Passed? then GateResult(config, t, j).row else 0,
                 NonceAt(config, t + GateScript(config, t, j) + j.env(6), j));
    }
  }

  lemma ProbeTakes(v: Watch, k: nat, act: PollAction, other: PollAction)
    requires ForeignToPoll(v.env, v.p)
    ensures Monitor(v.p, other) in Probe(v, k, act) <==> other == act
  {
    forall s | s in v.env(k)
      ensures s != Monitor(v.p, other)
    {
      assert !OfPoll(s, v.p);
    }
  }

  lemma {:induction false} PassPicksNothing(config: Config, v: Watch, pc: PollPc, a: RowAnswers, k: nat, id: RowId)
    requires ForeignToPoll(v.env, v.p)
    ensures Monitor(v.p, PickRow(id)) !in PassScript(config, v, pc, a, k)
    decreases Rank(pc)
  {
    hide Probe, ForeignToPoll, After;
    if !pc.Idle? {
      AnswerLowersRank(config, pc, a);
      ProbeTakes(v, k, Reply(pc, a), PickRow(id));
      PassPicksNothing(config, v, After(config, pc, a), a, k + 1, id);
    }
  }

  /** A pass comes to a write exactly when it has a verdict. */
  lemma {:induction false} PassWrites(config: Config, v: Watch, pc: PollPc, a: RowAnswers, k: nat)
    requires ForeignToPoll(v.env, v.p)
    ensures Monitor(v.p, OnWrite(a.stored)) in PassScript(config, v, pc, a, k) <==> Verdict(config, pc, a).Some?
    decreases Rank(pc)
  {
    hide Probe, ForeignToPoll, After;
    if !pc.Idle? {
      AnswerLowersRank(config, pc, a);
      ProbeTakes(v, k, Reply(pc, a), OnWrite(a.stored));
      PassWrites(config, v, After(config, pc, a), a, k + 1);
    }
  }

  /** The poll writes the row exactly when its answers are decisive; a row whose receipt or mempool
      query throws, or that is not old enough, is left as it is. */
  lemma RowWrites(config: Config, v: Watch, id: RowId, row: Row, a: RowAnswers, k: nat)
    requires ForeignToPoll(v.env, v.p)
    ensures Monitor(v.p, OnWrite(a.stored)) in RowScript(config, v, id, row, a, k) <==> IsDecisive(config, row, a)
  {
    hide Probe, ForeignToPoll, PassScript, Verdict, IsDecisive, RowTold;
    ProbeTakes(v, k, PickRow(id), OnWrite(a.stored));
    PassWrites(config, v, FirstCheck(id, row), a, k + 1);
    RowVerdict(config, id, row, a);
  }

  lemma RowPicks(config: Config, v: Watch, id: RowId, row: Row, a: RowAnswers, k: nat, other: RowId)
    requires ForeignToPoll(v.env, v.p)
    ensures Monitor(v.p, PickRow(other)) in RowScript(config, v, id, row, a, k) <==> other == id
  {
    hide Probe, ForeignToPoll, PassScript;
    ProbeTakes(v, k, PickRow(id), PickRow(other));
    PassPicksNothing(config, v, FirstCheck(id, row), a, k + 1, other);
  }

  /** A poll picks exactly the rows it lists. */
  lemma {:induction false} PollPicks(config: Config, v: Watch, found: map<RowId, Row>, order: seq<RowId>, id: RowId)
    requires ForeignToPoll(v.env, v.p) && AllIn(order, found)
    ensures Monitor(v.p, PickRow(id)) in PollScript(config, v, found, order) <==> id in order
    decreases |order|
  {
    hide RowScript, ForeignToPoll;
    if order != [] {
      var n := |order| - 1;
      PollPicks(config, v, found, order[..n], id);
      RowPicks(config, v, order[n], found[order[n]], v.answers(order[n]), 10 * n, id);
      assert order == order[..n] + [order[n]];
    }
  }

  // -------------------------------------------------------------------------
  // Lemmas for the programs
  // -------------------------------------------------------------------------

  lemma Assoc<T>(a: seq<T>, b: seq<T>, c: seq<T>)
    ensures a + b + c == a + (b + c)
  {
  }

  lemma Snoc(a: seq<Step>, b: seq<Step>, s: Step)
    ensures a + b + [s] == a + (b + [s])
  {
  }

  lemma Unit<T>(a: seq<T>)
    ensures a + [] == a
  {
  }

  lemma RunKeepsRequest(w: World, r: RunId, act: RunAction)
    requires RunAt(w, r, act)
    ensures var w' := Next(w, Do(r, act));
            r in w'.runs && w'.runs[r].wallet == w.runs[r].wallet && w'.runs[r].req == w.runs[r].req
  {
    hide RunEffect;
    ActionKeepsRequest(w.runs[r], ViewOf(w, w.runs[r], act), act);
  }

  /** The row a search by column finds is the one the index names. */
  lemma FoundAsIndexed(w: World, wallet: string, req: SignRequest, found: Option<Found>)
    requires KeyInv(w)
    requires var key := Preimage(wallet, req);
             && (found.Some? <==> exists id :: id in w.rows && w.rows[id].key == key)
             && (forall id :: id in w.rows && w.rows[id].key == key ==> found == Some(Found(id, w.rows[id])))
    ensures found == FindByKey(w, Preimage(wallet, req))
  {
    hide Preimage, ValidRequest, CreatedFor;
  }

  /** The rows found are those taken, each once, and those left as they were found. */
  ghost predicate Divided(found: map<RowId, Row>, todo: map<RowId, Row>, order: seq<RowId>) {
    && AllIn(order, found) && Distinct(order)
    && (forall id :: id in found ==> id in order || id in todo)
    && (forall id :: id in todo ==> id !in order && id in found && todo[id] == found[id])
  }

  lemma {:induction false} NothingTaken(config: Config, v: Watch, found: map<RowId, Row>)
    ensures Divided(found, found, []) && AllIn([], found) && PollScript(config, v, found, []) == []
  {
  }

  lemma {:induction false} OneTaken(config: Config, v: Watch, found: map<RowId, Row>, todo: map<RowId, Row>,
                                    order: seq<RowId>, id: RowId)
    requires Divided(found, todo, order) && id in todo
    ensures AllIn(order, found) && id in found && found[id] == todo[id]
    ensures Divided(found, todo - {id}, order + [id]) && AllIn(order + [id], found)
    ensures PollScript(config, v, found, order + [id])
         == PollScript(config, v, found, order) + RowScript(config, v, id, found[id], v.answers(id), 10 * |order|)
  {
    hide RowScript;
    var longer := order + [id];
    assert longer[..|longer| - 1] == order;
  }

  lemma AllTaken(found: map<RowId, Row>, order: seq<RowId>)
    requires Divided(found, map[], order)
    ensures (forall id :: id in found ==> id in order) && AllIn(order, found) && Distinct(order)
  {
  }

  lemma SmallerTodo(todo: map<RowId, Row>, id: RowId)
    requires id in todo
    ensures |todo - {id}| < |todo|
  {
    assert (todo - {id}).Keys == todo.Keys - {id};
    assert |todo.Keys - {id}| == |todo.Keys| - 1;
  }

  /** One answer of a pass. */
  lemma {:induction false} PassStep(config: Config, v: Watch, pc: PollPc, a: RowAnswers, k: nat)
    requires !pc.Idle?
    ensures PassScript(config, v, pc, a, k)
         == Probe(v, k, Reply(pc, a)) + PassScript(config, v, After(config, pc, a), a, k + 1)
    ensures !pc.AtWrite? ==> Verdict(config, pc, a) == Verdict(config, After(config, pc, a), a)
  {
    hide After, Probe;
  }

  lemma {:induction false} PassEnds(config: Config, v: Watch, a: RowAnswers, k: nat)
    ensures PassScript(config, v, Idle, a, k) == [] && Verdict(config, Idle, a) == None
  {
  }

  lemma {:induction false} WritePass(config: Config, v: Watch, pc: PollPc, a: RowAnswers, k: nat)
    requires pc.AtWrite?
    ensures PassScript(config, v, pc, a, k) == Probe(v, k, OnWrite(a.stored))
    ensures Verdict(config, pc, a) == Some(pc.update)
  {
    hide Probe;
    Unit(Probe(v, k, OnWrite(a.stored)));
    PassEnds(config, v, a, k + 1);
  }

  lemma {:induction false} PassNonempty(config: Config, v: Watch, pc: PollPc, a: RowAnswers, k: nat)
    requires !pc.Idle?
    ensures PassScript(config, v, pc, a, k) != []
  {
    PassStep(config, v, pc, a, k);
  }

  /** The verdict says what the answers mean, whatever row it is merged into. */
  lemma {:induction false} ReplaceVerdict(config: Config, id: RowId, row: Row, a: RowAnswers)
    requires row.payload.Some?
    ensures Verdict(config, AtQuote(id, row), a).Some? <==> a.quote.Some?
    ensures a.quote.Some? ==> forall was :: ReplaceTold(row, a, Merge(was, Verdict(config, AtQuote(id, row), a).value))
  {
    if a.quote.Some? {
      var tx := ReplacementTx(row, BumpQuote(a.quote.value, config.bumpPercent));
      PassEnds(config, Watch(0, _ => a, _ => []), a, 0);
      assert After(config, AtQuote(id, row), a) == AtBumpSign(id, row, tx);
      SignVerdict(config, id, row, tx, a);
    }
  }

  lemma {:induction false} SignVerdict(config: Config, id: RowId, row: Row, tx: Tx, a: RowAnswers)
    ensures Verdict(config, AtBumpSign(id, row, tx), a).Some?
    ensures forall was :: ReplaceTold(row, a, Merge(was, Verdict(config, AtBumpSign(id, row, tx), a).value))
  {
    if a.hash.Some? {
      assert After(config, AtBumpSign(id, row, tx), a) == AtBumpSend(id, row, tx, a.hash.value);
      SendVerdict(config, id, row, tx, a);
      hide ReplaceTold, Merge;
    }
  }

  lemma {:induction false} SendVerdict(config: Config, id: RowId, row: Row, tx: Tx, a: RowAnswers)
    requires a.hash.Some?
    ensures var verdict := Verdict(config, AtBumpSend(id, row, tx, a.hash.value), a);
            verdict.Some? && forall was :: ReplaceTold(row, a, Merge(was, verdict.value))
  {
    var pc := AtBumpSend(id, row, tx, a.hash.value);
    var next := After(config, pc, a);
    assert next.AtWrite? && Verdict(config, next, a) == Some(next.update);
    assert Verdict(config, pc, a) == Verdict(config, next, a);
  }

  lemma {:induction false} SpeedUpVerdict(config: Config, id: RowId, row: Row, a: RowAnswers)
    ensures Verdict(config, AfterMempool(config, id, row, InMempool), a).Some? <==> IsSpedUp(config, row, a)
    ensures IsSpedUp(config, row, a) ==>
              forall was :: SpeedUpTold(config, row, a,
                                        Merge(was, Verdict(config, AfterMempool(config, id, row, InMempool), a).value))
  {
    if row.attempts < config.maxAttempts && row.payload.Some? {
      assert Verdict(config, AtContext(id, row), a) == Verdict(config, AfterContext(id, row, a.context), a);
      if a.context == ContextFound {
        ReplaceVerdict(config, id, row, a);
        hide ReplaceTold, Merge;
      }
    }
  }

  lemma {:induction false} MempoolVerdict(config: Config, id: RowId, row: Row, a: RowAnswers)
    ensures Verdict(config, AtMempool(id, row), a).Some? <==>
            a.mempool == NotFound || (a.mempool == InMempool && IsSpedUp(config, row, a))
    ensures Verdict(config, AtMempool(id, row), a).Some? ==>
              forall was :: MempoolTold(config, row, a, Merge(was, Verdict(config, AtMempool(id, row), a).value))
  {
    hide AfterMempool;
    assert Verdict(config, AtMempool(id, row), a) == Verdict(config, AfterMempool(config, id, row, a.mempool), a);
    if a.mempool == InMempool {
      SpeedUpVerdict(config, id, row, a);
      hide SpeedUpTold, Merge;
    } else {
      OtherMempool(config, id, row, a);
    }
  }

  lemma {:induction false} OtherMempool(config: Config, id: RowId, row: Row, a: RowAnswers)
    requires a.mempool != InMempool
    ensures var verdict := Verdict(config, AfterMempool(config, id, row, a.mempool), a);
            (verdict.Some? <==> a.mempool == NotFound)
                && (verdict.Some? ==> forall was :: MempoolTold(config, row, a, Merge(was, verdict.value)))
  {
  }

  lemma {:induction false} RowVerdict(config: Config, id: RowId, row: Row, a: RowAnswers)
    ensures Verdict(config, FirstCheck(id, row), a).Some? <==> IsDecisive(config, row, a)
    ensures IsDecisive(config, row, a) ==>
              forall was :: RowTold(config, row, a, Merge(was, Verdict(config, FirstCheck(id, row), a).value))
  {
    if row.hash.Some? {
      assert Verdict(config, AtReceipt(id, row), a) == Verdict(config, AfterReceipt(id, row, a.receipt), a);
      if a.receipt == NoReceipt(true) {
        MempoolVerdict(config, id, row, a);
        hide MempoolTold, Merge;
      }
    }
  }

  lemma AskLeavesTables(w: World, p: PollId, act: PollAction)
    requires PollAt(w, p, act) && act != OnWrite(true)
    ensures var w' := Next(w, Monitor(p, act));
            && w'.nonces == w.nonces && w'.rows == w.rows && w'.index == w.index
            && w'.polls == w.polls[p := PollEffect(w.config, w.polls[p], act).poller]
  {
  }

  lemma WriteOnTables(w: World, p: PollId, id: RowId, fields: RowUpdate)
    requires PollAt(w, p, OnWrite(true)) && w.polls[p].pc.id == id && w.polls[p].pc.update == fields
    ensures var w' := Next(w, Monitor(p, OnWrite(true)));
            && w'.nonces == w.nonces && w'.index == w.index
            && w'.rows == (if id in w.rows then w.rows[id := Merge(w.rows[id], fields)] else w.rows)
            && w'.polls == w.polls[p := Poller(w.polls[p].todo, Idle)]
  {
  }

  /** The action writes these fields into this row, whatever it reads from the tables. */
  ghost predicate Writes(run: Run, act: RunAction, id: RowId, fields: RowUpdate) {
    && (act.Reset? || act.StorePayload? || act.FailSign? || act.StoreSignature? || act == MarkSent(true)
        || act.FailSend?)
    && PcFits(run.pc, act)
    && RunEffect(run, View(None, false, 0), act).write == UpdateRow(id, fields)
  }

  lemma PayloadStep(run: Run)
    requires run.pc.AtStorePayload?
    ensures Writes(run, StorePayload, run.pc.row, NoChange.(payload := Some(TxOf(run, run.pc.nonce))))
    ensures RunEffect(run, View(None, false, 0), StorePayload).run == run.(pc := AtSign(run.pc.row, run.pc.nonce))
  {
  }

  lemma SignStep(run: Run, hash: Option<string>, signature: string)
    requires run.pc.AtSign?
    ensures RunEffect(run, View(None, false, 0), Sign(hash, signature)).run
         == run.(pc := if hash.None? then AtFailSign(run.pc.row, run.pc.nonce)
                       else AtStoreSignature(run.pc.row, run.pc.nonce, hash.value, signature))
  {
  }

  lemma SignatureStep(run: Run)
    requires run.pc.AtStoreSignature?
    ensures Writes(run, StoreSignature, run.pc.row,
                   NoChange.(status := Some(Signed), hash := Some(run.pc.hash), signature := Some(run.pc.signature)))
    ensures RunEffect(run, View(None, false, 0), StoreSignature).run
              == run.(pc := AtSend(run.pc.row, run.pc.nonce, run.pc.hash))
  {
  }

  lemma SendStep(run: Run, accepted: bool)
    requires run.pc.AtSend?
    ensures RunEffect(run, View(None, false, 0), Send(accepted)).run
         == run.(pc := if accepted then AtMarkSent(run.pc.row, run.pc.nonce, run.pc.hash)
                 else AtFailSend(run.pc.row, run.pc.nonce))
  {
  }

  lemma FailSignStep(run: Run, message: string)
    requires run.pc.AtFailSign?
    ensures Writes(run, FailSign(message), run.pc.row, FailedUpdate(message, Classify(message)))
    ensures RunEffect(run, View(None, false, 0), FailSign(message)).run == run.(pc := AtRelease(run.pc.nonce))
  {
    hide Classify;
  }

  lemma FailSendStep(run: Run, message: string)
    requires run.pc.AtFailSend?
    ensures Writes(run, FailSend(message), run.pc.row,
                   FailedUpdate("broadcast failed: " + message, Classify(message)))
    ensures RunEffect(run, View(None, false, 0), FailSend(message)).run == run.(pc := Done(Errored))
  {
    hide Classify;
  }

  lemma MarkSentStep(run: Run)
    requires run.pc.AtMarkSent?
    ensures Writes(run, MarkSent(true), run.pc.row, NoChange.(status := Some(Broadcasted)))
    ensures RunEffect(run, View(None, false, 0), MarkSent(true)).run
            == run.(pc := Done(Accepted(SignResult(run.pc.row, run.pc.hash, Broadcasted, run.pc.nonce, Key(run)))))
    ensures RunEffect(run, View(None, false, 0), MarkSent(false)).run
         == run.(pc := AtFailSend(run.pc.row, run.pc.nonce))
  {
    hide Key;
  }

  /** A stored update shows in the row's status. */
  lemma UpdatedStatus(rows: map<RowId, Row>, id: RowId, fields: RowUpdate, stored: bool)
    requires id in rows
    ensures id in Updated(rows, id, fields, stored)
    ensures stored && fields.status.Some? ==> Updated(rows, id, fields, stored)[id].status == fields.status.value
  {
  }

  lemma InsertOnTables(w: World, r: RunId, newId: RowId)
    requires RunAt(w, r, Insert(newId))
    ensures var w' := Next(w, Do(r, Insert(newId)));
            var run := w.runs[r];
            var free := Key(run) !in w.index && newId !in w.rows;
            && NewRow(run).key == Key(run)
            && w'.nonces == w.nonces
            && w'.rows == (if free then w.rows[newId := NewRow(run)] else w.rows)
            && w'.index == (if free then w.index[Key(run) := newId] else w.index)
            && w'.runs == w.runs[r := RunEffect(run, View(None, !free, 0), Insert(newId)).run]
  {
    hide Key;
  }

  lemma UpdateOnTables(w: World, r: RunId, act: RunAction, id: RowId, fields: RowUpdate)
    requires RunAt(w, r, act) && Writes(w.runs[r], act, id, fields)
    ensures var w' := Next(w, Do(r, act));
            && w'.nonces == w.nonces && w'.index == w.index
            && w'.rows == (if id in w.rows then w.rows[id := Merge(w.rows[id], fields)] else w.rows)
            && w'.runs == w.runs[r := RunEffect(w.runs[r], View(None, false, 0), act).run]
  {
    hide Key;
  }

  lemma ReserveOnTables(w: World, r: RunId)
    requires RunAt(w, r, Reserve)
    ensures var w' := Next(w, Do(r, Reserve));
            var slot := SlotOf(w.runs[r]);
            && w'.nonces == w.nonces[slot := Counter(w, slot) + 1] && w'.rows == w.rows && w'.index == w.index
            && w'.runs == w.runs[r := w.runs[r].(pc := AtStorePayload(w.runs[r].pc.row, Counter(w, slot)))]
  {
    hide Key;
  }

  lemma SyncOnTables(w: World, slot: Slot, n: nat)
    ensures var w' := Next(w, Sync(slot, n));
            && w'.nonces == (if slot in w.nonces && w.nonces[slot] >= n then w.nonces else w.nonces[slot := n])
            && w'.rows == w.rows && w'.index == w.index
  {
    hide FindBroadcasted, RunEffect, PollEffect, ViewOf, ApplyRun, ApplyPoll, RunAt, PollAt, IsFinished, SkippedNonces;
    var w' := Next(w, Sync(slot, n));
    if slot in w.nonces && w.nonces[slot] >= n {
      assert w' == w;
    } else {
      assert w'.nonces == w.nonces[slot := n];
    }
  }

  lemma ReleaseOnTables(w: World, r: RunId)
    requires RunAt(w, r, Release)
    ensures var w' := Next(w, Do(r, Release));
            var slot, n := SlotOf(w.runs[r]), w.runs[r].pc.nonce;
            && w'.nonces == (if slot in w.nonces && w.nonces[slot] == n + 1 then w.nonces[slot := n] else w.nonces)
            && w'.rows == w.rows && w'.index == w.index
            && w'.runs == w.runs[r := w.runs[r].(pc := Done(Errored))]
  {
    hide Key;
  }

  lemma FindLeavesTables(w: World, r: RunId, act: RunAction)
    requires RunAt(w, r, act) && (act.Lookup? || act.FindRaced?)
    ensures var w' := Next(w, Do(r, act));
            && w'.nonces == w.nonces && w'.rows == w.rows && w'.index == w.index
            && w'.runs == w.runs[r := RunEffect(w.runs[r], View(FindByKey(w, Key(w.runs[r])), false, 0), act).run]
  {
    hide Key;
  }

  lemma AnswerLeavesTables(w: World, r: RunId, act: RunAction)
    requires RunAt(w, r, act)
    requires act.Policy? || act.Estimate? || act.Sign? || act.Send? || act == MarkSent(false) || act.Abort?
    ensures var w' := Next(w, Do(r, act));
            && w'.nonces == w.nonces && w'.rows == w.rows && w'.index == w.index
            && w'.runs == w.runs[r := RunEffect(w.runs[r], View(None, false, 0), act).run]
  {
    hide Key;
  }
}
