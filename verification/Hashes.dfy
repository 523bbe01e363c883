/** Which hash a row shows, under assumptions A and B: whenever a row is marked broadcasted it takes
    the hash of the transaction sent last for it, so unless a write is lost or still outstanding
    the monitor asks for the transaction that was sent last. */
module Hashes {
  import opened Base
  import opened Requests
  import opened Fees
  import opened Lifecycle
  import opened KeySafety
  import opened RowSafety
  import opened Ownership
  import opened Discipline
  import opened Budget

  /** The transaction sent last for the row. */
  function LastSent(sent: seq<Sent>, id: RowId): (last: Option<Sent>)
    ensures last.Some? ==> last.value in sent && last.value.row == id
  {
    if sent == [] then None
    else if sent[|sent| - 1].row == id then Some(sent[|sent| - 1])
    else LastSent(sent[..|sent| - 1], id)
  }

  predicate LastHash(sent: seq<Sent>, id: RowId, hash: string) {
    LastSent(sent, id).Some? && LastSent(sent, id).value.hash == hash
  }

  lemma {:induction false} LastAppended(sent: seq<Sent>, e: Sent, id: RowId)
    ensures LastSent(sent + [e], id) == if e.row == id then Some(e) else LastSent(sent, id)
  {
    assert (sent + [e])[..|sent + [e]| - 1] == sent;
  }

  /** Nothing was sent for the row afterwards. */
  lemma {:induction false} LastIsLast(sent: seq<Sent>, id: RowId)
    requires LastSent(sent, id).Some?
    ensures exists i :: 0 <= i < |sent| && sent[i] == LastSent(sent, id).value
                        && forall j :: i < j < |sent| ==> sent[j].row != id
    decreases |sent|
  {
    if sent[|sent| - 1].row == id {
      assert sent[|sent| - 1] == LastSent(sent, id).value;
    } else {
      var front := sent[..|sent| - 1];
      LastIsLast(front, id);
      var i :| 0 <= i < |front| && front[i] == LastSent(front, id).value
          && forall j :: i < j < |front| ==> front[j].row != id;
      assert sent[i] == LastSent(sent, id).value;
      assert forall j :: i < j < |sent| ==> sent[j].row != id;
    }
  }

  // -------------------------------------------------------------------------
  // The invariant
  // -------------------------------------------------------------------------

  predicate RowHas(rows: map<RowId, Row>, id: RowId, hash: string) {
    id in rows && rows[id].hash == Some(hash)
  }

  /** From the stored signature on the row shows the run's hash, and once the transaction is
      handed over it is the last one sent for the row. */
  ghost predicate RunShows(run: Run, rows: map<RowId, Row>, sent: seq<Sent>) {
    && (run.pc.AtSend? || run.pc.AtMarkSent? ==> RowHas(rows, run.pc.row, run.pc.hash))
    && (run.pc.AtMarkSent? ==>
          LastHash(sent, run.pc.row, run.pc.hash) && LastSent(sent, run.pc.row).value.sender.ByRun?)
  }

  /** The update records a replacement of the row: it is broadcasted under the new hash, keeps the
      first hash as the original one, and has one attempt more. */
  predicate RecordsReplacement(row: Row, u: RowUpdate) {
    && u.status == Some(Broadcasted) && u.hash.Some? && u.attempts == Some(row.attempts + 1)
    && u.originalHash == (if row.originalHash.Some? then row.originalHash else row.hash)
    && u.payload.None?
  }

  /** A poll about to record a replacement has sent it last for its row; any other write of a poll
      ends the row's time as broadcasted. */
  ghost predicate PollShows(pc: PollPc, sent: seq<Sent>) {
    pc.AtWrite? ==>
      if pc.bumped then RecordsReplacement(pc.row, pc.update) && LastHash(sent, pc.id, pc.update.hash.value)
      else pc.update.status.Some? && pc.update.status != Some(Broadcasted)
  }

  ghost predicate AllShow(runs: map<RunId, Run>, rows: map<RowId, Row>, sent: seq<Sent>) {
    forall r :: r in runs ==> RunShows(runs[r], rows, sent)
  }

  ghost predicate HashInv(w: World) {
    && AllShow(w.runs, w.rows, w.sent)
    && (forall p :: p in w.polls ==> PollShows(w.polls[p].pc, w.sent))
  }

  // -------------------------------------------------------------------------
  // Steps of a run
  // -------------------------------------------------------------------------

  /** What an action does to hashes: the signature is stored with the hash it was made under, the
      send logs it, and no other action changes the hash of a row. */
  ghost predicate KeepsHash(run: Run, e: Effect) {
    var pc, pc' := run.pc, e.run.pc;
    && (e.write.UpdateRow? ==> PcRow(pc) == Some(e.write.id) && !e.nonce.HandOver?)
    && (e.nonce.HandOver? ==> pc.AtSend? && e.write.NoWrite?)
    && (pc'.AtSend? ==>
          pc.AtStoreSignature? && e.write.UpdateRow? && e.write.update.hash == Some(pc'.hash) && pc'.row == pc.row)
    && (pc'.AtMarkSent? ==>
          pc.AtSend? && e.nonce.HandOver? && e.write.NoWrite? && pc'.row == pc.row && pc'.hash == pc.hash)
    && (e.nonce.GiveBack? || e.nonce.WalkAway? ==> Holds(pc))
  }

  lemma ActionKeepsHash(run: Run, v: View, act: RunAction)
    requires PcFits(run.pc, act)
    ensures KeepsHash(run, RunEffect(run, v, act))
  {
    match act
    case _ =>
  }

  lemma UpdateShows(runs: map<RunId, Run>, rows: map<RowId, Row>, sent: seq<Sent>, r: RunId, e: Effect)
    requires AllShow(runs, rows, sent)
    requires r in runs && KeepsHash(runs[r], e) && e.write.UpdateRow? && AloneOn(runs, rows, r)
    ensures AllShow(runs[r := e.run], rows[e.write.id := Merge(rows[e.write.id], e.write.update)], sent)
  {
    var rows' := rows[e.write.id := Merge(rows[e.write.id], e.write.update)];
    forall q | q in runs && q != r
      ensures RunShows(runs[q], rows', sent)
    {
      assert RunShows(runs[q], rows, sent) && OwnRow(runs[q].pc) != Some(e.write.id);
    }
  }

  lemma SendShows(runs: map<RunId, Run>, rows: map<RowId, Row>, sent: seq<Sent>, r: RunId, e: Effect)
    requires AllShow(runs, rows, sent)
    requires r in runs && KeepsHash(runs[r], e) && e.nonce.HandOver? && Owned(runs, rows)
    ensures AllShow(runs[r := e.run], rows, sent + [HandedOver(r, runs[r])])
  {
    hide LastSent, TxOf, SlotOf;
    var event := HandedOver(r, runs[r]);
    assert RunShows(runs[r], rows, sent);
    LastAppended(sent, event, runs[r].pc.row);
    forall q | q in runs && q != r
      ensures RunShows(runs[q], rows, sent + [event])
    {
      assert RunShows(runs[q], rows, sent) && !Shared(runs[q].pc, runs[r].pc);
      if runs[q].pc.AtMarkSent? {
        LastAppended(sent, event, runs[q].pc.row);
      }
    }
  }

  /** No poll is at work on the row a run sends for. */
  lemma PollsElsewhere(polls: map<PollId, Poller>, rows: map<RowId, Row>, sent: seq<Sent>, e: Sent)
    requires Polled(polls, rows) && forall p :: p in polls ==> PollShows(polls[p].pc, sent)
    requires e.row in rows && rows[e.row].status != Broadcasted
    ensures forall p :: p in polls ==> PollShows(polls[p].pc, sent + [e])
  {
    hide LastSent;
    forall p | p in polls
      ensures PollShows(polls[p].pc, sent + [e])
    {
      assert PollOwns(polls[p], rows) && PollShows(polls[p].pc, sent);
      if polls[p].pc.AtWrite? {
        LastAppended(sent, e, polls[p].pc.id);
      }
    }
  }

  lemma MoveShows(runs: map<RunId, Run>, rows: map<RowId, Row>, rows': map<RowId, Row>, sent: seq<Sent>, r: RunId,
                  e: Effect)
    requires AllShow(runs, rows, sent)
    requires r in runs && KeepsHash(runs[r], e) && !e.nonce.HandOver? && !e.write.UpdateRow?
    requires forall id :: id in rows ==> id in rows' && rows'[id] == rows[id]
    ensures AllShow(runs[r := e.run], rows', sent)
  {
    forall q | q in runs && q != r
      ensures RunShows(runs[q], rows', sent)
    {
      assert RunShows(runs[q], rows, sent);
    }
  }

  lemma RunStepShows(w: World, r: RunId, act: RunAction)
    requires OwnInv(w) && DisciplineInv(w) && HashInv(w) && RunAt(w, r, act) && StepGuarded(w, Do(r, act))
    ensures HashInv(Next(w, Do(r, act)))
  {
    hide Key, OwnInv, ResetReady, Polled, AllShow, PollShows, RunEffect, StepGuarded, AloneOn, OwnsWell, NewRow, Merge,
        NoncesAfter, FateAfter, FailedAfter, HandedOver, FindByKey;
    var run, v := w.runs[r], ViewOf(w, w.runs[r], act);
    var e := RunEffect(run, v, act);
    ActionKeepsHash(run, v, act);
    ActionKeepsRequest(run, v, act);
    ActionOwnsWell(run, v, act);
    if e.nonce.HandOver? {
      OwnedOf(w);
      SendShows(w.runs, w.rows, w.sent, r, e);
      SenderSigned(w, r);
      PollsElsewhere(w.polls, w.rows, w.sent, HandedOver(r, run));
    } else if e.write.UpdateRow? {
      WriterReset(run, v, act);
      WriterAlone(w, r, act);
      AloneHasRow(w, r);
      UpdateShows(w.runs, w.rows, w.sent, r, e);
    } else {
      MoveShows(w.runs, w.rows, Next(w, Do(r, act)).rows, w.sent, r, e);
    }
    hide KeepsHash;
  }

  lemma OwnedOf(w: World)
    requires OwnInv(w)
    ensures Owned(w.runs, w.rows)
  {
  }

  lemma SenderSigned(w: World, r: RunId)
    requires OwnInv(w) && r in w.runs && w.runs[r].pc.AtSend?
    ensures HandedOver(r, w.runs[r]).row in w.rows && w.rows[HandedOver(r, w.runs[r]).row].status != Broadcasted
  {
  }

  lemma WriterReset(run: Run, v: View, act: RunAction)
    requires PcFits(run.pc, act) && RunEffect(run, v, act).write.UpdateRow?
    ensures PcRow(run.pc).Some? && (run.pc.AtReset? ==> act == Reset)
  {
    match act
    case _ =>
  }

  lemma AloneHasRow(w: World, r: RunId)
    requires r in w.runs && PcRow(w.runs[r].pc).Some? && AloneOn(w.runs, w.rows, r)
    ensures PcRow(w.runs[r].pc).value in w.rows
  {
  }

  // -------------------------------------------------------------------------
  // Steps of a poll
  // -------------------------------------------------------------------------

  /** What an answer does to hashes: the replacement is logged under the hash it was signed with,
      and that hash is in the update that records it. */
  ghost predicate PollKeepsHash(poller: Poller, e: MonitorEffect) {
    var pc, pc' := poller.pc, e.poller.pc;
    && (e.send.Some? ==>
          && pc.AtBumpSend? && e.write.None? && e.send.value.id == pc.id && e.send.value.hash == pc.hash
          && pc'.AtWrite? && pc'.id == pc.id && (pc'.bumped ==> pc'.update.hash == Some(pc.hash)))
    && (pc'.AtWrite? ==>
          if pc'.bumped then e.send.Some? && RecordsReplacement(pc'.row, pc'.update)
          else pc'.update.status.Some? && pc'.update.status != Some(Broadcasted))
    && (e.write.Some? ==> pc.AtWrite? && e.write.value == PollWrite(pc.id, pc.update, pc.bumped))
  }

  lemma AnswerKeepsHash(config: Config, poller: Poller, act: PollAction)
    requires PollFits(poller, act)
    ensures PollKeepsHash(poller, PollEffect(config, poller, act))
  {
    hide ReplacementTx, BumpQuote;
    match act
    case _ =>
  }

  /** A poll's send is the last for its row; nobody else is about to mark that row. */
  lemma ResendShows(w: World, p: PollId, e: MonitorEffect)
    requires OwnInv(w) && Polled(w.polls, w.rows) && HashInv(w) && p in w.polls && PollKeepsHash(w.polls[p], e)
    requires e.send.Some?
    ensures HashInv(ApplyPoll(w, p, e))
  {
    hide LastSent, WritesTarget;
    var event := Resent(p, e.send.value);
    assert PollOwns(w.polls[p], w.rows);
    LastAppended(w.sent, event, w.polls[p].pc.id);
    forall r | r in w.runs
      ensures RunShows(w.runs[r], w.rows, w.sent + [event])
    {
      assert RunShows(w.runs[r], w.rows, w.sent);
      if w.runs[r].pc.AtMarkSent? {
        LastAppended(w.sent, event, w.runs[r].pc.row);
      }
    }
  }

  /** A stored write touches a row no run is at work on. */
  lemma WriteShows(w: World, p: PollId, e: MonitorEffect)
    requires OwnInv(w) && Polled(w.polls, w.rows) && HashInv(w) && p in w.polls && PollKeepsHash(w.polls[p], e)
    requires e.send.None?
    ensures HashInv(ApplyPoll(w, p, e))
  {
    hide LastSent, WritesTarget, Bumped, Merge;
    assert PollOwns(w.polls[p], w.rows);
    forall r | r in w.runs
      ensures RunShows(w.runs[r], ApplyPoll(w, p, e).rows, w.sent)
    {
      assert RunShows(w.runs[r], w.rows, w.sent);
    }
  }

  lemma FrameShows(w: World, s: Step)
    requires HashInv(w) && !s.Do? && !s.Monitor?
    ensures HashInv(Next(w, s))
  {
    hide RunShows, DtoValid, WalletIdValid, LastSent;
    if s.Begin? {
      FreshShows(w, Run(s.wallet, s.req, AtLookup, FeeQuote(0, 0, 0), None));
    }
  }

  lemma FreshShows(w: World, run: Run)
    requires run.pc.AtLookup?
    ensures RunShows(run, w.rows, w.sent)
  {
  }

  lemma HashStep(w: World, s: Step)
    requires OwnInv(w) && DisciplineInv(w) && HashInv(w) && StepGuarded(w, s)
    ensures HashInv(Next(w, s))
  {
    hide OwnInv, HashInv, ResetReady, Polled, StepGuarded, PollKeepsHash, PollEffect, ApplyPoll;
    match s
    case Do(r, act) =>
      if RunAt(w, r, act) {
        RunStepShows(w, r, act);
      }
    case Monitor(p, act) =>
      if PollAt(w, p, act) {
        AnswerKeepsHash(w.config, w.polls[p], act);
        if PollEffect(w.config, w.polls[p], act).send.Some? {
          ResendShows(w, p, PollEffect(w.config, w.polls[p], act));
        } else {
          WriteShows(w, p, PollEffect(w.config, w.polls[p], act));
        }
      }
    case _ => FrameShows(w, s);
  }

  // -------------------------------------------------------------------------
  // Marking a row broadcasted
  // -------------------------------------------------------------------------

  /** The step marks the row broadcasted: a run's own mark, or the stored record of a replacement. */
  predicate Marks(w: World, s: Step, id: RowId) {
    match s
    case Do(r, MarkSent(true)) => RunAt(w, r, MarkSent(true)) && w.runs[r].pc.row == id
    case Monitor(p, OnWrite(true)) =>
      PollAt(w, p, OnWrite(true)) && w.polls[p].pc.bumped && w.polls[p].pc.id == id
    case _ => false
  }

  ghost predicate Ready(w: World) {
    OwnInv(w) && DisciplineInv(w) && HashInv(w)
  }

  /** The row takes the hash of the transaction sent last for it. */
  lemma MarkShows(w: World, s: Step, id: RowId)
    requires Ready(w) && Marks(w, s, id)
    ensures var w' := Next(w, s);
            && w'.sent == w.sent && id in w'.rows && w'.rows[id].status == Broadcasted
            && w'.rows[id].hash.Some? && LastHash(w.sent, id, w'.rows[id].hash.value)
  {
    hide LastSent, ResetReady;
    if s.Do? {
      hide Key, PollShows, Polled;
      assert RunShows(w.runs[s.r], w.rows, w.sent);
    } else {
      hide AllShow, Owned, Bumped;
      assert PollShows(w.polls[s.p].pc, w.sent) && PollOwns(w.polls[s.p], w.rows);
    }
  }

  /** A row that is broadcasted after any other step was so before, with the same hash. */
  lemma UnmarkedKeeps(w: World, s: Step, id: RowId)
    requires Ready(w) && StepGuarded(w, s) && !Marks(w, s, id)
    requires id in Next(w, s).rows && Next(w, s).rows[id].status == Broadcasted
    ensures id in w.rows && w.rows[id].status == Broadcasted && Next(w, s).rows[id].hash == w.rows[id].hash
  {
    hide Ready, StepGuarded;
    match s
    case Do(r, act) =>
      if RunAt(w, r, act) {
        RunKeepsMarked(w, r, act, id);
      }
    case Monitor(p, act) =>
      if PollAt(w, p, act) {
        PollKeepsMarked(w, p, act, id);
      }
    case _ => hide SkippedNonces, FindBroadcasted;
  }

  /** Only its own mark makes a run's row broadcasted. */
  lemma ActionMarks(run: Run, v: View, act: RunAction)
    requires PcFits(run.pc, act)
    ensures var e := RunEffect(run, v, act);
            e.write.UpdateRow? && e.write.update.status == Some(Broadcasted) ==>
              act == MarkSent(true) && run.pc.row == e.write.id
  {
    match act
    case _ =>
  }

  lemma RunKeepsMarked(w: World, r: RunId, act: RunAction, id: RowId)
    requires Ready(w) && RunAt(w, r, act) && StepGuarded(w, Do(r, act)) && !Marks(w, Do(r, act), id)
    requires id in Next(w, Do(r, act)).rows && Next(w, Do(r, act)).rows[id].status == Broadcasted
    ensures id in w.rows && w.rows[id].status == Broadcasted && Next(w, Do(r, act)).rows[id].hash == w.rows[id].hash
  {
    hide Key, OwnInv, DisciplineInv, HashInv, RunEffect, StepGuarded, NewRow, NoncesAfter, FateAfter, FailedAfter,
        FindByKey, OwnsWell, AloneOn;
    var run, v := w.runs[r], ViewOf(w, w.runs[r], act);
    var e := RunEffect(run, v, act);
    ActionMarks(run, v, act);
    ActionOwnsWell(run, v, act);
    NewRowPending(run);
    if e.write.UpdateRow? {
      WriterReset(run, v, act);
      WriterAlone(w, r, act);
      NotPolled(w, r, e);
    }
  }

  lemma PollKeepsMarked(w: World, p: PollId, act: PollAction, id: RowId)
    requires Ready(w) && PollAt(w, p, act) && !Marks(w, Monitor(p, act), id)
    requires id in Next(w, Monitor(p, act)).rows && Next(w, Monitor(p, act)).rows[id].status == Broadcasted
    ensures id in w.rows && w.rows[id].status == Broadcasted
              && Next(w, Monitor(p, act)).rows[id].hash == w.rows[id].hash
  {
    hide OwnInv, ResetReady, Polled, AllShow, PollEffect, LastSent, Bumped;
    AnswerKeepsHash(w.config, w.polls[p], act);
    MonitorOwnsWell(w.config, w.polls[p], act);
    assert PollShows(w.polls[p].pc, w.sent);
  }

  // -------------------------------------------------------------------------
  // Whole runs of the system
  // -------------------------------------------------------------------------

  lemma InitReady(config: Config)
    ensures Ready(Init(config))
  {
  }

  lemma ReadyStep(w: World, s: Step)
    requires Ready(w) && StepDisciplined(w, s)
    ensures Ready(Next(w, s)) && StepGuarded(w, s)
  {
    hide OwnInv, HashInv, DisciplineInv, StepDisciplined, Next, StepGuarded, StepCounted;
    InvGuards(w, s);
    OwnStep(w, s);
    DisciplineStep(w, s);
    HashStep(w, s);
  }

  lemma {:induction false} ReadyAt(config: Config, steps: seq<Step>, k: nat)
    requires Disciplined(Init(config), steps) && k <= |steps|
    ensures Ready(At(config, steps, k))
    ensures k < |steps| ==>
              StepDisciplined(At(config, steps, k), steps[k]) && StepGuarded(At(config, steps, k), steps[k])
  {
    hide Ready, StepDisciplined, StepGuarded, Next, Exec;
    DisciplinedAt(Init(config), steps, k);
    if k == 0 {
      AtStart(config, steps);
      InitReady(config);
    } else {
      ReadyAt(config, steps, k - 1);
      AtNext(config, steps, k - 1);
      ReadyStep(At(config, steps, k - 1), steps[k - 1]);
    }
    if k < |steps| {
      ReadyStep(At(config, steps, k), steps[k]);
    }
  }

  lemma {:induction false} DisciplinedAt(w: World, steps: seq<Step>, k: nat)
    requires Disciplined(w, steps) && k <= |steps|
    ensures k < |steps| ==> StepDisciplined(Exec(w, steps[..k]), steps[k])
    decreases k
  {
    hide Next, StepDisciplined;
    if k > 0 {
      DisciplinedAt(Next(w, steps[0]), steps[1..], k - 1);
      assert steps[..k][1..] == steps[1..][..k - 1];
    } else {
      assert steps[..0] == [];
    }
  }

  /** A broadcasted row shows the hash of the transaction that had been sent last for it when it
      was last marked broadcasted: step k marks it, and no step after k does. */
  lemma {:induction false} ShownHash(config: Config, steps: seq<Step>, id: RowId, n: nat) returns (k: nat)
    requires Disciplined(Init(config), steps) && n <= |steps|
    requires id in At(config, steps, n).rows && At(config, steps, n).rows[id].status == Broadcasted
    ensures k < n && Marks(At(config, steps, k), steps[k], id)
    ensures At(config, steps, n).rows[id].hash.Some?
    ensures LastHash(At(config, steps, k).sent, id, At(config, steps, n).rows[id].hash.value)
    ensures forall j :: k < j < n ==> !Marks(At(config, steps, j), steps[j], id)
    decreases n
  {
    hide Ready, StepDisciplined, StepGuarded, Next, Exec, Marks, LastHash;
    if n == 0 {
      AtStart(config, steps);
      assert false;
    } else {
      AtNext(config, steps, n - 1);
      ReadyAt(config, steps, n - 1);
      if Marks(At(config, steps, n - 1), steps[n - 1], id) {
        MarkShows(At(config, steps, n - 1), steps[n - 1], id);
        k := n - 1;
      } else {
        UnmarkedKeeps(At(config, steps, n - 1), steps[n - 1], id);
        k := ShownHash(config, steps, id, n - 1);
      }
    }
  }

  // -------------------------------------------------------------------------
  // The hash of the last send
  // -------------------------------------------------------------------------

  /** A poll has come to its write for the row. */
  ghost predicate Outstanding(polls: map<PollId, Poller>, id: RowId) {
    exists p :: p in polls && polls[p].pc.AtWrite? && polls[p].pc.id == id
  }

  ghost predicate ClearInv(w: World) {
    forall id :: id in w.rows && w.rows[id].status == Broadcasted && !Outstanding(w.polls, id) ==>
        w.rows[id].hash.Some? && LastHash(w.sent, id, w.rows[id].hash.value)
  }

  /** The write of a poll throws. */
  predicate IsLost(s: Step) {
    s.Monitor? && s.does == OnWrite(false)
  }

  lemma ClearStep(w: World, s: Step)
    requires Ready(w) && StepGuarded(w, s) && ClearInv(w) && !IsLost(s)
    ensures ClearInv(Next(w, s))
  {
    hide Ready, StepGuarded, Next, Marks, LastSent;
    forall id | id in Next(w, s).rows && Next(w, s).rows[id].status == Broadcasted && !Outstanding(Next(w, s).polls, id)
      ensures Next(w, s).rows[id].hash.Some? && LastHash(Next(w, s).sent, id, Next(w, s).rows[id].hash.value)
    {
      if Marks(w, s, id) {
        MarkShows(w, s, id);
      } else {
        UnmarkedKeeps(w, s, id);
        StillClear(w, s, id);
      }
    }
  }

  /** Nothing was outstanding for the row and nothing has been sent for it. */
  lemma {:induction false} StillClear(w: World, s: Step, id: RowId)
    requires Ready(w) && StepGuarded(w, s) && !Marks(w, s, id) && !IsLost(s)
    requires id in w.rows && w.rows[id].status == Broadcasted
    requires id in Next(w, s).rows && Next(w, s).rows[id].status == Broadcasted && !Outstanding(Next(w, s).polls, id)
    ensures !Outstanding(w.polls, id) && LastSent(Next(w, s).sent, id) == LastSent(w.sent, id)
  {
    hide Ready, StepGuarded;
    match s
    case Do(r, act) =>
      if RunAt(w, r, act) {
        RunLeavesClear(w, r, act, id);
      }
    case Monitor(p, act) =>
      if PollAt(w, p, act) {
        PollLeavesClear(w, p, act, id);
      }
    case _ => FrameLeavesClear(w, s, id);
  }

  lemma FrameLeavesClear(w: World, s: Step, id: RowId)
    requires !s.Do? && !s.Monitor? && !Outstanding(Next(w, s).polls, id)
    ensures !Outstanding(w.polls, id) && Next(w, s).sent == w.sent
  {
    hide RunAt, PollAt, RunEffect, PollEffect, ViewOf, ApplyRun, ApplyPoll, DtoValid, WalletIdValid, Outstanding;
    if Outstanding(w.polls, id) {
      StaysOutstanding(w, s, id);
    }
  }

  lemma StaysOutstanding(w: World, s: Step, id: RowId)
    requires !s.Do? && !s.Monitor? && Outstanding(w.polls, id)
    ensures Outstanding(Next(w, s).polls, id)
  {
    hide RunAt, PollAt, RunEffect, PollEffect, ViewOf, ApplyRun, ApplyPoll, DtoValid, WalletIdValid, FindBroadcasted,
        SkippedNonces;
    var p :| p in w.polls && w.polls[p].pc.AtWrite? && w.polls[p].pc.id == id;
    assert p in Next(w, s).polls && Next(w, s).polls[p] == w.polls[p];
  }

  lemma {:induction false} RunLeavesClear(w: World, r: RunId, act: RunAction, id: RowId)
    requires Ready(w) && RunAt(w, r, act) && id in w.rows && w.rows[id].status == Broadcasted
    requires !Outstanding(Next(w, Do(r, act)).polls, id)
    ensures !Outstanding(w.polls, id) && LastSent(Next(w, Do(r, act)).sent, id) == LastSent(w.sent, id)
  {
    hide Key, DisciplineInv, HashInv, RunEffect, LastSent, NewRow, RowsAfter, NoncesAfter, FateAfter, FailedAfter,
        FindByKey, Outstanding, OwnInv;
    var e := RunEffect(w.runs[r], ViewOf(w, w.runs[r], act), act);
    ActionKeepsHash(w.runs[r], ViewOf(w, w.runs[r], act), act);
    if e.nonce.HandOver? {
      SenderSigned(w, r);
      LastAppended(w.sent, HandedOver(r, w.runs[r]), id);
    }
  }

  lemma {:induction false} PollLeavesClear(w: World, p: PollId, act: PollAction, id: RowId)
    requires Ready(w) && PollAt(w, p, act) && !Marks(w, Monitor(p, act), id) && act != OnWrite(false)
    requires id in w.rows && w.rows[id].status == Broadcasted
    requires var w' := Next(w, Monitor(p, act));
             id in w'.rows && w'.rows[id].status == Broadcasted && !Outstanding(w'.polls, id)
    ensures !Outstanding(w.polls, id) && LastSent(Next(w, Monitor(p, act)).sent, id) == LastSent(w.sent, id)
  {
    hide OwnInv, ResetReady, AllShow, PollEffect, LastSent, Bumped;
    var poller, e := w.polls[p], PollEffect(w.config, w.polls[p], act);
    AnswerKeepsHash(w.config, poller, act);
    WritesOnlyAtWrite(w.config, poller, act);
    assert PollShows(poller.pc, w.sent) && PollOwns(poller, w.rows);
    var polls' := Next(w, Monitor(p, act)).polls;
    assert p in polls' && polls'[p] == e.poller;
    if e.send.Some? {
      LastAppended(w.sent, Resent(p, e.send.value), id);
    }
    hide Merge;
  }

  lemma WritesOnlyAtWrite(config: Config, poller: Poller, act: PollAction)
    requires PollFits(poller, act)
    ensures poller.pc.AtWrite? && act == OnWrite(true) ==>
              PollEffect(config, poller, act).write == Some(PollWrite(poller.pc.id, poller.pc.update, poller.pc.bumped))
    ensures poller.pc.AtWrite? ==> act.OnWrite?
  {
  }

  lemma {:induction false} ClearAt(config: Config, steps: seq<Step>, k: nat)
    requires Disciplined(Init(config), steps) && k <= |steps|
    requires forall i :: 0 <= i < |steps| ==> !IsLost(steps[i])
    ensures ClearInv(At(config, steps, k))
  {
    hide Ready, StepDisciplined, StepGuarded, Next, Exec, ClearInv;
    if k == 0 {
      AtStart(config, steps);
      InitClear(config);
    } else {
      ClearAt(config, steps, k - 1);
      ReadyAt(config, steps, k - 1);
      AtNext(config, steps, k - 1);
      ClearStep(At(config, steps, k - 1), steps[k - 1]);
    }
  }

  lemma InitClear(config: Config)
    ensures ClearInv(Init(config))
  {
  }

  /** As long as no write of a poll is lost, a broadcasted row for which none is outstanding shows
      the hash of the transaction sent last for it. */
  lemma {:induction false} HashOfLastSend(config: Config, steps: seq<Step>, id: RowId)
    requires Disciplined(Init(config), steps)
    requires forall i :: 0 <= i < |steps| ==> !IsLost(steps[i])
    requires var w := Exec(Init(config), steps);
             id in w.rows && w.rows[id].status == Broadcasted && !Outstanding(w.polls, id)
    ensures var w := Exec(Init(config), steps);
            exists i :: 0 <= i < |w.sent| && w.sent[i].row == id && w.rows[id].hash == Some(w.sent[i].hash)
                        && forall j :: i < j < |w.sent| ==> w.sent[j].row != id
  {
    hide Exec, Outstanding;
    ClearAt(config, steps, |steps|);
    assert steps[..|steps|] == steps;
    LastIsLast(Exec(Init(config), steps).sent, id);
  }

  // -------------------------------------------------------------------------
  // The original hash
  // -------------------------------------------------------------------------

  /** A run has sent a transaction under this hash for the row. */
  ghost predicate SentUnder(sent: seq<Sent>, id: RowId, hash: string) {
    exists i :: 0 <= i < |sent| && sent[i].sender.ByRun? && sent[i].row == id && sent[i].hash == hash
  }

  ghost predicate OriginOf(id: RowId, row: Row, sent: seq<Sent>) {
    && (row.originalHash.Some? ==> SentUnder(sent, id, row.originalHash.value))
    && (row.originalHash.None? && row.status == Broadcasted ==> row.hash.Some? && SentUnder(sent, id, row.hash.value))
  }

  ghost predicate OriginInv(w: World) {
    BudgetInv(w) && forall id :: id in w.rows ==> OriginOf(id, w.rows[id], w.sent)
  }

  lemma SentGrow(w: World, s: Step)
    ensures w.sent <= Next(w, s).sent
  {
    hide RunEffect, PollEffect, DtoValid, WalletIdValid, NoncesAfter, RowsAfter, FateAfter, FailedAfter, Bumped, Merge;
  }

  lemma SentUnderGrows(sent: seq<Sent>, sent': seq<Sent>, id: RowId, hash: string)
    requires sent <= sent' && SentUnder(sent, id, hash)
    ensures SentUnder(sent', id, hash)
  {
    var i :| 0 <= i < |sent| && sent[i].sender.ByRun? && sent[i].row == id && sent[i].hash == hash;
    assert sent'[i] == sent[i];
  }

  lemma OriginGrows(sent: seq<Sent>, sent': seq<Sent>, id: RowId, row: Row)
    requires sent <= sent' && OriginOf(id, row, sent)
    ensures OriginOf(id, row, sent')
  {
    hide SentUnder;
    if row.originalHash.Some? {
      SentUnderGrows(sent, sent', id, row.originalHash.value);
    } else if row.status == Broadcasted {
      SentUnderGrows(sent, sent', id, row.hash.value);
    }
  }

  /** A replacement keeps the first hash as the original one. */
  lemma RecordOrigin(w: World, p: PollId)
    requires Ready(w) && OriginInv(w) && Records(w, Monitor(p, OnWrite(true)))
    ensures var w', id := Next(w, Monitor(p, OnWrite(true))), w.polls[p].pc.id;
            w'.sent == w.sent && w'.rows == w.rows[id := w'.rows[id]] && OriginOf(id, w'.rows[id], w.sent)
  {
    hide OwnInv, ResetReady, AllShow, LastSent, Bumped, SentUnder, BudgetInv;
    assert PollShows(w.polls[p].pc, w.sent) && PollOwns(w.polls[p], w.rows);
    assert OriginOf(w.polls[p].pc.id, w.rows[w.polls[p].pc.id], w.sent);
  }

  /** A row that a run marks shows a hash a run has sent. */
  lemma MarkOrigin(w: World, r: RunId)
    requires Ready(w) && RunAt(w, r, MarkSent(true))
    ensures var id := w.runs[r].pc.row;
            var w' := Next(w, Do(r, MarkSent(true)));
            id in w'.rows && w'.rows[id].hash.Some? && SentUnder(w.sent, id, w'.rows[id].hash.value)
  {
    hide Key, OwnInv, DisciplineInv, LastSent, PollShows, NoncesAfter, FateAfter, FailedAfter;
    assert RunShows(w.runs[r], w.rows, w.sent);
  }

  lemma OriginStep(w: World, s: Step)
    requires Ready(w) && OriginInv(w) && StepGuarded(w, s)
    ensures OriginInv(Next(w, s))
  {
    hide Ready, BudgetInv, StepGuarded, Next, OriginOf, SentUnder;
    BudgetStep(w, s);
    SentGrow(w, s);
    if Records(w, s) {
      RecordOrigin(w, s.p);
      forall id | id in Next(w, s).rows
        ensures OriginOf(id, Next(w, s).rows[id], Next(w, s).sent)
      {
      }
    } else {
      StepLeavesBudget(w, s);
      forall id | id in Next(w, s).rows
        ensures OriginOf(id, Next(w, s).rows[id], Next(w, s).sent)
      {
        OriginElsewhere(w, s, id);
      }
    }
  }

  lemma OriginElsewhere(w: World, s: Step, id: RowId)
    requires Ready(w) && OriginInv(w) && StepGuarded(w, s) && !Records(w, s) && id in Next(w, s).rows
    requires Untouched(w.rows, w.recorded, Next(w, s).rows, Next(w, s).recorded) && w.sent <= Next(w, s).sent
    ensures OriginOf(id, Next(w, s).rows[id], Next(w, s).sent)
  {
    hide BudgetInv, StepGuarded, Next, SentUnder, Ready;
    var row' := Next(w, s).rows[id];
    if id in w.rows {
      OriginGrows(w.sent, Next(w, s).sent, id, w.rows[id]);
    }
    if row'.originalHash.None? && row'.status == Broadcasted {
      if Marks(w, s, id) && s.Do? {
        MarkOrigin(w, s.r);
        SentUnderGrows(w.sent, Next(w, s).sent, id, row'.hash.value);
      } else if Marks(w, s, id) {
        MarkedExists(w, s.p);
        assert false;
      } else {
        UnmarkedKeeps(w, s, id);
      }
    }
  }

  lemma MarkedExists(w: World, p: PollId)
    requires Ready(w) && p in w.polls && !w.polls[p].pc.Idle?
    ensures w.polls[p].pc.id in w.rows
  {
    hide OwnInv, HashInv, ResetReady;
    assert PollOwns(w.polls[p], w.rows);
  }

  lemma {:induction false} OriginAt(config: Config, steps: seq<Step>, k: nat)
    requires Disciplined(Init(config), steps) && k <= |steps|
    ensures OriginInv(At(config, steps, k))
  {
    hide Ready, StepDisciplined, StepGuarded, Next, Exec, OriginInv;
    if k == 0 {
      AtStart(config, steps);
      InitOrigin(config);
    } else {
      OriginAt(config, steps, k - 1);
      ReadyAt(config, steps, k - 1);
      AtNext(config, steps, k - 1);
      OriginStep(At(config, steps, k - 1), steps[k - 1]);
    }
  }

  lemma InitOrigin(config: Config)
    ensures OriginInv(Init(config))
  {
  }

  /** The original hash of a row is one that a requestSign run sent for it, not a replacement's. */
  lemma {:induction false} OriginalWasSent(config: Config, steps: seq<Step>, id: RowId)
    requires Disciplined(Init(config), steps)
    requires var w := Exec(Init(config), steps); id in w.rows && w.rows[id].originalHash.Some?
    ensures var w := Exec(Init(config), steps);
            exists i :: 0 <= i < |w.sent| && w.sent[i].sender.ByRun? && w.sent[i].row == id
                        && w.rows[id].originalHash == Some(w.sent[i].hash)
  {
    hide Exec;
    OriginAt(config, steps, |steps|);
    assert steps[..|steps|] == steps;
    assert OriginOf(id, Exec(Init(config), steps).rows[id], Exec(Init(config), steps).sent);
  }
}
