/** What every reachable signing-request table satisfies, without assumptions: a published
    row is complete, and whatever is written into a row or sent for it carries the content
    of the request the row was created for. */
module RowSafety {
  import opened Base
  import opened Requests
  import opened Fees
  import opened Lifecycle
  import opened KeySafety

  // -------------------------------------------------------------------------
  // The invariant, one predicate per kind of entity
  // -------------------------------------------------------------------------

  predicate Published(status: Status) {
    status == Signed || status == Broadcasted || status == Confirmed || status == Dropped
  }

  predicate Complete(row: Row) {
    row.payload.Some? && row.hash.Some?
  }

  /** The transaction does what the request asked for; only nonce and fees are free. */
  predicate Carries(tx: Tx, req: SignRequest) {
    tx.chain == req.chainId && tx.to == req.to && tx.value == req.value && tx.data == req.data
  }

  predicate RowGood(row: Row, req: SignRequest, everFailed: bool) {
    && (Published(row.status) ==> Complete(row))
    && (row.payload.Some? ==> Carries(row.payload.value, req))
    && (row.status == Failed ==> everFailed)
  }

  ghost predicate RowsGood(rows: map<RowId, Row>, asked: map<RowId, SignRequest>, everFailed: set<RowId>) {
    && asked.Keys == rows.Keys
    && everFailed <= rows.Keys
    && (forall id :: id in rows ==> RowGood(rows[id], asked[id], id in everFailed))
  }

  /** The row a run works on, from the gate to its final status write. */
  function PcRow(pc: Pc): Option<RowId> {
    match pc
    case AtReset(row) => Some(row)
    case AtReserve(row) => Some(row)
    case AtStorePayload(row, _) => Some(row)
    case AtSign(row, _) => Some(row)
    case AtFailSign(row, _) => Some(row)
    case AtStoreSignature(row, _, _, _) => Some(row)
    case AtSend(row, _, _) => Some(row)
    case AtMarkSent(row, _, _) => Some(row)
    case AtFailSend(row, _) => Some(row)
    case _ => None
  }

  predicate HashStored(pc: Pc) {
    pc.AtSend? || pc.AtMarkSent? || pc.AtFailSend?
  }

  predicate PayloadStored(pc: Pc) {
    pc.AtSign? || pc.AtFailSign? || pc.AtStoreSignature? || HashStored(pc)
  }

  /** The row was created for the run's wallet and request. */
  predicate RowOfRun(w: World, id: RowId, run: Run) {
    id in w.rows && id in w.asked && w.rows[id].key == Key(run) && w.rows[id].wallet == run.wallet
        && w.rows[id].chain == run.req.chainId && w.asked[id] == run.req
  }

  ghost predicate PcGood(w: World, run: Run) {
    PcRow(run.pc).Some? ==>
      var id := PcRow(run.pc).value;
      && RowOfRun(w, id, run)
      && (PayloadStored(run.pc) ==> w.rows[id].payload.Some?)
      && (HashStored(run.pc) ==> w.rows[id].hash.Some?)
      && (if run.pc.AtReset? then id in w.everFailed else run.claimed == Some(id))
  }

  ghost predicate OutcomeGood(w: World, run: Run) {
    && (run.claimed.Some? ==> RowOfRun(w, run.claimed.value, run))
    && (run.pc.Done? && run.pc.outcome.Duplicate? ==> RowOfRun(w, run.pc.outcome.result.row, run))
    && (run.pc.Done? && run.pc.outcome.Accepted? ==> run.claimed == Some(run.pc.outcome.result.row))
  }

  /** A row as findBroadcasted read it, some time ago. */
  predicate SnapGood(w: World, id: RowId, row: Row) {
    && id in w.rows && id in w.asked
    && row.wallet == w.rows[id].wallet && row.chain == w.rows[id].chain
    && Complete(row) && Complete(w.rows[id])
    && row.chain == w.asked[id].chainId && Carries(row.payload.value, w.asked[id])
  }

  /** A replacement differs from the stored transaction in its fees only. */
  predicate Replaces(tx: Tx, row: Row) {
    row.payload.Some? && tx.(fees := row.payload.value.fees) == row.payload.value.(chain := row.chain)
  }

  ghost predicate PollGood(w: World, poller: Poller) {
    && (forall id :: id in poller.todo ==> SnapGood(w, id, poller.todo[id]))
    && PollPcGood(w, poller.pc)
  }

  predicate PollPcGood(w: World, pc: PollPc) {
    !pc.Idle? ==>
      && SnapGood(w, pc.id, pc.row)
      && (pc.AtBumpSign? || pc.AtBumpSend? ==> Replaces(pc.tx, pc.row))
      && (pc.AtWrite? ==> pc.update.payload.None? && pc.update.status != Some(Signed))
  }

  predicate EventGood(w: World, e: Sent) {
    && e.row in w.rows && e.row in w.asked
    && e.slot == Slot(w.rows[e.row].wallet, w.rows[e.row].chain)
    && Carries(e.tx, w.asked[e.row]) && e.tx.chain == e.slot.chain
  }

  ghost predicate RowInv(w: World) {
    && RowsGood(w.rows, w.asked, w.everFailed)
    && (forall r :: r in w.runs ==> PcGood(w, w.runs[r]) && OutcomeGood(w, w.runs[r]))
    && (forall p :: p in w.polls ==> PollGood(w, w.polls[p]))
    && (forall i :: 0 <= i < |w.sent| ==> EventGood(w, w.sent[i]))
  }

  // -------------------------------------------------------------------------
  // Rows only gain: what other entities rely on survives every write
  // -------------------------------------------------------------------------

  predicate RowGrows(row: Row, row': Row) {
    && row'.key == row.key && row'.wallet == row.wallet && row'.chain == row.chain
    && (row.payload.Some? ==> row'.payload.Some?)
    && (row.hash.Some? ==> row'.hash.Some?)
  }

  ghost predicate TablesGrow(rows: map<RowId, Row>, asked: map<RowId, SignRequest>, failed: set<RowId>,
                             rows': map<RowId, Row>, asked': map<RowId, SignRequest>, failed': set<RowId>)
  {
    && asked.Keys == rows.Keys
    && failed <= failed'
    && (forall id :: id in rows ==> id in rows' && RowGrows(rows[id], rows'[id]))
    && (forall id :: id in asked ==> id in asked' && asked'[id] == asked[id])
  }

  ghost predicate RowsGrow(w: World, w': World) {
    TablesGrow(w.rows, w.asked, w.everFailed, w'.rows, w'.asked, w'.everFailed)
  }

  /** `update` never clears a column. */
  lemma MergeGrows(row: Row, u: RowUpdate)
    ensures RowGrows(row, Merge(row, u))
  {
  }

  lemma EntitiesSurvive(w: World, w': World)
    requires RowsGrow(w, w')
    ensures forall run :: PcGood(w, run) ==> PcGood(w', run)
    ensures forall run :: OutcomeGood(w, run) ==> OutcomeGood(w', run)
    ensures forall poller :: PollGood(w, poller) ==> PollGood(w', poller)
    ensures forall e :: EventGood(w, e) ==> EventGood(w', e)
  {
    forall id, row | SnapGood(w, id, row)
      ensures SnapGood(w', id, row)
    {
    }
  }

  // -------------------------------------------------------------------------
  // Steps of a run
  // -------------------------------------------------------------------------

  /** What an action may write. */
  ghost predicate WritesWell(run: Run, v: View, e: Effect) {
    && (e.write.UpdateRow? ==>
          var u := e.write.update;
          && PcRow(run.pc) == Some(e.write.id)
          && (u.payload.Some? ==> Carries(u.payload.value, run.req))
          && (u.status.Some? && Published(u.status.value) ==>
              PayloadStored(run.pc) && (HashStored(run.pc) || u.hash.Some?)))
    && (e.nonce.HandOver? ==> run.pc.AtSend?)
    && (e.nonce.GiveBack? || e.nonce.WalkAway? ==> Holds(run.pc))
  }

  /** Where an action may take its run. */
  ghost predicate MovesWell(run: Run, v: View, e: Effect) {
    var pc, pc' := run.pc, e.run.pc;
    && e.run.wallet == run.wallet && e.run.req == run.req
    && (if e.write.InsertRow? then !v.conflict && pc' == AtReserve(e.write.id) && e.run.claimed == Some(e.write.id)
        else
          && (pc'.AtReset? ==> v.found.Some? && v.found.value.row.status == Failed && pc'.row == v.found.value.id)
          && (PcRow(pc').Some? && !pc'.AtReset? ==>
              PcRow(pc) == PcRow(pc') && e.run.claimed == (if pc.AtReset? then PcRow(pc) else run.claimed))
          && (PayloadStored(pc') ==> PayloadStored(pc) || (e.write.UpdateRow? && e.write.update.payload.Some?))
          && (HashStored(pc') ==> HashStored(pc) || (e.write.UpdateRow? && e.write.update.hash.Some?))
          && (e.run.claimed != run.claimed ==> pc.AtReset? && e.run.claimed == PcRow(pc)))
    && (pc'.Done? && pc'.outcome.Duplicate? ==>
        v.found.Some? && pc'.outcome.result == BuildResult(v.found.value.id, v.found.value.row))
    && (pc'.Done? && pc'.outcome.Accepted? ==>
        PcRow(pc) == Some(pc'.outcome.result.row) && !pc.AtReset? && e.run.claimed == run.claimed)
  }

  lemma ActionWritesWell(run: Run, v: View, act: RunAction)
    requires PcFits(run.pc, act)
    ensures WritesWell(run, v, RunEffect(run, v, act))
  {
    match act
    case _ =>
  }

  lemma ActionMovesWell(run: Run, v: View, act: RunAction)
    requires PcFits(run.pc, act)
    ensures MovesWell(run, v, RunEffect(run, v, act))
  {
    hide Key;
    match act
    case _ =>
  }

  ghost predicate Acts(w: World, r: RunId, v: View, e: Effect) {
    && KeyInv(w) && RowInv(w) && r in w.runs
    && v.found == FindByKey(w, Key(w.runs[r]))
    && (e.write.InsertRow? ==> Key(w.runs[r]) !in w.index && e.write.id !in w.rows)
    && WritesWell(w.runs[r], v, e) && MovesWell(w.runs[r], v, e)
  }

  lemma UpdateGood(rows: map<RowId, Row>, asked: map<RowId, SignRequest>, failed: set<RowId>, id: RowId, u: RowUpdate)
    requires RowsGood(rows, asked, failed) && id in rows
    requires u.payload.Some? ==> Carries(u.payload.value, asked[id])
    requires u.status.Some? && Published(u.status.value) ==> Complete(Merge(rows[id], u))
    ensures var rows', failed' := rows[id := Merge(rows[id], u)],
              if u.status == Some(Failed) then failed + {id} else failed;
            RowsGood(rows', asked, failed') && TablesGrow(rows, asked, failed, rows', asked, failed')
  {
    assert RowGood(rows[id], asked[id], id in failed);
    MergeGrows(rows[id], u);
  }

  lemma InsertGood(rows: map<RowId, Row>, asked: map<RowId, SignRequest>, failed: set<RowId>, id: RowId, run: Run)
    requires RowsGood(rows, asked, failed) && id !in rows
    ensures var rows', asked' := rows[id := NewRow(run)], asked[id := run.req];
            RowsGood(rows', asked', failed) && TablesGrow(rows, asked, failed, rows', asked', failed)
  {
    hide Key;
    assert RowGood(NewRow(run), run.req, false);
  }

  lemma TableAfterRun(w: World, r: RunId, v: View, e: Effect)
    requires Acts(w, r, v, e)
    ensures var w' := ApplyRun(w, r, e);
            RowsGood(w'.rows, w'.asked, w'.everFailed) && RowsGrow(w, w')
  {
    hide Key, Indexed, OutcomeGood, PollGood, EventGood, MovesWell, RowsGood, TablesGrow, NewRow;
    assert PcGood(w, w.runs[r]);
    match e.write
    case NoWrite => NothingGood(w.rows, w.asked, w.everFailed);
    case InsertRow(id) => InsertGood(w.rows, w.asked, w.everFailed, id, w.runs[r]);
    case UpdateRow(id, u) => UpdateGood(w.rows, w.asked, w.everFailed, id, u);
  }

  lemma NothingGood(rows: map<RowId, Row>, asked: map<RowId, SignRequest>, failed: set<RowId>)
    requires RowsGood(rows, asked, failed)
    ensures TablesGrow(rows, asked, failed, rows, asked, failed)
  {
  }

  /** The row a run finds by its key is its own. */
  lemma FoundRowIsOurs(w: World, r: RunId, v: View, e: Effect)
    requires Acts(w, r, v, e)
    ensures v.found.Some? ==> RowOfRun(w, v.found.value.id, w.runs[r])
    ensures v.found.Some? ==> v.found.value.id in w.rows && w.rows[v.found.value.id] == v.found.value.row
  {
    hide Preimage, RowInv, ValidRequest, WritesWell, MovesWell;
    assert ValidRequest(w.runs[r].wallet, w.runs[r].req);
    FoundIsOurs(w, w.runs[r]);
  }

  /** A run that finds a failed row, or keeps its row, has the row's facts after its step. */
  lemma PcAfterMove(w: World, w': World, run: Run, v: View, e: Effect)
    requires PcGood(w, run) && MovesWell(run, v, e) && RowsGrow(w, w') && RowsGood(w.rows, w.asked, w.everFailed)
    requires v.found.Some? ==>
               RowOfRun(w, v.found.value.id, run) && w.rows[v.found.value.id] == v.found.value.row
    requires e.write.InsertRow? ==> RowOfRun(w', e.write.id, e.run)
    requires e.write.UpdateRow? ==>
               && PcRow(run.pc) == Some(e.write.id) && e.write.id in w.rows
               && w'.rows[e.write.id] == Merge(w.rows[e.write.id], e.write.update)
    ensures PcGood(w', e.run)
  {
    hide Preimage, Carries;
  }

  lemma PcAfterRun(w: World, r: RunId, v: View, e: Effect)
    requires Acts(w, r, v, e) && RowsGrow(w, ApplyRun(w, r, e))
    ensures PcGood(ApplyRun(w, r, e), e.run)
  {
    hide Preimage, KeyInv, PollGood, EventGood, OutcomeGood;
    assert PcGood(w, w.runs[r]);
    FoundRowIsOurs(w, r, v, e);
    hide NoncesAfter, FateAfter, FindByKey, RowInv, MovesWell, PcGood, TablesGrow;
    PcAfterMove(w, ApplyRun(w, r, e), w.runs[r], v, e);
  }

  lemma OutcomeAfterRun(w: World, r: RunId, v: View, e: Effect)
    requires Acts(w, r, v, e) && RowsGrow(w, ApplyRun(w, r, e))
    ensures OutcomeGood(ApplyRun(w, r, e), e.run)
  {
    hide Preimage, KeyInv, PollGood, EventGood;
    assert PcGood(w, w.runs[r]) && OutcomeGood(w, w.runs[r]);
    FoundRowIsOurs(w, r, v, e);
    hide WritesWell;
  }

  lemma OthersAfterRun(w: World, r: RunId, v: View, e: Effect)
    requires Acts(w, r, v, e) && RowsGrow(w, ApplyRun(w, r, e))
    ensures var w' := ApplyRun(w, r, e);
            && (forall q :: q in w'.runs && q != r ==> PcGood(w', w'.runs[q]) && OutcomeGood(w', w'.runs[q]))
            && (forall p :: p in w'.polls ==> PollGood(w', w'.polls[p]))
            && (forall i :: 0 <= i < |w'.sent| ==> EventGood(w', w'.sent[i]))
  {
    hide Key, Indexed, OutcomeGood, PollGood, MovesWell;
    var w' := ApplyRun(w, r, e);
    EntitiesSurvive(w, w');
    forall i | 0 <= i < |w'.sent|
      ensures EventGood(w', w'.sent[i])
    {
      if i < |w.sent| {
        assert EventGood(w, w.sent[i]);
      } else {
        assert PcGood(w, w.runs[r]);
      }
    }
  }

  lemma EffectKeepsRows(w: World, r: RunId, v: View, e: Effect)
    requires Acts(w, r, v, e)
    ensures RowInv(ApplyRun(w, r, e))
  {
    TableAfterRun(w, r, v, e);
    PcAfterRun(w, r, v, e);
    OutcomeAfterRun(w, r, v, e);
    OthersAfterRun(w, r, v, e);
    hide Acts, Key, PcGood, OutcomeGood, PollGood, EventGood, RowsGood, RowsGrow;
  }

  lemma RunStepKeepsRows(w: World, r: RunId, act: RunAction)
    requires KeyInv(w) && RowInv(w) && RunAt(w, r, act)
    ensures RowInv(Next(w, Do(r, act)))
  {
    hide KeyInv, Key, RowInv, WritesWell, MovesWell, RunEffect, ApplyRun, FindByKey;
    var v := ViewOf(w, w.runs[r], act);
    var e := RunEffect(w.runs[r], v, act);
    ActionWritesWell(w.runs[r], v, act);
    ActionMovesWell(w.runs[r], v, act);
    ActionKeepsRequest(w.runs[r], v, act);
    EffectKeepsRows(w, r, v, e);
  }

  // -------------------------------------------------------------------------
  // Steps of a poll
  // -------------------------------------------------------------------------

  /** What a poll may know about the row it is working on. */
  predicate WorkGood(pc: PollPc) {
    !pc.Idle? ==>
      && (pc.AtBumpSign? || pc.AtBumpSend? ==> Replaces(pc.tx, pc.row))
      && (pc.AtWrite? ==> pc.update.payload.None? && pc.update.status != Some(Signed))
  }

  /** A poll works on one of the rows it read, writes and sends only for that row, and never
      writes a payload. */
  ghost predicate PollsWell(poller: Poller, e: MonitorEffect) {
    var pc, pc' := poller.pc, e.poller.pc;
    && (forall id :: id in e.poller.todo ==> id in poller.todo && e.poller.todo[id] == poller.todo[id])
    && WorkGood(pc')
    && (!pc'.Idle? ==> if pc.Idle? then pc'.id in poller.todo && pc'.row == poller.todo[pc'.id]
        else pc'.id == pc.id && pc'.row == pc.row)
    && (e.write.Some? ==> pc.AtWrite? && e.write.value.id == pc.id && e.write.value.update == pc.update)
    && (e.send.Some? ==> pc.AtBumpSend? && e.send.value == PollSend(pc.id, pc.row, pc.tx, pc.hash))
  }

  lemma MonitorWellShaped(config: Config, poller: Poller, act: PollAction)
    requires PollFits(poller, act) && WorkGood(poller.pc)
    ensures PollsWell(poller, PollEffect(config, poller, act))
  {
    hide BumpQuote;
    match act
    case _ =>
  }

  lemma TableAfterPoll(w: World, p: PollId, e: MonitorEffect)
    requires RowInv(w) && p in w.polls && PollsWell(w.polls[p], e)
    ensures var w' := ApplyPoll(w, p, e);
            RowsGood(w'.rows, w'.asked, w'.everFailed) && RowsGrow(w, w')
  {
    hide PcGood, OutcomeGood, EventGood, RowsGood, TablesGrow;
    assert PollGood(w, w.polls[p]);
    if e.write.Some? && e.write.value.id in w.rows {
      MergeGrows(w.rows[e.write.value.id], e.write.value.update);
      UpdateGood(w.rows, w.asked, w.everFailed, e.write.value.id, e.write.value.update);
    } else {
      NothingGood(w.rows, w.asked, w.everFailed);
    }
  }

  lemma EntitiesAfterPoll(w: World, p: PollId, e: MonitorEffect)
    requires RowInv(w) && p in w.polls && PollsWell(w.polls[p], e) && RowsGrow(w, ApplyPoll(w, p, e))
    ensures var w' := ApplyPoll(w, p, e);
            && (forall r :: r in w'.runs ==> PcGood(w', w'.runs[r]) && OutcomeGood(w', w'.runs[r]))
            && (forall q :: q in w'.polls ==> PollGood(w', w'.polls[q]))
            && (forall i :: 0 <= i < |w'.sent| ==> EventGood(w', w'.sent[i]))
  {
    hide PcGood, OutcomeGood, RowsGood, RowsGrow;
    var w' := ApplyPoll(w, p, e);
    assert PollGood(w, w.polls[p]);
    EntitiesSurvive(w, w');
    assert PollGood(w, e.poller);
    forall i | 0 <= i < |w'.sent|
      ensures EventGood(w', w'.sent[i])
    {
      if i < |w.sent| {
        assert EventGood(w, w.sent[i]);
      } else {
        assert EventGood(w, w'.sent[i]);
      }
    }
  }

  lemma PollStepKeepsRows(w: World, p: PollId, act: PollAction)
    requires RowInv(w) && PollAt(w, p, act)
    ensures RowInv(Next(w, Monitor(p, act)))
  {
    hide PcGood, OutcomeGood, EventGood, RowsGood, RowsGrow, PollsWell;
    var e := PollEffect(w.config, w.polls[p], act);
    assert PollGood(w, w.polls[p]);
    MonitorWellShaped(w.config, w.polls[p], act);
    TableAfterPoll(w, p, e);
    EntitiesAfterPoll(w, p, e);
  }

  /** What findBroadcasted reads is complete and carries its request. */
  lemma SnapshotGood(w: World)
    requires KeyInv(w) && RowInv(w)
    ensures PollGood(w, Poller(FindBroadcasted(w.rows), Idle))
  {
    hide PcGood, OutcomeGood, EventGood, Indexed;
    ChainsAgree(w);
    forall id | id in FindBroadcasted(w.rows)
      ensures SnapGood(w, id, w.rows[id])
    {
      assert RowGood(w.rows[id], w.asked[id], id in w.everFailed);
    }
  }

  /** A step that leaves the row table alone keeps what every entity relies on. */
  lemma SameTables(w: World, w': World)
    requires RowInv(w) && w'.rows == w.rows && w'.asked == w.asked && w'.everFailed == w.everFailed
    ensures forall run :: PcGood(w, run) ==> PcGood(w', run)
    ensures forall run :: OutcomeGood(w, run) ==> OutcomeGood(w', run)
    ensures forall poller :: PollGood(w, poller) ==> PollGood(w', poller)
    ensures forall e :: EventGood(w, e) ==> EventGood(w', e)
  {
    hide PcGood, OutcomeGood, EventGood, PollGood;
    NothingGood(w.rows, w.asked, w.everFailed);
    EntitiesSurvive(w, w');
  }

  lemma RowStep(w: World, s: Step)
    requires KeyInv(w) && RowInv(w)
    ensures RowInv(Next(w, s))
  {
    hide KeyInv, RowInv;
    match s
    case Do(r, act) =>
      if RunAt(w, r, act) {
        RunStepKeepsRows(w, r, act);
      }
    case Monitor(p, act) =>
      if PollAt(w, p, act) {
        PollStepKeepsRows(w, p, act);
      }
    case _ => FrameKeepsRows(w, s);
  }

  /** Tables and log are as before, and so are the runs, but for one new one at its start. */
  predicate Framed(w: World, w': World, r: RunId, run: Run) {
    && w'.rows == w.rows && w'.asked == w.asked && w'.everFailed == w.everFailed && w'.sent == w.sent
    && (w'.runs == w.runs || (w'.runs == w.runs[r := run] && run.pc.AtLookup? && run.claimed.None?))
  }

  lemma FramedKeepsRows(w: World, w': World, r: RunId, run: Run)
    requires RowInv(w) && Framed(w, w', r, run) && forall p :: p in w'.polls ==> PollGood(w, w'.polls[p])
    ensures RowInv(w')
  {
    SameTables(w, w');
    if run.pc.AtLookup? && run.claimed.None? {
      FreshRunGood(w', run);
    }
    hide PcGood, OutcomeGood, EventGood, PollGood, RowsGood;
  }

  lemma PollsGood(w: World, polls: map<PollId, Poller>, p: PollId)
    requires KeyInv(w) && RowInv(w)
    requires polls == w.polls || polls == w.polls - {p} || polls == w.polls[p := Poller(FindBroadcasted(w.rows), Idle)]
    ensures forall q :: q in polls ==> PollGood(w, polls[q])
  {
    SnapshotGood(w);
    hide PcGood, OutcomeGood, EventGood, PollGood, RowsGood, KeyInv, FindBroadcasted;
  }

  /** A new run, a synced counter, the start or the end of a poll. */
  lemma FrameKeepsRows(w: World, s: Step)
    requires KeyInv(w) && RowInv(w) && !s.Do? && !s.Monitor?
    ensures RowInv(Next(w, s))
  {
    hide KeyInv, RowInv, PollGood, Next, Framed, OnlyPolls, FindBroadcasted;
    match s
    case Begin(r, wallet, req) =>
      BeginFrames(w, r, wallet, req);
      PollsGood(w, Next(w, s).polls, 0);
      FramedKeepsRows(w, Next(w, s), r, Run(wallet, req, AtLookup, FeeQuote(0, 0, 0), None));
    case StartPoll(p) =>
      StartShape(w, p);
      SameButPolls(w, Next(w, s), p);
    case EndPoll(p) =>
      EndShape(w, p);
      SameButPolls(w, Next(w, s), p);
    case Sync(slot, n) =>
      SyncShape(w, slot, n);
      SameButPolls(w, Next(w, s), 0);
  }

  /** What a step of the polls' frame, or a sync, leaves alone. */
  predicate OnlyPolls(w: World, w': World) {
    && w'.rows == w.rows && w'.asked == w.asked && w'.everFailed == w.everFailed && w'.sent == w.sent
    && w'.runs == w.runs
  }

  lemma StartShape(w: World, p: PollId)
    ensures var w' := Next(w, StartPoll(p));
            OnlyPolls(w, w')
                && (w'.polls == w.polls || w'.polls == w.polls[p := Poller(FindBroadcasted(w.rows), Idle)])
  {
    hide FindBroadcasted, RunEffect, PollEffect, ViewOf, ApplyRun, ApplyPoll, RunAt, PollAt, IsFinished;
  }

  lemma EndShape(w: World, p: PollId)
    ensures var w' := Next(w, EndPoll(p));
            OnlyPolls(w, w') && (w'.polls == w.polls || w'.polls == w.polls - {p})
  {
    hide FindBroadcasted, RunEffect, PollEffect, ViewOf, ApplyRun, ApplyPoll, RunAt, PollAt, IsFinished;
  }

  lemma SyncShape(w: World, slot: Slot, n: nat)
    ensures OnlyPolls(w, Next(w, Sync(slot, n))) && Next(w, Sync(slot, n)).polls == w.polls
  {
    hide FindBroadcasted, RunEffect, PollEffect, ViewOf, ApplyRun, ApplyPoll, RunAt, PollAt, IsFinished;
    hide SkippedNonces;
  }

  lemma SameButPolls(w: World, w': World, p: PollId)
    requires KeyInv(w) && RowInv(w) && OnlyPolls(w, w')
    requires w'.polls == w.polls || w'.polls == w.polls - {p}
               || w'.polls == w.polls[p := Poller(FindBroadcasted(w.rows), Idle)]
    ensures RowInv(w')
  {
    PollsGood(w, w'.polls, p);
    FramedKeepsRows(w, w', 0, Run("", SignRequest(0, "", "", ""), AtLookup, FeeQuote(0, 0, 0), None));
    hide KeyInv, RowInv, PollGood;
  }

  lemma BeginFrames(w: World, r: RunId, wallet: string, req: SignRequest)
    ensures Framed(w, Next(w, Begin(r, wallet, req)), r, Run(wallet, req, AtLookup, FeeQuote(0, 0, 0), None))
    ensures Next(w, Begin(r, wallet, req)).polls == w.polls
  {
    hide DtoValid, WalletIdValid;
  }

  lemma FreshRunGood(w: World, run: Run)
    requires run.pc.AtLookup? && run.claimed.None?
    ensures PcGood(w, run) && OutcomeGood(w, run)
  {
  }

  lemma {:induction false} RowRuns(w: World, steps: seq<Step>)
    requires KeyInv(w) && RowInv(w)
    ensures KeyInv(Exec(w, steps)) && RowInv(Exec(w, steps))
    decreases |steps|
  {
    hide KeyInv, RowInv, Next;
    if steps != [] {
      KeyStep(w, steps[0]);
      RowStep(w, steps[0]);
      RowRuns(Next(w, steps[0]), steps[1..]);
    }
  }

  lemma InitRows(config: Config)
    ensures KeyInv(Init(config)) && RowInv(Init(config))
  {
  }

  /** No step removes a row. */
  lemma RowsStay(w: World, s: Step)
    ensures w.rows.Keys <= Next(w, s).rows.Keys
  {
    hide RunEffect, PollEffect, DtoValid, WalletIdValid, NoncesAfter, FateAfter, FailedAfter, Bumped, Merge, NewRow;
  }

  lemma {:induction false} RowsStayIn(w: World, steps: seq<Step>)
    ensures w.rows.Keys <= Exec(w, steps).rows.Keys
    decreases |steps|
  {
    hide Next;
    if steps != [] {
      RowsStay(w, steps[0]);
      RowsStayIn(Next(w, steps[0]), steps[1..]);
    }
  }
}
