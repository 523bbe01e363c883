/** The idempotency key and its unique index: a row and the runs with its key stand for one
    and the same request. */
module KeySafety {
  import opened Requests
  import opened Lifecycle

  predicate ValidRequest(wallet: string, req: SignRequest) {
    WalletIdValid(wallet) && DtoValid(req)
  }

  /** The row was created for this request. */
  predicate CreatedFor(row: Row, req: SignRequest) {
    row.chain == req.chainId && row.key == Preimage(row.wallet, req) && ValidRequest(row.wallet, req)
  }

  /** The index lists exactly the rows, each under its key. */
  ghost predicate Indexed(rows: map<RowId, Row>, index: map<string, RowId>, asked: map<RowId, SignRequest>) {
    && (forall key :: key in index ==> index[key] in rows && rows[index[key]].key == key)
    && (forall id :: id in rows ==> rows[id].key in index && index[rows[id].key] == id)
    && asked.Keys == rows.Keys
    && (forall id :: id in rows ==> CreatedFor(rows[id], asked[id]))
  }

  ghost predicate KeyInv(w: World) {
    && Indexed(w.rows, w.index, w.asked)
    && (forall r :: r in w.runs ==> ValidRequest(w.runs[r].wallet, w.runs[r].req))
  }

  /** A row found by a run's key was created for exactly the run's wallet and request. */
  lemma FoundIsOurs(w: World, run: Run)
    requires KeyInv(w) && ValidRequest(run.wallet, run.req)
    ensures FindByKey(w, Key(run)).Some? <==> Key(run) in w.index
    ensures FindByKey(w, Key(run)).Some? ==>
              var f := FindByKey(w, Key(run)).value;
              && f.id in w.rows && w.rows[f.id] == f.row && f.row.key == Key(run)
              && f.row.wallet == run.wallet && f.row.chain == run.req.chainId && w.asked[f.id] == run.req
  {
    if Key(run) in w.index {
      var id := w.index[Key(run)];
      PreimageInjective(run.wallet, run.req, w.rows[id].wallet, w.asked[id]);
    }
  }

  lemma ChainsAgree(w: World)
    requires KeyInv(w)
    ensures forall id :: id in w.rows ==> w.rows[id].chain == w.asked[id].chainId
  {
    hide Preimage, ValidRequest;
    assert forall id :: id in w.rows ==> CreatedFor(w.rows[id], w.asked[id]);
  }

  lemma ActionKeepsRequest(run: Run, v: View, act: RunAction)
    requires PcFits(run.pc, act)
    ensures var e := RunEffect(run, v, act);
            && e.run.wallet == run.wallet && e.run.req == run.req
            && (e.write.InsertRow? ==> act == Insert(e.write.id) && !v.conflict)
  {
    match act
    case _ =>
  }

  lemma UpdateKeepsIndex(rows: map<RowId, Row>, index: map<string, RowId>, asked: map<RowId, SignRequest>, id: RowId,
                         u: RowUpdate)
    requires Indexed(rows, index, asked) && id in rows
    ensures Indexed(rows[id := Merge(rows[id], u)], index, asked)
  {
    hide Preimage, ValidRequest;
    assert CreatedFor(Merge(rows[id], u), asked[id]);
  }

  lemma InsertKeepsIndex(rows: map<RowId, Row>, index: map<string, RowId>, asked: map<RowId, SignRequest>, id: RowId,
                         run: Run)
    requires Indexed(rows, index, asked) && id !in rows && Key(run) !in index && ValidRequest(run.wallet, run.req)
    ensures Indexed(rows[id := NewRow(run)], index[Key(run) := id], asked[id := run.req])
  {
    hide Preimage, ValidRequest;
    assert CreatedFor(NewRow(run), run.req);
  }

  lemma EffectKeepsKeys(w: World, r: RunId, e: Effect)
    requires KeyInv(w) && r in w.runs
    requires e.nonce.GiveBack? || e.nonce.HandOver? || e.nonce.WalkAway? ==> Holds(w.runs[r].pc)
    requires e.run.wallet == w.runs[r].wallet && e.run.req == w.runs[r].req
    requires e.write.InsertRow? ==> Key(w.runs[r]) !in w.index && e.write.id !in w.rows
    ensures KeyInv(ApplyRun(w, r, e))
  {
    hide Indexed, Key, ValidRequest;
    match e.write
    case NoWrite =>
    case InsertRow(id) => InsertKeepsIndex(w.rows, w.index, w.asked, id, w.runs[r]);
    case UpdateRow(id, u) =>
      if id in w.rows {
        UpdateKeepsIndex(w.rows, w.index, w.asked, id, u);
      }
  }

  lemma PollKeepsKeys(w: World, p: PollId, e: MonitorEffect)
    requires KeyInv(w)
    ensures KeyInv(ApplyPoll(w, p, e))
  {
    hide Indexed, ValidRequest;
    if e.write.Some? && e.write.value.id in w.rows {
      UpdateKeepsIndex(w.rows, w.index, w.asked, e.write.value.id, e.write.value.update);
    }
  }

  lemma KeyStep(w: World, s: Step)
    requires KeyInv(w)
    ensures KeyInv(Next(w, s))
  {
    hide Indexed, Key;
    match s
    case Do(r, act) =>
      if RunAt(w, r, act) {
        var v := ViewOf(w, w.runs[r], act);
        ActionKeepsRequest(w.runs[r], v, act);
        EffectKeepsKeys(w, r, RunEffect(w.runs[r], v, act));
      }
    case Monitor(p, act) =>
      if PollAt(w, p, act) {
        PollKeepsKeys(w, p, PollEffect(w.config, w.polls[p], act));
      }
    case _ =>
  }
}
