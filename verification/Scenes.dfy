/** Interleavings seen on a scene: what the tables and the log of sends show while all requests
    share one key. Each lemma moves a reachable scene by one step and says which of assumptions
    A and B the step keeps. */
module Scenes {
  import opened Base
  import opened Requests
  import opened Fees
  import opened Lifecycle
  import opened KeySafety
  import opened Ownership

  /** The tables while all requests so far share one key and row 0. */
  datatype Scene = Scene(runs: map<RunId, Run>, row: Row, polls: map<PollId, Poller>, sent: seq<Sent>)

  predicate Shows(w: World, c: Scene) {
    w.runs == c.runs && w.rows == map[0 := c.row] && w.index == map[c.row.key := 0] && w.polls == c.polls
        && w.sent == c.sent
  }

  function AfterRun(c: Scene, r: RunId, e: Effect): Scene
    requires r in c.runs && (e.nonce.HandOver? ==> Holds(c.runs[r].pc))
  {
    Scene(c.runs[r := e.run], if e.write.UpdateRow? then Merge(c.row, e.write.update) else c.row, c.polls,
          if e.nonce.HandOver? then c.sent + [HandedOver(r, c.runs[r])] else c.sent)
  }

  function AfterPoll(c: Scene, p: PollId, e: MonitorEffect): Scene {
    Scene(c.runs, if e.write.Some? then Merge(c.row, e.write.value.update) else c.row, c.polls[p := e.poller],
          if e.send.Some? then c.sent + [Resent(p, e.send.value)] else c.sent)
  }

  function Initial(wallet: string, req: SignRequest): Run {
    Run(wallet, req, AtLookup, FeeQuote(0, 0, 0), None)
  }

  /** One action of run `r`, seen on the scene. */
  lemma RunMoves(w: World, c: Scene, r: RunId, act: RunAction, e: Effect)
    requires Shows(w, c) && r in c.runs && PcFits(c.runs[r].pc, act) && Key(c.runs[r]) == c.row.key
    requires e == RunEffect(c.runs[r], View(Some(Found(0, c.row)), act.Insert?, Counter(w, SlotOf(c.runs[r]))), act)
    requires e.write.NoWrite? || (e.write.UpdateRow? && e.write.id == 0)
    ensures Shows(Next(w, Do(r, act)), AfterRun(c, r, e))
  {
    hide Key, RunEffect;
    assert map[0 := c.row][0 := Merge(c.row, if e.write.UpdateRow? then e.write.update else NoChange)]
           == map[0 := Merge(c.row, if e.write.UpdateRow? then e.write.update else NoChange)];
    assert FindByKey(w, Key(c.runs[r])) == Some(Found(0, c.row));
  }

  /** One action of poll `p`, seen on the scene. */
  lemma PollMoves(w: World, c: Scene, p: PollId, act: PollAction, e: MonitorEffect)
    requires Shows(w, c) && p in c.polls && PollFits(c.polls[p], act) && e == PollEffect(w.config, c.polls[p], act)
    requires e.write.Some? ==> e.write.value.id == 0
    ensures Shows(Next(w, Monitor(p, act)), AfterPoll(c, p, e))
  {
    hide PollEffect;
    assert map[0 := c.row][0 := Merge(c.row, if e.write.Some? then e.write.value.update else NoChange)]
           == map[0 := Merge(c.row, if e.write.Some? then e.write.value.update else NoChange)];
  }

  /** A run started on the scene. */
  lemma RunBegins(w: World, c: Scene, r: RunId, wallet: string, req: SignRequest)
    requires Shows(w, c) && r !in c.runs && ValidRequest(wallet, req)
    ensures Shows(Next(w, Begin(r, wallet, req)), c.(runs := c.runs[r := Initial(wallet, req)]))
  {
    hide WalletIdValid, DtoValid;
  }

  lemma PollBegins(w: World, c: Scene, p: PollId)
    requires Shows(w, c) && p !in c.polls && c.row.status == Broadcasted
    ensures Shows(Next(w, StartPoll(p)), c.(polls := c.polls[p := Poller(map[0 := c.row], Idle)]))
  {
    assert FindBroadcasted(w.rows) == map[0 := c.row];
  }

  lemma PollEnds(w: World, c: Scene, p: PollId)
    requires Shows(w, c) && p in c.polls && IsFinished(c.polls[p])
    ensures Shows(Next(w, EndPoll(p)), c.(polls := c.polls - {p}))
  {
    hide FindBroadcasted, RunEffect, PollEffect, ViewOf, ApplyRun, ApplyPoll, RunAt, PollAt;
  }

  // -------------------------------------------------------------------------
  // Keeping to one of the assumptions
  // -------------------------------------------------------------------------

  predicate NoReset(w: World) {
    forall r :: r in w.runs ==> !w.runs[r].pc.AtReset?
  }

  /** So far assumption A has been kept, and no run is about to reset. */
  ghost predicate Calm(config: Config, steps: seq<Step>) {
    ResetsAtomic(Init(config), steps) && NoReset(Exec(Init(config), steps))
  }

  /** A step after which nobody is newly about to reset. */
  predicate Quiet(s: Step) {
    !(s.Do? && s.act.FindRaced?)
  }

  lemma OnlyFindingResets(w: World, s: Step)
    requires NoReset(w)
    ensures Quiet(s) ==> NoReset(Next(w, s))
    ensures forall q :: q in Next(w, s).runs && Next(w, s).runs[q].pc.AtReset? ==> s == Do(q, FindRaced)
  {
    if s.Do? && RunAt(w, s.r, s.act) {
      OnlyFindRacedResets(w.runs[s.r], ViewOf(w, w.runs[s.r], s.act), s.act);
    }
    hide RunEffect, PollEffect, DtoValid, WalletIdValid, SkippedNonces, FindBroadcasted;
  }

  lemma {:induction false} AtomicSnoc(w: World, steps: seq<Step>, s: Step)
    requires ResetsAtomic(w, steps) && ResetAtomic(Exec(w, steps), s)
    ensures ResetsAtomic(w, steps + [s])
    decreases |steps|
  {
    hide Next, ResetAtomic;
    if steps == [] {
      assert (steps + [s])[1..] == [];
    } else {
      AtomicSnoc(Next(w, steps[0]), steps[1..], s);
      assert (steps + [s])[1..] == steps[1..] + [s];
    }
  }

  lemma CalmThen(config: Config, steps: seq<Step>, s: Step)
    requires Calm(config, steps) && Quiet(s)
    ensures Calm(config, steps + [s])
  {
    hide Next;
    AtomicSnoc(Init(config), steps, s);
    OnlyFindingResets(Exec(Init(config), steps), s);
    ExecSnoc(Init(config), steps, s);
  }

  /** Finding the failed row and resetting it at once keeps assumption A. */
  lemma CalmReset(config: Config, steps: seq<Step>, r: RunId)
    requires Calm(config, steps)
    ensures Calm(config, steps + [Do(r, FindRaced)] + [Do(r, Reset)])
  {
    var w := Exec(Init(config), steps);
    var found := steps + [Do(r, FindRaced)];
    AtomicSnoc(Init(config), steps, Do(r, FindRaced));
    OnlyFindingResets(w, Do(r, FindRaced));
    ExecSnoc(Init(config), steps, Do(r, FindRaced));
    AtomicSnoc(Init(config), found, Do(r, Reset));
    ResetLeaves(Exec(Init(config), found), r);
    ExecSnoc(Init(config), found, Do(r, Reset));
  }

  lemma ResetLeaves(w: World, r: RunId)
    requires forall q :: q in w.runs && w.runs[q].pc.AtReset? ==> q == r
    ensures NoReset(Next(w, Do(r, Reset)))
  {
    if RunAt(w, r, Reset) {
      OnlyFindRacedResets(w.runs[r], ViewOf(w, w.runs[r], Reset), Reset);
    }
    hide RunEffect;
  }

  lemma InitCalm(config: Config)
    ensures Calm(config, []) && Lone(config, [])
  {
  }

  /** So far assumption B has been kept. */
  ghost predicate Lone(config: Config, steps: seq<Step>) {
    PollsAlone(Init(config), steps)
  }

  lemma {:induction false} AloneSnoc(w: World, steps: seq<Step>, s: Step)
    requires PollsAlone(w, steps) && PollAlone(Exec(w, steps), s)
    ensures PollsAlone(w, steps + [s])
    decreases |steps|
  {
    hide Next, PollAlone;
    if steps == [] {
      assert (steps + [s])[1..] == [];
    } else {
      AloneSnoc(Next(w, steps[0]), steps[1..], s);
      assert (steps + [s])[1..] == steps[1..] + [s];
    }
  }

  /** What a step other than a poll's start keeps. */
  lemma Keeps(config: Config, steps: seq<Step>, s: Step)
    ensures Calm(config, steps) && Quiet(s) ==> Calm(config, steps + [s])
    ensures Lone(config, steps) && !s.StartPoll? ==> Lone(config, steps + [s])
  {
    hide Calm, Next;
    if Calm(config, steps) && Quiet(s) {
      CalmThen(config, steps, s);
    }
    if Lone(config, steps) && !s.StartPoll? {
      AloneSnoc(Init(config), steps, s);
    }
  }

  // -------------------------------------------------------------------------
  // Moving the scene
  // -------------------------------------------------------------------------

  ghost predicate Reaches(config: Config, steps: seq<Step>, c: Scene) {
    Shows(Exec(Init(config), steps), c)
  }

  lemma Act(config: Config, steps: seq<Step>, c: Scene, r: RunId, act: RunAction, e: Effect)
    returns (steps': seq<Step>, c': Scene)
    requires Reaches(config, steps, c) && r in c.runs && PcFits(c.runs[r].pc, act) && Key(c.runs[r]) == c.row.key
               && !act.Reserve?
    requires e == RunEffect(c.runs[r], View(Some(Found(0, c.row)), act.Insert?, 0), act)
    requires e.write.NoWrite? || (e.write.UpdateRow? && e.write.id == 0)
    ensures steps' == steps + [Do(r, act)] && Reaches(config, steps', c') && c' == AfterRun(c, r, e)
    ensures Calm(config, steps) && !act.FindRaced? ==> Calm(config, steps')
    ensures Lone(config, steps) ==> Lone(config, steps')
  {
    hide Calm, Lone, Exec, RunEffect, Key;
    Keeps(config, steps, Do(r, act));
    steps' := steps + [Do(r, act)];
    c' := AfterRun(c, r, e);
    var w := Exec(Init(config), steps);
    CounterUnread(c.runs[r], View(Some(Found(0, c.row)), act.Insert?, 0), Counter(w, SlotOf(c.runs[r])), act);
    Moved(config, steps, c, r, act, e);
  }

  lemma {:induction false} Moved(config: Config, steps: seq<Step>, c: Scene, r: RunId, act: RunAction, e: Effect)
    requires Reaches(config, steps, c) && r in c.runs && PcFits(c.runs[r].pc, act) && Key(c.runs[r]) == c.row.key
    requires e == RunEffect(c.runs[r],
                            View(Some(Found(0, c.row)), act.Insert?,
                                 Counter(Exec(Init(config), steps), SlotOf(c.runs[r]))), act)
    requires e.write.NoWrite? || (e.write.UpdateRow? && e.write.id == 0)
    ensures Reaches(config, steps + [Do(r, act)], AfterRun(c, r, e))
  {
    hide RunEffect, Key, Exec, Next;
    RunMoves(Exec(Init(config), steps), c, r, act, e);
    ExecSnoc(Init(config), steps, Do(r, act));
  }

  /** Only Reserve looks at the counter. */
  lemma CounterUnread(run: Run, v: View, counter: nat, act: RunAction)
    requires PcFits(run.pc, act) && !act.Reserve?
    ensures RunEffect(run, v.(counter := counter), act) == RunEffect(run, v, act)
  {
    hide Key;
    match act
    case _ =>
  }

  lemma ActReserve(config: Config, steps: seq<Step>, c: Scene, r: RunId) returns (steps': seq<Step>, n: nat)
    requires Reaches(config, steps, c) && r in c.runs && c.runs[r].pc == AtReserve(0) && Key(c.runs[r]) == c.row.key
    ensures steps' == steps + [Do(r, Reserve)] && n == Counter(Exec(Init(config), steps), SlotOf(c.runs[r]))
    ensures Reaches(config, steps', c.(runs := c.runs[r := c.runs[r].(pc := AtStorePayload(0, n))]))
    ensures Calm(config, steps) ==> Calm(config, steps')
    ensures Lone(config, steps) ==> Lone(config, steps')
  {
    hide Key, Exec, Next, Calm, Lone;
    Keeps(config, steps, Do(r, Reserve));
    n := Counter(Exec(Init(config), steps), SlotOf(c.runs[r]));
    steps' := steps + [Do(r, Reserve)];
    Moved(config, steps, c, r, Reserve, Effect(c.runs[r].(pc := AtStorePayload(0, n)), Take, NoWrite));
  }

  lemma ActPoll(config: Config, steps: seq<Step>, c: Scene, p: PollId, act: PollAction, e: MonitorEffect)
    returns (steps': seq<Step>, c': Scene)
    requires Reaches(config, steps, c) && p in c.polls && PollFits(c.polls[p], act)
               && e == PollEffect(config, c.polls[p], act)
    requires e.write.Some? ==> e.write.value.id == 0
    ensures steps' == steps + [Monitor(p, act)] && Reaches(config, steps', c') && c' == AfterPoll(c, p, e)
    ensures Calm(config, steps) ==> Calm(config, steps')
    ensures Lone(config, steps) ==> Lone(config, steps')
  {
    hide PollEffect, Exec, Next, Calm, Lone;
    Keeps(config, steps, Monitor(p, act));
    ConfigFixed(Init(config), steps);
    steps' := steps + [Monitor(p, act)];
    c' := AfterPoll(c, p, e);
    PollMoves(Exec(Init(config), steps), c, p, act, e);
    ExecSnoc(Init(config), steps, Monitor(p, act));
  }

  lemma PollStarted(config: Config, steps: seq<Step>, c: Scene, p: PollId)
    requires Reaches(config, steps, c) && p !in c.polls && c.row.status == Broadcasted
    ensures Reaches(config, steps + [StartPoll(p)], c.(polls := c.polls[p := Poller(map[0 := c.row], Idle)]))
    ensures Calm(config, steps) ==> Calm(config, steps + [StartPoll(p)])
    ensures Lone(config, steps) && c.polls == map[] ==> Lone(config, steps + [StartPoll(p)])
  {
    hide Exec, Next, Calm;
    Keeps(config, steps, StartPoll(p));
    if Lone(config, steps) && c.polls == map[] {
      AloneSnoc(Init(config), steps, StartPoll(p));
    }
    PollBegins(Exec(Init(config), steps), c, p);
    ExecSnoc(Init(config), steps, StartPoll(p));
  }

  lemma PollEnded(config: Config, steps: seq<Step>, c: Scene, p: PollId)
    requires Reaches(config, steps, c) && p in c.polls && IsFinished(c.polls[p])
    ensures Reaches(config, steps + [EndPoll(p)], c.(polls := c.polls - {p}))
    ensures Calm(config, steps) ==> Calm(config, steps + [EndPoll(p)])
    ensures Lone(config, steps) ==> Lone(config, steps + [EndPoll(p)])
  {
    hide Exec, Next, Calm, Lone;
    Keeps(config, steps, EndPoll(p));
    PollEnds(Exec(Init(config), steps), c, p);
    ExecSnoc(Init(config), steps, EndPoll(p));
  }

  lemma Begun(config: Config, before: seq<Step>, c: Scene, r: RunId, wallet: string, req: SignRequest)
    requires Reaches(config, before, c) && r !in c.runs && ValidRequest(wallet, req)
    ensures Reaches(config, before + [Begin(r, wallet, req)], c.(runs := c.runs[r := Initial(wallet, req)]))
    ensures Calm(config, before) ==> Calm(config, before + [Begin(r, wallet, req)])
    ensures Lone(config, before) ==> Lone(config, before + [Begin(r, wallet, req)])
  {
    hide Exec, Next, ValidRequest, Calm, Lone;
    Keeps(config, before, Begin(r, wallet, req));
    RunBegins(Exec(Init(config), before), c, r, wallet, req);
    ExecSnoc(Init(config), before, Begin(r, wallet, req));
  }

  lemma KeyOf(run: Run, like: Run)
    ensures run.wallet == like.wallet && run.req == like.req ==>
              Key(run) == NewRow(like).key == Preimage(like.wallet, like.req)
  {
  }

  lemma {:induction false} CalmAtomic(config: Config, steps: seq<Step>)
    requires Calm(config, steps)
    ensures ResetsAtomic(Init(config), steps)
  {
  }

  lemma {:induction false} LoneAlone(config: Config, steps: seq<Step>)
    requires Lone(config, steps)
    ensures PollsAlone(Init(config), steps)
  {
  }

  lemma {:induction false} ShownSent(config: Config, steps: seq<Step>, c: Scene)
    requires Reaches(config, steps, c)
    ensures Exec(Init(config), steps).sent == c.sent
  {
  }

  lemma {:induction false} ShownPolls(config: Config, steps: seq<Step>, c: Scene)
    requires Reaches(config, steps, c)
    ensures Exec(Init(config), steps).polls == c.polls
  {
  }

  lemma {:induction false} ShownRuns(config: Config, steps: seq<Step>, c: Scene)
    requires Reaches(config, steps, c)
    ensures Exec(Init(config), steps).runs == c.runs
  {
  }

  lemma {:induction false} ShownRow(config: Config, steps: seq<Step>, c: Scene)
    requires Reaches(config, steps, c)
    ensures 0 in Exec(Init(config), steps).rows && Exec(Init(config), steps).rows[0] == c.row
  {
  }

  // -------------------------------------------------------------------------
  // The first request of all
  // -------------------------------------------------------------------------

  predicate Blank(w: World, run: Run) {
    w.runs == map[0 := run] && w.rows == map[] && w.index == map[] && w.polls == map[] && w.sent == []
  }

  lemma BlankMoves(w: World, run: Run, act: RunAction, run': Run)
    requires Blank(w, run) && PcFits(run.pc, act) && (act.Lookup? || act.Policy? || act.Estimate?)
    requires run' == RunEffect(run, View(None, false, 0), act).run
    ensures Blank(Next(w, Do(0, act)), run')
  {
    hide Key;
    CounterUnread(run, View(None, false, 0), Counter(w, SlotOf(run)), act);
    assert map[0 := run][0 := run'] == map[0 := run'];
  }

  lemma BlankInserts(w: World, run: Run)
    requires Blank(w, run) && run.pc.AtInsert?
    ensures Shows(Next(w, Do(0, Insert(0))),
                  Scene(map[0 := run.(pc := AtReserve(0), claimed := Some(0))], NewRow(run), map[], []))
  {
    hide Key;
    assert map[0 := run][0 := run.(pc := AtReserve(0), claimed := Some(0))]
        == map[0 := run.(pc := AtReserve(0), claimed := Some(0))];
  }

  /** 30 gwei, of which 1 gwei is the tip. */
  const Quote := FeeQuote(21000, 30_000_000_000, 1_000_000_000)

  function Opening(wallet: string, req: SignRequest): seq<Step> {
    [Begin(0, wallet, req)] + [Do(0, Lookup)] + [Do(0, Policy(true))] + [Do(0, Estimate(Some(Quote)))]
        + [Do(0, Insert(0))]
  }

  function Opened(wallet: string, req: SignRequest): Scene {
    Scene(map[0 := Run(wallet, req, AtReserve(0), Quote, Some(0))], NewRow(Initial(wallet, req)), map[], [])
  }

  lemma Opens(config: Config, wallet: string, req: SignRequest)
    requires ValidRequest(wallet, req)
    ensures Reaches(config, Opening(wallet, req), Opened(wallet, req))
  {
    hide WalletIdValid, DtoValid, Key;
    var run := Initial(wallet, req);
    var w0 := Init(config);
    var w1 := Next(w0, Begin(0, wallet, req));
    assert Blank(w1, run);
    OpensFrom(w1, wallet, req);
    OpeningRuns(config, wallet, req);
  }

  lemma OpeningOrderly(config: Config, wallet: string, req: SignRequest)
    ensures Calm(config, Opening(wallet, req)) && Lone(config, Opening(wallet, req))
  {
    hide Calm;
    InitCalm(config);
    var a := [Begin(0, wallet, req)];
    assert [] + a == a;
    Keeps(config, [], Begin(0, wallet, req));
    Keeps(config, a, Do(0, Lookup));
    Keeps(config, a + [Do(0, Lookup)], Do(0, Policy(true)));
    Keeps(config, a + [Do(0, Lookup)] + [Do(0, Policy(true))], Do(0, Estimate(Some(Quote))));
    Keeps(config, a + [Do(0, Lookup)] + [Do(0, Policy(true))] + [Do(0, Estimate(Some(Quote)))], Do(0, Insert(0)));
  }

  lemma OpensFrom(w1: World, wallet: string, req: SignRequest)
    requires Blank(w1, Initial(wallet, req))
    ensures Shows(Next(Next(Next(Next(w1, Do(0, Lookup)), Do(0, Policy(true))), Do(0, Estimate(Some(Quote)))),
                       Do(0, Insert(0))), Opened(wallet, req))
  {
    hide Key, Next;
    var run := Initial(wallet, req);
    BlankMoves(w1, run, Lookup, run.(pc := AtPolicy));
    var w2 := Next(w1, Do(0, Lookup));
    BlankMoves(w2, run.(pc := AtPolicy), Policy(true), run.(pc := AtEstimate));
    var w3 := Next(w2, Do(0, Policy(true)));
    BlankMoves(w3, run.(pc := AtEstimate), Estimate(Some(Quote)), run.(pc := AtInsert, quote := Quote));
    var w4 := Next(w3, Do(0, Estimate(Some(Quote))));
    BlankInserts(w4, run.(pc := AtInsert, quote := Quote));
    SameNewRow(run.(pc := AtInsert, quote := Quote), run);
  }

  lemma SameNewRow(run: Run, like: Run)
    requires run.wallet == like.wallet && run.req == like.req
    ensures NewRow(run) == NewRow(like)
  {
  }

  lemma OpeningRuns(config: Config, wallet: string, req: SignRequest)
    ensures Exec(Init(config), Opening(wallet, req))
            == Next(Next(Next(Next(Next(Init(config), Begin(0, wallet, req)), Do(0, Lookup)), Do(0, Policy(true))),
                         Do(0, Estimate(Some(Quote)))), Do(0, Insert(0)))
  {
    hide Next;
    var a := [Begin(0, wallet, req)];
    ExecSnoc(Init(config), [], Begin(0, wallet, req));
    assert [] + a == a;
    ExecSnoc(Init(config), a, Do(0, Lookup));
    ExecSnoc(Init(config), a + [Do(0, Lookup)], Do(0, Policy(true)));
    ExecSnoc(Init(config), a + [Do(0, Lookup)] + [Do(0, Policy(true))], Do(0, Estimate(Some(Quote))));
    ExecSnoc(Init(config), a + [Do(0, Lookup)] + [Do(0, Policy(true))] + [Do(0, Estimate(Some(Quote)))],
             Do(0, Insert(0)));
  }
}
