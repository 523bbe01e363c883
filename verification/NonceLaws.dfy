/** What the nonce invariant means for every run of the system. */
module NonceLaws {
  import opened Base
  import opened Lifecycle
  import opened NonceSafety

  /** Nonce exclusivity: no two requestSign runs ever hand the RPC transactions with the same
      wallet, chain and nonce. */
  lemma {:induction false} NonceExclusive(config: Config, steps: seq<Step>)
    ensures var sent := Exec(Init(config), steps).sent;
            forall i, j :: 0 <= i < j < |sent| && sent[i].sender.ByRun? && sent[j].sender.ByRun? ==>
              sent[i].slot != sent[j].slot || sent[i].tx.nonce != sent[j].tx.nonce
  {
    InitNonce(config);
    NonceRuns(Init(config), steps);
  }

  // -------------------------------------------------------------------------
  // Conservation
  // -------------------------------------------------------------------------

  ghost predicate HeldNow(w: World, slot: Slot, n: nat) {
    exists r :: r in w.runs && Holds(w.runs[r].pc) && SlotOf(w.runs[r]) == slot && w.runs[r].pc.nonce == n
  }

  ghost predicate SentByRun(w: World, slot: Slot, n: nat) {
    exists i :: 0 <= i < |w.sent| && w.sent[i].sender.ByRun? && w.sent[i].slot == slot && w.sent[i].tx.nonce == n
  }

  predicate IsAbandoned(w: World, slot: Slot, n: nat) {
    (slot, n) in w.fate && w.fate[(slot, n)] == Abandoned
  }

  predicate IsSkipped(w: World, slot: Slot, n: nat) {
    (slot, n) in w.fate && w.fate[(slot, n)] == Skipped
  }

  function Count(b: bool): nat {
    if b then 1 else 0
  }

  /** The numbers below a counter are partitioned into held by a live run, sent to the RPC,
      abandoned and skipped: each is in exactly one class, and no number at or above the
      counter is in any. */
  lemma {:induction false} NonceConservation(config: Config, steps: seq<Step>, slot: Slot, n: nat)
    ensures var w := Exec(Init(config), steps);
            Count(HeldNow(w, slot, n)) + Count(SentByRun(w, slot, n)) + Count(IsAbandoned(w, slot, n))
                + Count(IsSkipped(w, slot, n))
            == Count(n < Counter(w, slot))
  {
    InitNonce(config);
    NonceRuns(Init(config), steps);
    ConservedIn(Exec(Init(config), steps), slot, n);
  }

  lemma ConservedIn(w: World, slot: Slot, n: nat)
    requires NonceInv(w)
    ensures HeldNow(w, slot, n) <==> (slot, n) in w.fate && w.fate[(slot, n)].HeldBy?
    ensures SentByRun(w, slot, n) <==> (slot, n) in w.fate && w.fate[(slot, n)].SentBy?
    ensures (slot, n) in w.fate <==> n < Counter(w, slot)
  {
  }

  // -------------------------------------------------------------------------
  // No number that is settled is ever issued again
  // -------------------------------------------------------------------------

  /** The holder has no signature yet, so it may still give its number back. */
  predicate MayRelease(pc: Pc) {
    pc.AtStorePayload? || pc.AtSign? || pc.AtFailSign? || pc.AtRelease?
  }

  /** Sent, abandoned, skipped, or held by a run that can only send it or walk away. */
  ghost predicate Settled(w: World, slot: Slot, n: nat) {
    && (slot, n) in w.fate
    && (w.fate[(slot, n)].HeldBy? ==> w.fate[(slot, n)].run in w.runs && !MayRelease(w.runs[w.fate[(slot, n)].run].pc))
  }

  lemma SettledStep(w: World, s: Step, slot: Slot, n: nat)
    requires NonceInv(w) && Settled(w, slot, n)
    ensures Settled(Next(w, s), slot, n)
    ensures !w.fate[(slot, n)].HeldBy? ==> Next(w, s).fate[(slot, n)] == w.fate[(slot, n)]
  {
    hide NonceInv, OwnershipMoves, MayRelease, Settled;
    match s
    case Do(r, act) =>
      if RunAt(w, r, act) {
        var v := ViewOf(w, w.runs[r], act);
        SettledAction(w.runs[r], v, act);
        SettledEffect(w, r, RunEffect(w.runs[r], v, act), slot, n);
        hide RunEffect, ApplyRun;
      }
    case Sync(t, m) => SettledSync(w, t, m, slot, n);
    case _ => SettledFrame(w, s, slot, n);
  }

  lemma SettledFrame(w: World, s: Step, slot: Slot, n: nat)
    requires Settled(w, slot, n) && !s.Do? && !s.Sync?
    ensures Settled(Next(w, s), slot, n)
    ensures Next(w, s).fate == w.fate
  {
    hide MayRelease, PollEffect, RunEffect, ViewOf, ApplyRun, IsFinished, Merge, Bumped;
  }

  lemma SettledSync(w: World, t: Slot, m: nat, slot: Slot, n: nat)
    requires NonceInv(w) && Settled(w, slot, n)
    ensures Settled(Next(w, Sync(t, m)), slot, n)
    ensures !w.fate[(slot, n)].HeldBy? ==> Next(w, Sync(t, m)).fate[(slot, n)] == w.fate[(slot, n)]
  {
    hide HoldersMatch, SendsMatch;
    SkippedExactly(t, Counter(w, t), m);
  }

  lemma SettledEffect(w: World, r: RunId, e: Effect, slot: Slot, n: nat)
    requires NonceInv(w) && Settled(w, slot, n)
    requires r in w.runs && OwnershipMoves(w.runs[r], Counter(w, SlotOf(w.runs[r])), e)
    requires e.nonce.GiveBack? ==> MayRelease(w.runs[r].pc)
    requires Holds(w.runs[r].pc) && !MayRelease(w.runs[r].pc) && Holds(e.run.pc) ==> !MayRelease(e.run.pc)
    ensures Settled(ApplyRun(w, r, e), slot, n)
    ensures !w.fate[(slot, n)].HeldBy? ==> ApplyRun(w, r, e).fate[(slot, n)] == w.fate[(slot, n)]
  {
  }

  lemma SettledAction(run: Run, v: View, act: RunAction)
    requires PcFits(run.pc, act)
    ensures var e := RunEffect(run, v, act);
            && OwnershipMoves(run, v.counter, e)
            && (e.nonce.GiveBack? ==> MayRelease(run.pc))
            && (Holds(run.pc) && !MayRelease(run.pc) && Holds(e.run.pc) ==> !MayRelease(e.run.pc))
  {
    ActionMovesOwnership(run, v, act);
    match act
    case _ =>
  }

  /** A settled number stays settled and below the counter in every continuation, so no later
      reservation can return it; and a number that was sent, abandoned or skipped keeps that
      fate forever. */
  lemma {:induction false} SettledForever(w: World, steps: seq<Step>, slot: Slot, n: nat)
    requires NonceInv(w) && Settled(w, slot, n)
    ensures var w' := Exec(w, steps);
            && n < Counter(w', slot) && Settled(w', slot, n)
            && (!w.fate[(slot, n)].HeldBy? ==> w'.fate[(slot, n)] == w.fate[(slot, n)])
    decreases |steps|
  {
    if steps != [] {
      NonceStep(w, steps[0]);
      SettledStep(w, steps[0], slot, n);
      SettledForever(Next(w, steps[0]), steps[1..], slot, n);
    }
  }

  // -------------------------------------------------------------------------
  // How far the counter can fall
  // -------------------------------------------------------------------------

  /** The counter can fall below a chain nonce it was synced to. It stays at or above `n` in
      every continuation exactly when some number from n-1 up to the counter is settled. */
  lemma {:induction false} CounterFloor(w: World, slot: Slot, n: nat)
    requires NonceInv(w) && 0 < n <= Counter(w, slot)
    ensures (forall steps :: Counter(Exec(w, steps), slot) >= n)
            <==> (exists m: nat :: n - 1 <= m < Counter(w, slot) && Settled(w, slot, m))
  {
    if m: nat :| n - 1 <= m < Counter(w, slot) && Settled(w, slot, m) {
      forall steps
        ensures Counter(Exec(w, steps), slot) >= n
      {
        SettledForever(w, steps, slot, m);
      }
    } else {
      var steps := FallBelow(w, slot, n);
      assert Counter(Exec(w, steps), slot) < n;
    }
  }

  /** Each unsettled holder, from the top down, fails to sign and releases. */
  lemma {:induction false} FallBelow(w: World, slot: Slot, n: nat) returns (steps: seq<Step>)
    requires NonceInv(w) && 0 < n <= Counter(w, slot)
    requires forall m: nat :: n - 1 <= m < Counter(w, slot) ==> !Settled(w, slot, m)
    ensures Counter(Exec(w, steps), slot) < n
    decreases Counter(w, slot)
  {
    var top := Counter(w, slot) - 1;
    assert (slot, top) in w.fate && !Settled(w, slot, top);
    var r := w.fate[(slot, top)].run;
    var first := GivingUp(r);
    var w' := GiveUp(w, r);
    NonceRuns(w, first);
    if top < n {
      steps := first;
    } else {
      forall m: nat | n - 1 <= m < top
        ensures !Settled(w', slot, m)
      {
        assert !Settled(w, slot, m);
      }
      var rest := FallBelow(w', slot, n);
      steps := first + rest;
      ExecConcat(w, first, rest);
    }
  }

  const GiveUpActions: seq<RunAction> := [StorePayload, Sign(None, ""), FailSign("")]

  predicate GivesUp(act: RunAction) {
    act.StorePayload? || (act.Sign? && act.hash.None?) || act.FailSign?
  }

  function StepsOf(r: RunId, acts: seq<RunAction>): seq<Step> {
    seq(|acts|, i requires 0 <= i < |acts| => Do(r, acts[i]))
  }

  function GivingUp(r: RunId): seq<Step> {
    StepsOf(r, GiveUpActions) + [Do(r, Release)]
  }

  /** One action of a run that is giving up: only its own pc moves, or nothing. */
  function PcGivingUp(pc: Pc, act: RunAction): Pc {
    match act
    case StorePayload => if pc.AtStorePayload? then AtSign(pc.row, pc.nonce) else pc
    case Sign(None, _) => if pc.AtSign? then AtFailSign(pc.row, pc.nonce) else pc
    case FailSign(_) => if pc.AtFailSign? then AtRelease(pc.nonce) else pc
    case _ => pc
  }

  lemma QuietAction(w: World, r: RunId, act: RunAction)
    requires r in w.runs && MayRelease(w.runs[r].pc)
    requires GivesUp(act)
    ensures var w' := Next(w, Do(r, act));
            && w'.runs == w.runs[r := w.runs[r].(pc := PcGivingUp(w.runs[r].pc, act))]
            && w'.nonces == w.nonces && w'.fate == w.fate
  {
    if !RunAt(w, r, act) {
      assert w.runs == w.runs[r := w.runs[r]];
    }
  }

  function PcAfter(pc: Pc, acts: seq<RunAction>): Pc
    decreases |acts|
  {
    if acts == [] then pc else PcAfter(PcGivingUp(pc, acts[0]), acts[1..])
  }

  lemma {:induction false} QuietActions(w: World, r: RunId, acts: seq<RunAction>)
    requires r in w.runs && MayRelease(w.runs[r].pc)
    requires forall act :: act in acts ==> GivesUp(act)
    ensures var w' := Exec(w, StepsOf(r, acts));
            && w'.runs == w.runs[r := w.runs[r].(pc := PcAfter(w.runs[r].pc, acts))]
            && w'.nonces == w.nonces && w'.fate == w.fate
    decreases |acts|
  {
    if acts == [] {
      assert w.runs == w.runs[r := w.runs[r]];
    } else {
      QuietAction(w, r, acts[0]);
      QuietActions(Next(w, Do(r, acts[0])), r, acts[1..]);
      assert StepsOf(r, acts) == [Do(r, acts[0])] + StepsOf(r, acts[1..]);
      ExecOne(w, Do(r, acts[0]), StepsOf(r, acts[1..]));
    }
  }

  lemma GiveUp(w: World, r: RunId) returns (w': World)
    requires r in w.runs && MayRelease(w.runs[r].pc)
    requires w.runs[r].pc.nonce + 1 == Counter(w, SlotOf(w.runs[r]))
    ensures w' == Exec(w, GivingUp(r))
    ensures w'.runs == w.runs[r := w.runs[r].(pc := Done(Errored))]
    ensures w'.nonces == w.nonces[SlotOf(w.runs[r]) := w.runs[r].pc.nonce]
    ensures w'.fate == w.fate - {(SlotOf(w.runs[r]), w.runs[r].pc.nonce)}
  {
    QuietActions(w, r, GiveUpActions);
    var ready := Exec(w, StepsOf(r, GiveUpActions));
    GiveUpArrives(w.runs[r].pc);
    Released(ready, r);
    ExecConcat(w, StepsOf(r, GiveUpActions), [Do(r, Release)]);
    ExecOne(ready, Do(r, Release), []);
    assert [Do(r, Release)] + [] == [Do(r, Release)];
    w' := Next(ready, Do(r, Release));
  }

  lemma {:induction false} GiveUpArrives(pc: Pc)
    requires MayRelease(pc)
    ensures PcAfter(pc, GiveUpActions) == AtRelease(pc.nonce)
  {
    var first := PcGivingUp(pc, StorePayload);
    var second := PcGivingUp(first, Sign(None, ""));
    var third := PcGivingUp(second, FailSign(""));
    assert GiveUpActions[1..] == [Sign(None, ""), FailSign("")];
    assert [Sign(None, ""), FailSign("")][1..] == [FailSign("")];
    assert [FailSign("")][1..] == [];
    assert PcAfter(third, []) == third;
    assert PcAfter(second, [FailSign("")]) == third;
    assert PcAfter(first, [Sign(None, ""), FailSign("")]) == third;
  }

  lemma Released(w: World, r: RunId)
    requires r in w.runs && w.runs[r].pc.AtRelease?
    requires w.runs[r].pc.nonce + 1 == Counter(w, SlotOf(w.runs[r]))
    ensures var w' := Next(w, Do(r, Release));
            && w'.runs == w.runs[r := w.runs[r].(pc := Done(Errored))]
            && w'.nonces == w.nonces[SlotOf(w.runs[r]) := w.runs[r].pc.nonce]
            && w'.fate == w.fate - {(SlotOf(w.runs[r]), w.runs[r].pc.nonce)}
  {
  }
}
