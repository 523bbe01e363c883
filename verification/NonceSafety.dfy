/** Nonce exclusivity and conservation, for every interleaving and without assumptions.

    The counter also moves down, so nothing here rests on monotonicity: every number below
    the counter has exactly one fate, and a release takes away only the topmost number, and
    only while its fate is to be held by the releasing run. */
module NonceSafety {
  import opened Lifecycle

  /** The fates are exactly the numbers below the counters. */
  ghost predicate FatesBelowCounter(w: World) {
    forall slot, n: nat :: (slot, n) in w.fate <==> n < Counter(w, slot)
  }

  /** Held numbers and live holders correspond one to one. */
  ghost predicate HoldersMatch(w: World) {
    && (forall r :: r in w.runs && Holds(w.runs[r].pc) ==>
          (SlotOf(w.runs[r]), w.runs[r].pc.nonce) in w.fate
              && w.fate[(SlotOf(w.runs[r]), w.runs[r].pc.nonce)] == HeldBy(r))
    && (forall k :: k in w.fate && w.fate[k].HeldBy? ==>
          var r := w.fate[k].run;
          r in w.runs && Holds(w.runs[r].pc) && k == (SlotOf(w.runs[r]), w.runs[r].pc.nonce))
  }

  predicate AfterSend(pc: Pc) {
    pc.AtMarkSent? || pc.AtFailSend? || pc.Done?
  }

  /** Sent numbers and the runs' sends correspond one to one. */
  ghost predicate SendsMatch(w: World) {
    && (forall i :: 0 <= i < |w.sent| && w.sent[i].sender.ByRun? ==>
          var e := w.sent[i];
          && (e.slot, e.tx.nonce) in w.fate && w.fate[(e.slot, e.tx.nonce)] == SentBy(e.sender.run)
          && e.sender.run in w.runs && AfterSend(w.runs[e.sender.run].pc))
    && (forall i, j :: 0 <= i < j < |w.sent| && w.sent[i].sender.ByRun? && w.sent[j].sender.ByRun? ==>
          w.sent[i].sender != w.sent[j].sender)
    && (forall k :: k in w.fate && w.fate[k].SentBy? ==>
          exists i :: 0 <= i < |w.sent| && w.sent[i].sender == ByRun(w.fate[k].run)
              && (w.sent[i].slot, w.sent[i].tx.nonce) == k)
  }

  ghost predicate NonceInv(w: World) {
    FatesBelowCounter(w) && HoldersMatch(w) && SendsMatch(w)
  }

  lemma InitNonce(config: Config)
    ensures NonceInv(Init(config))
  {
  }

  /** How an action moves the ownership of a nonce: it is taken from nothing, kept, or let
      go, and a run that has sent never holds again. */
  ghost predicate OwnershipMoves(run: Run, counter: nat, e: Effect) {
    var pc, pc' := run.pc, e.run.pc;
    && SlotOf(e.run) == SlotOf(run)
    && (AfterSend(pc) ==> AfterSend(pc'))
    && match e.nonce
       case NoNonce => Holds(pc) == Holds(pc') && (Holds(pc) ==> pc.nonce == pc'.nonce)
       case Take => !Holds(pc) && !AfterSend(pc) && Holds(pc') && pc'.nonce == counter
       case HandOver => Holds(pc) && !Holds(pc') && AfterSend(pc')
       case _ => Holds(pc) && !Holds(pc')
  }

  lemma ActionMovesOwnership(run: Run, v: View, act: RunAction)
    requires PcFits(run.pc, act)
    ensures OwnershipMoves(run, v.counter, RunEffect(run, v, act))
  {
    match act
    case _ =>
  }

  lemma ApplyKeepsNonces(w: World, r: RunId, e: Effect)
    requires NonceInv(w) && r in w.runs && OwnershipMoves(w.runs[r], Counter(w, SlotOf(w.runs[r])), e)
    ensures NonceInv(ApplyRun(w, r, e))
  {
    match e.nonce
    case NoNonce => NothingMoved(w, r, e);
    case Take => Taken(w, r, e);
    case HandOver => HandedOverOnce(w, r, e);
    case _ => LetGo(w, r, e);
  }

  lemma NothingMoved(w: World, r: RunId, e: Effect)
    requires NonceInv(w) && r in w.runs && OwnershipMoves(w.runs[r], Counter(w, SlotOf(w.runs[r])), e)
               && e.nonce.NoNonce?
    ensures NonceInv(ApplyRun(w, r, e))
  {
    var w' := ApplyRun(w, r, e);
    assert w'.fate == w.fate && w'.nonces == w.nonces && w'.sent == w.sent;
  }

  lemma Taken(w: World, r: RunId, e: Effect)
    requires NonceInv(w) && r in w.runs && OwnershipMoves(w.runs[r], Counter(w, SlotOf(w.runs[r])), e) && e.nonce.Take?
    ensures NonceInv(ApplyRun(w, r, e))
  {
    var w' := ApplyRun(w, r, e);
    var k := (SlotOf(w.runs[r]), Counter(w, SlotOf(w.runs[r])));
    assert k !in w.fate;
    assert w'.fate == w.fate[k := HeldBy(r)];
    assert w'.sent == w.sent;
    TakenHolders(w, w', r, e.run);
    TakenSends(w, w', r, e.run);
    hide HoldersMatch, SendsMatch;
  }

  lemma TakenHolders(w: World, w': World, r: RunId, run': Run)
    requires HoldersMatch(w) && r in w.runs && !Holds(w.runs[r].pc) && Holds(run'.pc)
    requires w'.runs == w.runs[r := run'] && (SlotOf(run'), run'.pc.nonce) !in w.fate
    requires w'.fate == w.fate[(SlotOf(run'), run'.pc.nonce) := HeldBy(r)]
    ensures HoldersMatch(w')
  {
  }

  lemma TakenSends(w: World, w': World, r: RunId, run': Run)
    requires SendsMatch(w) && r in w.runs && !AfterSend(w.runs[r].pc) && Holds(run'.pc)
    requires w'.runs == w.runs[r := run'] && w'.sent == w.sent && (SlotOf(run'), run'.pc.nonce) !in w.fate
    requires w'.fate == w.fate[(SlotOf(run'), run'.pc.nonce) := HeldBy(r)]
    ensures SendsMatch(w')
  {
  }

  lemma LetGo(w: World, r: RunId, e: Effect)
    requires NonceInv(w) && r in w.runs && OwnershipMoves(w.runs[r], Counter(w, SlotOf(w.runs[r])), e)
    requires e.nonce.GiveBack? || e.nonce.WalkAway?
    ensures NonceInv(ApplyRun(w, r, e))
  {
    var w' := ApplyRun(w, r, e);
    var k := (SlotOf(w.runs[r]), w.runs[r].pc.nonce);
    assert w.fate[k] == HeldBy(r);
    assert w'.fate == w.fate - {k} || w'.fate == w.fate[k := Abandoned];
    assert w'.sent == w.sent;
    LetGoHolders(w, w', r, e.run);
    LetGoSends(w, w', r, e.run);
    hide HoldersMatch, SendsMatch;
  }

  lemma LetGoHolders(w: World, w': World, r: RunId, run': Run)
    requires HoldersMatch(w) && r in w.runs && Holds(w.runs[r].pc) && !Holds(run'.pc) && w'.runs == w.runs[r := run']
    requires var k := (SlotOf(w.runs[r]), w.runs[r].pc.nonce);
             w'.fate == w.fate - {k} || w'.fate == w.fate[k := Abandoned]
    ensures HoldersMatch(w')
  {
  }

  lemma LetGoSends(w: World, w': World, r: RunId, run': Run)
    requires SendsMatch(w) && HoldersMatch(w) && r in w.runs && Holds(w.runs[r].pc) && w'.runs == w.runs[r := run']
    requires w'.sent == w.sent && (AfterSend(w.runs[r].pc) ==> AfterSend(run'.pc))
    requires var k := (SlotOf(w.runs[r]), w.runs[r].pc.nonce);
             w'.fate == w.fate - {k} || w'.fate == w.fate[k := Abandoned]
    ensures SendsMatch(w')
  {
  }

  lemma HandedOverOnce(w: World, r: RunId, e: Effect)
    requires NonceInv(w) && r in w.runs && OwnershipMoves(w.runs[r], Counter(w, SlotOf(w.runs[r])), e)
               && e.nonce.HandOver?
    ensures NonceInv(ApplyRun(w, r, e))
  {
    var w' := ApplyRun(w, r, e);
    var k := (SlotOf(w.runs[r]), w.runs[r].pc.nonce);
    assert w.fate[k] == HeldBy(r);
    assert w'.fate == w.fate[k := SentBy(r)];
    assert w'.sent == w.sent + [HandedOver(r, w.runs[r])];
    HandedHolders(w, w', r, e.run);
    HandedSends(w, w', r, e.run);
    hide HoldersMatch, SendsMatch;
  }

  lemma HandedHolders(w: World, w': World, r: RunId, run': Run)
    requires HoldersMatch(w) && r in w.runs && Holds(w.runs[r].pc) && !Holds(run'.pc) && w'.runs == w.runs[r := run']
    requires w'.fate == w.fate[(SlotOf(w.runs[r]), w.runs[r].pc.nonce) := SentBy(r)]
    ensures HoldersMatch(w')
  {
  }

  lemma HandedSends(w: World, w': World, r: RunId, run': Run)
    requires SendsMatch(w) && HoldersMatch(w) && r in w.runs && Holds(w.runs[r].pc) && AfterSend(run'.pc)
    requires w'.runs == w.runs[r := run'] && w'.sent == w.sent + [HandedOver(r, w.runs[r])]
    requires w'.fate == w.fate[(SlotOf(w.runs[r]), w.runs[r].pc.nonce) := SentBy(r)]
    ensures SendsMatch(w')
  {
    SendsGrow(w, w', (SlotOf(w.runs[r]), w.runs[r].pc.nonce));
    assert w'.sent[|w.sent|] == HandedOver(r, w.runs[r]);
    assert forall i :: 0 <= i < |w.sent| ==> w'.sent[i] == w.sent[i];
  }

  /** Appending to the log keeps every witness of a sent number. */
  lemma SendsGrow(w: World, w': World, except: (Slot, nat))
    requires SendsMatch(w) && w.sent <= w'.sent
    ensures forall q :: q in w.fate && q != except && w.fate[q].SentBy? ==>
              exists i :: 0 <= i < |w'.sent| && w'.sent[i].sender == ByRun(w.fate[q].run)
                  && (w'.sent[i].slot, w'.sent[i].tx.nonce) == q
  {
    forall q | q in w.fate && q != except && w.fate[q].SentBy?
      ensures exists i :: 0 <= i < |w'.sent| && w'.sent[i].sender == ByRun(w.fate[q].run)
                && (w'.sent[i].slot, w'.sent[i].tx.nonce) == q
    {
      var i :| 0 <= i < |w.sent| && w.sent[i].sender == ByRun(w.fate[q].run)
          && (w.sent[i].slot, w.sent[i].tx.nonce) == q;
      assert w'.sent[i] == w.sent[i];
    }
  }

  lemma PollKeepsNonces(w: World, p: PollId, e: MonitorEffect)
    requires NonceInv(w)
    ensures NonceInv(ApplyPoll(w, p, e))
  {
    hide HoldersMatch, SendsMatch, Merge, Bumped;
    var w' := ApplyPoll(w, p, e);
    SameHolders(w, w');
    if e.send.Some? {
      PollSends(w, w', Resent(p, e.send.value));
    } else {
      SameSends(w, w');
    }
  }

  lemma SameHolders(w: World, w': World)
    requires HoldersMatch(w) && w'.fate == w.fate && w'.runs == w.runs
    ensures HoldersMatch(w')
  {
  }

  lemma SameSends(w: World, w': World)
    requires SendsMatch(w) && w'.fate == w.fate && w'.runs == w.runs && w'.sent == w.sent
    ensures SendsMatch(w')
  {
  }

  /** What a poll sends is nobody's nonce but that of the run that sent it before. */
  lemma PollSends(w: World, w': World, e: Sent)
    requires SendsMatch(w) && w'.fate == w.fate && w'.runs == w.runs && w'.sent == w.sent + [e] && e.sender.ByPoll?
    ensures SendsMatch(w')
  {
    assert forall i :: 0 <= i < |w.sent| ==> w'.sent[i] == w.sent[i];
    forall k | k in w.fate && w.fate[k].SentBy?
      ensures exists i :: 0 <= i < |w'.sent| && w'.sent[i].sender == ByRun(w.fate[k].run)
                && (w'.sent[i].slot, w'.sent[i].tx.nonce) == k
    {
      var i :| 0 <= i < |w.sent| && w.sent[i].sender == ByRun(w.fate[k].run)
          && (w.sent[i].slot, w.sent[i].tx.nonce) == k;
      assert w'.sent[i] == w.sent[i];
    }
  }

  lemma SkippedExactly(slot: Slot, from: nat, to: nat)
    ensures forall s, n: nat :: (s, n) in SkippedNonces(slot, from, to) <==> s == slot && from <= n < to
    ensures forall k :: k in SkippedNonces(slot, from, to) ==> SkippedNonces(slot, from, to)[k] == Skipped
  {
  }

  lemma SyncKeepsNonces(w: World, slot: Slot, n: nat)
    requires NonceInv(w)
    ensures NonceInv(Next(w, Sync(slot, n)))
  {
    if !(slot in w.nonces && w.nonces[slot] >= n) {
      var w' := Next(w, Sync(slot, n));
      var skipped := SkippedNonces(slot, Counter(w, slot), n);
      SkippedExactly(slot, Counter(w, slot), n);
      assert w'.fate == w.fate + skipped && w'.runs == w.runs && w'.sent == w.sent;
      assert forall k :: k in w.fate ==> k !in skipped;
      FatesExtended(w, w', skipped);
      CounterRaised(w, w', slot, n);
    }
  }

  lemma CounterRaised(w: World, w': World, slot: Slot, n: nat)
    requires FatesBelowCounter(w) && Counter(w, slot) <= n
    requires w'.nonces == w.nonces[slot := n] && w'.fate == w.fate + SkippedNonces(slot, Counter(w, slot), n)
    ensures FatesBelowCounter(w')
  {
    SkippedExactly(slot, Counter(w, slot), n);
    forall s, m: nat
      ensures (s, m) in w'.fate <==> m < Counter(w', s)
    {
      assert (s, m) in w.fate <==> m < Counter(w, s);
    }
  }

  lemma FatesExtended(w: World, w': World, skipped: map<(Slot, nat), Fate>)
    requires HoldersMatch(w) && SendsMatch(w)
    requires w'.fate == w.fate + skipped && w'.runs == w.runs && w'.sent == w.sent
    requires forall k :: k in skipped ==> k !in w.fate && skipped[k] == Skipped
    ensures HoldersMatch(w') && SendsMatch(w')
  {
    SendsGrow(w, w', (Slot("", 0), 0));
  }

  /** A poll's start and end move no nonce. */
  lemma PollFrameKeepsNonces(w: World, s: Step)
    requires NonceInv(w) && (s.StartPoll? || s.EndPoll?)
    ensures NonceInv(Next(w, s))
  {
    hide NonceInv, RunEffect, PollEffect, ViewOf, ApplyRun, ApplyPoll, RunAt, PollAt, IsFinished;
    SameNonces(w, Next(w, s));
  }

  /** A fresh run holds nothing. */
  lemma FreshRunKeepsNonces(w: World, s: Step)
    requires NonceInv(w) && s.Begin?
    ensures NonceInv(Next(w, s))
  {
    hide NonceInv, RunEffect, PollEffect, ViewOf, ApplyRun, ApplyPoll, RunAt, PollAt, IsFinished;
    var w' := Next(w, s);
    if s.r in w.runs || s.r !in w'.runs {
      SameNonces(w, w');
    } else {
      BeginKeepsNonces(w, w', s.r);
    }
  }

  lemma SameNonces(w: World, w': World)
    requires NonceInv(w) && w'.fate == w.fate && w'.nonces == w.nonces && w'.sent == w.sent && w'.runs == w.runs
    ensures NonceInv(w')
  {
  }

  lemma BeginKeepsNonces(w: World, w': World, r: RunId)
    requires NonceInv(w) && w'.fate == w.fate && w'.nonces == w.nonces && w'.sent == w.sent
    requires r !in w.runs && r in w'.runs && !Holds(w'.runs[r].pc) && w'.runs == w.runs[r := w'.runs[r]]
    ensures NonceInv(w')
  {
    NewHolder(w, w', r);
    NewSender(w, w', r);
    hide HoldersMatch, SendsMatch;
  }

  lemma NewHolder(w: World, w': World, r: RunId)
    requires HoldersMatch(w) && w'.fate == w.fate && r !in w.runs && r in w'.runs && !Holds(w'.runs[r].pc)
    requires w'.runs == w.runs[r := w'.runs[r]]
    ensures HoldersMatch(w')
  {
  }

  lemma NewSender(w: World, w': World, r: RunId)
    requires SendsMatch(w) && w'.fate == w.fate && w'.sent == w.sent && r !in w.runs && r in w'.runs
    requires w'.runs == w.runs[r := w'.runs[r]]
    ensures SendsMatch(w')
  {
  }

  lemma NonceStep(w: World, s: Step)
    requires NonceInv(w)
    ensures NonceInv(Next(w, s))
  {
    hide NonceInv, OwnershipMoves;
    match s
    case Do(r, act) =>
      if RunAt(w, r, act) {
        var v := ViewOf(w, w.runs[r], act);
        ActionMovesOwnership(w.runs[r], v, act);
        ApplyKeepsNonces(w, r, RunEffect(w.runs[r], v, act));
      }
    case Monitor(p, act) =>
      if PollAt(w, p, act) {
        PollKeepsNonces(w, p, PollEffect(w.config, w.polls[p], act));
      }
    case Sync(slot, n) => SyncKeepsNonces(w, slot, n);
    case Begin(_, _, _) => FreshRunKeepsNonces(w, s);
    case _ => PollFrameKeepsNonces(w, s);
  }

  lemma {:induction false} NonceRuns(w: World, steps: seq<Step>)
    requires NonceInv(w)
    ensures NonceInv(Exec(w, steps))
    decreases |steps|
  {
    if steps != [] {
      NonceStep(w, steps[0]);
      NonceRuns(Next(w, steps[0]), steps[1..]);
    }
  }
}
