/** The fee pipeline over whole runs of the system: as long as every quote the gas service
    hands out keeps the priority fee within the fee cap (`Fees.FetchFeeData`), so does every
    transaction ever sent, originals and bumped replacements. */
module FeeSafety {
  import opened Fees
  import opened Lifecycle

  predicate Capped(quote: FeeQuote) {
    quote.maxPriority <= quote.maxFee
  }

  /** The quote a step brings in, if any, is capped. */
  predicate QuoteCapped(s: Step) {
    && (s.Do? && s.act.Estimate? && s.act.quote.Some? ==> Capped(s.act.quote.value))
    && (s.Monitor? && s.does.OnQuote? && s.does.quote.Some? ==> Capped(s.does.quote.value))
  }

  predicate PollCapped(pc: PollPc) {
    pc.AtBumpSign? || pc.AtBumpSend? ==> Capped(pc.tx.fees)
  }

  ghost predicate FeesInv(w: World) {
    && (forall r :: r in w.runs ==> Capped(w.runs[r].quote))
    && (forall p :: p in w.polls ==> PollCapped(w.polls[p].pc))
    && (forall i :: 0 <= i < |w.sent| ==> Capped(w.sent[i].tx.fees))
  }

  lemma RunActionCapped(run: Run, v: View, act: RunAction)
    requires PcFits(run.pc, act) && Capped(run.quote)
    requires act.Estimate? && act.quote.Some? ==> Capped(act.quote.value)
    ensures Capped(RunEffect(run, v, act).run.quote)
  {
    hide Key;
    match act
    case _ =>
  }

  lemma PollActionCapped(config: Config, poller: Poller, act: PollAction)
    requires PollFits(poller, act) && PollCapped(poller.pc)
    requires act.OnQuote? && act.quote.Some? ==> Capped(act.quote.value)
    ensures var e := PollEffect(config, poller, act);
            PollCapped(e.poller.pc) && (e.send.Some? ==> Capped(e.send.value.tx.fees))
  {
    if act.OnQuote? && act.quote.Some? {
      BumpKeepsCap(act.quote.value, config.bumpPercent);
    }
    hide Bump;
    match act
    case _ =>
  }

  lemma RunKeepsFees(w: World, r: RunId, e: Effect)
    requires FeesInv(w) && r in w.runs && Capped(e.run.quote)
    requires e.nonce.HandOver? || e.nonce.GiveBack? || e.nonce.WalkAway? ==> Holds(w.runs[r].pc)
    ensures FeesInv(ApplyRun(w, r, e))
  {
    hide Key, NoncesAfter, RowsAfter, FateAfter, FailedAfter;
    assert e.nonce.HandOver? ==> HandedOver(r, w.runs[r]).tx.fees == w.runs[r].quote;
  }

  lemma FeesStep(w: World, s: Step)
    requires FeesInv(w) && QuoteCapped(s)
    ensures FeesInv(Next(w, s))
  {
    match s
    case Do(r, act) =>
      if RunAt(w, r, act) {
        var v := ViewOf(w, w.runs[r], act);
        RunActionCapped(w.runs[r], v, act);
        RunKeepsFees(w, r, RunEffect(w.runs[r], v, act));
        hide RunEffect, ApplyRun, FeesInv, ViewOf;
      }
    case Monitor(p, act) =>
      if PollAt(w, p, act) {
        PollActionCapped(w.config, w.polls[p], act);
        hide PollEffect, Merge, Bumped;
      }
    case _ => hide SkippedNonces, FindBroadcasted;
  }

  /** The priority fee stays within the fee cap in every transaction ever sent, as EIP-1559
      ("Specification") demands, whatever the interleaving and the bump multiplier. */
  lemma {:induction false} SentWithinCap(w: World, steps: seq<Step>)
    requires FeesInv(w) && forall i :: 0 <= i < |steps| ==> QuoteCapped(steps[i])
    ensures FeesInv(Exec(w, steps))
    decreases |steps|
  {
    hide FeesInv, Next, QuoteCapped;
    if steps != [] {
      FeesStep(w, steps[0]);
      SentWithinCap(Next(w, steps[0]), steps[1..]);
    }
  }

  lemma {:induction false} EverySendCapped(config: Config, steps: seq<Step>, i: nat)
    requires forall k :: 0 <= k < |steps| ==> QuoteCapped(steps[k])
    requires i < |Exec(Init(config), steps).sent|
    ensures Capped(Exec(Init(config), steps).sent[i].tx.fees)
  {
    SentWithinCap(Init(config), steps);
  }
}
