/** How an organization's wallets get their derivation indices: onboarding takes index 0, and
    `deriveWallet` counts, derives and inserts under a unique constraint, up to three times.

    One organization is modelled; the unique constraints are per organization. An address is
    identified with the seed and index it is derived from, which takes distinct indices to
    have distinct addresses. */
module WalletIndex {
  import opened Base
  import opened Derivation

  type CallId = nat

  datatype Address = Address(seed: nat, index: nat)

  /** `maker` is a history variable: the call that inserted the wallet. */
  datatype Wallet = Wallet(path: string, address: Address, maker: CallId)

  const MAX_DERIVE_ATTEMPTS := 3

  datatype Result = Created(address: Address) | GaveUp | Errored

  datatype CallPc =
    | FindSeed                                     // deriveWallet
    | CountWallets(attempt: nat)
    | Derive(attempt: nat, index: nat)
    | InsertDerived(attempt: nat, index: nat, path: string, address: Address)
    | CheckSeed(seed: nat)                         // onBoardOrganization, with the seed it generates
    | CreateSeed(seed: nat)
    | InsertFirst(seed: nat)
    | Audit(address: Address)                      // both: the wallet is in, its audit entry is not
    | Returned(result: Result)

  /** `began` is a history variable: how many wallets there were when the call began. */
  datatype Call = Call(pc: CallPc, began: nat)

  datatype Org = Org(seed: Option<nat>, wallets: seq<Wallet>, calls: map<CallId, Call>)

  const EmptyOrg := Org(None, [], map[])

  datatype Step =
    | BeginDerive(c: CallId)
    | BeginOnboard(c: CallId, generated: nat)
    | Advance(c: CallId)  // the call's next database or signer action succeeds or conflicts
    | Throw(c: CallId)    // it throws

  predicate Conflicts(org: Org, path: string, address: Address) {
    exists i :: 0 <= i < |org.wallets| && (org.wallets[i].path == path || org.wallets[i].address == address)
  }

  function Goto(org: Org, c: CallId, pc: CallPc): Org
    requires c in org.calls
  {
    org.(calls := org.calls[c := org.calls[c].(pc := pc)])
  }

  function Next(org: Org, s: Step): Org {
    match s
    case BeginDerive(c) => if c in org.calls then org else org.(calls := org.calls[c := Call(FindSeed, |org.wallets|)])
    case BeginOnboard(c, generated) => if c in org.calls then org
        else org.(calls := org.calls[c := Call(CheckSeed(generated), |org.wallets|)])
    case Throw(c) => if c in org.calls && !org.calls[c].pc.Returned? then Goto(org, c, Returned(Errored)) else org
    case Advance(c) => if c in org.calls then AdvanceCall(org, c) else org
  }

  function AdvanceCall(org: Org, c: CallId): Org
    requires c in org.calls
  {
    match org.calls[c].pc
    case FindSeed => Goto(org, c, if org.seed.None? then Returned(Errored) else CountWallets(1))
    case CountWallets(attempt) => Goto(org, c, Derive(attempt, |org.wallets|))
    case Derive(attempt, index) =>
      // The signer decodes the index as a 32-bit unsigned integer.
      if index >= UINT32_LIMIT || org.seed.None? then Goto(org, c, Returned(Errored))
      else Goto(org, c, InsertDerived(attempt, index, Path(index), Address(org.seed.value, index)))
    case InsertDerived(attempt, index, path, address) =>
      if !Conflicts(org, path, address)
      then Goto(org, c, Audit(address)).(wallets := org.wallets + [Wallet(path, address, c)])
      else if attempt == MAX_DERIVE_ATTEMPTS then Goto(org, c, Returned(GaveUp))
      else Goto(org, c, CountWallets(attempt + 1))
    case CheckSeed(generated) => Goto(org, c, if org.seed.Some? then Returned(Errored) else CreateSeed(generated))
    case CreateSeed(generated) =>
      if org.seed.Some? then Goto(org, c, Returned(Errored))
      else Goto(org, c, InsertFirst(generated)).(seed := Some(generated))
    case InsertFirst(generated) =>
      var first := Address(generated, 0);
      if Conflicts(org, "m/44'/60'/0'/0/0", first) then Goto(org, c, Returned(Errored))
      else Goto(org, c, Audit(first)).(wallets := org.wallets + [Wallet("m/44'/60'/0'/0/0", first, c)])
    case Audit(address) => Goto(org, c, Returned(Created(address)))
    case Returned(_) => org
  }

  function Exec(org: Org, steps: seq<Step>): Org
    decreases |steps|
  {
    if steps == [] then org else Exec(Next(org, steps[0]), steps[1..])
  }

  // -------------------------------------------------------------------------
  // The invariant
  // -------------------------------------------------------------------------

  /** The i-th wallet is the one of index i. */
  ghost predicate Contiguous(org: Org) {
    && (org.wallets != [] ==> org.seed.Some?)
    && forall i :: 0 <= i < |org.wallets| ==>
         org.wallets[i].path == Path(i) && org.wallets[i].address == Address(org.seed.value, i)
  }

  ghost predicate CallOk(org: Org, c: CallId)
    requires c in org.calls
  {
    var call := org.calls[c];
    var n := |org.wallets|;
    && call.began <= n
    // A call inserts one wallet at most: the one it returns, unless its audit entry fails.
    && (forall i :: 0 <= i < n && org.wallets[i].maker == c ==>
          call.pc == Audit(org.wallets[i].address) || call.pc == Returned(Created(org.wallets[i].address))
          || call.pc == Returned(Errored))
    && (forall i, k :: 0 <= i < k < n ==> org.wallets[i].maker != c || org.wallets[k].maker != c)
    && match call.pc
       case FindSeed => true
       case CountWallets(attempt) => org.seed.Some? && 1 <= attempt <= MAX_DERIVE_ATTEMPTS
           && n >= call.began + attempt - 1
       case Derive(attempt, index) =>
         org.seed.Some? && 1 <= attempt <= MAX_DERIVE_ATTEMPTS && call.began + attempt - 1 <= index <= n
       case InsertDerived(attempt, index, path, address) =>
         && org.seed.Some? && 1 <= attempt <= MAX_DERIVE_ATTEMPTS && call.began + attempt - 1 <= index <= n
         && path == Path(index) && address == Address(org.seed.value, index)
       case CheckSeed(_) => true
       case CreateSeed(_) => true
       case InsertFirst(generated) => org.seed == Some(generated)
       case Audit(address) =>
         address.index < n && org.wallets[address.index].address == address && org.wallets[address.index].maker == c
       case Returned(Created(address)) =>
         address.index < n && org.wallets[address.index].address == address && org.wallets[address.index].maker == c
       case Returned(GaveUp) => n >= call.began + MAX_DERIVE_ATTEMPTS
       case Returned(Errored) => true
  }

  ghost predicate OrgInv(org: Org) {
    && Contiguous(org)
    && (forall c :: c in org.calls ==> CallOk(org, c))
    && (forall i :: 0 <= i < |org.wallets| ==> org.wallets[i].maker in org.calls)
  }

  /** An insert conflicts exactly when the index it was derived for is taken: for an index up
      to the count, that is when it is not the count itself. */
  lemma ConflictExactly(org: Org, index: nat)
    requires Contiguous(org) && org.seed.Some?
    ensures Conflicts(org, Path(index), Address(org.seed.value, index)) <==> index < |org.wallets|
  {
    if index < |org.wallets| {
      assert org.wallets[index].path == Path(index);
    }
    forall i | 0 <= i < |org.wallets|
      ensures org.wallets[i].path == Path(index) ==> i == index
    {
      PathInjective(i, index);
    }
  }

  lemma CallSurvives(org: Org, org': Org, c: CallId)
    requires c in org.calls && c in org'.calls && org'.calls[c] == org.calls[c] && CallOk(org, c)
    requires org.seed.Some? ==> org'.seed == org.seed
    requires org'.wallets == org.wallets || (exists w: Wallet :: org'.wallets == org.wallets + [w] && w.maker != c)
    ensures CallOk(org', c)
  {
  }

  lemma StepKeeps(org: Org, s: Step)
    requires OrgInv(org)
    ensures OrgInv(Next(org, s))
  {
    hide Path;
    var org' := Next(org, s);
    if s.Advance? && s.c in org.calls {
      AdvanceKeeps(org, s.c);
    } else {
      assert org'.wallets == org.wallets && org'.seed == org.seed;
      forall c | c in org'.calls
        ensures CallOk(org', c)
      {
        if c in org.calls {
          assert CallOk(org, c);
        }
      }
    }
  }

  /** What an action of call `c` leaves alone: the other calls, a seed once stored, and the
      wallets, to which it may append one of its own. */
  lemma AdvanceShape(org: Org, c: CallId)
    requires c in org.calls
    ensures var org' := AdvanceCall(org, c);
            && c in org'.calls && org'.calls == org.calls[c := org'.calls[c]]
                && org'.calls[c].began == org.calls[c].began
            && (org.seed.Some? ==> org'.seed == org.seed)
            && (org'.wallets == org.wallets || (exists w: Wallet :: org'.wallets == org.wallets + [w] && w.maker == c))
  {
    hide Path, Conflicts;
  }

  /** Before its insert a call has made no wallet. */
  lemma AdvanceSelf(org: Org, c: CallId)
    requires Contiguous(org) && c in org.calls && CallOk(org, c)
    ensures CallOk(AdvanceCall(org, c), c) && Contiguous(AdvanceCall(org, c))
  {
    hide Path, Conflicts;
    match org.calls[c].pc {
      case InsertDerived(attempt, index, path, address) => ConflictExactly(org, index);
      case InsertFirst(generated) =>
        ConflictExactly(org, 0);
        OnboardingPath();
      case _ =>
    }
  }

  lemma AdvanceKeeps(org: Org, c: CallId)
    requires OrgInv(org) && c in org.calls
    ensures OrgInv(AdvanceCall(org, c))
  {
    hide AdvanceCall, Contiguous, CallOk;
    var org' := AdvanceCall(org, c);
    AdvanceShape(org, c);
    AdvanceSelf(org, c);
    forall d | d in org'.calls
      ensures CallOk(org', d)
    {
      if d != c {
        CallSurvives(org, org', d);
      }
    }
  }

  lemma {:induction false} RunsKeep(org: Org, steps: seq<Step>)
    requires OrgInv(org)
    ensures OrgInv(Exec(org, steps))
    decreases |steps|
  {
    hide Next;
    if steps != [] {
      StepKeeps(org, steps[0]);
      RunsKeep(Next(org, steps[0]), steps[1..]);
    }
  }

  // -------------------------------------------------------------------------
  // What it means
  // -------------------------------------------------------------------------

  /** Under any interleaving of onboarding and deriveWallet calls, the n wallets of an
      organization are those of the derivation indices 0 to n-1, in that order. */
  lemma {:induction false} IndicesContiguous(steps: seq<Step>)
    ensures var org := Exec(EmptyOrg, steps);
            forall i :: 0 <= i < |org.wallets| ==>
              && org.wallets[i].path == Path(i)
              && org.seed.Some? && org.wallets[i].address == Address(org.seed.value, i)
  {
    hide Path, Next;
    RunsKeep(EmptyOrg, steps);
  }

  /** A call that succeeds returns the address of the wallet it inserted itself, so no two
      calls return the same address. */
  lemma {:induction false} CreatedIsOwn(steps: seq<Step>, c: CallId, d: CallId)
    requires var org := Exec(EmptyOrg, steps);
             && c in org.calls && org.calls[c].pc.Returned? && org.calls[c].pc.result.Created?
             && d in org.calls && org.calls[d].pc.Returned? && org.calls[d].pc.result.Created?
    ensures var org := Exec(EmptyOrg, steps);
            var address := org.calls[c].pc.result.address;
            && address.index < |org.wallets| && org.wallets[address.index].address == address
                && org.wallets[address.index].maker == c
            && (org.calls[d].pc.result.address == address ==> c == d)
  {
    hide Path, Next;
    RunsKeep(EmptyOrg, steps);
    assert CallOk(Exec(EmptyOrg, steps), c) && CallOk(Exec(EmptyOrg, steps), d);
  }

  /** Derivation progress: a call gives up only if at least three wallets were inserted while
      it ran, all of them by other calls. */
  lemma {:induction false} GivingUpHasWitnesses(steps: seq<Step>, c: CallId)
    requires var org := Exec(EmptyOrg, steps);
             c in org.calls && org.calls[c].pc == Returned(GaveUp)
    ensures var org := Exec(EmptyOrg, steps);
            && |org.wallets| >= org.calls[c].began + 3
            && forall i :: 0 <= i < |org.wallets| ==> org.wallets[i].maker != c
  {
    hide Path, Next;
    RunsKeep(EmptyOrg, steps);
    assert CallOk(Exec(EmptyOrg, steps), c);
  }

  // -------------------------------------------------------------------------
  // deriveWallet as a program
  // -------------------------------------------------------------------------

  lemma {:induction false} ExecConcat(org: Org, a: seq<Step>, b: seq<Step>)
    ensures Exec(org, a + b) == Exec(Exec(org, a), b)
    decreases |a|
  {
    hide Next;
    if a == [] {
      assert a + b == b;
    } else {
      assert (a + b)[1..] == a[1..] + b;
      ExecConcat(Next(org, a[0]), a[1..], b);
    }
  }

  lemma {:induction false} ExecSnoc(org: Org, steps: seq<Step>, s: Step)
    ensures Exec(org, steps + [s]) == Next(Exec(org, steps), s)
  {
    hide Next;
    ExecConcat(org, steps, [s]);
    assert Exec(Exec(org, steps), [s]) == Exec(Next(Exec(org, steps), s), [s][1..]);
  }

  lemma {:induction false} OthersKeepCall(org: Org, others: seq<Step>, c: CallId)
    requires c in org.calls && forall s :: s in others ==> s.c != c
    ensures c in Exec(org, others).calls && Exec(org, others).calls[c] == org.calls[c]
    decreases |others|
  {
    if others != [] {
      assert others[0] in others;
      OthersKeepCall(Next(org, others[0]), others[1..], c);
    }
  }

  /** An insert succeeds exactly when its index is the number of wallets; otherwise the wallet
      that took the index is another call's. */
  lemma {:induction false} InsertSucceedsExactly(steps: seq<Step>, c: CallId)
    requires var org := Exec(EmptyOrg, steps); c in org.calls && org.calls[c].pc.InsertDerived?
    ensures var org := Exec(EmptyOrg, steps);
            var pc := org.calls[c].pc;
            && (Next(org, Advance(c)).calls[c].pc == Audit(pc.address) <==> pc.index == |org.wallets|)
            && (pc.index != |org.wallets| ==>
                pc.index < |org.wallets| && org.wallets[pc.index].path == pc.path && org.wallets[pc.index].maker != c
                    && Next(org, Advance(c)).wallets == org.wallets
                    && Next(org, Advance(c)).calls[c].pc == if pc.attempt == 3 then Returned(GaveUp)
                                                            else CountWallets(pc.attempt + 1))
  {
    hide Path;
    RunsKeep(EmptyOrg, steps);
    var org := Exec(EmptyOrg, steps);
    assert CallOk(org, c);
    ConflictExactly(org, org.calls[c].pc.index);
  }

  lemma StepGrows(org: Org, s: Step)
    ensures org.wallets <= Next(org, s).wallets && org.calls.Keys <= Next(org, s).calls.Keys
  {
    hide Path, Conflicts, AdvanceCall;
    if s.Advance? && s.c in org.calls {
      AdvanceShape(org, s.c);
    }
  }

  lemma {:induction false} WalletsGrow(org: Org, steps: seq<Step>)
    ensures org.wallets <= Exec(org, steps).wallets
    decreases |steps|
  {
    hide Next;
    if steps != [] {
      StepGrows(org, steps[0]);
      WalletsGrow(Next(org, steps[0]), steps[1..]);
    }
  }

  /** From the count to the insert of one attempt, with other calls acting before the derivation
      and before the insert: the signer derives an address exactly when the count is a 32-bit
      number; the insert succeeds exactly when no wallet was inserted in between, and otherwise the
      wallet that was inserted first in between, by another call, has the index, and the call
      counts again unless this was its third attempt. */
  lemma {:induction false} AttemptSucceedsExactly(steps: seq<Step>, c: CallId, mid: seq<Step>, late: seq<Step>)
    requires forall s :: s in mid + late ==> s.c != c
    requires var counting := Exec(EmptyOrg, steps); c in counting.calls && counting.calls[c].pc.CountWallets?
    ensures var counting := Exec(EmptyOrg, steps);
            var org := Exec(EmptyOrg, steps + [Advance(c)] + mid + [Advance(c)] + late);
            var attempt := counting.calls[c].pc.attempt;
            && c in org.calls && counting.wallets <= org.wallets
            && (if |counting.wallets| >= 0x1_0000_0000 then org.calls[c].pc == Returned(Errored)
                else org.calls[c].pc.InsertDerived? && org.calls[c].pc.path == Path(|counting.wallets|))
            && (org.calls[c].pc.InsertDerived? ==>
                  var pc, after := org.calls[c].pc, Next(org, Advance(c));
                  && (after.calls[c].pc == Audit(pc.address) <==> org.wallets == counting.wallets)
                  && (org.wallets != counting.wallets ==>
                        && org.wallets[|counting.wallets|].path == pc.path
                        && org.wallets[|counting.wallets|].maker != c
                        && after.wallets == org.wallets
                        && after.calls[c].pc == if attempt == 3 then Returned(GaveUp) else CountWallets(attempt + 1)))
  {
    hide Next, Path;
    var counted := steps + [Advance(c)];
    var derived := counted + mid + [Advance(c)];
    var all := derived + late;
    ExecSnoc(EmptyOrg, steps, Advance(c));
    ExecConcat(EmptyOrg, counted, mid);
    ExecSnoc(EmptyOrg, counted + mid, Advance(c));
    ExecConcat(EmptyOrg, derived, late);
    StepGrows(Exec(EmptyOrg, steps), Advance(c));
    OthersKeepCall(Exec(EmptyOrg, counted), mid, c);
    CountKeepsCall(Exec(EmptyOrg, steps), c);
    HasSeed(counted + mid, c);
    CountThenDerive(Exec(EmptyOrg, steps), Exec(EmptyOrg, counted + mid), c);
    OthersKeepCall(Exec(EmptyOrg, derived), late, c);
    var org := Exec(EmptyOrg, all);
    WalletsGrow(Exec(EmptyOrg, counted), mid);
    StepGrows(Exec(EmptyOrg, counted + mid), Advance(c));
    WalletsGrow(Exec(EmptyOrg, derived), late);
    assert Exec(EmptyOrg, steps).wallets <= org.wallets;
    if org.calls[c].pc.InsertDerived? {
      InsertSucceedsExactly(all, c);
    }
  }

  lemma CountKeepsCall(org: Org, c: CallId)
    requires c in org.calls && org.calls[c].pc.CountWallets?
    ensures c in Next(org, Advance(c)).calls && Next(org, Advance(c)).calls[c].pc.Derive?
  {
  }

  lemma {:induction false} HasSeed(steps: seq<Step>, c: CallId)
    requires var org := Exec(EmptyOrg, steps); c in org.calls && org.calls[c].pc.Derive?
    ensures Exec(EmptyOrg, steps).seed.Some?
  {
    hide Next, Path;
    RunsKeep(EmptyOrg, steps);
    assert CallOk(Exec(EmptyOrg, steps), c);
  }

  lemma CountThenDerive(counting: Org, deriving: Org, c: CallId)
    requires c in counting.calls && counting.calls[c].pc.CountWallets? && c in deriving.calls
    requires deriving.calls[c] == Next(counting, Advance(c)).calls[c]
    requires deriving.seed.Some?
    ensures c in Next(deriving, Advance(c)).calls
    ensures var count, attempt := |counting.wallets|, counting.calls[c].pc.attempt;
            Next(deriving, Advance(c)).calls[c].pc
            == if count >= 0x1_0000_0000 then Returned(Errored)
               else InsertDerived(attempt, count, Path(count), Address(deriving.seed.value, count))
  {
    hide Path;
  }

  /** The call takes its next `count` actions, one after the other. */
  function Advanced(org: Org, c: CallId, count: nat): Org {
    if count == 0 then org else Next(Advanced(org, c, count - 1), Advance(c))
  }

  /** A deriveWallet call nobody interferes with: without a seed, or with 2^32 wallets, it ends in
      error and changes nothing; otherwise it makes the next wallet and returns its address. */
  lemma {:induction false} DerivesAlone(steps: seq<Step>, c: CallId)
    requires c !in Exec(EmptyOrg, steps).calls
    ensures var org := Exec(EmptyOrg, steps);
            var org', n := Advanced(Next(org, BeginDerive(c)), c, 5), |org.wallets|;
            && org'.seed == org.seed && c in org'.calls
            && if org.seed.None? || n >= 0x1_0000_0000
               then org'.calls[c].pc == Returned(Errored) && org'.wallets == org.wallets
               else org'.calls[c].pc == Returned(Created(Address(org.seed.value, n)))
                    && org'.wallets == org.wallets + [Wallet(Path(n), Address(org.seed.value, n), c)]
  {
    hide Next, Path, Conflicts;
    var org := Exec(EmptyOrg, steps);
    RunsKeep(EmptyOrg, steps);
    var begun := Next(org, BeginDerive(c));
    BeginsCall(org, c);
    hide Advanced;
    AdvancedNone(begun, c);
    AdvancedStep(begun, c, 0);
    AdvancedStep(begun, c, 1);
    AdvancedStep(begun, c, 2);
    AdvancedStep(begun, c, 3);
    AdvancedStep(begun, c, 4);
    if org.seed.Some? {
      assert Advanced(begun, c, 3).wallets == org.wallets && Advanced(begun, c, 3).seed == org.seed;
      ConflictExactly(Advanced(begun, c, 3), |org.wallets|);
    }
  }

  lemma BeginsCall(org: Org, c: CallId)
    requires c !in org.calls
    ensures var begun := Next(org, BeginDerive(c));
            && c in begun.calls && begun.calls[c].pc == FindSeed && begun.seed == org.seed
            && begun.wallets == org.wallets
    ensures forall generated ::
              var begun := Next(org, BeginOnboard(c, generated));
              && c in begun.calls && begun.calls[c].pc == CheckSeed(generated) && begun.seed == org.seed
              && begun.wallets == org.wallets
  {
  }

  /** An onboarding call nobody interferes with: an organization that has a seed is refused and
      stays as it is; otherwise it gets the seed and the wallet of index 0. */
  lemma {:induction false} OnboardsAlone(steps: seq<Step>, c: CallId, generated: nat)
    requires c !in Exec(EmptyOrg, steps).calls
    ensures var org := Exec(EmptyOrg, steps);
            var org' := Advanced(Next(org, BeginOnboard(c, generated)), c, 4);
            && c in org'.calls
            && if org.seed.Some?
               then org'.calls[c].pc == Returned(Errored) && org'.seed == org.seed && org'.wallets == org.wallets
               else org'.calls[c].pc == Returned(Created(Address(generated, 0))) && org'.seed == Some(generated)
                    && org'.wallets == [Wallet("m/44'/60'/0'/0/0", Address(generated, 0), c)]
  {
    hide Next, Path;
    var org := Exec(EmptyOrg, steps);
    RunsKeep(EmptyOrg, steps);
    var begun := Next(org, BeginOnboard(c, generated));
    BeginsCall(org, c);
    hide Advanced;
    AdvancedNone(begun, c);
    AdvancedStep(begun, c, 0);
    AdvancedStep(begun, c, 1);
    AdvancedStep(begun, c, 2);
    AdvancedStep(begun, c, 3);
  }

  lemma {:induction false} AdvancedNone(org: Org, c: CallId)
    ensures Advanced(org, c, 0) == org
  {
  }

  lemma AdvancedStep(org: Org, c: CallId, count: nat)
    requires c in Advanced(org, c, count).calls
    ensures Advanced(org, c, count + 1) == AdvanceCall(Advanced(org, c, count), c)
    ensures c in Advanced(org, c, count + 1).calls
  {
    AdvanceShape(Advanced(org, c, count), c);
  }

  /** One call of deriveWallet: who interferes before its k-th await, and which of its calls to
      the database and the signer throw. */
  datatype Deriving = Deriving(c: CallId, env: nat -> seq<Step>, fails: nat -> bool)

  const AUDIT_AWAIT := 3 * MAX_DERIVE_ATTEMPTS + 3

  /** The k-th await: the others act, then the call does, or throws. */
  function Turn(d: Deriving, k: nat): seq<Step> {
    d.env(k) + [if d.fails(k) then Throw(d.c) else Advance(d.c)]
  }

  function After(t: seq<Step>): Org {
    Exec(EmptyOrg, t)
  }

  /** The wallet of the index is in when the insert is made. */
  predicate IsTaken(t: seq<Step>, d: Deriving, attempt: nat, index: nat) {
    index < |After(t + Turn(d, 3 * attempt + 1) + d.env(3 * attempt + 2)).wallets|
  }

  /** The signer gives no address. */
  predicate IsUnderivable(d: Deriving, attempt: nat, index: nat) {
    index >= UINT32_LIMIT || d.fails(3 * attempt + 1)
  }

  /** One turn of the loop, from the signer's derivation on. */
  function AttemptScript(t: seq<Step>, d: Deriving, attempt: nat, index: nat): seq<Step> {
    if IsUnderivable(d, attempt, index) then Turn(d, 3 * attempt + 1)
    else
      Turn(d, 3 * attempt + 1) + Turn(d, 3 * attempt + 2)
      + if d.fails(3 * attempt + 2) || IsTaken(t, d, attempt, index) then [] else Turn(d, AUDIT_AWAIT)
  }

  /** What the turn returns, if it does not go on to the next one. */
  function AttemptResult(t: seq<Step>, d: Deriving, attempt: nat, index: nat): Option<Result> {
    if IsUnderivable(d, attempt, index) || d.fails(3 * attempt + 2) then Some(Errored)
    else if IsTaken(t, d, attempt, index) then if attempt == MAX_DERIVE_ATTEMPTS then Some(GaveUp) else None
    else if d.fails(AUDIT_AWAIT) then Some(Errored)
    else
      match After(t).seed
      case None => Some(Errored)
      case Some(seed) => Some(Created(Address(seed, index)))
  }

  function Counted(t: seq<Step>, d: Deriving, attempt: nat): nat {
    |After(t + d.env(3 * attempt)).wallets|
  }

  /** The loop, entered with an index. */
  function LoopScript(t: seq<Step>, d: Deriving, attempt: nat, index: nat): seq<Step>
    requires attempt <= MAX_DERIVE_ATTEMPTS
    decreases MAX_DERIVE_ATTEMPTS - attempt
  {
    var script := AttemptScript(t, d, attempt, index);
    if AttemptResult(t, d, attempt, index).Some? then script
    else
      var recount := script + Turn(d, 3 * (attempt + 1));
      if d.fails(3 * (attempt + 1)) then recount
      else recount + LoopScript(t + recount, d, attempt + 1, Counted(t + script, d, attempt + 1))
  }

  function LoopResult(t: seq<Step>, d: Deriving, attempt: nat, index: nat): Result
    requires attempt <= MAX_DERIVE_ATTEMPTS
    decreases MAX_DERIVE_ATTEMPTS - attempt
  {
    match AttemptResult(t, d, attempt, index)
    case Some(result) => result
    case None =>
      var script := AttemptScript(t, d, attempt, index);
      if d.fails(3 * (attempt + 1)) then Errored
      else LoopResult(t + (script + Turn(d, 3 * (attempt + 1))), d, attempt + 1, Counted(t + script, d, attempt + 1))
  }

  /** The seed lookup fails or finds none. */
  predicate IsSeedless(t: seq<Step>, d: Deriving) {
    d.fails(0) || After(t + d.env(0)).seed.None?
  }

  /** The seed lookup, the first count, and the loop. */
  function DeriveScript(t: seq<Step>, d: Deriving): seq<Step> {
    if IsSeedless(t, d) then Turn(d, 0)
    else
      var counted := Turn(d, 0) + Turn(d, 3);
      if d.fails(3) then counted
      else counted + LoopScript(t + counted, d, 1, Counted(t + Turn(d, 0), d, 1))
  }

  function DeriveResult(t: seq<Step>, d: Deriving): Result {
    if IsSeedless(t, d) || d.fails(3) then Errored
    else LoopResult(t + (Turn(d, 0) + Turn(d, 3)), d, 1, Counted(t + Turn(d, 0), d, 1))
  }

  /** The wallets table and the calls of one organization. */
  class OrgWallets {
    var seed: Option<nat>
    var wallets: seq<Wallet>
    var calls: map<CallId, Call>
    ghost var trace: seq<Step>

    function State(): Org
      reads this
    {
      Org(seed, wallets, calls)
    }

    ghost predicate Valid()
      reads this
    {
      State() == Exec(EmptyOrg, trace)
    }

    constructor ()
      ensures Valid() && State() == EmptyOrg && trace == []
    {
      seed, wallets, calls, trace := None, [], map[], [];
    }

    /** The call is under way. */
    ghost predicate Running(d: Deriving)
      reads this
    {
      Valid() && d.c in calls && forall k, s :: s in d.env(k) ==> s.c != d.c
    }

    /** Others act, the call stays where it is. */
    method Await(d: Deriving, k: nat)
      requires Running(d)
      modifies this
      ensures Running(d) && calls[d.c] == old(calls[d.c]) && trace == old(trace) + d.env(k)
    {
      hide Next;
      OthersKeepCall(State(), d.env(k), d.c);
      ExecConcat(EmptyOrg, trace, d.env(k));
      var org := Exec(State(), d.env(k));
      seed, wallets, calls := org.seed, org.wallets, org.calls;
      trace := trace + d.env(k);
    }

    /** Books a step whose effect on the wallets has taken place. */
    method Note(before: Org, s: Step)
      requires before == Exec(EmptyOrg, trace) && wallets == Next(before, s).wallets && seed == Next(before, s).seed
      modifies this`calls, this`trace
      ensures Valid() && State() == Next(before, s) && trace == old(trace) + [s]
    {
      hide Next;
      ExecSnoc(EmptyOrg, trace, s);
      calls := Next(before, s).calls;
      trace := trace + [s];
    }

    /** INSERT INTO wallets under the unique constraints on path and address. */
    method Create(wallet: Wallet) returns (created: bool)
      modifies this`wallets
      ensures created <==> !Conflicts(old(State()), wallet.path, wallet.address)
      ensures wallets == if created then old(wallets) + [wallet] else old(wallets)
    {
      created := true;
      for i := 0 to |wallets|
        invariant created <==> forall j :: 0 <= j < i ==>
                  wallets[j].path != wallet.path && wallets[j].address != wallet.address
      {
        if wallets[i].path == wallet.path || wallets[i].address == wallet.address {
          created := false;
        }
      }
      if created {
        wallets := wallets + [wallet];
      }
    }

    /** Count, derive, insert; at most three attempts, with other calls acting in between. The
        call takes the steps of its script and no others, and returns what the script's seed
        lookup, counts and inserts determine. */
    method DeriveWallet(d: Deriving) returns (result: Result)
      requires Valid() && d.c !in calls && forall k, s :: s in d.env(k) ==> s.c != d.c
      modifies this
      ensures Running(d) && calls[d.c].pc == Returned(result)
      ensures var begun := old(trace) + [BeginDerive(d.c)];
              trace == begun + DeriveScript(begun, d) && result == DeriveResult(begun, d)
      ensures result.Created? ==>
                result.address.index < |wallets| && wallets[result.address.index].address == result.address
                                  && wallets[result.address.index].maker == d.c
      ensures result.GaveUp? ==> |wallets| >= |old(wallets)| + MAX_DERIVE_ATTEMPTS
    {
      hide Valid, LoopScript, LoopResult, Counted, Turn, After;
      ghost var count := |wallets|;
      Begin(d);
      ghost var begun := trace;
      var seeded := LoadSeed(d);
      if !seeded {
        return Errored;
      }
      var ok, index := Count(d, 1);
      Assoc(begun, Turn(d, 0), Turn(d, 3));
      if !ok {
        return Errored;
      }
      result := Loop(d, index);
      Assoc(begun, Turn(d, 0) + Turn(d, 3), LoopScript(begun + (Turn(d, 0) + Turn(d, 3)), d, 1, index));
      ReturnedMeans(d, result);
    }

    method Loop(d: Deriving, first: nat) returns (result: Result)
      requires Running(d) && calls[d.c].pc == Derive(1, first)
      modifies this
      ensures Running(d) && calls[d.c] == Call(Returned(result), old(calls[d.c].began))
      ensures trace == old(trace) + LoopScript(old(trace), d, 1, first)
      ensures result == LoopResult(old(trace), d, 1, first)
    {
      hide Valid, AttemptScript, AttemptResult, Counted, Turn, After;
      var attempt, index := 1, first;
      ghost var start := trace;
      while true
        invariant Running(d) && 1 <= attempt <= MAX_DERIVE_ATTEMPTS
        invariant calls[d.c] == Call(Derive(attempt, index), old(calls[d.c].began))
        invariant trace + LoopScript(trace, d, attempt, index) == start + LoopScript(start, d, 1, first)
        invariant LoopResult(trace, d, attempt, index) == LoopResult(start, d, 1, first)
        decreases MAX_DERIVE_ATTEMPTS - attempt
      {
        ghost var t := trace;
        var done := Attempt(d, attempt, index);
        if done.Some? {
          return done.value;
        }
        ghost var script := AttemptScript(t, d, attempt, index);
        var ok, next := Count(d, attempt + 1);
        Assoc(t, script, Turn(d, 3 * (attempt + 1)));
        if !ok {
          return Errored;
        }
        Assoc(t, script + Turn(d, 3 * (attempt + 1)), LoopScript(trace, d, attempt + 1, next));
        attempt, index := attempt + 1, next;
      }
    }

    lemma ReturnedMeans(d: Deriving, result: Result)
      requires Running(d) && calls[d.c].pc == Returned(result)
      ensures result.Created? ==>
                result.address.index < |wallets| && wallets[result.address.index].address == result.address
                                  && wallets[result.address.index].maker == d.c
      ensures result.GaveUp? ==> |wallets| >= calls[d.c].began + MAX_DERIVE_ATTEMPTS
    {
      hide Next, Path;
      RunsKeep(EmptyOrg, trace);
      assert CallOk(State(), d.c);
    }

    method Begin(d: Deriving)
      requires Valid() && d.c !in calls && forall k, s :: s in d.env(k) ==> s.c != d.c
      modifies this`calls, this`trace
      ensures Running(d) && trace == old(trace) + [BeginDerive(d.c)]
      ensures calls[d.c] == Call(FindSeed, |old(wallets)|)
    {
      Note(State(), BeginDerive(d.c));
    }

    /** The call throws, and is over. */
    method Fail(d: Deriving, k: nat)
      requires Running(d) && d.fails(k) && !calls[d.c].pc.Returned?
      modifies this
      ensures Running(d) && trace == old(trace) + Turn(d, k)
      ensures calls[d.c] == Call(Returned(Errored), old(calls[d.c].began))
    {
      Await(d, k);
      Note(State(), Throw(d.c));
      Assoc(old(trace), d.env(k), [Throw(d.c)]);
    }

    method LoadSeed(d: Deriving) returns (seeded: bool)
      requires Running(d) && calls[d.c].pc == FindSeed
      modifies this
      ensures Running(d) && trace == old(trace) + Turn(d, 0)
      ensures seeded == !IsSeedless(old(trace), d)
      ensures calls[d.c] == Call(if seeded then CountWallets(1) else Returned(Errored), old(calls[d.c].began))
    {
      if d.fails(0) {
        Fail(d, 0);
        return false;
      }
      Await(d, 0);
      seeded := seed.Some?;
      Note(State(), Advance(d.c));
      Assoc(old(trace), d.env(0), [Advance(d.c)]);
    }

    /** The index to try is the number of wallets. */
    method Count(d: Deriving, attempt: nat) returns (ok: bool, index: nat)
      requires Running(d) && calls[d.c].pc == CountWallets(attempt)
      modifies this
      ensures Running(d) && trace == old(trace) + Turn(d, 3 * attempt) && ok == !d.fails(3 * attempt)
      ensures ok ==> index == |wallets| == Counted(old(trace), d, attempt)
      ensures calls[d.c] == Call(if ok then Derive(attempt, index) else Returned(Errored), old(calls[d.c].began))
    {
      if d.fails(3 * attempt) {
        Fail(d, 3 * attempt);
        return false, 0;
      }
      Await(d, 3 * attempt);
      ok, index := true, |wallets|;
      Note(State(), Advance(d.c));
      Assoc(old(trace), d.env(3 * attempt), [Advance(d.c)]);
    }

    /** One turn of the loop, without the recount. */
    method Attempt(d: Deriving, attempt: nat, index: nat) returns (done: Option<Result>)
      requires Running(d) && calls[d.c].pc == Derive(attempt, index) && attempt <= MAX_DERIVE_ATTEMPTS
      modifies this
      ensures Running(d) && trace == old(trace) + AttemptScript(old(trace), d, attempt, index)
      ensures done == AttemptResult(old(trace), d, attempt, index)
      ensures done.None? ==> attempt < MAX_DERIVE_ATTEMPTS
      ensures calls[d.c] == Call(if done.Some? then Returned(done.value) else CountWallets(attempt + 1),
                                 old(calls[d.c].began))
    {
      hide Valid, Turn, After;
      ghost var t := trace;
      var derived := DeriveAddress(d, attempt, index);
      if derived.None? {
        return Some(Errored);
      }
      ghost var turns := Turn(d, 3 * attempt + 1) + Turn(d, 3 * attempt + 2);
      Assoc(t, Turn(d, 3 * attempt + 1), Turn(d, 3 * attempt + 2));
      Unit(turns);
      if d.fails(3 * attempt + 2) {
        Fail(d, 3 * attempt + 2);
        return Some(Errored);
      }
      var created := InsertWallet(d, attempt, index, derived.value);
      if !created {
        return if attempt == MAX_DERIVE_ATTEMPTS then Some(GaveUp) else None;
      }
      RecordAudit(d);
      Assoc(t, turns, Turn(d, AUDIT_AWAIT));
      return Some(if d.fails(AUDIT_AWAIT) then Errored else Created(derived.value));
    }

    /** The signer derives the address of the index; it takes 32-bit indices only. */
    method DeriveAddress(d: Deriving, attempt: nat, index: nat) returns (address: Option<Address>)
      requires Running(d) && calls[d.c].pc == Derive(attempt, index)
      modifies this
      ensures Running(d) && trace == old(trace) + Turn(d, 3 * attempt + 1)
      ensures address.None? <==> IsUnderivable(d, attempt, index)
      ensures address.Some? ==> After(old(trace)).seed == Some(address.value.seed) && address.value.index == index
      ensures calls[d.c] == Call(match address
                                 case None => Returned(Errored)
                                 case Some(a) => InsertDerived(attempt, index, Path(index), a), old(calls[d.c].began))
    {
      hide Path;
      if d.fails(3 * attempt + 1) {
        Fail(d, 3 * attempt + 1);
        return None;
      }
      SeedStays(d, 3 * attempt + 1);
      Await(d, 3 * attempt + 1);
      address := if index >= UINT32_LIMIT || seed.None? then None else Some(Address(seed.value, index));
      Note(State(), Advance(d.c));
      Assoc(old(trace), d.env(3 * attempt + 1), [Advance(d.c)]);
    }

    /** A call that counts wallets has found the seed, and a seed stays. */
    lemma SeedStays(d: Deriving, k: nat)
      requires Running(d) && calls[d.c].pc.Derive?
      ensures seed.Some? && After(trace + d.env(k)).seed == seed
    {
      hide Next, Path;
      RunsKeep(EmptyOrg, trace);
      assert CallOk(State(), d.c);
      ExecConcat(EmptyOrg, trace, d.env(k));
      SeedKept(State(), d.env(k));
    }

    /** The insert, arbitrated by the unique constraints. */
    method InsertWallet(d: Deriving, attempt: nat, index: nat, address: Address) returns (created: bool)
      requires Running(d) && calls[d.c].pc == InsertDerived(attempt, index, Path(index), address)
      requires !d.fails(3 * attempt + 2)
      modifies this
      ensures Running(d) && trace == old(trace) + Turn(d, 3 * attempt + 2)
      ensures created <==> index >= |After(old(trace) + d.env(3 * attempt + 2)).wallets|
      ensures calls[d.c] == Call(if created then Audit(address)
                                 else if attempt == MAX_DERIVE_ATTEMPTS then Returned(GaveUp)
                                 else CountWallets(attempt + 1), old(calls[d.c].began))
    {
      hide Path;
      Await(d, 3 * attempt + 2);
      var before := State();
      InsertConflicts(d);
      created := Create(Wallet(Path(index), address, d.c));
      Note(before, Advance(d.c));
      Assoc(old(trace), d.env(3 * attempt + 2), [Advance(d.c)]);
    }

    lemma InsertConflicts(d: Deriving)
      requires Running(d) && calls[d.c].pc.InsertDerived?
      ensures var pc := calls[d.c].pc;
              Conflicts(State(), pc.path, pc.address) <==> pc.index < |wallets|
    {
      hide Next, Path;
      RunsKeep(EmptyOrg, trace);
      assert CallOk(State(), d.c);
      ConflictExactly(State(), calls[d.c].pc.index);
    }

    /** The audit entry; if it fails the call does, although its wallet is in. */
    method RecordAudit(d: Deriving)
      requires Running(d) && calls[d.c].pc.Audit?
      modifies this
      ensures Running(d) && trace == old(trace) + Turn(d, AUDIT_AWAIT)
      ensures calls[d.c] == Call(Returned(if d.fails(AUDIT_AWAIT) then Errored
                                          else Created(old(calls[d.c].pc.address))),
                                 old(calls[d.c].began))
    {
      if d.fails(AUDIT_AWAIT) {
        Fail(d, AUDIT_AWAIT);
        return;
      }
      Await(d, AUDIT_AWAIT);
      Note(State(), Advance(d.c));
      Assoc(old(trace), d.env(AUDIT_AWAIT), [Advance(d.c)]);
    }
  }

  lemma {:induction false} SeedKept(org: Org, steps: seq<Step>)
    requires org.seed.Some?
    ensures Exec(org, steps).seed == org.seed
    decreases |steps|
  {
    hide AdvanceCall;
    if steps != [] {
      var s := steps[0];
      if s.Advance? && s.c in org.calls {
        AdvanceShape(org, s.c);
      }
      SeedKept(Next(org, s), steps[1..]);
    }
  }

  lemma Assoc(a: seq<Step>, b: seq<Step>, c: seq<Step>)
    ensures a + b + c == a + (b + c)
  {
  }

  lemma Unit(a: seq<Step>)
    ensures a + [] == a
  {
  }
}
