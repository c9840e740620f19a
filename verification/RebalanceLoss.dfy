/** A run of the node that loses funds, and a balanced batch that is refused: what the double count
    of slots present at zero does. */
module RebalanceLoss {
  import opened Options
  import opened Sums
  import opened Decimals
  import opened Channels
  import opened Advancer
  import opened Chains
  import opened Packing
  import opened Quorum
  import opened Allocations
  import opened NodeModel
  import opened Invariants
  import opened Conservation
  import opened Settlement
  import opened DepositEndpoint
  import opened Runs
  import opened Opening
  import opened Progress

  /** Alice's deposit is to be twice the half. She and Bob take part in two sessions of an application. */
  datatype Example = Example(u: Setup, half: Decimal, bob: Wallet, application: string)

  ghost predicate Possible(cfg: Config, e: Example) {
    && Usable(cfg, e.u) && e.u.amount.value == 2.0 * e.half.value && e.bob != e.u.k.wallet && e.application != ""
    && cfg.maxParticipants >= 2 && cfg.maxSignedUpdates >= 2
  }

  // ---------- The sessions ----------

  function Members(e: Example): seq<Participant> {
    [Participant(e.u.k.wallet, 1), Participant(e.bob, 1)]
  }

  function DefinitionOf(e: Example, nonce: nat): Definition {
    Definition(e.application, Members(e), 1, nonce)
  }

  function SessionAt(e: Example, nonce: nat): Id {
    SessionIdOf(DefinitionOf(e, nonce))
  }

  /** A session of theirs at some version, still open. */
  function Active(e: Example, nonce: nat, version: nat): Session {
    Session(e.application, Members(e), 1, nonce, Open, version, "")
  }

  /** Alice signs alone. */
  function BySelf(e: Example): seq<Option<Wallet>> {
    [Some(e.u.k.wallet)]
  }

  lemma MembersWeigh(e: Example)
    requires e.bob != e.u.k.wallet
    ensures Weights(Members(e)) == map[e.u.k.wallet := 1, e.bob := 1]
    ensures WeightOf(Weights(Members(e)).Keys, Weights(Members(e))) == 2
    ensures DefinitionValid(Members(e), 1)
  {
    var ps, alice := Members(e), e.u.k.wallet;
    assert ps[..1] == [ps[0]] && ps[..1][..0] == [];
    assert Weights(ps[..1]) == map[alice := 1];
    var weights := Weights(ps);
    WeightWith({}, weights, alice);
    assert {} + {alice} == {alice};
    WeightWith({alice}, weights, e.bob);
    assert weights.Keys == {alice} + {e.bob};
  }

  lemma SelfSuffices(e: Example)
    requires e.bob != e.u.k.wallet
    ensures QuorumMet(Weights(Members(e)), 1, BySelf(e))
  {
    MembersWeigh(e);
    var weights, alice := Weights(Members(e)), e.u.k.wallet;
    assert Signers(BySelf(e)) == {alice} by {
      assert Some(alice) in BySelf(e);
    }
    WeightWith({}, weights, alice);
    assert {} + {alice} == {alice};
  }

  lemma Recognized(cfg: Config, e: Example, ns: NodeState, nonce: nat, version: nat, u: Update)
    requires e.bob != e.u.k.wallet && u.session == SessionAt(e, nonce) && u.data == "" && u.version == version + 1
    requires u.session in ns.sessions && ns.sessions[u.session] == Active(e, nonce, version)
    ensures Authorized(cfg, ns, SignedUpdate(u, BySelf(e), true))
    ensures WeightsIn(ns, u.session) == map[e.u.k.wallet := 1, e.bob := 1]
    ensures Advanced(ns.sessions[u.session], u, Open) == Active(e, nonce, version + 1)
  {
    SelfSuffices(e);
    MembersWeigh(e);
  }

  function SessionCreation(e: Example, nonce: nat): Op {
    CreateSession(DefinitionOf(e, nonce), "", BySelf(e), true)
  }

  lemma SessionAccepted(cfg: Config, e: Example, ns: NodeState, nonce: nat)
    requires Possible(cfg, e) && nonce != 0 && SessionAt(e, nonce) !in ns.sessions
    ensures AcceptsSession(cfg, ns, DefinitionOf(e, nonce), "", BySelf(e), true)
  {
    SelfSuffices(e);
    MembersWeigh(e);
  }

  lemma SessionStep(cfg: Config, e: Example, ns: NodeState, nonce: nat) returns (after: NodeState)
    requires Possible(cfg, e) && nonce != 0 && SessionAt(e, nonce) !in ns.sessions
    ensures Step(cfg, ns, SessionCreation(e, nonce), after)
    ensures after.chains == ns.chains && Allocated(after.entries) == Allocated(ns.entries)
    ensures after.sessions == ns.sessions[SessionAt(e, nonce) := Active(e, nonce, 1)]
  {
    SessionAccepted(cfg, e, ns, nonce);
    after := StepExists(cfg, ns, SessionCreation(e, nonce));
    NothingMoved(ns, SessionEffect(DefinitionOf(e, nonce), ""), after);
  }

  lemma NothingMoved(ns: NodeState, eff: Effect, after: NodeState)
    requires Applied(ns, eff, after) && eff.changes == map[] && eff.appended == map[]
    ensures after.chains == ns.chains && Allocated(after.entries) == Allocated(ns.entries)
  {
    assert after.entries == ns.entries;
  }

  // ---------- The slots ----------

  function AliceSlot(e: Example): Slot {
    Slot(SessionAt(e, 1), e.u.k.wallet, e.u.k.asset)
  }

  function BobSlot(e: Example): Slot {
    Slot(SessionAt(e, 1), e.bob, e.u.k.asset)
  }

  function BobKey(e: Example): Key {
    Key(e.bob, e.u.k.asset)
  }

  function For(e: Example, wallet: Wallet, amount: Decimal): Allocation {
    Allocation(wallet, e.u.k.asset, amount)
  }

  lemma ListedOne(session: Id, a: Allocation)
    ensures Listed(session, [a]) == map[SlotOf(session, a) := a.amount.value]
  {
    assert [a][..0] == [];
  }

  lemma ListedTwo(session: Id, a: Allocation, b: Allocation)
    ensures Listed(session, [a, b]) == map[SlotOf(session, a) := a.amount.value][SlotOf(session, b) := b.amount.value]
  {
    ListedOne(session, a);
    assert [a, b][..1] == [a];
  }

  lemma AllocatedAfter(ns: NodeState, eff: Effect, after: NodeState, m: map<Slot, real>)
    requires Applied(ns, eff, after)
    requires m.Keys == Allocated(ns.entries).Keys + eff.changes.Keys
    requires forall k :: k in m ==> m[k] == Get(Allocated(ns.entries), k) + Get(eff.changes, k)
    ensures Allocated(after.entries) == m
  {
    var added := after.entries[|ns.entries|..];
    assert after.entries == ns.entries + added;
    RecordingAdds(ns.entries, added, eff.changes);
    forall k | k in m ensures Allocated(after.entries)[k] == m[k] {
      assert Get(Allocated(after.entries), k) == m[k];
    }
  }

  lemma TwoSlots(p: Slot, q: Slot, x: real, y: real, a: Asset)
    requires p != q && p.asset == q.asset
    ensures Sum(OfAsset(map[p := x, q := y], a)) == if a == p.asset then x + y else 0.0
  {
    SumOneAsset(map[p := x, q := y], p.asset, a);
    SumUpdate(map[], p, x);
    SumUpdate(map[p := x], q, y);
  }

  lemma OneSlot(p: Slot, x: real, a: Asset)
    ensures Sum(OfAsset(map[p := x], a)) == if a == p.asset then x else 0.0
  {
    SumOneAsset(map[p := x], p.asset, a);
    SumUpdate(map[], p, x);
  }

  lemma DeltaTwo(p: Slot, q: Slot, x: real)
    requires p != q && x != 0.0
    ensures Delta(map[p := x], map[p := 0.0, q := x]) == map[p := -x, q := x]
  {}

  lemma SlotsDiffer(e: Example)
    requires e.bob != e.u.k.wallet
    ensures AliceSlot(e) != BobSlot(e) && AliceSlot(e).asset == BobSlot(e).asset == e.u.k.asset
    ensures AliceSlot(e).session == BobSlot(e).session == SessionAt(e, 1) != SessionAt(e, 2)
  {}

  // ---------- Alice deposits everything ----------

  function Commitment(cfg: Config, e: Example): State {
    Signed(Apply(NextState(First(cfg, e.u)), CommitTo(HashAccount(SessionAt(e, 1)), e.u.amount)).value)
  }

  function DepositUpdate(e: Example): SignedUpdate {
    SignedUpdate(Update(SessionAt(e, 1), Deposit, 2, [For(e, e.u.k.wallet, e.u.amount)], ""), BySelf(e), true)
  }

  const ALLOWED := Checks(true, true, true, true)

  lemma CommitmentIs(cfg: Config, e: Example)
    requires Usable(cfg, e.u)
    ensures var p := Commitment(cfg, e);
      && Advances(First(cfg, e.u), p, cfg.store.AssetDecimals(e.u.k.asset)) && PackLedgers(p, cfg.store).Some?
      && p.transition.kind == Commit && p.transition.account == HashAccount(SessionAt(e, 1))
      && p.transition.amount == e.u.amount && KeyOf(p) == e.u.k && p.userSigned
  {
    FirstIs(cfg, e.u);
    CommitmentPacks(cfg, e);
    assert Builds(First(cfg, e.u), Commitment(cfg, e), CommitTo(HashAccount(SessionAt(e, 1)), e.u.amount));
  }

  lemma CommitmentPacks(cfg: Config, e: Example)
    requires Usable(cfg, e.u)
    ensures PackLedgers(Commitment(cfg, e), cfg.store).Some?
  {
    FirstIs(cfg, e.u);
    var p := Commitment(cfg, e);
    assert p.home == Ledger(e.u.token, e.u.chain, 0.0, e.u.amount.value, 0.0, -e.u.amount.value);
    MultiplesScale(p.home, e.u.amount, cfg.store.AssetDecimals(e.u.k.asset).value, cfg.store);
  }

  lemma DepositFits(cfg: Config, e: Example, ns: NodeState)
    requires Possible(cfg, e) && CurrentOf(ns, SessionAt(e, 1)) == map[]
    requires WeightsIn(ns, SessionAt(e, 1)) == map[e.u.k.wallet := 1, e.bob := 1]
    ensures DepositOk(cfg, ns, Commitment(cfg, e), DepositUpdate(e).update)
    ensures ListedBy(DepositUpdate(e).update) == map[AliceSlot(e) := e.u.amount.value]
  {
    CommitmentIs(cfg, e);
    var u, listed := DepositUpdate(e).update, map[AliceSlot(e) := e.u.amount.value];
    ListedOne(SessionAt(e, 1), u.allocations[0]);
    SumUpdate(map[], AliceSlot(e), e.u.amount.value);
    assert Delta(map[], map[] + listed) == map[][AliceSlot(e) := e.u.amount.value];
  }

  lemma DepositTaken(cfg: Config, e: Example, ns: NodeState)
    requires Possible(cfg, e) && ns.chains == map[e.u.k := [First(cfg, e.u)]] && Allocated(ns.entries) == map[]
    requires SessionAt(e, 1) in ns.sessions && ns.sessions[SessionAt(e, 1)] == Active(e, 1, 1)
    ensures AcceptsDeposit(cfg, ns, Commitment(cfg, e), DepositUpdate(e), ALLOWED)
    ensures CurrentOf(ns, SessionAt(e, 1)) == map[]
    ensures ListedBy(DepositUpdate(e).update) == map[AliceSlot(e) := e.u.amount.value]
  {
    var p, su := Commitment(cfg, e), DepositUpdate(e);
    assert CurrentOf(ns, SessionAt(e, 1)) == map[];
    Recognized(cfg, e, ns, 1, 1, su.update);
    CommitmentIs(cfg, e);
    OnlyChain(cfg, ns, e.u.k, First(cfg, e.u), p);
    DepositFits(cfg, e, ns);
    AcceptsDepositIs(cfg, ns, p, su, ALLOWED);
  }

  lemma DepositRealized(cfg: Config, ns: NodeState, p: State, su: SignedUpdate, c: Checks) returns (after: NodeState)
    requires AcceptsDeposit(cfg, ns, p, su, c)
    ensures su.update.session in ns.sessions && Applied(ns, DepositEffect(ns, p, su.update), after)
    ensures Step(cfg, ns, SubmitDeposit(p, su, c), after)
  {
    assert su.update.session in ns.sessions;
    after := Realize(ns, DepositEffect(ns, p, su.update));
    DepositApplied(cfg, ns, p, su, c, after);
  }

  lemma DepositApplied(cfg: Config, ns: NodeState, p: State, su: SignedUpdate, c: Checks, after: NodeState)
    requires AcceptsDeposit(cfg, ns, p, su, c) && Applied(ns, DepositEffect(ns, p, su.update), after)
    ensures Step(cfg, ns, SubmitDeposit(p, su, c), after)
  {
    DepositEffectIs(cfg, ns, p, su, c);
    AcceptedApplied(cfg, ns, SubmitDeposit(p, su, c), DepositEffect(ns, p, su.update), after);
  }

  lemma AcceptedApplied(cfg: Config, ns: NodeState, op: Op, eff: Effect, after: NodeState)
    requires Accepts(cfg, ns, op) && EffectOf(cfg, ns, op) == eff && Applied(ns, eff, after)
    ensures Step(cfg, ns, op, after)
  {}

  lemma DepositStep(cfg: Config, e: Example, ns: NodeState) returns (after: NodeState)
    requires Possible(cfg, e) && ns.chains == map[e.u.k := [First(cfg, e.u)]] && Allocated(ns.entries) == map[]
    requires SessionAt(e, 1) in ns.sessions && ns.sessions[SessionAt(e, 1)] == Active(e, 1, 1)
    ensures Step(cfg, ns, SubmitDeposit(Commitment(cfg, e), DepositUpdate(e), ALLOWED), after)
    ensures Allocated(after.entries) == map[AliceSlot(e) := e.u.amount.value] && BobKey(e) !in after.chains
    ensures after.sessions == ns.sessions[SessionAt(e, 1) := Active(e, 1, 2)]
  {
    DepositTaken(cfg, e, ns);
    after := DepositRealized(cfg, ns, Commitment(cfg, e), DepositUpdate(e), ALLOWED);
    DepositMoves(cfg, e, ns, after);
    BobHasNoChain(cfg, e, ns, after);
  }

  lemma BobHasNoChain(cfg: Config, e: Example, ns: NodeState, after: NodeState)
    requires Possible(cfg, e) && SessionAt(e, 1) in ns.sessions && BobKey(e) !in ns.chains
    requires Applied(ns, DepositEffect(ns, Commitment(cfg, e), DepositUpdate(e).update), after)
    ensures BobKey(e) !in after.chains
  {
    CommitmentIs(cfg, e);
    OnlyOwnChain(ns, Commitment(cfg, e), DepositUpdate(e).update, after, BobKey(e));
  }

  /** A deposit appends to the chain of its user only. */
  lemma OnlyOwnChain(ns: NodeState, p: State, u: Update, after: NodeState, k: Key)
    requires u.session in ns.sessions && p.transition.kind == Commit && Applied(ns, DepositEffect(ns, p, u), after)
    requires k !in ns.chains && k != KeyOf(p)
    ensures k !in after.chains
  {}

  lemma OnlyChain(cfg: Config, ns: NodeState, k: Key, cur: State, p: State)
    requires ns.chains == map[k := [cur]] && KeyOf(p) == k && p.userSigned
    requires Advances(cur, p, cfg.store.AssetDecimals(k.asset)) && PackLedgers(p, cfg.store).Some?
    ensures CoSignable(cfg, ns, p, true)
  {
    assert ChainOf(ns.chains, k) == [cur];
  }

  lemma DepositMoves(cfg: Config, e: Example, ns: NodeState, after: NodeState)
    requires Possible(cfg, e) && Allocated(ns.entries) == map[] && CurrentOf(ns, SessionAt(e, 1)) == map[]
    requires SessionAt(e, 1) in ns.sessions && ns.sessions[SessionAt(e, 1)] == Active(e, 1, 1)
    requires ListedBy(DepositUpdate(e).update) == map[AliceSlot(e) := e.u.amount.value]
    requires Applied(ns, DepositEffect(ns, Commitment(cfg, e), DepositUpdate(e).update), after)
    ensures Allocated(after.entries) == map[AliceSlot(e) := e.u.amount.value]
    ensures after.sessions == ns.sessions[SessionAt(e, 1) := Active(e, 1, 2)]
  {
    var eff := DepositEffect(ns, Commitment(cfg, e), DepositUpdate(e).update);
    assert eff.changes == map[AliceSlot(e) := e.u.amount.value];
    AllocatedAfter(ns, eff, after, map[AliceSlot(e) := e.u.amount.value]);
  }

  // ---------- She gives it to Bob ----------

  function GiftUpdate(e: Example): SignedUpdate {
    SignedUpdate(Update(SessionAt(e, 1), Operate, 3, [For(e, e.u.k.wallet, ZERO), For(e, e.bob, e.u.amount)], ""),
      BySelf(e), true)
  }

  lemma GiftFits(cfg: Config, e: Example, ns: NodeState)
    requires Possible(cfg, e) && CurrentOf(ns, SessionAt(e, 1)) == map[AliceSlot(e) := e.u.amount.value]
    requires WeightsIn(ns, SessionAt(e, 1)) == map[e.u.k.wallet := 1, e.bob := 1]
    ensures OperateOk(cfg, ns, GiftUpdate(e).update)
    ensures ListedBy(GiftUpdate(e).update) == map[AliceSlot(e) := 0.0, BobSlot(e) := e.u.amount.value]
  {
    var u, x := GiftUpdate(e).update, e.u.amount.value;
    ListedTwo(SessionAt(e, 1), u.allocations[0], u.allocations[1]);
    SlotsDiffer(e);
    forall a ensures Sum(OfAsset(ListedBy(u), a)) == Sum(OfAsset(CurrentOf(ns, SessionAt(e, 1)), a)) {
      TwoSlots(AliceSlot(e), BobSlot(e), 0.0, x, a);
      OneSlot(AliceSlot(e), x, a);
    }
  }

  lemma GiftStep(cfg: Config, e: Example, ns: NodeState) returns (after: NodeState)
    requires Possible(cfg, e) && Allocated(ns.entries) == map[AliceSlot(e) := e.u.amount.value]
    requires SessionAt(e, 1) in ns.sessions && ns.sessions[SessionAt(e, 1)] == Active(e, 1, 2)
    ensures Step(cfg, ns, SubmitUpdate(GiftUpdate(e)), after)
    ensures Allocated(after.entries) == map[AliceSlot(e) := 0.0, BobSlot(e) := e.u.amount.value]
    ensures after.chains == ns.chains
    ensures after.sessions == ns.sessions[SessionAt(e, 1) := Active(e, 1, 3)]
  {
    assert CurrentOf(ns, SessionAt(e, 1)) == map[AliceSlot(e) := e.u.amount.value];
    GiftAccepted(cfg, e, ns);
    after := StepExists(cfg, ns, SubmitUpdate(GiftUpdate(e)));
    UpdateApplied(cfg, ns, GiftUpdate(e), after);
    OperateIssuesNothing(ns, GiftUpdate(e).update, after);
    GiftMoves(e, ns, after);
  }

  lemma OperateIssuesNothing(ns: NodeState, u: Update, after: NodeState)
    requires u.session in ns.sessions && u.intent == Operate && Applied(ns, UpdateEffect(ns, u), after)
    ensures after.chains == ns.chains
  {}

  lemma GiftAccepted(cfg: Config, e: Example, ns: NodeState)
    requires Possible(cfg, e) && CurrentOf(ns, SessionAt(e, 1)) == map[AliceSlot(e) := e.u.amount.value]
    requires SessionAt(e, 1) in ns.sessions && ns.sessions[SessionAt(e, 1)] == Active(e, 1, 2)
    ensures AcceptsUpdate(cfg, ns, GiftUpdate(e))
    ensures ListedBy(GiftUpdate(e).update) == map[AliceSlot(e) := 0.0, BobSlot(e) := e.u.amount.value]
  {
    Recognized(cfg, e, ns, 1, 2, GiftUpdate(e).update);
    GiftFits(cfg, e, ns);
  }

  lemma UpdateApplied(cfg: Config, ns: NodeState, su: SignedUpdate, after: NodeState)
    requires AcceptsUpdate(cfg, ns, su) && Step(cfg, ns, SubmitUpdate(su), after)
    ensures Applied(ns, UpdateEffect(ns, su.update), after)
  {}

  lemma GiftAllocated(ns: NodeState, eff: Effect, after: NodeState, p: Slot, q: Slot, x: real)
    requires Applied(ns, eff, after) && Allocated(ns.entries) == map[p := x] && p != q
    requires eff.changes == map[p := -x, q := x]
    ensures Allocated(after.entries) == map[p := 0.0, q := x]
  {
    AllocatedAfter(ns, eff, after, map[p := 0.0, q := x]);
  }

  lemma GiftMoves(e: Example, ns: NodeState, after: NodeState)
    requires e.u.amount.value == 2.0 * e.half.value && e.u.amount.value > 0.0 && e.bob != e.u.k.wallet
    requires Allocated(ns.entries) == map[AliceSlot(e) := e.u.amount.value]
    requires CurrentOf(ns, SessionAt(e, 1)) == map[AliceSlot(e) := e.u.amount.value]
    requires SessionAt(e, 1) in ns.sessions && ns.sessions[SessionAt(e, 1)] == Active(e, 1, 2)
    requires ListedBy(GiftUpdate(e).update) == map[AliceSlot(e) := 0.0, BobSlot(e) := e.u.amount.value]
    requires Applied(ns, UpdateEffect(ns, GiftUpdate(e).update), after)
    ensures Allocated(after.entries) == map[AliceSlot(e) := 0.0, BobSlot(e) := e.u.amount.value]
    ensures after.sessions == ns.sessions[SessionAt(e, 1) := Active(e, 1, 3)]
  {
    var eff, p, q, x := UpdateEffect(ns, GiftUpdate(e).update), AliceSlot(e), BobSlot(e), e.u.amount.value;
    SlotsDiffer(e);
    DeltaTwo(p, q, x);
    GiftAllocated(ns, eff, after, p, q, x);
  }

  // ---------- A batch takes it back, or half of it ----------

  /** Takes everything from Bob and gives back so much to Alice; the second session stays empty. */
  function Batch(e: Example, back: Decimal): seq<SignedUpdate> {
    [SignedUpdate(Update(SessionAt(e, 1), Rebalance, 4, [For(e, e.u.k.wallet, back)], ""), BySelf(e), true),
     SignedUpdate(Update(SessionAt(e, 2), Rebalance, 2, [], ""), BySelf(e), true)]
  }

  /** Where the run has got: Bob holds everything, and has no channel; Alice's slot is present at zero. */
  ghost predicate Given(e: Example, ns: NodeState) {
    && Allocated(ns.entries) == map[AliceSlot(e) := 0.0, BobSlot(e) := e.u.amount.value]
    && BobKey(e) !in ns.chains
    && SessionAt(e, 1) in ns.sessions && ns.sessions[SessionAt(e, 1)] == Active(e, 1, 3)
    && SessionAt(e, 2) in ns.sessions && ns.sessions[SessionAt(e, 2)] == Active(e, 2, 1)
  }

  lemma BatchListed(e: Example, back: Decimal)
    ensures ListedByAll(Batch(e, back)) == map[AliceSlot(e) := back.value]
    ensures SessionsOf(Batch(e, back)) == {SessionAt(e, 1), SessionAt(e, 2)}
  {
    var b := Batch(e, back);
    assert b[..1] == [b[0]] && b[..1][..0] == [];
    ListedOne(SessionAt(e, 1), b[0].update.allocations[0]);
    assert ListedByAll(b[..1]) == map[] + ListedBy(b[0].update);
    assert b[0] in b && b[1] in b;
  }

  lemma BatchOk(cfg: Config, e: Example, ns: NodeState, back: Decimal)
    requires Possible(cfg, e) && Given(e, ns) && back.value >= 0.0
    ensures forall su :: su in Batch(e, back) ==> RebalanceUpdateOk(cfg, ns, su)
    ensures DistinctSessions(Batch(e, back)) && 2 <= |Batch(e, back)| <= cfg.maxSignedUpdates
  {
    var b := Batch(e, back);
    Recognized(cfg, e, ns, 1, 3, b[0].update);
    Recognized(cfg, e, ns, 2, 1, b[1].update);
  }

  lemma TakenBack(p: Slot, q: Slot, back: real, total: real)
    requires p != q && back > 0.0 && total > 0.0
    ensures Delta(map[p := 0.0, q := total], map[p := back]) == map[p := back, q := -total]
    ensures Twice(map[p := 0.0, q := total], map[p := back]) == map[p := back]
  {}

  /** What a batch over two slots of one session changes, and counts twice. */
  lemma MapsOf(ns: NodeState, updates: seq<SignedUpdate>, p: Slot, q: Slot, back: real, total: real)
    requires Allocated(ns.entries) == map[p := 0.0, q := total] && p != q && p.session == q.session
    requires p.session in SessionsOf(updates) && ListedByAll(updates) == map[p := back] && back > 0.0 && total > 0.0
    ensures BatchChanges(ns, updates) == map[p := back, q := -total] && CountedTwice(ns, updates) == map[p := back]
  {
    assert CurrentOfAll(ns, SessionsOf(updates)) == map[p := 0.0, q := total];
    TakenBack(p, q, back, total);
  }

  lemma BatchMaps(e: Example, ns: NodeState, back: Decimal)
    requires Given(e, ns) && back.value > 0.0 && e.u.amount.value > 0.0 && e.bob != e.u.k.wallet
    ensures BatchChanges(ns, Batch(e, back)) == map[AliceSlot(e) := back.value, BobSlot(e) := -e.u.amount.value]
    ensures CountedTwice(ns, Batch(e, back)) == map[AliceSlot(e) := back.value]
  {
    BatchListed(e, back);
    SlotsDiffer(e);
    MapsOf(ns, Batch(e, back), AliceSlot(e), BobSlot(e), back.value, e.u.amount.value);
  }

  lemma BatchSums(changes: map<Slot, real>, twice: map<Slot, real>, p: Slot, q: Slot, back: real, total: real, a: Asset)
    requires changes == map[p := back, q := -total] && twice == map[p := back] && p != q && p.asset == q.asset
    ensures Sum(OfAsset(changes, a)) == if a == p.asset then back - total else 0.0
    ensures Sum(OfAsset(twice, a)) == if a == p.asset then back else 0.0
  {
    TwoSlots(p, q, back, -total, a);
    OneSlot(p, back, a);
  }

  /** Alice's slot is present at zero, so the tally counts what it is given twice. */
  lemma BatchTally(e: Example, ns: NodeState, back: Decimal, a: Asset)
    requires Given(e, ns) && back.value > 0.0 && e.u.amount.value > 0.0 && e.bob != e.u.k.wallet
    ensures var changes, twice := BatchChanges(ns, Batch(e, back)), CountedTwice(ns, Batch(e, back));
      && Sum(OfAsset(changes, a)) == (if a == e.u.k.asset then back.value - e.u.amount.value else 0.0)
      && Sum(OfAsset(twice, a)) == if a == e.u.k.asset then back.value else 0.0
  {
    BatchMaps(e, ns, back);
    SlotsDiffer(e);
    BatchSums(BatchChanges(ns, Batch(e, back)), CountedTwice(ns, Batch(e, back)), AliceSlot(e), BobSlot(e),
              back.value, e.u.amount.value, a);
  }

  lemma HalfAccepted(cfg: Config, e: Example, ns: NodeState)
    requires Possible(cfg, e) && Given(e, ns)
    ensures AcceptsRebalance(cfg, ns, Batch(e, e.half))
  {
    BatchOk(cfg, e, ns, e.half);
    forall a ensures Tally(ns, Batch(e, e.half), a) == 0.0 {
      BatchTally(e, ns, e.half, a);
    }
  }

  // ---------- The run ----------

  lemma Start(cfg: Config, e: Example)
    requires Possible(cfg, e)
    ensures Run(cfg, [INITIAL, Created(cfg, e.u)], [Creation(cfg, e.u)])
    ensures Created(cfg, e.u).chains == map[e.u.k := [First(cfg, e.u)]]
    ensures Allocated(Created(cfg, e.u).entries) == map[] && Created(cfg, e.u).sessions == map[]
  {
    NoRun(cfg);
    CreationStep(cfg, e.u);
    RunMore(cfg, [INITIAL], [], Creation(cfg, e.u), Created(cfg, e.u));
    assert [INITIAL] + [Created(cfg, e.u)] == [INITIAL, Created(cfg, e.u)];
    assert [] + [Creation(cfg, e.u)] == [Creation(cfg, e.u)];
    CreatedChain(cfg, e.u);
  }

  /** A channel is created with a deposit, two sessions are created, Alice deposits everything into
      the first, and gives it to Bob there. */
  lemma GivenReached(cfg: Config, e: Example) returns (states: seq<NodeState>, ops: seq<Op>)
    requires Possible(cfg, e)
    ensures Run(cfg, states, ops) && Given(e, states[|ops|]) && forall op :: op in ops ==> !op.RebalanceSessions?
  {
    Start(cfg, e);
    var created := Created(cfg, e.u);
    states, ops := [INITIAL, created], [Creation(cfg, e.u)];
    var one := SessionStep(cfg, e, created, 1);
    states, ops := Onward(cfg, states, ops, SessionCreation(e, 1), one);
    var two := SessionStep(cfg, e, one, 2);
    states, ops := Onward(cfg, states, ops, SessionCreation(e, 2), two);
    var deposited := DepositStep(cfg, e, two);
    states, ops := Onward(cfg, states, ops, SubmitDeposit(Commitment(cfg, e), DepositUpdate(e), ALLOWED), deposited);
    var given := GiftStep(cfg, e, deposited);
    states, ops := Onward(cfg, states, ops, SubmitUpdate(GiftUpdate(e)), given);
  }

  lemma Onward(cfg: Config, states: seq<NodeState>, ops: seq<Op>, op: Op, after: NodeState)
    returns (states': seq<NodeState>, ops': seq<Op>)
    requires Run(cfg, states, ops) && Step(cfg, states[|ops|], op, after)
    requires !op.RebalanceSessions? && forall o :: o in ops ==> !o.RebalanceSessions?
    ensures Run(cfg, states', ops') && states'[|ops'|] == after && forall o :: o in ops' ==> !o.RebalanceSessions?
  {
    RunMore(cfg, states, ops, op, after);
    states', ops' := states + [after], ops + [op];
  }

  /** In this run the batch that takes everything from Bob and gives half of it to Alice is
      accepted. Half of the session funds is gone, and the node is out of balance by that much. */
  lemma BatchLosesFunds(cfg: Config, e: Example) returns (states: seq<NodeState>, ops: seq<Op>)
    requires Possible(cfg, e)
    ensures Run(cfg, states, ops) && |ops| > 0
    ensures var n, asset := |ops| - 1, e.u.k.asset;
      && ops[n] == RebalanceSessions(Batch(e, e.half)) && Accepts(cfg, states[n], ops[n])
      && Funds(states[n].entries, asset) == e.u.amount.value && Funds(states[n + 1].entries, asset) == e.half.value
      && Imbalance(states[n], asset) == 0.0 && Imbalance(states[n + 1], asset) == -e.half.value < 0.0
  {
    var op := RebalanceSessions(Batch(e, e.half));
    states, ops := GivenReached(cfg, e);
    var n := |ops|;
    var ns := states[n];
    HalfAccepted(cfg, e, ns);
    var after := StepExists(cfg, ns, op);
    BalancedWithoutBatch(cfg, states, ops, e.u.k.asset);
    RunInv(cfg, states, ops, n);
    FundsLost(cfg, e, ns, after);
    RunMore(cfg, states, ops, op, after);
    states, ops := states + [after], ops + [op];
  }

  lemma BalancedWithoutBatch(cfg: Config, states: seq<NodeState>, ops: seq<Op>, asset: Asset)
    requires Run(cfg, states, ops) && forall op :: op in ops ==> !op.RebalanceSessions?
    ensures Imbalance(states[|ops|], asset) == 0.0
  {
    WholeNodeConservation(cfg, states, ops, |ops|, asset);
  }

  lemma FundsLost(cfg: Config, e: Example, ns: NodeState, after: NodeState)
    requires Possible(cfg, e) && Given(e, ns) && Inv(cfg, ns) && AcceptsRebalance(cfg, ns, Batch(e, e.half))
    requires Step(cfg, ns, RebalanceSessions(Batch(e, e.half)), after)
    ensures Funds(ns.entries, e.u.k.asset) == e.u.amount.value && Funds(after.entries, e.u.k.asset) == e.half.value
    ensures Imbalance(after, e.u.k.asset) == Imbalance(ns, e.u.k.asset) - e.half.value
  {
    var asset := e.u.k.asset;
    BatchTally(e, ns, e.half, asset);
    SlotsDiffer(e);
    TwoSlots(AliceSlot(e), BobSlot(e), 0.0, e.u.amount.value, asset);
    StepImbalance(cfg, ns, RebalanceSessions(Batch(e, e.half)), after, asset);
    StepRecords(cfg, ns, Batch(e, e.half), after);
    RebalanceFunds(ns, Batch(e, e.half), after.entries, asset);
  }

  lemma StepRecords(cfg: Config, ns: NodeState, updates: seq<SignedUpdate>, after: NodeState)
    requires AcceptsRebalance(cfg, ns, updates) && Step(cfg, ns, RebalanceSessions(updates), after)
    ensures |ns.entries| <= |after.entries| && after.entries[..|ns.entries|] == ns.entries
    ensures Lists(after.entries[|ns.entries|..], BatchChanges(ns, updates))
  {}

  /** And the batch that gives all of it to Alice, which keeps the total, is refused. */
  lemma BalancedBatchRefused(cfg: Config, e: Example) returns (states: seq<NodeState>, ops: seq<Op>)
    requires Possible(cfg, e)
    ensures Run(cfg, states, ops)
    ensures var ns, batch := states[|ops|], Batch(e, e.u.amount);
      && (forall su :: su in batch ==> RebalanceUpdateOk(cfg, ns, su))
      && Sum(OfAsset(BatchChanges(ns, batch), e.u.k.asset)) == 0.0
      && !AcceptsRebalance(cfg, ns, batch)
  {
    states, ops := GivenReached(cfg, e);
    BatchOk(cfg, e, states[|ops|], e.u.amount);
    BatchTally(e, states[|ops|], e.u.amount, e.u.k.asset);
    TallyRefused(cfg, states[|ops|], Batch(e, e.u.amount), e.u.k.asset);
  }

  lemma TallyRefused(cfg: Config, ns: NodeState, updates: seq<SignedUpdate>, a: Asset)
    requires Tally(ns, updates, a) != 0.0
    ensures !AcceptsRebalance(cfg, ns, updates)
  {}
}
