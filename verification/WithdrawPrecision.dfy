/** What the written precision of balances means for withdraws: a difference is written with the
    smaller of two exponents, and the precision check looks at that. */
module WithdrawPrecision {
  import opened Options
  import opened Sums
  import opened Decimals
  import opened Channels
  import opened Chains
  import opened Allocations
  import opened NodeModel
  import opened Invariants
  import opened ReleaseIntents
  import opened Runs
  import opened RebalanceLoss
  import Listings

  /** Neither balances nor this amount are written with more digits than the asset has. */
  predicate ShortEnough(cfg: Config, asset: Asset, exponent: int) {
    Listings.InDigits(cfg, asset, cfg.balanceExponent) && Listings.InDigits(cfg, asset, exponent)
  }

  // ---------- One withdraw ----------

  /** The update is to leave less in the slot than there is. */
  predicate Lowers(ns: NodeState, u: Update, k: Slot) {
    k in CurrentOf(ns, u.session) && Get(ListedBy(u), k) < CurrentOf(ns, u.session)[k]
  }

  /** How the amount that the update leaves in the slot is written. */
  function WrittenAs(u: Update, k: Slot): int {
    var exponents := Exponents(u.session, u.allocations);
    if k in exponents then exponents[k] else 0
  }

  /** Every check of a withdraw but that of the precision. */
  ghost predicate WithdrawApart(cfg: Config, ns: NodeState, u: Update) {
    var cur, listed := CurrentOf(ns, u.session), ListedBy(u);
    && ForParticipants(u.allocations, WeightsIn(ns, u.session))
    && NonNegative(u.allocations)
    && NoDuplicates(u.session, u.allocations)
    && (forall k :: k in listed && listed[k] != 0.0 ==> Get(cur, k) != 0.0)
    && (forall k :: k in cur && cur[k] != 0.0 ==> SlotApart(cfg, ns, u, k))
  }

  predicate SlotApart(cfg: Config, ns: NodeState, u: Update, k: Slot) {
    var cur, listed := CurrentOf(ns, u.session), ListedBy(u);
    && k in listed && listed[k] <= Get(cur, k)
    && (listed[k] < Get(cur, k) ==>
          CanIssue(cfg, ns, Key(k.wallet, k.asset), Freed(u.session, Get(cur, k) - listed[k])))
  }

  lemma SlotIff(cfg: Config, ns: NodeState, u: Update, k: Slot)
    requires k in CurrentOf(ns, u.session)
    ensures WithdrawSlotOk(cfg, ns, u, k) <==>
      SlotApart(cfg, ns, u, k) && (Lowers(ns, u, k) ==> ShortEnough(cfg, k.asset, WrittenAs(u, k)))
  {
    var cur, listed, exponents := CurrentOf(ns, u.session), ListedBy(u), Exponents(u.session, u.allocations);
    SameSlots(u.session, u.allocations);
    if k in listed {
      Listings.DifferenceDigits(cfg, k.asset, Get(cur, k), listed[k], exponents[k]);
    }
  }

  lemma LowersHeld(ns: NodeState, u: Update, k: Slot)
    requires NonNegative(u.allocations) && Lowers(ns, u, k)
    ensures CurrentOf(ns, u.session)[k] > 0.0
  {
    if k in ListedBy(u) {
      ListedNonNegative(u, k);
    }
  }

  /** A withdraw that passes all other checks is accepted exactly if, for each slot that it lowers,
      neither balances nor the listed amount are written with more digits than the asset has. */
  lemma WithdrawIff(cfg: Config, ns: NodeState, u: Update)
    ensures WithdrawOk(cfg, ns, u) <==>
      && WithdrawApart(cfg, ns, u)
      && forall k :: Lowers(ns, u, k) ==> ShortEnough(cfg, k.asset, WrittenAs(u, k))
  {
    var cur := CurrentOf(ns, u.session);
    forall k | k in cur
      ensures WithdrawSlotOk(cfg, ns, u, k) <==>
        SlotApart(cfg, ns, u, k) && (Lowers(ns, u, k) ==> ShortEnough(cfg, k.asset, WrittenAs(u, k)))
    {
      SlotIff(cfg, ns, u, k);
    }
    if NonNegative(u.allocations) {
      forall k | Lowers(ns, u, k) ensures cur[k] != 0.0 {
        LowersHeld(ns, u, k);
      }
    }
  }

  // ---------- Whole runs ----------

  /** Balances of this asset are read with more digits than it has. */
  predicate TooLong(cfg: Config, asset: Asset) {
    var decimals := cfg.store.AssetDecimals(asset);
    decimals.None? || cfg.balanceExponent + decimals.value < 0
  }

  /** An accepted withdraw leaves the slots of such an asset as they are. */
  lemma WithdrawKeeps(cfg: Config, ns: NodeState, su: SignedUpdate, ns': NodeState, k: Slot)
    requires Inv(cfg, ns) && Step(cfg, ns, SubmitUpdate(su), ns') && su.update.intent == Withdraw
    requires TooLong(cfg, k.asset)
    ensures Get(Allocated(ns'.entries), k) == Get(Allocated(ns.entries), k)
  {
    if AcceptsUpdate(cfg, ns, su) {
      StepApplied(cfg, ns, SubmitUpdate(su), ns');
      OpSettles(cfg, ns, SubmitUpdate(su), ns');
      if k.session == su.update.session {
        WithdrawIff(cfg, ns, su.update);
        KeptSlot(cfg, ns, su.update, k);
      }
    }
  }

  lemma KeptSlot(cfg: Config, ns: NodeState, u: Update, k: Slot)
    requires WithdrawApart(cfg, ns, u) && SlotsValid(ns) && !Lowers(ns, u, k) && k.session == u.session
    ensures Get(ListedBy(u), k) == Get(Allocated(ns.entries), k)
  {
    assert Get(CurrentOf(ns, u.session), k) == Get(Allocated(ns.entries), k);
    if k in ListedBy(u) {
      ListedNonNegative(u, k);
    }
  }

  /** So no withdraw of any run ever takes anything of such an asset out of a session. */
  lemma RunWithdrawsKeep(cfg: Config, states: seq<NodeState>, ops: seq<Op>, n: nat, k: Slot)
    requires Run(cfg, states, ops) && n < |ops| && ops[n].SubmitUpdate? && ops[n].su.update.intent == Withdraw
    requires TooLong(cfg, k.asset)
    ensures Get(Allocated(states[n + 1].entries), k) == Get(Allocated(states[n].entries), k)
  {
    RunInv(cfg, states, ops, n);
    WithdrawKeeps(cfg, states[n], ops[n].su, states[n + 1], k);
  }

  // ---------- A run ----------

  /** Bob is to keep so much of what Alice gave to him. */
  function KeepUpdate(e: Example, left: Decimal): SignedUpdate {
    SignedUpdate(Update(SessionAt(e, 1), Withdraw, 4, [For(e, e.bob, left)], ""), BySelf(e), true)
  }

  lemma KeepListed(e: Example, left: Decimal)
    ensures ListedBy(KeepUpdate(e, left).update) == map[BobSlot(e) := left.value]
    ensures WrittenAs(KeepUpdate(e, left).update, BobSlot(e)) == left.exponent
  {
    var allocations := KeepUpdate(e, left).update.allocations;
    ListedOne(SessionAt(e, 1), allocations[0]);
    assert allocations[..0] == [];
  }

  lemma BobIssuable(cfg: Config, e: Example, ns: NodeState, amount: real)
    requires Given(e, ns)
    ensures CanIssue(cfg, ns, BobKey(e), Freed(SessionAt(e, 1), amount))
  {
    assert ChainOf(ns.chains, BobKey(e)) == [];
  }

  lemma KeepApart(cfg: Config, e: Example, ns: NodeState, left: Decimal)
    requires Possible(cfg, e) && Given(e, ns) && 0.0 <= left.value < e.u.amount.value
    ensures var u := KeepUpdate(e, left).update;
      Authorized(cfg, ns, KeepUpdate(e, left)) && WithdrawApart(cfg, ns, u)
      && forall k :: Lowers(ns, u, k) <==> k == BobSlot(e)
  {
    var u := KeepUpdate(e, left).update;
    Recognized(cfg, e, ns, 1, 3, u);
    KeepListed(e, left);
    SlotsDiffer(e);
    assert CurrentOf(ns, SessionAt(e, 1)) == map[AliceSlot(e) := 0.0, BobSlot(e) := e.u.amount.value];
    BobIssuable(cfg, e, ns, e.u.amount.value - left.value);
  }

  lemma GivenAccepts(cfg: Config, e: Example, ns: NodeState, left: Decimal)
    requires Possible(cfg, e) && Given(e, ns) && 0.0 <= left.value < e.u.amount.value
    ensures AcceptsUpdate(cfg, ns, KeepUpdate(e, left)) <==> ShortEnough(cfg, e.u.k.asset, left.exponent)
  {
    KeepApart(cfg, e, ns, left);
    KeepListed(e, left);
    WithdrawIff(cfg, ns, KeepUpdate(e, left).update);
  }

  /** After this run Bob can withdraw a part of what he holds, or all of it, if and only if neither
      balances nor what he leaves are written with more digits than the asset has. */
  lemma WithdrawAcceptedIff(cfg: Config, e: Example, left: Decimal) returns (states: seq<NodeState>, ops: seq<Op>)
    requires Possible(cfg, e) && 0.0 <= left.value < e.u.amount.value
    ensures Run(cfg, states, ops)
    ensures Accepts(cfg, states[|ops|], SubmitUpdate(KeepUpdate(e, left)))
       <==> ShortEnough(cfg, e.u.k.asset, left.exponent)
  {
    states, ops := GivenReached(cfg, e);
    GivenAccepts(cfg, e, states[|ops|], left);
  }

  /** For example, with balances that are written with 18 digits, of an asset with 6 he cannot
      withdraw anything. */
  lemma SixDecimalsRefused(cfg: Config, e: Example, left: Decimal) returns (states: seq<NodeState>, ops: seq<Op>)
    requires Possible(cfg, e) && 0.0 <= left.value < e.u.amount.value
    requires cfg.balanceExponent == -18 && cfg.store.AssetDecimals(e.u.k.asset) == Some(6)
    ensures Run(cfg, states, ops) && !Accepts(cfg, states[|ops|], SubmitUpdate(KeepUpdate(e, left)))
  {
    states, ops := WithdrawAcceptedIff(cfg, e, left);
  }
}
