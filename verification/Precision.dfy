/** Precision of every amount in a run: no packing ever fails for want of decimals. */
module Precision {
  import opened Sums
  import opened Decimals
  import opened Channels
  import opened Chains
  import opened Packing
  import opened Allocations
  import opened NodeModel
  import opened Invariants
  import opened Runs

  /** An amount of an asset with known decimals scales to an integer. */
  predicate FitsAsset(cfg: Config, asset: Asset, x: real) {
    var decimals := cfg.store.AssetDecimals(asset);
    decimals.Some? ==> Fits(x, decimals.value)
  }

  ghost predicate ChainFitsAsset(cfg: Config, k: Key, chain: seq<State>) {
    forall i :: 0 <= i < |chain| ==> FitsAsset(cfg, k.asset, chain[i].transition.amount.value)
  }

  ghost predicate AllFit(cfg: Config, ns: NodeState) {
    && (forall k :: k in ns.chains ==> ChainFitsAsset(cfg, k, ns.chains[k]))
    && (forall k :: k in Allocated(ns.entries) ==> FitsAsset(cfg, k.asset, Allocated(ns.entries)[k]))
  }

  ghost predicate Written(allocations: seq<Allocation>) {
    forall a :: a in allocations ==> IsDecimal(a.amount)
  }

  /** Submitted amounts are decimals, and those of a batch have no more digits than their asset. */
  ghost predicate WellWritten(cfg: Config, op: Op) {
    match op
    case SubmitState(p, c) => IsDecimal(p.transition.amount)
    case CoSignEscrow(p, c) => IsDecimal(p.transition.amount)
    case RequestCreation(p, def, c) => IsDecimal(p.transition.amount)
    case CreateSession(def, data, signers, allowed) => true
    case SubmitUpdate(su) => Written(su.update.allocations)
    case SubmitDeposit(p, su, c) => IsDecimal(p.transition.amount) && Written(su.update.allocations)
    case RebalanceSessions(updates) =>
      forall su :: su in updates ==> Written(su.update.allocations) && Precise(su.update.allocations, cfg.store)
  }

  lemma FitsAssetCloses(cfg: Config, asset: Asset, x: real, y: real)
    requires FitsAsset(cfg, asset, x) && FitsAsset(cfg, asset, y)
    ensures FitsAsset(cfg, asset, x - y)
  {
    var decimals := cfg.store.AssetDecimals(asset);
    if decimals.Some? {
      FitsCloses(x, y, decimals.value);
    }
  }

  lemma FitsAssetZero(cfg: Config, asset: Asset)
    ensures FitsAsset(cfg, asset, 0.0)
  {
    var decimals := cfg.store.AssetDecimals(asset);
    if decimals.Some? {
      FitsZero(decimals.value);
    }
  }

  /** What a slot holds, absent or not, fits. */
  lemma SlotFits(cfg: Config, ns: NodeState, k: Slot)
    requires AllFit(cfg, ns)
    ensures FitsAsset(cfg, k.asset, Get(Allocated(ns.entries), k))
  {
    FitsAssetZero(cfg, k.asset);
  }

  lemma PreciseFits(cfg: Config, session: Id, allocations: seq<Allocation>, k: Slot)
    requires Written(allocations) && Precise(allocations, cfg.store) && k in Listed(session, allocations)
    ensures FitsAsset(cfg, k.asset, Listed(session, allocations)[k])
  {
    ListedSlots(session, allocations);
    var i :| 0 <= i < |allocations| && SlotOf(session, allocations[i]) == k
             && allocations[i].amount.value == Listed(session, allocations)[k];
    assert allocations[i] in allocations;
    PrecisionSound(allocations[i].amount, cfg.store.AssetDecimals(k.asset).value);
  }

  /** What an accepted update sets a slot to fits. */
  lemma GoalFits(cfg: Config, ns: NodeState, op: Op, k: Slot)
    requires AllFit(cfg, ns) && WellWritten(cfg, op) && Accepts(cfg, ns, op)
    requires k.session in Touched(op)
    ensures FitsAsset(cfg, k.asset, Get(Goal(ns, op), k))
  {
    SlotFits(cfg, ns, k);
    FitsAssetZero(cfg, k.asset);
    if k in Goal(ns, op) {
      match op
      case SubmitUpdate(su) => TargetFits(cfg, ns, su.update, k);
      case SubmitDeposit(p, su, c) =>
        if k in ListedBy(su.update) {
          PreciseFits(cfg, su.update.session, su.update.allocations, k);
        }
      case RebalanceSessions(updates) =>
        ListedByAllSlots(updates);
        var su :| su in updates && k in ListedBy(su.update) && k.session == su.update.session
                  && ListedByAll(updates)[k] == ListedBy(su.update)[k];
        PreciseFits(cfg, su.update.session, su.update.allocations, k);
    }
  }

  lemma TargetFits(cfg: Config, ns: NodeState, u: Update, k: Slot)
    requires AllFit(cfg, ns) && Written(u.allocations) && k.session == u.session && k in Target(u)
    requires (u.intent == Operate && OperateOk(cfg, ns, u)) || (u.intent == Withdraw && WithdrawOk(cfg, ns, u))
    ensures FitsAsset(cfg, k.asset, Target(u)[k])
  {
    if u.intent == Operate {
      PreciseFits(cfg, u.session, u.allocations, k);
    } else {
      WithdrawnFits(cfg, ns, u, k);
    }
  }

  /** A withdraw checks the precision of the difference only, as it is written. That is no finer
      than the listed amount is. */
  lemma WithdrawnFits(cfg: Config, ns: NodeState, u: Update, k: Slot)
    requires AllFit(cfg, ns) && WithdrawOk(cfg, ns, u) && k.session == u.session && k in ListedBy(u)
    requires Written(u.allocations)
    ensures FitsAsset(cfg, k.asset, ListedBy(u)[k])
  {
    var cur, listed := CurrentOf(ns, u.session), ListedBy(u);
    SlotFits(cfg, ns, k);
    FitsAssetZero(cfg, k.asset);
    assert Get(cur, k) == Get(Allocated(ns.entries), k);
    if k in cur && cur[k] != 0.0 {
      assert WithdrawSlotOk(cfg, ns, u, k);
      if listed[k] < cur[k] {
        var i := ListedWritten(u.session, u.allocations, k);
        assert u.allocations[i] in u.allocations;
        PrecisionSound(u.allocations[i].amount, cfg.store.AssetDecimals(k.asset).value);
      }
    }
  }

  lemma ProposedFits(cfg: Config, ns: NodeState, p: State, valid: bool)
    requires CoSignable(cfg, ns, p, valid) && IsDecimal(p.transition.amount)
    ensures FitsAsset(cfg, p.asset, p.transition.amount.value)
  {
    PrecisionSound(p.transition.amount, cfg.store.AssetDecimals(p.asset).value);
  }

  ghost predicate AppendsFit(cfg: Config, appended: map<Key, State>) {
    forall k :: k in appended ==> FitsAsset(cfg, k.asset, appended[k].transition.amount.value)
  }

  ghost predicate ChangesFit(cfg: Config, changes: map<Slot, real>) {
    forall k :: k in changes ==> FitsAsset(cfg, k.asset, -changes[k])
  }

  lemma StateAppendsFit(cfg: Config, ns: NodeState, p: State, valid: bool, channels: set<Id>)
    requires CoSignable(cfg, ns, p, valid) && IsDecimal(p.transition.amount)
    ensures AppendsFit(cfg, StateEffect(ns, p, channels).appended)
  {
    ProposedFits(cfg, ns, p, valid);
    forall k | k in StateEffect(ns, p, channels).appended
      ensures FitsAsset(cfg, k.asset, StateEffect(ns, p, channels).appended[k].transition.amount.value)
    {
      IssuedAmount(Current(ns, k), Mirror(p));
    }
  }

  lemma IssuedAmount(cur: State, r: Request)
    requires r.ReceiveTransfer? || r.ReleaseFrom?
    ensures Issued(cur, r).transition.amount == r.amount
  {}

  /** A released state carries what its slot loses. */
  lemma ReleasesFit(cfg: Config, ns: NodeState, session: Id, changes: map<Slot, real>)
    requires ChangesFit(cfg, changes) && forall s :: s in changes ==> s.session == session
    ensures AppendsFit(cfg, Releases(ns, session, changes))
  {
    forall k | k in KeysOf(changes)
      ensures FitsAsset(cfg, k.asset, Releases(ns, session, changes)[k].transition.amount.value)
    {
      ReleasedSlot(changes, session, k);
      assert Slot(session, k.wallet, k.asset) in changes;
      IssuedAmount(Current(ns, k), Freed(session, -Get(changes, Slot(session, k.wallet, k.asset))));
    }
  }

  lemma DeltaFits(cfg: Config, cur: map<Slot, real>, target: map<Slot, real>)
    requires forall k :: k in cur ==> FitsAsset(cfg, k.asset, cur[k])
    requires forall k :: k in target ==> FitsAsset(cfg, k.asset, target[k])
    ensures ChangesFit(cfg, Delta(cur, target))
  {
    var changes := Delta(cur, target);
    forall k | k in changes ensures FitsAsset(cfg, k.asset, -changes[k]) {
      FitsAssetZero(cfg, k.asset);
      FitsAssetCloses(cfg, k.asset, Get(cur, k), Get(target, k));
      assert -changes[k] == Get(cur, k) - Get(target, k);
    }
  }

  lemma OpChangesFit(cfg: Config, ns: NodeState, op: Op)
    requires AllFit(cfg, ns) && WellWritten(cfg, op) && Accepts(cfg, ns, op)
    ensures ChangesFit(cfg, EffectOf(cfg, ns, op).changes)
  {
    GoalSlots(cfg, ns, op);
    var cur, goal := CurrentOfAll(ns, Touched(op)), Goal(ns, op);
    forall k | k in goal ensures FitsAsset(cfg, k.asset, goal[k]) {
      GoalFits(cfg, ns, op, k);
    }
    DeltaFits(cfg, cur, goal);
  }

  lemma UpdateAppendsFit(cfg: Config, ns: NodeState, u: Update)
    requires u.session in ns.sessions && ChangesFit(cfg, UpdateEffect(ns, u).changes)
    requires forall s :: s in UpdateEffect(ns, u).changes ==> s.session == u.session
    ensures AppendsFit(cfg, UpdateEffect(ns, u).appended)
  {
    if u.intent != Operate {
      ReleasesFit(cfg, ns, u.session, UpdateEffect(ns, u).changes);
    }
  }

  lemma OpAppendsFit(cfg: Config, ns: NodeState, op: Op)
    requires AllFit(cfg, ns) && WellWritten(cfg, op) && Accepts(cfg, ns, op)
    ensures AppendsFit(cfg, EffectOf(cfg, ns, op).appended)
  {
    match op
    case SubmitState(p, c) => StateAppendsFit(cfg, ns, p, c.signatureValid, {});
    case CoSignEscrow(p, c) => StateAppendsFit(cfg, ns, p, c.signatureValid, {});
    case RequestCreation(p, def, c) => StateAppendsFit(cfg, ns, p, c.signatureValid, {HomeIdOf(cfg, p, def)});
    case SubmitDeposit(p, su, c) => StateAppendsFit(cfg, ns, p, c.signatureValid, {});
    case SubmitUpdate(su) =>
      OpChangesFit(cfg, ns, op);
      ChangedHere(cfg, ns, op);
      UpdateAppendsFit(cfg, ns, su.update);
    case CreateSession(def, data, signers, allowed) =>
    case RebalanceSessions(updates) =>
  }

  lemma ChangedHere(cfg: Config, ns: NodeState, op: Op)
    requires Accepts(cfg, ns, op)
    ensures forall k :: k in EffectOf(cfg, ns, op).changes ==> k.session in Touched(op)
  {
    GoalSlots(cfg, ns, op);
  }

  lemma StepFitsAll(cfg: Config, ns: NodeState, op: Op, ns': NodeState)
    requires Inv(cfg, ns) && AllFit(cfg, ns) && WellWritten(cfg, op) && Step(cfg, ns, op, ns')
    ensures AllFit(cfg, ns')
  {
    if Accepts(cfg, ns, op) {
      OpAppendsFit(cfg, ns, op);
      AppendingFits(cfg, ns, EffectOf(cfg, ns, op).appended, ns');
      forall k | k in Allocated(ns'.entries) ensures FitsAsset(cfg, k.asset, Allocated(ns'.entries)[k]) {
        SettledFits(cfg, ns, op, ns', k);
      }
    }
  }

  lemma AppendingFits(cfg: Config, ns: NodeState, appended: map<Key, State>, ns': NodeState)
    requires forall k :: k in ns.chains ==> ChainFitsAsset(cfg, k, ns.chains[k])
    requires AppendsFit(cfg, appended)
    requires ns'.chains == AppendAll(ns.chains, appended)
    ensures forall k :: k in ns'.chains ==> ChainFitsAsset(cfg, k, ns'.chains[k])
  {}

  lemma SettledFits(cfg: Config, ns: NodeState, op: Op, ns': NodeState, k: Slot)
    requires AllFit(cfg, ns) && WellWritten(cfg, op) && Accepts(cfg, ns, op)
    requires Applied(ns, EffectOf(cfg, ns, op), ns') && k in Allocated(ns'.entries)
    ensures FitsAsset(cfg, k.asset, Allocated(ns'.entries)[k])
  {
    OpSettles(cfg, ns, op, ns');
    SlotFits(cfg, ns, k);
    if k.session in Touched(op) {
      GoalFits(cfg, ns, op, k);
    }
    assert Allocated(ns'.entries)[k] == Get(Allocated(ns'.entries), k);
  }

  lemma {:induction false} RunFits(cfg: Config, states: seq<NodeState>, ops: seq<Op>, n: nat)
    requires Run(cfg, states, ops) && n <= |ops|
    requires forall i :: 0 <= i < n ==> WellWritten(cfg, ops[i])
    ensures AllFit(cfg, states[n])
  {
    if n > 0 {
      RunFits(cfg, states, ops, n - 1);
      RunInv(cfg, states, ops, n - 1);
      StepFitsAll(cfg, states[n - 1], ops[n - 1], states[n]);
    }
  }

  /** In every run of decimals, with batches as precise as their assets, every state on a channel
      whose own tokens are at least as fine as its asset can be packed for the contract, and its
      contract ledgers satisfy the ledger equation. */
  lemma RunPacks(cfg: Config, states: seq<NodeState>, ops: seq<Op>, n: nat, k: Key, i: nat)
    requires Run(cfg, states, ops) && n <= |ops|
    requires forall j :: 0 <= j < n ==> WellWritten(cfg, ops[j])
    requires k in states[n].chains && i < |states[n].chains[k]|
    requires cfg.store.AssetDecimals(k.asset).Some?
    requires var s, d := states[n].chains[k][i], cfg.store.AssetDecimals(k.asset).value;
      s.homeChannel.Some? && FineToken(s.home, d, cfg.store)
      && (s.escrow.Some? ==> FineToken(s.escrow.value, d, cfg.store))
    ensures var packed := PackLedgers(states[n].chains[k][i], cfg.store);
      packed.Some? && ContractBalanced(packed.value.0) && ContractBalanced(packed.value.1)
  {
    var chain, d := states[n].chains[k], cfg.store.AssetDecimals(k.asset).value;
    RunFits(cfg, states, ops, n);
    RunInv(cfg, states, ops, n);
    assert ChainFitsAsset(cfg, k, chain);
    assert AmountsFit(chain, d);
    ChainPacks(k, chain, d, i, DecimalsOf(cfg, k), cfg.store);
    ChainSound(k, chain, i, DecimalsOf(cfg, k));
    PackedBalanced(chain[i], cfg.store);
  }
}
