/** Conservation of funds over the whole node. */
module Conservation {
  import opened Options
  import opened Sums
  import opened Channels
  import opened Advancer
  import opened Chains
  import opened Flows
  import opened Allocations
  import opened NodeModel
  import opened Invariants

  function ByAsset(m: map<Key, real>, asset: Asset): map<Key, real> {
    map k | k in m && k.asset == asset :: m[k]
  }

  ghost function Excesses(chains: map<Key, seq<State>>): map<Key, real> {
    map k | k in chains :: Excess(chains[k])
  }

  function Gains(appended: map<Key, State>): map<Key, real> {
    map k | k in appended :: Gain(appended[k])
  }

  /** Of one asset: the node flows of every home and escrow ledger ever opened, less the open
      locks, plus what the app sessions hold. */
  ghost function Imbalance(ns: NodeState, asset: Asset): real {
    Sum(ByAsset(Excesses(ns.chains), asset)) + Funds(ns.entries, asset)
  }

  /** Appending a state moves the excess of its chain by what the state gains. */
  lemma ExcessAt(cfg: Config, ns: NodeState, appended: map<Key, State>, k: Key)
    requires ChainsValid(cfg, ns) && AppendsValid(cfg, ns, appended)
    ensures Get(Excesses(AppendAll(ns.chains, appended)), k) == Get(Excesses(ns.chains), k) + Get(Gains(appended), k)
  {
    if k in appended {
      var chain, s := ChainOf(ns.chains, k), appended[k];
      ExtendedChain(cfg, ns, appended, k);
      ExcessStep(k, chain, s, DecimalsOf(cfg, k));
      NoExcess();
    }
  }

  lemma NoExcess()
    ensures Excess([]) == 0.0
  {}

  lemma ExtendedChain(cfg: Config, ns: NodeState, appended: map<Key, State>, k: Key)
    requires ChainsValid(cfg, ns) && AppendsValid(cfg, ns, appended) && k in appended
    ensures var chain := ChainOf(ns.chains, k);
      ValidChain(k, chain, DecimalsOf(cfg, k)) && ValidChain(k, chain + [appended[k]], DecimalsOf(cfg, k))
  {
    var chain, s := ChainOf(ns.chains, k), appended[k];
    assert (chain + [s])[..|chain|] == chain;
  }

  lemma SumByAssetPlus(a: map<Key, real>, b: map<Key, real>, c: map<Key, real>, asset: Asset)
    requires forall k :: Get(c, k) == Get(a, k) + Get(b, k)
    ensures Sum(ByAsset(c, asset)) == Sum(ByAsset(a, asset)) + Sum(ByAsset(b, asset))
  {
    forall k ensures Get(ByAsset(c, asset), k) == Get(ByAsset(a, asset), k) + Get(ByAsset(b, asset), k) {
      assert Get(c, k) == Get(a, k) + Get(b, k);
    }
    SumPlus(ByAsset(a, asset), ByAsset(b, asset), ByAsset(c, asset));
  }

  /** Appending states moves the excesses by what those states gain. */
  lemma AppendingGains(cfg: Config, ns: NodeState, appended: map<Key, State>, asset: Asset)
    requires ChainsValid(cfg, ns) && AppendsValid(cfg, ns, appended)
    ensures Sum(ByAsset(Excesses(AppendAll(ns.chains, appended)), asset))
         == Sum(ByAsset(Excesses(ns.chains), asset)) + Sum(ByAsset(Gains(appended), asset))
  {
    var before, gains, after := Excesses(ns.chains), Gains(appended), Excesses(AppendAll(ns.chains, appended));
    forall k ensures Get(after, k) == Get(before, k) + Get(gains, k) {
      ExcessAt(cfg, ns, appended, k);
    }
    SumByAssetPlus(before, gains, after, asset);
  }

  // ---------- What each operation moves ----------

  lemma SumOne(k: Key, x: real)
    ensures Sum(map[k := x]) == x
  {
    SumUpdate(map[], k, x);
  }

  lemma SumTwo(j: Key, x: real, k: Key, y: real)
    requires j != k
    ensures Sum(map[j := x, k := y]) == x + y
  {
    SumOne(j, x);
    SumUpdate(map[j := x], k, y);
  }

  /** A transfer moves its amount between two chains of one asset; no other state that is
      submitted gains anything. */
  lemma StateGains(cfg: Config, ns: NodeState, p: State, valid: bool, channels: set<Id>, asset: Asset)
    requires CoSignable(cfg, ns, p, valid) && p.transition.kind != Commit
    requires p.transition.kind == TransferSend ==> TransferOk(cfg, ns, p)
    ensures Sum(ByAsset(Gains(StateEffect(ns, p, channels).appended), asset)) == 0.0
  {
    ProposedKind(Current(ns, KeyOf(p)), p, cfg.store.AssetDecimals(p.asset));
    if p.transition.kind == TransferSend {
      TransferGains(ns, p, channels, asset);
    } else {
      var gains := Gains(StateEffect(ns, p, channels).appended);
      assert gains == map[KeyOf(p) := 0.0];
      SumOne(KeyOf(p), 0.0);
      assert ByAsset(gains, asset) == if p.asset == asset then gains else map[];
    }
  }

  lemma ProposedKind(cur: State, p: State, decimals: Option<nat>)
    requires Advances(cur, p, decimals)
    ensures p.transition.kind != TransferReceive && p.transition.kind != Release
  {
    CheckedIsAdvancing(cur, p, decimals);
  }

  lemma TransferGains(ns: NodeState, p: State, channels: set<Id>, asset: Asset)
    requires p.transition.kind == TransferSend && p.transition.account.WalletAccount?
    requires p.transition.account.wallet != p.wallet
    ensures Sum(ByAsset(Gains(StateEffect(ns, p, channels).appended), asset)) == 0.0
  {
    IssuedGain(Current(ns, ReceiverKey(p)), Mirror(p));
    PairGains(KeyOf(p), CoSigned(p), ReceiverKey(p), Issued(Current(ns, ReceiverKey(p)), Mirror(p)), asset);
  }

  lemma PairGains(k: Key, s: State, j: Key, t: State, asset: Asset)
    requires k != j && k.asset == j.asset && Gain(t) == -Gain(s)
    ensures Sum(ByAsset(Gains(map[k := s][j := t]), asset)) == 0.0
  {
    var gains := Gains(map[k := s][j := t]);
    assert gains == map[k := Gain(s), j := Gain(t)];
    SumTwo(k, Gain(s), j, Gain(t));
    assert ByAsset(gains, asset) == if k.asset == asset then gains else map[];
  }

  /** An issued state gains the amount it was issued for. */
  lemma IssuedGain(cur: State, r: Request)
    requires r.ReceiveTransfer? || r.ReleaseFrom?
    ensures Gain(Issued(cur, r)) == r.amount.value
  {}

  /** A commit takes its amount out of the chain. */
  lemma CommitGains(ns: NodeState, p: State, asset: Asset)
    requires p.transition.kind == Commit
    ensures Sum(ByAsset(Gains(StateEffect(ns, p, {}).appended), asset))
         == if p.asset == asset then -p.transition.amount.value else 0.0
  {
    var gains := Gains(StateEffect(ns, p, {}).appended);
    assert gains == map[KeyOf(p) := -p.transition.amount.value];
    SumOne(KeyOf(p), -p.transition.amount.value);
    assert ByAsset(gains, asset) == if p.asset == asset then gains else map[];
  }

  function Negated(changes: map<Slot, real>, session: Id): map<Key, real> {
    map k | k in KeysOf(changes) :: -Get(changes, Slot(session, k.wallet, k.asset))
  }

  /** Slots of one session and chains correspond one to one. */
  lemma {:induction false} SumNegated(changes: map<Slot, real>, session: Id, asset: Asset)
    requires forall k :: k in changes ==> k.session == session
    ensures Sum(ByAsset(Negated(changes, session), asset)) == -Sum(OfAsset(changes, asset))
    decreases |changes|
  {
    if changes == map[] {
      assert ByAsset(Negated(changes, session), asset) == map[];
      assert OfAsset(changes, asset) == map[];
    } else {
      var s :| s in changes;
      var fewer := changes - {s};
      SumNegated(fewer, session, asset);
      SumNegatedMore(changes, session, s, asset);
    }
  }

  lemma SumNegatedMore(changes: map<Slot, real>, session: Id, s: Slot, asset: Asset)
    requires s in changes && forall k :: k in changes ==> k.session == session
    requires Sum(ByAsset(Negated(changes - {s}, session), asset)) == -Sum(OfAsset(changes - {s}, asset))
    ensures Sum(ByAsset(Negated(changes, session), asset)) == -Sum(OfAsset(changes, asset))
  {
    SumRestored(changes, s, asset);
    NegatedRestored(changes, session, s, asset);
  }

  lemma SumRestored(changes: map<Slot, real>, s: Slot, asset: Asset)
    requires s in changes
    ensures Sum(OfAsset(changes, asset))
         == Sum(OfAsset(changes - {s}, asset)) + if s.asset == asset then changes[s] else 0.0
  {
    SumChange(changes - {s}, s, changes[s], asset);
    assert (changes - {s})[s := changes[s]] == changes;
  }

  lemma NegatedRestored(changes: map<Slot, real>, session: Id, s: Slot, asset: Asset)
    requires s in changes && forall k :: k in changes ==> k.session == session
    ensures Sum(ByAsset(Negated(changes, session), asset))
         == Sum(ByAsset(Negated(changes - {s}, session), asset)) - if s.asset == asset then changes[s] else 0.0
  {
    NegatedMore(changes, session, s);
    KeySumPut(Negated(changes - {s}, session), Negated(changes, session), Key(s.wallet, s.asset), -changes[s], asset);
  }

  lemma KeySumPut(m: map<Key, real>, more: map<Key, real>, k: Key, v: real, asset: Asset)
    requires k !in m && more == m[k := v]
    ensures Sum(ByAsset(more, asset)) == Sum(ByAsset(m, asset)) + if k.asset == asset then v else 0.0
  {
    KeySumChange(m, k, v, asset);
  }

  lemma KeySumChange(m: map<Key, real>, k: Key, v: real, asset: Asset)
    requires k !in m
    ensures Sum(ByAsset(m[k := v], asset)) == Sum(ByAsset(m, asset)) + (if k.asset == asset then v else 0.0)
  {
    if k.asset == asset {
      assert ByAsset(m[k := v], asset) == ByAsset(m, asset)[k := v];
      SumUpdate(ByAsset(m, asset), k, v);
    } else {
      assert ByAsset(m[k := v], asset) == ByAsset(m, asset);
    }
  }

  lemma NegatedMore(changes: map<Slot, real>, session: Id, s: Slot)
    requires s in changes && forall k :: k in changes ==> k.session == session
    ensures Negated(changes, session) == Negated(changes - {s}, session)[Key(s.wallet, s.asset) := -changes[s]]
    ensures Key(s.wallet, s.asset) !in Negated(changes - {s}, session)
  {
    var fewer := changes - {s};
    forall k ensures k in KeysOf(changes) <==> k in KeysOf(fewer) || k == Key(s.wallet, s.asset) {
      ReleasedSlot(changes, session, k);
      ReleasedSlot(fewer, session, k);
    }
    ReleasedSlot(fewer, session, Key(s.wallet, s.asset));
  }

  /** What a withdraw or a close takes from the session, the released states gain. */
  lemma ReleaseGains(cfg: Config, ns: NodeState, session: Id, changes: map<Slot, real>, asset: Asset)
    requires forall k :: k in changes ==> Leaving(cfg, ns, session, changes, k)
    ensures Sum(ByAsset(Gains(Releases(ns, session, changes)), asset)) == -Sum(OfAsset(changes, asset))
  {
    ReleasedGains(ns, session, changes);
    forall k | k in changes ensures k.session == session {
      assert Leaving(cfg, ns, session, changes, k);
    }
    SumNegated(changes, session, asset);
  }

  lemma ReleasedGains(ns: NodeState, session: Id, changes: map<Slot, real>)
    ensures Gains(Releases(ns, session, changes)) == Negated(changes, session)
  {
    var gains, negated := Gains(Releases(ns, session, changes)), Negated(changes, session);
    assert gains.Keys == negated.Keys;
    forall k | k in KeysOf(changes) ensures gains[k] == negated[k] {
      ReleasedGain(ns, session, changes, k);
    }
  }

  lemma ReleasedGain(ns: NodeState, session: Id, changes: map<Slot, real>, k: Key)
    requires k in KeysOf(changes)
    ensures Gain(Releases(ns, session, changes)[k]) == -Get(changes, Slot(session, k.wallet, k.asset))
  {
    var amount := -Get(changes, Slot(session, k.wallet, k.asset));
    ReleaseIs(ns, session, changes, k, amount);
    IssuedGain(Current(ns, k), Freed(session, amount));
  }

  /** What the tally of a batch counts twice. */
  ghost function Burned(ns: NodeState, op: Op, asset: Asset): real {
    if op.RebalanceSessions? then Sum(OfAsset(CountedTwice(ns, op.updates), asset)) else 0.0
  }

  /** A deposit only raises slots of the committed asset. */
  lemma RaisesOneAsset(ns: NodeState, p: State, u: Update)
    requires forall k :: k in ListedBy(u) ==> DepositSlotOk(ns, p, u, k)
    ensures var cur := CurrentOf(ns, u.session); forall k :: k in Delta(cur, cur + ListedBy(u)) ==> k.asset == p.asset
  {
    var cur := CurrentOf(ns, u.session);
    forall k | k in Delta(cur, cur + ListedBy(u)) ensures k.asset == p.asset {
      assert DepositSlotOk(ns, p, u, k);
    }
  }

  lemma DepositGains(cfg: Config, ns: NodeState, p: State, u: Update, asset: Asset)
    requires u.session in ns.sessions && DepositOk(cfg, ns, p, u)
    ensures Sum(OfAsset(DepositEffect(ns, p, u).changes, asset))
         == if p.asset == asset then p.transition.amount.value else 0.0
  {
    RaisesOneAsset(ns, p, u);
    SumOneAsset(DepositEffect(ns, p, u).changes, p.asset, asset);
  }

  lemma StateBalance(cfg: Config, ns: NodeState, p: State, valid: bool, channels: set<Id>, asset: Asset)
    requires CoSignable(cfg, ns, p, valid) && p.transition.kind != Commit
    requires p.transition.kind == TransferSend ==> TransferOk(cfg, ns, p)
    ensures var eff := StateEffect(ns, p, channels);
      Sum(ByAsset(Gains(eff.appended), asset)) + Sum(OfAsset(eff.changes, asset)) == 0.0
  {
    StateGains(cfg, ns, p, valid, channels, asset);
    SumNoChange(asset);
  }

  lemma NoGains(asset: Asset)
    ensures Sum(ByAsset(Gains(map[]), asset)) == 0.0
  {
    assert ByAsset(Gains(map[]), asset) == map[];
  }

  lemma DepositBalance(cfg: Config, ns: NodeState, p: State, u: Update, asset: Asset)
    requires u.session in ns.sessions && DepositOk(cfg, ns, p, u) && p.transition.kind == Commit
    ensures var eff := DepositEffect(ns, p, u);
      Sum(ByAsset(Gains(eff.appended), asset)) + Sum(OfAsset(eff.changes, asset)) == 0.0
  {
    CommitGains(ns, p, asset);
    DepositGains(cfg, ns, p, u, asset);
  }

  /** An accepted operation moves nothing in or out, except that a batch loses what its
      tally counts twice. */
  lemma OperationBalance(cfg: Config, ns: NodeState, op: Op, asset: Asset)
    requires Inv(cfg, ns) && Accepts(cfg, ns, op)
    ensures var eff := EffectOf(cfg, ns, op);
      Sum(ByAsset(Gains(eff.appended), asset)) + Sum(OfAsset(eff.changes, asset)) == -Burned(ns, op, asset)
  {
    match op
    case SubmitState(p, c) => StateBalance(cfg, ns, p, c.signatureValid, {}, asset);
    case CoSignEscrow(p, c) => StateBalance(cfg, ns, p, c.signatureValid, {}, asset);
    case RequestCreation(p, def, c) => StateBalance(cfg, ns, p, c.signatureValid, {HomeIdOf(cfg, p, def)}, asset);
    case CreateSession(def, data, signers, allowed) =>
      SumNoChange(asset);
      NoGains(asset);
    case SubmitUpdate(su) => UpdateBalance(cfg, ns, su, asset);
    case SubmitDeposit(p, su, c) => DepositBalance(cfg, ns, p, su.update, asset);
    case RebalanceSessions(updates) =>
      assert Tally(ns, updates, asset) == 0.0;
      NoGains(asset);
  }

  lemma UpdateBalance(cfg: Config, ns: NodeState, su: SignedUpdate, asset: Asset)
    requires Inv(cfg, ns) && AcceptsUpdate(cfg, ns, su)
    ensures var eff := UpdateEffect(ns, su.update);
      Sum(ByAsset(Gains(eff.appended), asset)) + Sum(OfAsset(eff.changes, asset)) == 0.0
  {
    var u := su.update;
    var cur, target := CurrentOf(ns, u.session), Target(u);
    if u.intent == Operate {
      DeltaSum(cur, target, asset);
      NoGains(asset);
    } else {
      LeavingSlots(cfg, ns, u);
      ReleaseGains(cfg, ns, u.session, Delta(cur, target), asset);
    }
  }

  /** An effect changes the imbalance by what its states gain and its entries record. */
  lemma EffectImbalance(cfg: Config, ns: NodeState, eff: Effect, ns': NodeState, asset: Asset)
    requires ChainsValid(cfg, ns) && AppendsValid(cfg, ns, eff.appended) && Applied(ns, eff, ns')
    ensures Imbalance(ns', asset)
         == Imbalance(ns, asset) + Sum(ByAsset(Gains(eff.appended), asset)) + Sum(OfAsset(eff.changes, asset))
  {
    AppendingGains(cfg, ns, eff.appended, asset);
    FundsRecorded(ns.entries, ns'.entries, eff.changes, asset);
  }

  /** A step changes the imbalance of an asset only by what an accepted batch counts twice. */
  lemma StepImbalance(cfg: Config, ns: NodeState, op: Op, ns': NodeState, asset: Asset)
    requires Inv(cfg, ns) && Step(cfg, ns, op, ns')
    ensures Imbalance(ns', asset)
         == Imbalance(ns, asset) - (if Accepts(cfg, ns, op) then Burned(ns, op, asset) else 0.0)
  {
    if Accepts(cfg, ns, op) {
      AcceptedAppends(cfg, ns, op);
      EffectImbalance(cfg, ns, EffectOf(cfg, ns, op), ns', asset);
      OperationBalance(cfg, ns, op, asset);
    }
  }

  // ---------- Rebalance ----------

  /** No slot of this asset that is present at zero is given anything. */
  predicate NoneCountedTwice(ns: NodeState, updates: seq<SignedUpdate>, asset: Asset) {
    var cur := CurrentOfAll(ns, SessionsOf(updates));
    forall k :: k in cur && k.asset == asset && cur[k] == 0.0 ==> Get(ListedByAll(updates), k) == 0.0
  }

  lemma BurnedIff(cfg: Config, ns: NodeState, updates: seq<SignedUpdate>, asset: Asset)
    requires forall su :: su in updates ==> RebalanceUpdateOk(cfg, ns, su)
    ensures Burned(ns, RebalanceSessions(updates), asset) >= 0.0
    ensures Burned(ns, RebalanceSessions(updates), asset) == 0.0 <==> NoneCountedTwice(ns, updates, asset)
  {
    var twice := OfAsset(CountedTwice(ns, updates), asset);
    forall k | k in twice ensures twice[k] > 0.0 {
      BatchGoalValid(cfg, ns, updates, k);
    }
    SumNonNegative(twice);
    if NoneCountedTwice(ns, updates, asset) {
      assert twice == map[];
    } else {
      var k :| k in CurrentOfAll(ns, SessionsOf(updates)) && k.asset == asset
             && CurrentOfAll(ns, SessionsOf(updates))[k] == 0.0 && Get(ListedByAll(updates), k) != 0.0;
      assert k in twice;
    }
  }

  /** A batch of updates that pass their own checks, one per session. */
  ghost predicate BatchChecked(cfg: Config, ns: NodeState, updates: seq<SignedUpdate>) {
    && 2 <= |updates| <= cfg.maxSignedUpdates && DistinctSessions(updates)
    && forall su :: su in updates ==> RebalanceUpdateOk(cfg, ns, su)
  }

  /** Of every asset the sessions are to hold as much as they do. */
  ghost predicate KeepsTotals(ns: NodeState, updates: seq<SignedUpdate>) {
    forall a :: Sum(OfAsset(BatchChanges(ns, updates), a)) == 0.0
  }

  /** A batch that keeps every total is accepted if and only if it gives nothing to a slot that is
      present at zero. */
  lemma BalancedAcceptedIff(cfg: Config, ns: NodeState, updates: seq<SignedUpdate>)
    requires BatchChecked(cfg, ns, updates) && KeepsTotals(ns, updates)
    ensures AcceptsRebalance(cfg, ns, updates) <==> forall a :: NoneCountedTwice(ns, updates, a)
  {
    forall a ensures Tally(ns, updates, a) == 0.0 <==> NoneCountedTwice(ns, updates, a) {
      assert Sum(OfAsset(BatchChanges(ns, updates), a)) == 0.0;
      BurnedIff(cfg, ns, updates, a);
    }
  }

  /** And if it gives nothing to such a slot, it is accepted if and only if it keeps every total. */
  lemma CleanAcceptedIff(cfg: Config, ns: NodeState, updates: seq<SignedUpdate>)
    requires BatchChecked(cfg, ns, updates) && forall a :: NoneCountedTwice(ns, updates, a)
    ensures AcceptsRebalance(cfg, ns, updates) <==> KeepsTotals(ns, updates)
  {
    forall a ensures Tally(ns, updates, a) == Sum(OfAsset(BatchChanges(ns, updates), a)) {
      assert NoneCountedTwice(ns, updates, a);
      BurnedIff(cfg, ns, updates, a);
    }
  }

  /** An accepted batch sets every slot of its sessions to the submitted amount, absent ones
      to zero; and it keeps the total of an asset if and only if it gives nothing of that
      asset to a slot that is present at zero. */
  lemma RebalanceExact(cfg: Config, ns: NodeState, updates: seq<SignedUpdate>, ns': NodeState, asset: Asset)
    requires Inv(cfg, ns) && AcceptsRebalance(cfg, ns, updates)
    requires Step(cfg, ns, RebalanceSessions(updates), ns')
    ensures forall k :: Get(Allocated(ns'.entries), k) ==
                        if k.session in SessionsOf(updates) then Get(ListedByAll(updates), k)
                        else Get(Allocated(ns.entries), k)
    ensures Funds(ns'.entries, asset) <= Funds(ns.entries, asset)
    ensures Funds(ns'.entries, asset) == Funds(ns.entries, asset) <==> NoneCountedTwice(ns, updates, asset)
  {
    OpSettles(cfg, ns, RebalanceSessions(updates), ns');
    RebalanceFunds(ns, updates, ns'.entries, asset);
    BurnedIff(cfg, ns, updates, asset);
  }

  lemma RebalanceFunds(ns: NodeState, updates: seq<SignedUpdate>, entries: seq<Entry>, asset: Asset)
    requires |ns.entries| <= |entries| && entries[..|ns.entries|] == ns.entries
    requires Lists(entries[|ns.entries|..], BatchChanges(ns, updates))
    requires Tally(ns, updates, asset) == 0.0
    ensures Funds(entries, asset) == Funds(ns.entries, asset) - Burned(ns, RebalanceSessions(updates), asset)
  {
    FundsRecorded(ns.entries, entries, BatchChanges(ns, updates), asset);
  }
}
