/** The endpoint that moves a commit from a user's channel into an app session. */
module DepositEndpoint {
  import opened Options
  import opened Sums
  import opened Decimals
  import opened Channels
  import opened Packing
  import opened Transactions
  import opened Quorum
  import opened Allocations
  import opened NodeModel
  import opened Invariants
  import opened Database
  import opened UserLocks
  import opened ChannelEndpoints
  import opened SessionUpdates
  import opened SessionEndpoints

  // ---------- The allocations of a deposit ----------

  /** An allocation may stay as it is, or be raised in the committed asset for a participant. */
  predicate RaiseOk(cur: map<Slot, real>, weights: map<Wallet, Weight>, asset: Asset, k: Slot, amount: real) {
    amount >= Get(cur, k) && (amount > Get(cur, k) ==> k.wallet in weights && k.asset == asset)
  }

  ghost predicate RaisesOk(u: Update, cur: map<Slot, real>, weights: map<Wallet, Weight>, asset: Asset,
                           allocations: seq<Allocation>, store: AssetStore)
  {
    && NoDuplicates(u.session, allocations)
    && (forall a :: a in allocations ==> AllocationOk(a, None, Some(store)))
    && forall a :: a in allocations ==> RaiseOk(cur, weights, asset, SlotOf(u.session, a), a.amount.value)
  }

  /** Without duplicates, every listed amount is that of its allocation. */
  lemma {:induction false} ListedValue(session: Id, allocations: seq<Allocation>, i: nat)
    requires i < |allocations| && NoDuplicates(session, allocations)
    ensures SlotOf(session, allocations[i]) in Listed(session, allocations)
    ensures Listed(session, allocations)[SlotOf(session, allocations[i])] == allocations[i].amount.value
  {
    var n := |allocations| - 1;
    if i < n {
      ListedValue(session, allocations[..n], i);
      assert SlotOf(session, allocations[i]) != SlotOf(session, allocations[n]);
    }
  }

  lemma RaisesAreSlots(ns: NodeState, p: State, u: Update)
    requires NoDuplicates(u.session, u.allocations)
    ensures (forall a :: a in u.allocations ==>
               RaiseOk(CurrentOf(ns, u.session), WeightsIn(ns, u.session), p.asset, SlotOf(u.session, a),
                 a.amount.value))
       <==> (forall k :: k in ListedBy(u) ==> DepositSlotOk(ns, p, u, k))
  {
    var cur, weights := CurrentOf(ns, u.session), WeightsIn(ns, u.session);
    forall a | a in u.allocations
      ensures SlotOf(u.session, a) in ListedBy(u)
      ensures RaiseOk(cur, weights, p.asset, SlotOf(u.session, a), a.amount.value) <==>
        DepositSlotOk(ns, p, u, SlotOf(u.session, a))
    {
      var i :| 0 <= i < |u.allocations| && u.allocations[i] == a;
      ListedValue(u.session, u.allocations, i);
    }
    ListedSlots(u.session, u.allocations);
    forall k | k in ListedBy(u) ensures exists a :: a in u.allocations && SlotOf(u.session, a) == k {
      var i :| 0 <= i < |u.allocations| && SlotOf(u.session, u.allocations[i]) == k;
      assert u.allocations[i] in u.allocations;
    }
  }

  lemma DepositChecks(cfg: Config, ns: NodeState, p: State, u: Update)
    ensures var cur, listed := CurrentOf(ns, u.session), ListedBy(u);
      DepositOk(cfg, ns, p, u) <==>
      && RaisesOk(u, cur, WeightsIn(ns, u.session), p.asset, u.allocations, cfg.store)
      && (forall k :: k in cur && cur[k] != 0.0 && k.asset != p.asset ==> k in listed && listed[k] == cur[k])
      && Sum(Delta(cur, cur + listed)) == p.transition.amount.value
  {
    forall a: Allocation ensures AllocationOk(a, None, Some(cfg.store)) <==>
      a.amount.value >= 0.0 && cfg.store.AssetDecimals(a.asset).Some?
      && PrecisionValid(a.amount, cfg.store.AssetDecimals(a.asset).value) {}
    if NoDuplicates(u.session, u.allocations) {
      RaisesAreSlots(ns, p, u);
    }
  }

  /** One more listed slot: its raise, if it is one, is one more change. */
  lemma RaisedMore(cur: map<Slot, real>, incoming: map<Slot, real>, k: Slot, amount: real)
    requires k !in incoming
    ensures k !in Delta(cur, cur + incoming)
    ensures Delta(cur, cur + incoming[k := amount]) ==
            if amount == Get(cur, k) then Delta(cur, cur + incoming)
            else Delta(cur, cur + incoming)[k := amount - Get(cur, k)]
  {}

  lemma NoneRaised(cur: map<Slot, real>)
    ensures Delta(cur, cur + map[]) == map[]
  {}

  /** One allocation of a deposit: a raise is recorded. */
  method RaiseSlot(store: Store, cur: map<Slot, real>, incoming: map<Slot, real>, k: Slot, amount: real,
                   ghost ns: NodeState)
    returns (deposited: real)
    requires Recorded(ns, Delta(cur, cur + incoming), store.Snapshot()) && k !in incoming && amount >= Get(cur, k)
    modifies store`entries
    ensures Recorded(ns, Delta(cur, cur + incoming[k := amount]), store.Snapshot())
    ensures Sum(Delta(cur, cur + incoming[k := amount])) == Sum(Delta(cur, cur + incoming)) + deposited
  {
    RaisedMore(cur, incoming, k, amount);
    deposited := 0.0;
    if amount > Get(cur, k) {
      deposited := amount - Get(cur, k);
      SumUpdate(Delta(cur, cur + incoming), k, deposited);
      RecordChange(store, k, deposited, ns, Delta(cur, cur + incoming));
    }
  }

  /** Checks one allocation of a deposit. */
  method CheckRaise(cfg: Config, u: Update, a: Allocation, cur: map<Slot, real>, weights: map<Wallet, Weight>,
                    asset: Asset)
    returns (ok: bool)
    ensures ok <==>
      AllocationOk(a, None, Some(cfg.store)) && RaiseOk(cur, weights, asset, SlotOf(u.session, a), a.amount.value)
  {
    if a.amount.value < 0.0 { return false; }
    var decimals := cfg.store.AssetDecimals(a.asset);
    if decimals.None? { return false; }
    if !PrecisionValid(a.amount, decimals.value) { return false; }
    var held := Get(cur, SlotOf(u.session, a));
    if a.amount.value < held { return false; }
    if a.amount.value > held {
      if a.participant !in weights { return false; }
      if a.asset != asset { return false; }
    }
    return true;
  }

  lemma RaisesOkMore(u: Update, cur: map<Slot, real>, weights: map<Wallet, Weight>, asset: Asset, i: nat,
                     store: AssetStore)
    requires i < |u.allocations| && RaisesOk(u, cur, weights, asset, u.allocations[..i], store)
    ensures var a, before := u.allocations[i], Listed(u.session, u.allocations[..i]);
      var k := SlotOf(u.session, a);
      && Listed(u.session, u.allocations[..i + 1]) == before[k := a.amount.value]
      && if AllocationOk(a, None, Some(store)) && RaiseOk(cur, weights, asset, k, a.amount.value) && k !in before
         then RaisesOk(u, cur, weights, asset, u.allocations[..i + 1], store)
         else !RaisesOk(u, cur, weights, asset, u.allocations, store)
  {
    ListedMore(u.session, u.allocations, i);
    assert u.allocations[..i + 1] == u.allocations[..i] + [u.allocations[i]];
  }

  /** Checks the next allocation, and records it if it is a raise. */
  method RaiseOne(cfg: Config, store: Store, u: Update, i: nat, asset: Asset, cur: map<Slot, real>,
                  weights: map<Wallet, Weight>, incoming: map<Slot, real>, ghost ns: NodeState)
    returns (ok: bool, deposited: real)
    requires i < |u.allocations| && incoming == Listed(u.session, u.allocations[..i])
    requires RaisesOk(u, cur, weights, asset, u.allocations[..i], cfg.store)
    requires Recorded(ns, Delta(cur, cur + incoming), store.Snapshot())
    modifies store`entries
    ensures !ok ==> !RaisesOk(u, cur, weights, asset, u.allocations, cfg.store)
    ensures ok ==> RaisesOk(u, cur, weights, asset, u.allocations[..i + 1], cfg.store)
    ensures ok ==> var now := Listed(u.session, u.allocations[..i + 1]);
      && now == incoming[SlotOf(u.session, u.allocations[i]) := u.allocations[i].amount.value]
      && Recorded(ns, Delta(cur, cur + now), store.Snapshot())
      && Sum(Delta(cur, cur + now)) == Sum(Delta(cur, cur + incoming)) + deposited
  {
    var a := u.allocations[i];
    var k := SlotOf(u.session, a);
    deposited := 0.0;
    RaisesOkMore(u, cur, weights, asset, i, cfg.store);
    ok := CheckRaise(cfg, u, a, cur, weights, asset);
    if !ok || k in incoming { return false, deposited; }
    deposited := RaiseSlot(store, cur, incoming, k, a.amount.value, ns);
  }

  /** Goes through the allocations, records every raise, and adds them up. */
  method RecordRaises(cfg: Config, store: Store, u: Update, asset: Asset, cur: map<Slot, real>,
                      weights: map<Wallet, Weight>)
    returns (ok: bool, incoming: map<Slot, real>, total: real)
    modifies store`entries
    ensures ok <==> RaisesOk(u, cur, weights, asset, u.allocations, cfg.store)
    ensures ok ==> incoming == ListedBy(u) && total == Sum(Delta(cur, cur + ListedBy(u)))
    ensures ok ==> Recorded(old(store.Snapshot()), Delta(cur, cur + ListedBy(u)), store.Snapshot())
  {
    ghost var ns := store.Snapshot();
    var allocations := u.allocations;
    NothingRecorded(ns);
    NoneRaised(cur);
    incoming, total := map[], 0.0;
    for i := 0 to |allocations|
      invariant incoming == Listed(u.session, allocations[..i])
        && RaisesOk(u, cur, weights, asset, allocations[..i], cfg.store)
      invariant Recorded(ns, Delta(cur, cur + incoming), store.Snapshot()) && total == Sum(Delta(cur, cur + incoming))
    {
      var deposited;
      ok, deposited := RaiseOne(cfg, store, u, i, asset, cur, weights, incoming, ns);
      if !ok { return; }
      total := total + deposited;
      incoming := incoming[SlotOf(u.session, allocations[i]) := allocations[i].amount.value];
    }
    assert allocations[..|allocations|] == allocations;
    ok := true;
  }

  /** Every other asset is listed as it is. */
  method OthersKept(cur: map<Slot, real>, incoming: map<Slot, real>, asset: Asset) returns (ok: bool)
    ensures ok <==> forall k :: k in cur && cur[k] != 0.0 && k.asset != asset ==> k in incoming && incoming[k] == cur[k]
  {
    var rest := cur.Keys;
    while rest != {}
      invariant rest <= cur.Keys
      invariant forall k :: k in cur.Keys - rest && cur[k] != 0.0 && k.asset != asset ==>
        k in incoming && incoming[k] == cur[k]
      decreases |rest|
    {
      var k :| k in rest;
      rest := rest - {k};
      if cur[k] == 0.0 || k.asset == asset { continue; }
      if k !in incoming { return false; }
      if incoming[k] != cur[k] { return false; }
    }
    assert forall k :: k in cur ==> k in cur.Keys - {};
    return true;
  }

  method HandleDeposit(cfg: Config, store: Store, p: State, u: Update, cur: map<Slot, real>,
                       weights: map<Wallet, Weight>)
    returns (ok: bool)
    requires cur == CurrentOf(store.Snapshot(), u.session) && weights == WeightsIn(store.Snapshot(), u.session)
    modifies store`entries
    ensures ok <==> DepositOk(cfg, old(store.Snapshot()), p, u)
    ensures ok ==> Recorded(old(store.Snapshot()), Delta(cur, cur + ListedBy(u)), store.Snapshot())
  {
    DepositChecks(cfg, store.Snapshot(), p, u);
    var incoming, total;
    ok, incoming, total := RecordRaises(cfg, store, u, p.asset, cur, weights);
    if !ok { return; }
    ok := OthersKept(cur, incoming, p.asset);
    if !ok { return; }
    return total == p.transition.amount.value;
  }

  // ---------- The endpoint ----------

  /** The store once a deposit is complete. */
  function Deposited(ns: NodeState, p: State, u: Update, entries: seq<Entry>): NodeState
    requires u.session in ns.sessions
  {
    var eff := StateEffect(ns, p, {});
    NodeState(AppendAll(ns.chains, eff.appended), ns.channels,
              ns.sessions[u.session := Advanced(ns.sessions[u.session], u, Open)], entries, ns.txs + eff.txs)
  }

  lemma DepositApplies(ns: NodeState, p: State, u: Update, now: NodeState)
    requires u.session in ns.sessions && now == Deposited(ns, p, u, now.entries)
    requires Recorded(ns, DepositEffect(ns, p, u).changes, ns.(entries := now.entries))
    ensures Applied(ns, DepositEffect(ns, p, u), now)
  {
    assert DepositEffect(ns, p, u).channels == {};
    assert DepositEffect(ns, p, u).sessions == map[u.session := Advanced(ns.sessions[u.session], u, Open)];
  }

  /** The checks of the user state that come before its validation. */
  predicate DepositStateOk(ns: NodeState, p: State, su: SignedUpdate, c: Checks) {
    && su.update.intent == Deposit && p.transition.kind == Commit && c.channelOpen
    && p.transition.account == HashAccount(su.update.session)
    && (ChainOf(ns.chains, KeyOf(p)) != [] ==> c.quiet)
  }

  lemma AcceptsDepositIs(cfg: Config, ns: NodeState, p: State, su: SignedUpdate, c: Checks)
    ensures AcceptsDeposit(cfg, ns, p, su, c) <==>
      Authorized(cfg, ns, su) && DepositStateOk(ns, p, su, c) && CoSignable(cfg, ns, p, c.signatureValid)
        && DepositOk(cfg, ns, p, su.update)
    ensures Authorized(cfg, ns, su) ==>
      su.update.session in ns.sessions && ns.sessions[su.update.session].status == Open
  {}

  method CheckDepositState(store: Store, p: State, su: SignedUpdate, c: Checks) returns (ok: bool)
    ensures ok <==> DepositStateOk(store.Snapshot(), p, su, c)
  {
    if su.update.intent != Deposit { return false; }
    if p.transition.kind != Commit { return false; }
    if !c.channelOpen { return false; }
    if p.transition.account != HashAccount(su.update.session) { return false; }
    var last := store.GetLastUserState(KeyOf(p), false);
    return last.None? || c.quiet;
  }

  /** Stores the user's commit and its transaction. */
  method StoreCommit(cfg: Config, store: Store, p: State, ghost ns: NodeState, ghost valid: bool)
    requires Inv(cfg, ns) && CoSignable(cfg, ns, p, valid) && p.transition.kind == Commit
    requires store.chains == ns.chains && store.txs == ns.txs
    modifies store`chains, store`txs
    ensures store.Snapshot() == old(store.Snapshot()).(chains := AppendAll(ns.chains, StateEffect(ns, p, {}).appended),
                                                       txs := ns.txs + StateEffect(ns, p, {}).txs)
  {
    StoreCoSigned(cfg, store, p, ns, valid);
    AcceptedHasTx(cfg, ns, p, valid);
    AloneEffect(ns, p, {});
    var tx := NewTransaction(Some(p.(nodeSigned := true)), None, p.transition);
    RecordState(cfg, store, p, tx, ns, valid, {});
  }

  /** Moves the session on, and stores the user's commit. */
  method FinishDeposit(cfg: Config, store: Store, p: State, u: Update, session: Session, ghost ns: NodeState,
                       ghost valid: bool)
    requires Inv(cfg, ns) && CoSignable(cfg, ns, p, valid) && p.transition.kind == Commit && u.intent == Deposit
    requires u.session in ns.sessions && session == ns.sessions[u.session] && session.status == Open
    requires store.Snapshot() == ns.(entries := store.entries)
    modifies store`sessions, store`chains, store`txs
    ensures store.Snapshot() == Deposited(ns, p, u, old(store.entries))
  {
    AdvanceSession(store, u, session);
    StoreCommit(cfg, store, p, ns, valid);
  }

  method SubmitDepositTx(cfg: Config, store: Store, p: State, su: SignedUpdate, c: Checks) returns (ok: bool)
    requires Inv(cfg, store.Snapshot())
    modifies store
    ensures ok <==> AcceptsDeposit(cfg, old(store.Snapshot()), p, su, c)
    ensures store.locks == old(store.locks) + [KeyOf(p)] || (!ok && store.locks == old(store.locks))
    ensures ok ==> Applied(old(store.Snapshot()), DepositEffect(old(store.Snapshot()), p, su.update), store.Snapshot())
  {
    ghost var ns := store.Snapshot();
    var u := su.update;
    AcceptsDepositIs(cfg, ns, p, su, c);
    var session, weights;
    ok, session, weights := Authorize(cfg, store, su);
    if !ok { return; }
    store.LockUserState(KeyOf(p));
    ok := CheckDepositState(store, p, su, c);
    if !ok { return; }
    var last := CurrentState(store, KeyOf(p));
    ok := CheckState(cfg, store, last, p, c.signatureValid);
    if !ok { return; }
    var cur := CurrentAllocations(store, u.session, weights, store.Snapshot());
    ok := HandleDeposit(cfg, store, p, u, cur, weights);
    if !ok { return; }
    FinishDeposit(cfg, store, p, u, session, ns, c.signatureValid);
    DepositApplies(ns, p, u, store.Snapshot());
  }

  /** Depositing into a session: all or nothing. */
  method SubmitDepositState(cfg: Config, store: Store, p: State, su: SignedUpdate, c: Checks) returns (ok: bool)
    requires Inv(cfg, store.Snapshot())
    modifies store
    ensures Inv(cfg, store.Snapshot())
    ensures ok <==> Accepts(cfg, old(store.Snapshot()), SubmitDeposit(p, su, c))
    ensures Step(cfg, old(store.Snapshot()), SubmitDeposit(p, su, c), store.Snapshot())
    ensures Locked(cfg, old(store.Snapshot()), SubmitDeposit(p, su, c), old(store.locks), store.locks)
  {
    var before := store.Snapshot();
    ok := SubmitDepositTx(cfg, store, p, su, c);
    if !ok { store.Rollback(before); }
    StepKeepsInv(cfg, before, SubmitDeposit(p, su, c), store.Snapshot());
  }
}
