/** Each accepted session update does exactly what was signed. */
module Settlement {
  import opened Sums
  import opened Channels
  import opened Chains
  import opened Transactions
  import opened Allocations
  import opened NodeModel
  import opened Invariants
  import opened Conservation

  /** No operation records a slot more than once. */
  lemma RecordedOnce(cfg: Config, ns: NodeState, op: Op, ns': NodeState, i: nat, j: nat)
    requires Step(cfg, ns, op, ns') && Accepts(cfg, ns, op)
    requires |ns.entries| <= i < j < |ns'.entries|
    ensures ns'.entries[i].slot != ns'.entries[j].slot
  {
    SuffixOnce(ns'.entries, |ns.entries|, EffectOf(cfg, ns, op).changes, i, j);
  }

  lemma SuffixOnce(entries: seq<Entry>, n: nat, changes: map<Slot, real>, i: nat, j: nat)
    requires n <= i < j < |entries| && Lists(entries[n..], changes)
    ensures entries[i].slot != entries[j].slot
  {
    ListsOnce(entries[n..], changes, i - n, j - n);
  }

  /** After an operate every slot of the session holds the submitted amount, an absent one
      nothing; no other slot, no chain, and no total changes. */
  lemma OperateExact(cfg: Config, ns: NodeState, su: SignedUpdate, ns': NodeState, k: Slot, asset: Asset)
    requires Inv(cfg, ns) && AcceptsUpdate(cfg, ns, su) && su.update.intent == Operate
    requires Step(cfg, ns, SubmitUpdate(su), ns')
    ensures Get(Allocated(ns'.entries), k)
         == if k.session == su.update.session then Get(ListedBy(su.update), k) else Get(Allocated(ns.entries), k)
    ensures Funds(ns'.entries, asset) == Funds(ns.entries, asset)
    ensures ns'.chains == ns.chains
  {
    OpSettles(cfg, ns, SubmitUpdate(su), ns');
    OperateRecords(cfg, ns, su, ns');
    OperateFunds(cfg, ns, su.update, ns', asset);
  }

  lemma OperateRecords(cfg: Config, ns: NodeState, su: SignedUpdate, ns': NodeState)
    requires AcceptsUpdate(cfg, ns, su) && su.update.intent == Operate && Step(cfg, ns, SubmitUpdate(su), ns')
    ensures OperateOk(cfg, ns, su.update) && su.update.session in ns.sessions
    ensures Applied(ns, UpdateEffect(ns, su.update), ns') && ns'.chains == ns.chains
  {
    StepApplied(cfg, ns, SubmitUpdate(su), ns');
    assert AppendAll(ns.chains, map[]) == ns.chains;
  }

  lemma OperateFunds(cfg: Config, ns: NodeState, u: Update, ns': NodeState, asset: Asset)
    requires u.session in ns.sessions && u.intent == Operate && OperateOk(cfg, ns, u)
    requires Applied(ns, UpdateEffect(ns, u), ns')
    ensures Funds(ns'.entries, asset) == Funds(ns.entries, asset)
  {
    UpdateFunds(ns, u, ns'.entries, asset);
    DeltaSum(CurrentOf(ns, u.session), ListedBy(u), asset);
  }

  lemma UpdateFunds(ns: NodeState, u: Update, entries: seq<Entry>, asset: Asset)
    requires |ns.entries| <= |entries| && entries[..|ns.entries|] == ns.entries
    requires Lists(entries[|ns.entries|..], Delta(CurrentOf(ns, u.session), Target(u)))
    ensures Funds(entries, asset)
         == Funds(ns.entries, asset) + Sum(OfAsset(Delta(CurrentOf(ns, u.session), Target(u)), asset))
  {
    FundsRecorded(ns.entries, entries, Delta(CurrentOf(ns, u.session), Target(u)), asset);
  }

  /** What leaves a slot of the session. */
  function Lost(ns: NodeState, u: Update, k: Slot): real {
    Get(Allocated(ns.entries), k) - Get(Target(u), k)
  }

  /** After a withdraw or a close every slot of the session holds its target, and its
      participant is issued a release of exactly what the slot lost, or nothing. */
  lemma ReleaseExact(cfg: Config, ns: NodeState, su: SignedUpdate, ns': NodeState, k: Slot)
    requires Inv(cfg, ns) && AcceptsUpdate(cfg, ns, su) && su.update.intent != Operate
    requires Step(cfg, ns, SubmitUpdate(su), ns') && k.session == su.update.session
    ensures Get(Allocated(ns'.entries), k) == Get(Target(su.update), k)
    ensures Lost(ns, su.update, k) >= 0.0
    ensures var key := Key(k.wallet, k.asset);
      ChainOf(ns'.chains, key) == ChainOf(ns.chains, key)
        + (if Lost(ns, su.update, k) == 0.0 then []
           else [Issued(Current(ns, key), Freed(k.session, Lost(ns, su.update, k)))])
    ensures var key := Key(k.wallet, k.asset);
      UserBalance(ns', key) == UserBalance(ns, key) + Lost(ns, su.update, k)
  {
    OpSettles(cfg, ns, SubmitUpdate(su), ns');
    LeavingSlots(cfg, ns, su.update);
    UpdateReleases(cfg, ns, su.update, k);
    ReleasePays(cfg, ns, ns', Key(k.wallet, k.asset), k.session, Lost(ns, su.update, k));
  }

  /** What a user has in its channel. */
  function UserBalance(ns: NodeState, k: Key): real {
    Current(ns, k).home.userBalance
  }

  /** A release adds its amount to the user's balance, also if it is the first state of an epoch. */
  lemma ReleasePays(cfg: Config, ns: NodeState, ns': NodeState, k: Key, session: Id, amount: real)
    requires ChainsValid(cfg, ns)
    requires ChainOf(ns'.chains, k) ==
      ChainOf(ns.chains, k) + if amount == 0.0 then [] else [Issued(Current(ns, k), Freed(session, amount))]
    ensures UserBalance(ns', k) == UserBalance(ns, k) + amount
  {
    var cur := Current(ns, k);
    CurrentSound(cfg, ns, k);
    NextKeepsBalance(cur);
    if amount != 0.0 {
      assert Current(ns', k) == Issued(cur, Freed(session, amount));
      IssuedBalance(cur, Freed(session, amount));
    } else {
      assert ChainOf(ns.chains, k) + [] == ChainOf(ns.chains, k);
      SameCurrent(ns, ns', k);
    }
  }

  lemma SameCurrent(ns: NodeState, ns': NodeState, k: Key)
    requires ChainOf(ns'.chains, k) == ChainOf(ns.chains, k)
    ensures Current(ns', k) == Current(ns, k)
  {}

  lemma NextKeepsBalance(cur: State)
    requires Sound(cur)
    ensures NextState(cur).home.userBalance == cur.home.userBalance
  {}

  lemma IssuedBalance(cur: State, r: Request)
    requires r.ReleaseFrom?
    ensures Issued(cur, r).home.userBalance == NextState(cur).home.userBalance + r.amount.value
  {}

  lemma UpdateReleases(cfg: Config, ns: NodeState, u: Update, k: Slot)
    requires var changes := Delta(CurrentOf(ns, u.session), Target(u));
      forall s :: s in changes ==> Leaving(cfg, ns, u.session, changes, s)
    requires k.session == u.session
    ensures Lost(ns, u, k) >= 0.0
    ensures var key := Key(k.wallet, k.asset);
      ChainOf(AppendAll(ns.chains, Releases(ns, u.session, Delta(CurrentOf(ns, u.session), Target(u)))), key)
      == ChainOf(ns.chains, key)
         + (if Lost(ns, u, k) == 0.0 then [] else [Issued(Current(ns, key), Freed(k.session, Lost(ns, u, k)))])
  {
    var changes := Delta(CurrentOf(ns, u.session), Target(u));
    assert Get(CurrentOf(ns, u.session), k) == Get(Allocated(ns.entries), k);
    forall s | s in changes ensures s.session == u.session {
      assert Leaving(cfg, ns, u.session, changes, s);
    }
    LostIsChange(cfg, ns, u, k);
    ReleasedChain(ns, u.session, changes, k);
  }

  lemma LostIsChange(cfg: Config, ns: NodeState, u: Update, k: Slot)
    requires var changes := Delta(CurrentOf(ns, u.session), Target(u));
      forall s :: s in changes ==> Leaving(cfg, ns, u.session, changes, s)
    requires Get(CurrentOf(ns, u.session), k) == Get(Allocated(ns.entries), k)
    ensures var changes := Delta(CurrentOf(ns, u.session), Target(u));
      Lost(ns, u, k) == -Get(changes, k) && Lost(ns, u, k) >= 0.0 && (k in changes <==> Lost(ns, u, k) != 0.0)
  {
    var changes := Delta(CurrentOf(ns, u.session), Target(u));
    DeltaReached(CurrentOf(ns, u.session), Target(u), k);
    if k in changes {
      assert Leaving(cfg, ns, u.session, changes, k);
    }
  }

  lemma ReleasedChain(ns: NodeState, session: Id, changes: map<Slot, real>, k: Slot)
    requires k.session == session && forall s :: s in changes ==> s.session == session
    ensures var key := Key(k.wallet, k.asset);
      ChainOf(AppendAll(ns.chains, Releases(ns, session, changes)), key)
      == ChainOf(ns.chains, key)
         + (if k in changes then [Issued(Current(ns, key), Freed(session, -Get(changes, k)))] else [])
  {
    var key, released := Key(k.wallet, k.asset), Releases(ns, session, changes);
    ReleasedSlot(changes, session, key);
    AppendedAt(ns.chains, released, key);
    if k in changes {
      ReleaseIs(ns, session, changes, key, -Get(changes, k));
    }
  }

  lemma AppendedAt(chains: map<Key, seq<State>>, appended: map<Key, State>, k: Key)
    ensures ChainOf(AppendAll(chains, appended), k)
      == ChainOf(chains, k) + (if k in appended then [appended[k]] else [])
  {}

  /** A deposit raises only slots of the committed asset, by the commit amount in total, and
      takes that amount out of the user's channel. */
  lemma DepositExact(cfg: Config, ns: NodeState, p: State, su: SignedUpdate, c: Checks, ns': NodeState, k: Slot,
                     asset: Asset)
    requires Inv(cfg, ns) && AcceptsDeposit(cfg, ns, p, su, c)
    requires Step(cfg, ns, SubmitDeposit(p, su, c), ns')
    ensures Get(Allocated(ns'.entries), k) ==
            if k in ListedBy(su.update) then ListedBy(su.update)[k] else Get(Allocated(ns.entries), k)
    ensures Get(Allocated(ns'.entries), k) >= Get(Allocated(ns.entries), k)
    ensures k.session != su.update.session || k.asset != p.asset ==>
              Get(Allocated(ns'.entries), k) == Get(Allocated(ns.entries), k)
    ensures Funds(ns'.entries, asset)
         == Funds(ns.entries, asset) + (if asset == p.asset then p.transition.amount.value else 0.0)
    ensures ChainOf(ns'.chains, KeyOf(p)) == ChainOf(ns.chains, KeyOf(p)) + [CoSigned(p)]
  {
    DepositSlots(cfg, ns, p, su, c, ns', k);
    DepositAccepted(cfg, ns, p, su, c);
    StepApplied(cfg, ns, SubmitDeposit(p, su, c), ns');
    DepositEffectIs(cfg, ns, p, su, c);
    if k in ListedBy(su.update) {
      RaiseHere(cfg, ns, p, su.update, k);
      HeldHere(ns, su.update.session, k);
    }
    DepositFunds(cfg, ns, p, su.update, ns', asset);
    CommitAppended(ns, p, su.update, ns');
  }

  lemma CommitAppended(ns: NodeState, p: State, u: Update, ns': NodeState)
    requires u.session in ns.sessions && p.transition.kind == Commit && Applied(ns, DepositEffect(ns, p, u), ns')
    ensures ChainOf(ns'.chains, KeyOf(p)) == ChainOf(ns.chains, KeyOf(p)) + [CoSigned(p)]
  {}

  lemma DepositSlots(cfg: Config, ns: NodeState, p: State, su: SignedUpdate, c: Checks, ns': NodeState, k: Slot)
    requires Inv(cfg, ns) && AcceptsDeposit(cfg, ns, p, su, c)
    requires Step(cfg, ns, SubmitDeposit(p, su, c), ns')
    ensures Get(Allocated(ns'.entries), k) ==
            if k in ListedBy(su.update) then ListedBy(su.update)[k] else Get(Allocated(ns.entries), k)
  {
    OpSettles(cfg, ns, SubmitDeposit(p, su, c), ns');
    SettledDeposit(ns, su.update, ns', k);
  }

  lemma SettledDeposit(ns: NodeState, u: Update, ns': NodeState, k: Slot)
    requires SettledTo(ns, ns', {u.session}, CurrentOf(ns, u.session) + ListedBy(u))
    ensures Get(Allocated(ns'.entries), k) == if k in ListedBy(u) then ListedBy(u)[k] else Get(Allocated(ns.entries), k)
  {
    if k in ListedBy(u) {
      ListedHere(u, k);
    }
    HeldHere(ns, u.session, k);
  }

  lemma ListedHere(u: Update, k: Slot)
    requires k in ListedBy(u)
    ensures k.session == u.session
  {
    ListedSlots(u.session, u.allocations);
  }

  lemma HeldHere(ns: NodeState, session: Id, k: Slot)
    ensures k.session == session ==> Get(CurrentOf(ns, session), k) == Get(Allocated(ns.entries), k)
  {}

  lemma RaiseHere(cfg: Config, ns: NodeState, p: State, u: Update, k: Slot)
    requires DepositOk(cfg, ns, p, u) && k in ListedBy(u)
    ensures k.session == u.session && DepositSlotOk(ns, p, u, k)
  {
    ListedHere(u, k);
  }

  lemma DepositAccepted(cfg: Config, ns: NodeState, p: State, su: SignedUpdate, c: Checks)
    requires AcceptsDeposit(cfg, ns, p, su, c)
    ensures su.update.session in ns.sessions && DepositOk(cfg, ns, p, su.update) && p.transition.kind == Commit
  {}

  lemma DepositEffectIs(cfg: Config, ns: NodeState, p: State, su: SignedUpdate, c: Checks)
    requires AcceptsDeposit(cfg, ns, p, su, c)
    ensures EffectOf(cfg, ns, SubmitDeposit(p, su, c)) == DepositEffect(ns, p, su.update)
  {}

  lemma DepositFunds(cfg: Config, ns: NodeState, p: State, u: Update, ns': NodeState, asset: Asset)
    requires u.session in ns.sessions && DepositOk(cfg, ns, p, u) && Applied(ns, DepositEffect(ns, p, u), ns')
    ensures Funds(ns'.entries, asset)
         == Funds(ns.entries, asset) + (if asset == p.asset then p.transition.amount.value else 0.0)
  {
    FundsRecorded(ns.entries, ns'.entries, DepositEffect(ns, p, u).changes, asset);
    DepositGains(cfg, ns, p, u, asset);
  }

  // ---------- The batch account of a rebalance ----------

  /** What the records of a batch take out of the batch account, less what they bring in. */
  function FromBatch(txs: set<Tx>, batch: Id, asset: Asset): map<Tx, real> {
    map t | t in txs && t.asset == asset :: TakenFrom(t, HashAccount(batch))
  }

  function TakenFrom(t: Tx, account: Account): real {
    (if t.from == account then t.amount else 0.0) - (if t.to == account then t.amount else 0.0)
  }

  lemma RebalanceTxAmount(batch: Id, session: Id, asset: Asset, net: real)
    requires batch != session && net != 0.0
    ensures var t := RebalanceTx(batch, session, asset, net);
      t.asset == asset && TakenFrom(t, HashAccount(batch)) == net
  {}

  lemma {:induction false} SumBySession(changes: map<Slot, real>, asset: Asset, sessions: set<Id>)
    requires forall k :: k in changes ==> k.session in sessions
    ensures Sum(map s | s in sessions :: NetGain(changes, s, asset)) == Sum(OfAsset(changes, asset))
    decreases |changes|
  {
    var nets := map s | s in sessions :: NetGain(changes, s, asset);
    if changes == map[] {
      forall s | s in sessions ensures nets[s] == 0.0 {
        assert OfAsset(OfSession(changes, s), asset) == map[];
      }
      assert OfAsset(changes, asset) == map[];
      SumSame(nets, map[]);
    } else {
      var k :| k in changes;
      var fewer := changes - {k};
      SumBySession(fewer, asset, sessions);
      SumBySessionMore(fewer, k, changes[k], asset, sessions);
      assert fewer[k := changes[k]] == changes;
    }
  }

  lemma SumBySessionMore(changes: map<Slot, real>, k: Slot, v: real, asset: Asset, sessions: set<Id>)
    requires k !in changes && k.session in sessions
    requires Sum(map s | s in sessions :: NetGain(changes, s, asset)) == Sum(OfAsset(changes, asset))
    ensures Sum(map s | s in sessions :: NetGain(changes[k := v], s, asset)) == Sum(OfAsset(changes[k := v], asset))
  {
    var more := changes[k := v];
    var before := map s | s in sessions :: NetGain(changes, s, asset);
    var after := map s | s in sessions :: NetGain(more, s, asset);
    SumChange(changes, k, v, asset);
    forall s | s in sessions
      ensures after[s] == before[s] + (if s == k.session && k.asset == asset then v else 0.0)
    {
      NetGainMore(changes, k, v, asset, s);
    }
    SumOneMore(before, after, k.session, if k.asset == asset then v else 0.0);
  }

  lemma SumOneMore(before: map<Id, real>, after: map<Id, real>, k: Id, x: real)
    requires k in before && after.Keys == before.Keys
    requires after[k] == before[k] + x && forall s :: s in before && s != k ==> after[s] == before[s]
    ensures Sum(after) == Sum(before) + x
  {
    assert after == before[k := after[k]];
    SumUpdate(before, k, after[k]);
  }

  lemma NetGainMore(changes: map<Slot, real>, k: Slot, v: real, asset: Asset, s: Id)
    requires k !in changes
    ensures NetGain(changes[k := v], s, asset)
         == NetGain(changes, s, asset) + (if s == k.session && k.asset == asset then v else 0.0)
  {
    if s == k.session {
      assert OfSession(changes[k := v], s) == OfSession(changes, s)[k := v];
      SumChange(OfSession(changes, s), k, v, asset);
    } else {
      assert OfSession(changes[k := v], s) == OfSession(changes, s);
    }
  }

  function SessionsIn(changes: map<Slot, real>): set<Id> {
    set k | k in changes :: k.session
  }

  /** The sessions with a net gain or loss of the asset. */
  ghost function NetSessions(changes: map<Slot, real>, asset: Asset): set<Id> {
    set s | s in SessionsIn(changes) && NetGain(changes, s, asset) != 0.0
  }

  ghost predicate OneOf(t: Tx, batch: Id, changes: map<Slot, real>, asset: Asset, sessions: set<Id>) {
    exists s :: s in sessions && t == RebalanceTx(batch, s, asset, NetGain(changes, s, asset))
  }

  /** One record for each session with a net gain or loss, of that amount. */
  lemma {:induction false} RecordsSum(txs: set<Tx>, batch: Id, changes: map<Slot, real>, asset: Asset,
                                      sessions: set<Id>)
    requires batch !in sessions && forall s :: s in sessions ==> NetGain(changes, s, asset) != 0.0
    requires forall t :: (t in txs && t.asset == asset) <==> OneOf(t, batch, changes, asset, sessions)
    ensures Sum(FromBatch(txs, batch, asset)) == Sum(map s | s in sessions :: NetGain(changes, s, asset))
    decreases sessions
  {
    if sessions == {} {
      assert FromBatch(txs, batch, asset) == map[];
      assert (map s | s in sessions :: NetGain(changes, s, asset)) == map[];
    } else {
      var s :| s in sessions;
      var net := NetGain(changes, s, asset);
      var t := RebalanceTx(batch, s, asset, net);
      RebalanceTxAmount(batch, s, asset, net);
      assert OneOf(t, batch, changes, asset, sessions);
      forall u ensures (u in txs - {t} && u.asset == asset) <==> OneOf(u, batch, changes, asset, sessions - {s}) {
        RecordOfOther(txs, batch, changes, asset, sessions, s, u);
      }
      RecordsSum(txs - {t}, batch, changes, asset, sessions - {s});
      RecordsSumOut(txs, batch, changes, asset, sessions, s);
    }
  }

  lemma RecordOfOther(txs: set<Tx>, batch: Id, changes: map<Slot, real>, asset: Asset, sessions: set<Id>, s: Id, u: Tx)
    requires s in sessions
    requires (u in txs && u.asset == asset) <==> OneOf(u, batch, changes, asset, sessions)
    ensures (u in txs - {RebalanceTx(batch, s, asset, NetGain(changes, s, asset))} && u.asset == asset)
      <==> OneOf(u, batch, changes, asset, sessions - {s})
  {
    var t := RebalanceTx(batch, s, asset, NetGain(changes, s, asset));
    if u in txs - {t} && u.asset == asset {
      var r :| r in sessions && u == RebalanceTx(batch, r, asset, NetGain(changes, r, asset));
      assert r in sessions - {s};
    }
    if OneOf(u, batch, changes, asset, sessions - {s}) {
      var r :| r in sessions - {s} && u == RebalanceTx(batch, r, asset, NetGain(changes, r, asset));
      assert u.id != t.id;
    }
  }

  lemma RecordsSumOut(txs: set<Tx>, batch: Id, changes: map<Slot, real>, asset: Asset, sessions: set<Id>, s: Id)
    requires s in sessions && batch != s && NetGain(changes, s, asset) != 0.0
    requires RebalanceTx(batch, s, asset, NetGain(changes, s, asset)) in txs
    ensures var t := RebalanceTx(batch, s, asset, NetGain(changes, s, asset));
      Sum(FromBatch(txs, batch, asset)) == NetGain(changes, s, asset) + Sum(FromBatch(txs - {t}, batch, asset))
    ensures Sum(map r | r in sessions :: NetGain(changes, r, asset))
         == NetGain(changes, s, asset) + Sum(map r | r in sessions - {s} :: NetGain(changes, r, asset))
  {
    var net := NetGain(changes, s, asset);
    RebalanceTxAmount(batch, s, asset, net);
    RecordOut(txs, batch, asset, RebalanceTx(batch, s, asset, net), net);
    NetOut(changes, asset, sessions, s);
  }

  lemma RecordOut(txs: set<Tx>, batch: Id, asset: Asset, t: Tx, net: real)
    requires t in txs && t.asset == asset && TakenFrom(t, HashAccount(batch)) == net
    ensures Sum(FromBatch(txs, batch, asset)) == net + Sum(FromBatch(txs - {t}, batch, asset))
  {
    SumRemove(FromBatch(txs, batch, asset), t);
    assert FromBatch(txs, batch, asset) - {t} == FromBatch(txs - {t}, batch, asset);
  }

  lemma NetOut(changes: map<Slot, real>, asset: Asset, sessions: set<Id>, s: Id)
    requires s in sessions
    ensures Sum(map r | r in sessions :: NetGain(changes, r, asset))
         == NetGain(changes, s, asset) + Sum(map r | r in sessions - {s} :: NetGain(changes, r, asset))
  {
    var nets := map r | r in sessions :: NetGain(changes, r, asset);
    SumRemove(nets, s);
    assert nets - {s} == map r | r in sessions - {s} :: NetGain(changes, r, asset);
  }

  lemma RecordsAre(batch: Id, changes: map<Slot, real>, asset: Asset, t: Tx)
    ensures (t in RebalanceTxs(batch, changes) && t.asset == asset)
      <==> OneOf(t, batch, changes, asset, NetSessions(changes, asset))
  {
    if t in RebalanceTxs(batch, changes) && t.asset == asset {
      var k := RebalanceTxOf(batch, changes, t);
      assert k.session in NetSessions(changes, asset);
    }
    if OneOf(t, batch, changes, asset, NetSessions(changes, asset)) {
      var s :| s in NetSessions(changes, asset) && t == RebalanceTx(batch, s, asset, NetGain(changes, s, asset));
      var k := SlotWithGain(changes, s, asset);
    }
  }

  /** A session with a net gain or loss has a slot of that asset. */
  lemma SlotWithGain(changes: map<Slot, real>, session: Id, asset: Asset) returns (k: Slot)
    requires NetGain(changes, session, asset) != 0.0
    ensures k in changes && k.session == session && k.asset == asset
  {
    var own := OfAsset(OfSession(changes, session), asset);
    assert own != map[];
    k :| k in own;
  }

  lemma NetSessionsSum(changes: map<Slot, real>, asset: Asset)
    ensures Sum(map s | s in NetSessions(changes, asset) :: NetGain(changes, s, asset)) == Sum(OfAsset(changes, asset))
  {
    var sessions := SessionsIn(changes);
    SumBySession(changes, asset, sessions);
    SumSame(map s | s in NetSessions(changes, asset) :: NetGain(changes, s, asset),
            map s | s in sessions :: NetGain(changes, s, asset));
  }

  lemma BatchIsNoSession(cfg: Config, ns: NodeState, updates: seq<SignedUpdate>, asset: Asset)
    requires Inv(cfg, ns) && AcceptsRebalance(cfg, ns, updates)
    ensures BatchOf(updates) !in NetSessions(BatchChanges(ns, updates), asset)
  {
    if BatchOf(updates) in NetSessions(BatchChanges(ns, updates), asset) {
      var k :| k in BatchChanges(ns, updates) && k.session == BatchOf(updates);
      BatchSlot(cfg, ns, updates, k);
    }
  }

  /** The records of an accepted batch bring the batch account to net zero if and only if the
      batch gives nothing to slots that are present at zero. */
  lemma BatchAccountNet(cfg: Config, ns: NodeState, updates: seq<SignedUpdate>, asset: Asset)
    requires Inv(cfg, ns) && AcceptsRebalance(cfg, ns, updates)
    ensures var taken := Sum(FromBatch(RebalanceEffect(ns, updates).txs, BatchOf(updates), asset));
      && taken == -Burned(ns, RebalanceSessions(updates), asset)
      && (taken == 0.0 <==> NoneCountedTwice(ns, updates, asset))
  {
    var changes, batch := BatchChanges(ns, updates), BatchOf(updates);
    forall t ensures (t in RebalanceTxs(batch, changes) && t.asset == asset)
                     <==> OneOf(t, batch, changes, asset, NetSessions(changes, asset)) {
      RecordsAre(batch, changes, asset, t);
    }
    BatchIsNoSession(cfg, ns, updates, asset);
    RecordsSum(RebalanceTxs(batch, changes), batch, changes, asset, NetSessions(changes, asset));
    NetSessionsSum(changes, asset);
    assert Tally(ns, updates, asset) == 0.0;
    BurnedIff(cfg, ns, updates, asset);
  }
}
