/** Account statements: the recorded transactions amount to exactly what users have in their
    channels and what sessions hold. */
module Statements {
  import opened Options
  import opened Sums
  import opened Channels
  import opened Advancer
  import opened Chains
  import opened Transitions
  import opened Transactions
  import opened Allocations
  import opened NodeModel
  import opened Invariants
  import opened Conservation
  import opened Settlement
  import opened Runs

  /** Whose statement it is, and of which asset. */
  datatype View = OfSessionId(session: Id, asset: Asset) | OfWallet(wallet: Wallet, asset: Asset)

  /** What a transaction brings to an account, less what it takes. */
  function Moved(t: Tx, account: Account): real {
    (if t.to == account then t.amount else 0.0) - (if t.from == account then t.amount else 0.0)
  }

  /** A wallet's statement takes in every transaction; a session's takes in commits, releases and
      rebalances, as a user may name any identifier for a channel. */
  function Seen(v: View, t: Tx): real {
    if t.asset != v.asset then 0.0
    else match v
      case OfWallet(wallet, _) => Moved(t, WalletAccount(wallet))
      case OfSessionId(session, _) =>
        if t.kind == Transfer(Commit) || t.kind == Transfer(Release) || t.kind == Rebalanced
        then Moved(t, HashAccount(session)) else 0.0
  }

  ghost function Net(v: View, txs: set<Tx>): real {
    Sum(map t | t in txs :: Seen(v, t))
  }

  lemma NetUnion(v: View, a: set<Tx>, b: set<Tx>)
    requires a !! b
    ensures Net(v, a + b) == Net(v, a) + Net(v, b)
  {
    SumPlus(map t | t in a :: Seen(v, t), map t | t in b :: Seen(v, t), map t | t in a + b :: Seen(v, t));
  }

  lemma NetOnly(v: View, txs: set<Tx>, only: Tx)
    requires forall t :: t in txs && t != only ==> Seen(v, t) == 0.0
    ensures Net(v, txs) == if only in txs then Seen(v, only) else 0.0
  {
    var one: map<Tx, real> := if only in txs then map[only := Seen(v, only)] else map[];
    SumSame(map t | t in txs :: Seen(v, t), one);
    if only in txs {
      SumUpdate(map[], only, Seen(v, only));
    }
  }

  lemma NetNone(v: View, txs: set<Tx>)
    requires forall t :: t in txs ==> Seen(v, t) == 0.0
    ensures Net(v, txs) == 0.0
  {
    SumSame(map t | t in txs :: Seen(v, t), map[]);
  }

  lemma NetOne(v: View, t: Tx)
    ensures Net(v, {t}) == Seen(v, t) && Net(v, {}) == 0.0
  {
    NetOnly(v, {t}, t);
    NetNone(v, {});
  }

  // ---------- The record of a user's state ----------

  /** Between which accounts a state that its user signs moves its amount. */
  function Ends(s: State): (Account, Account) {
    var own, t := WalletAccount(s.wallet), s.transition;
    match t.kind
    case HomeDeposit => (t.account, own)
    case EscrowDeposit => (t.account, own)
    case HomeWithdrawal => (own, t.account)
    case Finalize => (own, t.account)
    case TransferSend => (own, t.account)
    case Commit => (own, t.account)
    case _ => (if s.homeChannel.Some? then HashAccount(s.homeChannel.value) else own, t.account)
  }

  /** The one transaction that is recorded with the state, unless it is an acknowledgement. */
  ghost predicate RecordsState(txs: set<Tx>, s: State) {
    if s.transition.kind == Acknowledgement then txs == {}
    else exists t :: txs == {t} && IsRecordOf(t, s)
  }

  predicate IsRecordOf(t: Tx, s: State) {
    && t.asset == s.asset && t.kind == Transfer(s.transition.kind) && t.amount == s.transition.amount.value
    && (t.from, t.to) == Ends(s) && t.senderState == Some(s.id)
  }

  lemma RecordIs(s: State, received: Option<State>)
    requires OwnAccount(s) && s.homeChannel.Some? && s.transition.kind != Acknowledgement
    requires s.transition.kind == TransferSend ==> received.Some?
    ensures var r := NewTransaction(Some(s), received, s.transition); r.Some? && IsRecordOf(r.value, s)
  {}

  lemma StateRecord(cfg: Config, ns: NodeState, p: State, valid: bool, channels: set<Id>)
    requires CoSignable(cfg, ns, p, valid) && (p.transition.kind == TransferSend ==> TransferOk(cfg, ns, p))
    ensures RecordsState(StateEffect(ns, p, channels).txs, CoSigned(p))
  {
    AdvancesCarries(Current(ns, KeyOf(p)), p, cfg.store.AssetDecimals(p.asset));
    if p.transition.kind != Acknowledgement {
      RecordIs(CoSigned(p), Received(ns, p));
      var t := NewTransaction(Some(CoSigned(p)), Received(ns, p), p.transition).value;
      assert StateEffect(ns, p, channels).txs == {t};
    }
  }

  /** What the state earns its user, as far as a transaction records it: the payment of an escrow
      withdrawal is recorded between the channels only. */
  function Earned(s: State, before: real): real {
    if s.transition.kind == EscrowWithdraw then 0.0 else Credit(s, before)
  }

  lemma RecordNet(v: View, txs: set<Tx>, s: State)
    requires RecordsState(txs, s)
    ensures Net(v, txs) == if s.transition.kind == Acknowledgement then 0.0 else RecordSeen(v, s)
  {
    if s.transition.kind == Acknowledgement {
      NetNone(v, txs);
    } else {
      var t :| txs == {t} && IsRecordOf(t, s);
      NetOne(v, t);
    }
  }

  /** What a statement sees of the record of a state. */
  function RecordSeen(v: View, s: State): real {
    var (from, to), amount := Ends(s), s.transition.amount.value;
    var account := if v.OfWallet? then WalletAccount(v.wallet) else HashAccount(v.session);
    if s.asset != v.asset || (v.OfSessionId? && s.transition.kind != Commit && s.transition.kind != Release) then 0.0
    else (if to == account then amount else 0.0) - (if from == account then amount else 0.0)
  }

  /** What a chain earns by a request, if it appends to it. */
  function EarnedAt(ns: NodeState, appended: map<Key, State>, k: Key): real {
    if k in appended then Earned(appended[k], UserBalance(ns, k)) else 0.0
  }

  lemma OwnRecord(s: State, before: real)
    requires OwnAccount(s) && s.homeChannel.Some?
    requires s.transition.kind == Finalize ==> s.transition.amount.value == before
    requires s.transition.kind == TransferSend ==>
      s.transition.account.WalletAccount? && s.transition.account.wallet != s.wallet
    requires s.transition.kind == Commit ==> s.transition.account.HashAccount?
    ensures Earned(s, before)
         == if s.transition.kind == Acknowledgement then 0.0 else RecordSeen(OfWallet(s.wallet, s.asset), s)
  {}

  lemma OtherRecord(s: State, v: View)
    requires OwnAccount(s) && s.homeChannel.Some? && v.OfWallet? && (v.wallet != s.wallet || v.asset != s.asset)
    requires s.transition.kind == Commit ==> s.transition.account.HashAccount?
    ensures RecordSeen(v, s) ==
            if s.transition.kind == TransferSend && v.asset == s.asset
               && s.transition.account == WalletAccount(v.wallet)
            then s.transition.amount.value else 0.0
  {}

  lemma FinalizeAmount(cfg: Config, ns: NodeState, p: State, valid: bool)
    requires Inv(cfg, ns) && CoSignable(cfg, ns, p, valid) && p.transition.kind == Finalize
    ensures p.transition.amount.value == UserBalance(ns, KeyOf(p))
  {
    CurrentSound(cfg, ns, KeyOf(p));
    var r :| Builds(Current(ns, KeyOf(p)), p, r);
    StepCredits(Current(ns, KeyOf(p)), p, r);
  }

  /** A submitted state records for a wallet what it, or its mirror, earns the wallet. */
  lemma StateWallet(cfg: Config, ns: NodeState, p: State, valid: bool, channels: set<Id>, v: View)
    requires Inv(cfg, ns) && CoSignable(cfg, ns, p, valid) && v.OfWallet?
    requires p.transition.kind == TransferSend ==> TransferOk(cfg, ns, p)
    requires p.transition.kind == Commit ==> p.transition.account.HashAccount?
    ensures var eff := StateEffect(ns, p, channels);
      Net(v, eff.txs) == EarnedAt(ns, eff.appended, Key(v.wallet, v.asset))
  {
    var s, k, eff := CoSigned(p), Key(v.wallet, v.asset), StateEffect(ns, p, channels);
    StateRecord(cfg, ns, p, valid, channels);
    RecordNet(v, eff.txs, s);
    AdvancesCarries(Current(ns, KeyOf(p)), p, cfg.store.AssetDecimals(p.asset));
    if k == KeyOf(p) {
      if p.transition.kind == Finalize {
        FinalizeAmount(cfg, ns, p, valid);
      }
      OwnRecord(s, UserBalance(ns, k));
    } else {
      OtherRecord(s, v);
      OtherEarns(ns, p, channels, k);
    }
  }

  lemma OtherEarns(ns: NodeState, p: State, channels: set<Id>, k: Key)
    requires k != KeyOf(p)
    ensures EarnedAt(ns, StateEffect(ns, p, channels).appended, k) ==
            if p.transition.kind == TransferSend && p.transition.account.WalletAccount? && k == ReceiverKey(p)
            then p.transition.amount.value else 0.0
  {
    IssuedEarns(Current(ns, k), Mirror(p), UserBalance(ns, k));
  }

  lemma IssuedEarns(cur: State, r: Request, before: real)
    requires r.ReceiveTransfer? || r.ReleaseFrom?
    ensures Earned(Issued(cur, r), before) == r.amount.value
  {}

  lemma StateSession(cfg: Config, ns: NodeState, p: State, valid: bool, channels: set<Id>, v: View)
    requires CoSignable(cfg, ns, p, valid) && v.OfSessionId?
    requires p.transition.kind == TransferSend ==> TransferOk(cfg, ns, p)
    ensures Net(v, StateEffect(ns, p, channels).txs) ==
            if p.transition.kind == Commit && p.transition.account == HashAccount(v.session) && p.asset == v.asset
            then p.transition.amount.value else 0.0
  {
    StateRecord(cfg, ns, p, valid, channels);
    RecordNet(v, StateEffect(ns, p, channels).txs, CoSigned(p));
    AdvancesCarries(Current(ns, KeyOf(p)), p, cfg.store.AssetDecimals(p.asset));
  }

  // ---------- Releases ----------

  /** A state that releases an amount from the session to the user of the chain. */
  predicate ReleaseTo(session: Id, k: Key, s: State) {
    && s.wallet == k.wallet && s.asset == k.asset
    && s.transition.kind == Release && s.transition.account == HashAccount(session)
  }

  function ReleaseRecord(session: Id, k: Key, s: State): Tx {
    Tx(TransactionId(HashAccount(session), s.id), k.asset, Transfer(Release), HashAccount(session),
       WalletAccount(k.wallet), None, Some(s.id), s.transition.amount.value)
  }

  lemma ReleaseRecordIs(session: Id, k: Key, s: State)
    requires ReleaseTo(session, k, s)
    ensures NewTransaction(None, Some(s), s.transition) == Some(ReleaseRecord(session, k, s))
  {}

  ghost predicate AllReleases(session: Id, released: map<Key, State>) {
    && (forall k :: k in released ==> ReleaseTo(session, k, released[k]))
    && forall k, j :: k in released && j in released && released[k].id == released[j].id ==> k == j
  }

  lemma ReleaseTxsLess(session: Id, released: map<Key, State>, k: Key)
    requires AllReleases(session, released) && k in released
    ensures var t := ReleaseRecord(session, k, released[k]);
      t !in ReleaseTxs(released - {k}) && ReleaseTxs(released) == ReleaseTxs(released - {k}) + {t}
    ensures AllReleases(session, released - {k})
  {
    var less, t := released - {k}, ReleaseRecord(session, k, released[k]);
    ReleaseRecordIs(session, k, released[k]);
    forall u ensures u in ReleaseTxs(released) <==> u in ReleaseTxs(less) || u == t {
      if u in ReleaseTxs(released) {
        var j := ReleaseTxOf(released, u);
        if j != k {
          assert less[j] == released[j];
        }
      }
      if u in ReleaseTxs(less) {
        var j := ReleaseTxOf(less, u);
        assert released[j] == less[j];
      }
    }
    forall u | u in ReleaseTxs(less) ensures u != t {
      var j := ReleaseTxOf(less, u);
      assert released[j].id == less[j].id && released[j].id != released[k].id;
    }
  }

  /** A release takes its amount from the session and brings it to the wallet. */
  function ReleaseSeen(v: View, session: Id, k: Key, amount: real): real {
    if v.asset != k.asset then 0.0
    else if v.OfWallet? then if v.wallet == k.wallet then amount else 0.0
    else if v.session == session then -amount
    else 0.0
  }

  function SeenOf(v: View, session: Id, released: map<Key, State>): map<Key, real> {
    map k | k in released :: ReleaseSeen(v, session, k, released[k].transition.amount.value)
  }

  lemma SeenLess(v: View, session: Id, released: map<Key, State>, k: Key)
    requires k in released
    ensures Sum(SeenOf(v, session, released))
         == ReleaseSeen(v, session, k, released[k].transition.amount.value) + Sum(SeenOf(v, session, released - {k}))
  {
    SumRemove(SeenOf(v, session, released), k);
    assert SeenOf(v, session, released) - {k} == SeenOf(v, session, released - {k});
  }

  lemma RecordSeenIs(v: View, session: Id, k: Key, s: State)
    ensures Seen(v, ReleaseRecord(session, k, s)) == ReleaseSeen(v, session, k, s.transition.amount.value)
  {}

  lemma {:induction false} ReleasesNet(v: View, session: Id, released: map<Key, State>)
    requires AllReleases(session, released)
    ensures Net(v, ReleaseTxs(released)) == Sum(SeenOf(v, session, released))
    decreases |released|
  {
    if released == map[] {
      NetNone(v, ReleaseTxs(released));
    } else {
      var k :| k in released;
      ReleaseTxsLess(session, released, k);
      ReleasesNet(v, session, released - {k});
      OneMoreRelease(v, session, released, k);
      SeenLess(v, session, released, k);
    }
  }

  lemma OneMoreRelease(v: View, session: Id, released: map<Key, State>, k: Key)
    requires AllReleases(session, released) && k in released
    ensures Net(v, ReleaseTxs(released)) == Net(v, ReleaseTxs(released - {k}))
              + ReleaseSeen(v, session, k, released[k].transition.amount.value)
  {
    var t := ReleaseRecord(session, k, released[k]);
    ReleaseTxsLess(session, released, k);
    NetUnion(v, ReleaseTxs(released - {k}), {t});
    NetOne(v, t);
    RecordSeenIs(v, session, k, released[k]);
  }

  lemma ReleasesSession(v: View, session: Id, released: map<Key, State>)
    requires AllReleases(session, released) && v.OfSessionId?
    ensures Net(v, ReleaseTxs(released))
         == if v.session == session then -Sum(ByAsset(Gains(released), v.asset)) else 0.0
  {
    ReleasesNet(v, session, released);
    if v.session == session {
      SeenIsLoss(v, session, released);
    } else {
      SumSame(SeenOf(v, session, released), map[]);
    }
  }

  lemma SeenIsLoss(v: View, session: Id, released: map<Key, State>)
    requires v == OfSessionId(session, v.asset)
    requires forall k :: k in released ==> released[k].transition.kind == Release
    ensures Sum(SeenOf(v, session, released)) == -Sum(ByAsset(Gains(released), v.asset))
  {
    var seen, gains := SeenOf(v, session, released), ByAsset(Gains(released), v.asset);
    forall k ensures Get(map[], k) == Get(seen, k) + Get(gains, k) {}
    SumPlus(seen, gains, map[]);
  }

  lemma ReleasesWallet(v: View, session: Id, released: map<Key, State>)
    requires AllReleases(session, released) && v.OfWallet?
    ensures var k := Key(v.wallet, v.asset);
      Net(v, ReleaseTxs(released)) == if k in released then released[k].transition.amount.value else 0.0
  {
    var k := Key(v.wallet, v.asset);
    ReleasesNet(v, session, released);
    if k in released {
      SumSame(SeenOf(v, session, released), map[k := released[k].transition.amount.value]);
      SumOne(k, released[k].transition.amount.value);
    } else {
      SumSame(SeenOf(v, session, released), map[]);
    }
  }

  lemma UpdateReleasesAll(cfg: Config, ns: NodeState, u: Update)
    requires Inv(cfg, ns) && u.session in ns.sessions && AppendsValid(cfg, ns, UpdateEffect(ns, u).appended)
    ensures AllReleases(u.session, UpdateEffect(ns, u).appended)
  {
    var released, changes := UpdateEffect(ns, u).appended, Delta(CurrentOf(ns, u.session), Target(u));
    forall k | k in released ensures ReleaseTo(u.session, k, released[k]) {
      CurrentSound(cfg, ns, k);
      IssuedRelease(Current(ns, k), Freed(u.session, -Get(changes, Slot(u.session, k.wallet, k.asset))));
    }
    forall k, j | k in released && j in released && released[k].id == released[j].id ensures k == j {
      AppendedFresh(cfg, ns, released, k);
      AppendedFresh(cfg, ns, released, j);
    }
  }

  lemma IssuedRelease(cur: State, r: Request)
    requires r.ReleaseFrom?
    ensures var s := Issued(cur, r);
      && s.wallet == cur.wallet && s.asset == cur.asset && s.transition.kind == Release
      && s.transition.account == r.session && s.transition.amount == r.amount
  {}

  // ---------- Session funds ----------

  lemma GainOfOwn(changes: map<Slot, real>, session: Id, asset: Asset, id: Id)
    requires forall k :: k in changes ==> k.session == session
    ensures NetGain(changes, id, asset) == if id == session then Sum(OfAsset(changes, asset)) else 0.0
  {
    if id == session {
      assert OfSession(changes, id) == changes;
    } else {
      assert OfAsset(OfSession(changes, id), asset) == map[];
    }
  }

  lemma NoGain(id: Id, asset: Asset)
    ensures NetGain(map[], id, asset) == 0.0
  {
    assert OfAsset(OfSession(map[], id), asset) == map[];
  }

  lemma UpdateSession(cfg: Config, ns: NodeState, su: SignedUpdate, v: View)
    requires Inv(cfg, ns) && AcceptsUpdate(cfg, ns, su) && v.OfSessionId?
    requires AppendsValid(cfg, ns, UpdateEffect(ns, su.update).appended)
    ensures var eff := UpdateEffect(ns, su.update); Net(v, eff.txs) == NetGain(eff.changes, v.session, v.asset)
  {
    var u := su.update;
    var eff := UpdateEffect(ns, u);
    ChangesOwn(ns, u);
    GainOfOwn(eff.changes, u.session, v.asset, v.session);
    UpdateReleasesAll(cfg, ns, u);
    ReleasesSession(v, u.session, eff.appended);
    UpdateBalance(cfg, ns, su, v.asset);
  }

  lemma ChangesOwn(ns: NodeState, u: Update)
    ensures forall k :: k in Delta(CurrentOf(ns, u.session), Target(u)) ==> k.session == u.session
  {
    ListedInSession(u);
  }

  lemma DepositSession(cfg: Config, ns: NodeState, p: State, su: SignedUpdate, c: Checks, v: View)
    requires AcceptsDeposit(cfg, ns, p, su, c) && v.OfSessionId?
    ensures var eff := DepositEffect(ns, p, su.update); Net(v, eff.txs) == NetGain(eff.changes, v.session, v.asset)
  {
    var u := su.update;
    DepositAccepted(cfg, ns, p, su, c);
    RaisesOwn(ns, u);
    GainOfOwn(DepositEffect(ns, p, u).changes, u.session, v.asset, v.session);
    DepositGains(cfg, ns, p, u, v.asset);
    StateSession(cfg, ns, p, c.signatureValid, {}, v);
  }

  lemma RaisesOwn(ns: NodeState, u: Update)
    ensures var cur := CurrentOf(ns, u.session);
      forall k :: k in Delta(cur, cur + ListedBy(u)) ==> k.session == u.session
  {
    ListedInSession(u);
  }

  /** The record of a rebalance brings a session its net gain. */
  lemma RebalanceSeen(v: View, batch: Id, session: Id, asset: Asset, net: real)
    requires v.OfSessionId? && batch != v.session && net != 0.0
    ensures Seen(v, RebalanceTx(batch, session, asset, net))
         == if session == v.session && asset == v.asset then net else 0.0
  {}

  lemma RebalanceSession(batch: Id, changes: map<Slot, real>, v: View)
    requires v.OfSessionId? && batch != v.session
    ensures Net(v, RebalanceTxs(batch, changes)) == NetGain(changes, v.session, v.asset)
  {
    var net := NetGain(changes, v.session, v.asset);
    var only := RebalanceTx(batch, v.session, v.asset, net);
    forall t | t in RebalanceTxs(batch, changes) && t != only ensures Seen(v, t) == 0.0 {
      var k := RebalanceTxOf(batch, changes, t);
      RecordedNonZero(batch, changes, t, k);
      RebalanceSeen(v, batch, k.session, k.asset, NetGain(changes, k.session, k.asset));
    }
    NetOnly(v, RebalanceTxs(batch, changes), only);
    if net != 0.0 {
      var k := SlotWithGain(changes, v.session, v.asset);
      assert only in RebalanceTxs(batch, changes);
      RebalanceSeen(v, batch, v.session, v.asset, net);
    }
  }

  lemma RecordedNonZero(batch: Id, changes: map<Slot, real>, t: Tx, k: Slot)
    requires t in RebalanceTxs(batch, changes)
    requires t == RebalanceTx(batch, k.session, k.asset, NetGain(changes, k.session, k.asset))
    ensures NetGain(changes, k.session, k.asset) != 0.0
  {
    var j :| j in changes && NetGain(changes, j.session, j.asset) != 0.0
             && t == RebalanceTx(batch, j.session, j.asset, NetGain(changes, j.session, j.asset));
    assert RebalanceTx(batch, j.session, j.asset, NetGain(changes, j.session, j.asset)).id
      == RebalanceTx(batch, k.session, k.asset, NetGain(changes, k.session, k.asset)).id;
  }

  /** What an accepted request records for a session is what it changes of the session's funds. */
  lemma OpSession(cfg: Config, ns: NodeState, op: Op, v: View)
    requires Inv(cfg, ns) && Accepts(cfg, ns, op) && v.OfSessionId? && v.session.SessionId?
    ensures var eff := EffectOf(cfg, ns, op); Net(v, eff.txs) == NetGain(eff.changes, v.session, v.asset)
  {
    NoGain(v.session, v.asset);
    match op
    case SubmitState(p, c) => StateSession(cfg, ns, p, c.signatureValid, {}, v);
    case CoSignEscrow(p, c) => StateSession(cfg, ns, p, c.signatureValid, {}, v);
    case RequestCreation(p, def, c) => StateSession(cfg, ns, p, c.signatureValid, {HomeIdOf(cfg, p, def)}, v);
    case CreateSession(def, data, signers, allowed) => NetNone(v, {});
    case SubmitUpdate(su) =>
      AcceptedAppends(cfg, ns, op);
      UpdateSession(cfg, ns, su, v);
    case SubmitDeposit(p, su, c) => DepositSession(cfg, ns, p, su, c, v);
    case RebalanceSessions(updates) => RebalanceSession(BatchOf(updates), BatchChanges(ns, updates), v);
  }

  lemma SessionMoves(ns: NodeState, eff: Effect, ns': NodeState, session: Id, asset: Asset)
    requires Applied(ns, eff, ns')
    ensures SessionBalance(Allocated(ns'.entries), session, asset)
         == SessionBalance(Allocated(ns.entries), session, asset) + NetGain(eff.changes, session, asset)
  {
    var added, before, after := ns'.entries[|ns.entries|..], Allocated(ns.entries), Allocated(ns'.entries);
    assert ns'.entries == ns.entries + added;
    RecordingAdds(ns.entries, added, eff.changes);
    SessionPlus(before, eff.changes, after, session, asset);
  }

  lemma SessionPlus(a: map<Slot, real>, b: map<Slot, real>, c: map<Slot, real>, session: Id, asset: Asset)
    requires forall k :: Get(c, k) == Get(a, k) + Get(b, k)
    ensures SessionBalance(c, session, asset) == SessionBalance(a, session, asset) + SessionBalance(b, session, asset)
  {
    forall k ensures Get(OfSession(c, session), k) == Get(OfSession(a, session), k) + Get(OfSession(b, session), k) {
      assert Get(c, k) == Get(a, k) + Get(b, k);
    }
    SumOfAssetPlus(OfSession(a, session), OfSession(b, session), OfSession(c, session), asset);
  }

  lemma NewTxs(cfg: Config, ns: NodeState, op: Op, ns': NodeState, v: View)
    requires Inv(cfg, ns) && Accepts(cfg, ns, op) && Applied(ns, EffectOf(cfg, ns, op), ns')
    ensures Net(v, ns'.txs) == Net(v, ns.txs) + Net(v, EffectOf(cfg, ns, op).txs)
  {
    AcceptedTxsFresh(cfg, ns, op, ns');
    NetUnion(v, ns.txs, EffectOf(cfg, ns, op).txs);
  }

  lemma SessionStep(cfg: Config, ns: NodeState, op: Op, ns': NodeState, v: View)
    requires Inv(cfg, ns) && Step(cfg, ns, op, ns') && v.OfSessionId? && v.session.SessionId?
    ensures SessionBalance(Allocated(ns'.entries), v.session, v.asset) - Net(v, ns'.txs)
         == SessionBalance(Allocated(ns.entries), v.session, v.asset) - Net(v, ns.txs)
  {
    if Accepts(cfg, ns, op) {
      StepApplied(cfg, ns, op, ns');
      SessionMoves(ns, EffectOf(cfg, ns, op), ns', v.session, v.asset);
      NewTxs(cfg, ns, op, ns', v);
      OpSession(cfg, ns, op, v);
    }
  }

  /** In every run what a session holds of an asset is exactly what the recorded commits, releases
      and rebalances have brought to its account, less what they have taken from it. */
  lemma {:induction false} SessionStatement(cfg: Config, states: seq<NodeState>, ops: seq<Op>, n: nat, id: Id,
                                            asset: Asset)
    requires Run(cfg, states, ops) && n <= |ops| && id.SessionId?
    ensures SessionBalance(Allocated(states[n].entries), id, asset) == Net(OfSessionId(id, asset), states[n].txs)
  {
    if n == 0 {
      NoGain(id, asset);
      NetNone(OfSessionId(id, asset), {});
    } else {
      SessionStatement(cfg, states, ops, n - 1, id, asset);
      RunInv(cfg, states, ops, n - 1);
      SessionStep(cfg, states[n - 1], ops[n - 1], states[n], OfSessionId(id, asset));
    }
  }

  // ---------- User balances ----------

  lemma UpdateWallet(cfg: Config, ns: NodeState, u: Update, v: View)
    requires Inv(cfg, ns) && u.session in ns.sessions && v.OfWallet?
    requires AppendsValid(cfg, ns, UpdateEffect(ns, u).appended)
    ensures var eff := UpdateEffect(ns, u); Net(v, eff.txs) == EarnedAt(ns, eff.appended, Key(v.wallet, v.asset))
  {
    UpdateReleasesAll(cfg, ns, u);
    ReleasesEarn(ns, u.session, UpdateEffect(ns, u).appended, v);
  }

  lemma ReleasesEarn(ns: NodeState, session: Id, released: map<Key, State>, v: View)
    requires AllReleases(session, released) && v.OfWallet?
    ensures Net(v, ReleaseTxs(released)) == EarnedAt(ns, released, Key(v.wallet, v.asset))
  {
    ReleasesWallet(v, session, released);
  }

  lemma RebalanceWallet(batch: Id, changes: map<Slot, real>, v: View)
    requires v.OfWallet?
    ensures Net(v, RebalanceTxs(batch, changes)) == 0.0
  {
    NetNone(v, RebalanceTxs(batch, changes));
  }

  /** What an accepted request records for a wallet is what it earns the wallet. */
  lemma OpWallet(cfg: Config, ns: NodeState, op: Op, v: View)
    requires Inv(cfg, ns) && Accepts(cfg, ns, op) && v.OfWallet?
    ensures var eff := EffectOf(cfg, ns, op); Net(v, eff.txs) == EarnedAt(ns, eff.appended, Key(v.wallet, v.asset))
  {
    match op
    case SubmitState(p, c) => StateWallet(cfg, ns, p, c.signatureValid, {}, v);
    case CoSignEscrow(p, c) => StateWallet(cfg, ns, p, c.signatureValid, {}, v);
    case RequestCreation(p, def, c) => StateWallet(cfg, ns, p, c.signatureValid, {HomeIdOf(cfg, p, def)}, v);
    case CreateSession(def, data, signers, allowed) => NetNone(v, {});
    case SubmitUpdate(su) =>
      AcceptedAppends(cfg, ns, op);
      UpdateWallet(cfg, ns, su.update, v);
    case SubmitDeposit(p, su, c) => StateWallet(cfg, ns, p, c.signatureValid, {}, v);
    case RebalanceSessions(updates) => RebalanceWallet(BatchOf(updates), BatchChanges(ns, updates), v);
  }

  /** What escrow withdrawals have paid out on this chain of states. */
  function EscrowPaid(chain: seq<State>): real {
    if chain == [] then 0.0
    else
      var s := chain[|chain| - 1];
      EscrowPaid(chain[..|chain| - 1]) + if s.transition.kind == EscrowWithdraw then s.transition.amount.value else 0.0
  }

  lemma WalletMoves(cfg: Config, ns: NodeState, appended: map<Key, State>, ns': NodeState, k: Key)
    requires Inv(cfg, ns) && AppendsValid(cfg, ns, appended) && ns'.chains == AppendAll(ns.chains, appended)
    ensures UserBalance(ns', k) + EscrowPaid(ChainOf(ns'.chains, k))
         == UserBalance(ns, k) + EscrowPaid(ChainOf(ns.chains, k)) + EarnedAt(ns, appended, k)
  {
    AppendedAt(ns.chains, appended, k);
    if k in appended {
      AppendedCredit(cfg, ns, k, appended[k]);
      ChainMoves(ns, ns', k, appended[k]);
    } else {
      assert ChainOf(ns.chains, k) + [] == ChainOf(ns.chains, k);
      SameCurrent(ns, ns', k);
    }
  }

  lemma ChainMoves(ns: NodeState, ns': NodeState, k: Key, s: State)
    requires ChainOf(ns'.chains, k) == ChainOf(ns.chains, k) + [s]
    requires s.home.userBalance == UserBalance(ns, k) + Credit(s, UserBalance(ns, k))
    ensures UserBalance(ns', k) + EscrowPaid(ChainOf(ns'.chains, k))
         == UserBalance(ns, k) + EscrowPaid(ChainOf(ns.chains, k)) + Earned(s, UserBalance(ns, k))
  {
    var chain := ChainOf(ns.chains, k);
    assert (chain + [s])[..|chain|] == chain;
  }

  lemma AppendedCredit(cfg: Config, ns: NodeState, k: Key, s: State)
    requires Inv(cfg, ns) && Extends(k, ChainOf(ns.chains, k), s, DecimalsOf(cfg, k))
    ensures s.home.userBalance == UserBalance(ns, k) + Credit(s, UserBalance(ns, k))
  {
    CurrentSound(cfg, ns, k);
    var r := StepMoves(k, ChainOf(ns.chains, k), s, DecimalsOf(cfg, k));
    StepCredits(Current(ns, k), s, r);
  }

  lemma WalletStep(cfg: Config, ns: NodeState, op: Op, ns': NodeState, k: Key)
    requires Inv(cfg, ns) && Step(cfg, ns, op, ns')
    ensures var v := OfWallet(k.wallet, k.asset);
      UserBalance(ns', k) + EscrowPaid(ChainOf(ns'.chains, k)) - Net(v, ns'.txs)
      == UserBalance(ns, k) + EscrowPaid(ChainOf(ns.chains, k)) - Net(v, ns.txs)
  {
    if Accepts(cfg, ns, op) {
      StepApplied(cfg, ns, op, ns');
      AcceptedAppends(cfg, ns, op);
      WalletMoves(cfg, ns, EffectOf(cfg, ns, op).appended, ns', k);
      NewTxs(cfg, ns, op, ns', OfWallet(k.wallet, k.asset));
      OpWallet(cfg, ns, op, OfWallet(k.wallet, k.asset));
    }
  }

  /** In every run what a user has in its channel, together with what was paid out of it by escrow
      withdrawals, is exactly what the recorded transactions have brought to its wallet, less what
      they have taken from it. */
  lemma {:induction false} WalletStatement(cfg: Config, states: seq<NodeState>, ops: seq<Op>, n: nat, k: Key)
    requires Run(cfg, states, ops) && n <= |ops|
    ensures UserBalance(states[n], k) + EscrowPaid(ChainOf(states[n].chains, k))
         == Net(OfWallet(k.wallet, k.asset), states[n].txs)
  {
    if n == 0 {
      NetNone(OfWallet(k.wallet, k.asset), {});
    } else {
      WalletStatement(cfg, states, ops, n - 1, k);
      RunInv(cfg, states, ops, n - 1);
      WalletStep(cfg, states[n - 1], ops[n - 1], states[n], k);
    }
  }
}
