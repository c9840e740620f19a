/** The endpoints that a user submits channel states to. */
module ChannelEndpoints {
  import opened Options
  import opened Channels
  import opened Advancer
  import opened Chains
  import opened Packing
  import opened Transactions
  import opened NodeModel
  import opened Invariants
  import opened Database
  import opened UserLocks

  // ---------- The parts of a state effect, one after the other ----------

  /** The store once the user's state is in, before its mirror and its transaction are. */
  function WithState(ns: NodeState, p: State): NodeState {
    ns.(chains := AppendAll(ns.chains, map[KeyOf(p) := CoSigned(p)]))
  }

  lemma CoSignedFresh(cfg: Config, ns: NodeState, p: State, valid: bool)
    requires ChainsValid(cfg, ns) && CoSignable(cfg, ns, p, valid)
    ensures !StoredId(ns.chains, p.id)
    ensures ChainsValid(cfg, WithState(ns, p))
  {
    CoSignedExtends(cfg, ns, p, valid);
    ExtensionFresh(cfg, ns, KeyOf(p), CoSigned(p));
  }

  lemma ExtensionFresh(cfg: Config, ns: NodeState, k: Key, s: State)
    requires ChainsValid(cfg, ns) && Extends(k, ChainOf(ns.chains, k), s, DecimalsOf(cfg, k))
    ensures !StoredId(ns.chains, s.id)
    ensures ChainsValid(cfg, ns.(chains := AppendAll(ns.chains, map[k := s])))
  {
    var appended := map[k := s];
    AppendedFresh(cfg, ns, appended, k);
    var eff, after := Effect(appended, map[], map[], {}, {}), ns.(chains := AppendAll(ns.chains, appended));
    assert Applied(ns, eff, after);
    ChainsStayValid(cfg, ns, eff, after);
  }

  /** The next state of the chain of k is k's own, and its identifier is not stored yet. */
  ghost predicate NewFor(ns: NodeState, k: Key) {
    var next := NextState(Current(ns, k));
    KeyOf(next) == k && next.id == StateId(k.wallet, k.asset, next.epoch, next.version) && !StoredId(ns.chains, next.id)
  }

  lemma IssuedFresh(cfg: Config, ns: NodeState, k: Key, r: Request)
    requires ChainsValid(cfg, ns) && IsIncoming(r) && CanIssue(cfg, ns, k, r)
    ensures NewFor(ns, k)
  {
    IssuedExtends(cfg, ns, k, r);
    ExtensionFresh(cfg, ns, k, Issued(Current(ns, k), r));
    CurrentSound(cfg, ns, k);
    IssuedNames(Current(ns, k), r);
  }

  lemma IssuedNames(cur: State, r: Request)
    requires r.ReceiveTransfer? || r.ReleaseFrom?
    ensures var next := NextState(cur);
      && Issued(cur, r).id == next.id && KeyOf(next) == Key(cur.wallet, cur.asset)
      && next.id == StateId(cur.wallet, cur.asset, next.epoch, next.version)
  {}

  lemma AppendTwice(chains: map<Key, seq<State>>, k: Key, s: State, j: Key, t: State)
    requires k != j
    ensures AppendAll(AppendAll(chains, map[k := s]), map[j := t]) == AppendAll(chains, map[k := s][j := t])
  {}

  /** Every accepted transition but an acknowledgement has a transaction. */
  lemma AcceptedHasTx(cfg: Config, ns: NodeState, p: State, valid: bool)
    requires CoSignable(cfg, ns, p, valid) && p.transition.kind != Acknowledgement
    requires SubmittableKind(p.transition.kind) || IsEscrowKind(p.transition.kind) || p.transition.kind == Commit
    requires p.transition.kind == TransferSend ==> p.transition.account.WalletAccount?
    requires IsEscrowKind(p.transition.kind) ==> p.escrowChannel.Some?
    ensures NewTransaction(Some(CoSigned(p)), Received(ns, p), p.transition).Some?
  {
    OnChannel(cfg, ns, p, valid);
    HasTx(CoSigned(p), Received(ns, p));
  }

  lemma OnChannel(cfg: Config, ns: NodeState, p: State, valid: bool)
    requires CoSignable(cfg, ns, p, valid)
    ensures p.homeChannel.Some?
  {}

  lemma HasTx(s: State, received: Option<State>)
    requires s.homeChannel.Some? && (IsEscrowKind(s.transition.kind) ==> s.escrowChannel.Some?)
    requires s.transition.kind != Acknowledgement
    requires var kind := s.transition.kind; SubmittableKind(kind) || IsEscrowKind(kind) || kind == Commit
    requires s.transition.kind == TransferSend ==> received.Some?
    ensures NewTransaction(Some(s), received, s.transition).Some?
  {}

  /** The identifier of that transaction is new. */
  lemma StateTxNew(cfg: Config, ns: NodeState, p: State, valid: bool, channels: set<Id>, t: Tx)
    requires Inv(cfg, ns) && CoSignable(cfg, ns, p, valid)
    requires p.transition.kind == TransferSend ==> TransferOk(cfg, ns, p)
    requires t in StateEffect(ns, p, channels).txs
    ensures forall u :: u in ns.txs ==> u.id != t.id
  {
    StateAppendsValid(cfg, ns, p, valid, channels);
    StateEffectTxs(ns, p, channels, t);
    var appended := StateEffect(ns, p, channels).appended;
    var k :| k in appended && appended[k].id == t.id.state;
    AppendedFresh(cfg, ns, appended, k);
    forall u | u in ns.txs ensures u.id != t.id {
      UnstoredIsNew(ns, t.id, u);
    }
  }

  // ---------- Steps shared by the endpoints ----------

  /** The state to advance from: the last one, or a void one. */
  method CurrentState(store: Store, k: Key) returns (cur: State)
    ensures cur == Current(store.Snapshot(), k)
  {
    var last := store.GetLastUserState(k, false);
    cur := if last.None? then VoidState(k.wallet, k.asset) else last.value;
  }

  /** Validates a user state, packs it and checks its signature. */
  method CheckState(cfg: Config, store: Store, cur: State, p: State, signatureValid: bool) returns (ok: bool)
    requires cur == Current(store.Snapshot(), KeyOf(p))
    ensures ok <==> CoSignable(cfg, store.Snapshot(), p, signatureValid)
  {
    ok := ValidateAdvancement(cur, p, cfg.store.AssetDecimals(p.asset));
    if !ok { return; }
    var packed := PackLedgers(p, cfg.store);
    if packed.None? { return false; }
    if !p.userSigned { return false; }
    return signatureValid;
  }

  /** Signs a user state and stores it. */
  method StoreCoSigned(cfg: Config, store: Store, p: State, ghost ns: NodeState, ghost valid: bool)
    requires ChainsValid(cfg, ns) && CoSignable(cfg, ns, p, valid) && store.chains == ns.chains
    modifies store`chains
    ensures store.Snapshot() == old(store.Snapshot()).(chains := WithState(ns, p).chains)
  {
    CoSignedFresh(cfg, ns, p, valid);
    var ok := store.StoreUserState(p.(nodeSigned := true));
    assert ok;
  }

  /** Signs an issued state if it is on a channel, and stores it. */
  method StoreIssued(cfg: Config, store: Store, next: MutableState, k: Key, ghost r: Request) returns (ok: bool)
    requires (r.ReceiveTransfer? || r.ReleaseFrom?) && Gate(ChainOf(store.chains, k))
    requires Apply(NextState(Current(store.Snapshot(), k)), r) == Some(next.Value())
    requires CanIssue(cfg, store.Snapshot(), k, r) ==> NewFor(store.Snapshot(), k)
    modifies store`chains, next
    ensures ok <==> CanIssue(cfg, old(store.Snapshot()), k, r)
    ensures ok ==> next.Value() == Issued(Current(old(store.Snapshot()), k), r)
    ensures ok ==>
      store.Snapshot() == old(store.Snapshot()).(chains := AppendAll(old(store.chains), map[k := next.Value()]))
    ensures !ok ==> store.Snapshot() == old(store.Snapshot())
  {
    IssuedIsApplied(Current(store.Snapshot(), k), r);
    if next.homeChannel.Some? {
      var packed := PackLedgers(next.Value(), cfg.store);
      if packed.None? {
        PackIgnoresSignature(next.Value(), cfg.store);
        return false;
      }
      PackIgnoresSignature(next.Value(), cfg.store);
      next.SetNodeSignature();
    }
    ok := store.StoreUserState(next.Value());
  }

  lemma PackIgnoresSignature(s: State, store: AssetStore)
    ensures PackLedgers(s.(nodeSigned := true), store) == PackLedgers(s, store)
  {}

  lemma MirrorNew(cfg: Config, ns: NodeState, k: Key, p: State)
    requires ChainsValid(cfg, ns) && p.transition.amount.value > 0.0
    ensures CanIssue(cfg, ns, k, Mirror(p)) ==> NewFor(ns, k)
  {
    if CanIssue(cfg, ns, k, Mirror(p)) {
      IssuedFresh(cfg, ns, k, Mirror(p));
    }
  }

  /** Issues and stores the mirror of a transfer, once its recipient is locked. */
  method IssueMirror(cfg: Config, store: Store, k: Key, p: State) returns (ok: bool, received: State)
    requires ChainsValid(cfg, store.Snapshot()) && p.transition.amount.value > 0.0
    modifies store`chains
    ensures ok <==> CanIssue(cfg, old(store.Snapshot()), k, Mirror(p))
    ensures ok ==> received == Issued(Current(old(store.Snapshot()), k), Mirror(p))
    ensures ok ==> store.chains == AppendAll(old(store.chains), map[k := received])
  {
    var t := p.transition;
    var cur := CurrentState(store, k);
    var next := new MutableState(NextState(cur));
    var applied := next.ApplyTransferReceive(WalletAccount(p.wallet), t.amount, t.txId);
    if !applied { return false, p; }
    var lastSigned := store.GetLastUserState(k, true);
    if lastSigned.Some? && lastSigned.value.escrowChannel.Some? { return false, p; }
    MirrorNew(cfg, store.Snapshot(), k, p);
    ok := StoreIssued(cfg, store, next, k, Mirror(p));
    received := next.Value();
  }

  /** Issues and stores the state that mirrors a transfer, for its recipient. */
  method IssueTransferReceiverState(cfg: Config, store: Store, p: State) returns (ok: bool, received: State)
    requires ChainsValid(cfg, store.Snapshot()) && p.transition.amount.value > 0.0
    modifies store`chains, store`locks
    ensures ok <==> p.transition.kind == TransferSend && TransferOk(cfg, old(store.Snapshot()), p)
    ensures store.locks == old(store.locks) + StateLocks(p)[1..]
    ensures ok ==> Received(old(store.Snapshot()), p) == Some(received)
    ensures ok ==> store.Snapshot() == old(store.Snapshot()).(chains :=
              AppendAll(old(store.chains), map[ReceiverKey(p) := received]))
  {
    received := p;
    var t := p.transition;
    if t.kind != TransferSend { return false, p; }
    if !t.account.WalletAccount? { return false, p; }
    if t.account.wallet == p.wallet { return false, p; }
    var k := Key(t.account.wallet, p.asset);
    store.LockUserState(k);
    ok, received := IssueMirror(cfg, store, k, p);
  }

  /** A state of another chain does not decide whether the mirror may be issued. */
  lemma TransferOkAfter(cfg: Config, ns: NodeState, p: State, after: NodeState)
    requires p.transition.account.WalletAccount? && p.transition.account.wallet != p.wallet
    requires after.chains == WithState(ns, p).chains
    ensures CanIssue(cfg, after, ReceiverKey(p), Mirror(p)) <==> CanIssue(cfg, ns, ReceiverKey(p), Mirror(p))
    ensures Current(after, ReceiverKey(p)) == Current(ns, ReceiverKey(p))
  {
    assert ChainOf(after.chains, ReceiverKey(p)) == ChainOf(ns.chains, ReceiverKey(p));
  }

  /** Issues the mirror of a transfer on top of the user's stored state. */
  method MirrorState(cfg: Config, store: Store, p: State, ghost ns: NodeState, ghost valid: bool)
    returns (ok: bool, received: State)
    requires ChainsValid(cfg, ns) && CoSignable(cfg, ns, p, valid) && p.transition.kind == TransferSend
    requires store.chains == WithState(ns, p).chains
    modifies store`chains, store`locks
    ensures ok <==> TransferOk(cfg, ns, p)
    ensures store.locks == old(store.locks) + StateLocks(p)[1..]
    ensures ok ==> Received(ns, p) == Some(received)
    ensures ok ==>
      store.Snapshot() == old(store.Snapshot()).(chains := AppendAll(ns.chains, StateEffect(ns, p, {}).appended))
  {
    CoSignedFresh(cfg, ns, p, valid);
    AcceptedPositive(Current(ns, KeyOf(p)), p, cfg.store.AssetDecimals(p.asset));
    ghost var mid := store.Snapshot();
    ok, received := IssueTransferReceiverState(cfg, store, p);
    if p.transition.account.WalletAccount? && p.transition.account.wallet != p.wallet {
      TransferOkAfter(cfg, ns, p, mid);
      AppendTwice(ns.chains, KeyOf(p), CoSigned(p), ReceiverKey(p), received);
    }
  }

  /** Records the transaction of a stored user state. */
  method RecordState(cfg: Config, store: Store, p: State, t: Option<Tx>, ghost ns: NodeState, ghost valid: bool,
                     ghost channels: set<Id>)
    requires Inv(cfg, ns) && CoSignable(cfg, ns, p, valid)
    requires p.transition.kind == TransferSend ==> TransferOk(cfg, ns, p)
    requires t.Some? && StateEffect(ns, p, channels).txs == {t.value} && store.txs == ns.txs
    modifies store`txs
    ensures store.Snapshot() == old(store.Snapshot()).(txs := ns.txs + StateEffect(ns, p, channels).txs)
  {
    StateTxNew(cfg, ns, p, valid, channels, t.value);
    var ok := store.RecordTransaction(t.value);
    assert ok;
  }

  predicate FinishedKind(kind: Kind, finalizable: bool) {
    CreatableKind(kind) || (finalizable && kind == Finalize)
  }

  /** The store once the effect of a user state is complete. */
  function Finished(ns: NodeState, p: State, channels: set<Id>): NodeState {
    var eff := StateEffect(ns, p, channels);
    NodeState(AppendAll(ns.chains, eff.appended), ns.channels + channels, ns.sessions, ns.entries, ns.txs + eff.txs)
  }

  lemma FinishedApplies(ns: NodeState, p: State, channels: set<Id>)
    ensures Applied(ns, StateEffect(ns, p, channels), Finished(ns, p, channels))
  {
    assert ns.entries[..|ns.entries|] == ns.entries;
    assert ns.sessions + map[] == ns.sessions;
  }

  lemma AloneEffect(ns: NodeState, p: State, channels: set<Id>)
    requires p.transition.kind != TransferSend
    ensures var eff := StateEffect(ns, p, channels);
      && eff.appended == map[KeyOf(p) := CoSigned(p)]
      && eff.txs == if p.transition.kind == Acknowledgement then {}
                    else var tx := NewTransaction(Some(CoSigned(p)), None, p.transition);
                         if tx.Some? then {tx.value} else {}
  {}

  lemma TransferEffect(ns: NodeState, p: State, channels: set<Id>, received: State)
    requires p.transition.kind == TransferSend && Received(ns, p) == Some(received)
    ensures var tx := NewTransaction(Some(CoSigned(p)), Some(received), p.transition);
      StateEffect(ns, p, channels).txs == if tx.Some? then {tx.value} else {}
    ensures StateEffect(ns, p, channels).appended == StateEffect(ns, p, {}).appended
  {}

  /** What follows once a user's state other than a transfer is stored. */
  method FinishAlone(cfg: Config, store: Store, p: State, ghost ns: NodeState, ghost valid: bool,
                     ghost channels: set<Id>)
    requires Inv(cfg, ns) && CoSignable(cfg, ns, p, valid)
    requires p.transition.kind == HomeDeposit || p.transition.kind == HomeWithdrawal || p.transition.kind == Finalize
    requires store.Snapshot() == WithState(ns, p).(channels := ns.channels + channels)
    modifies store`txs
    ensures store.Snapshot() == Finished(ns, p, channels)
  {
    var tx := NewTransaction(Some(p.(nodeSigned := true)), None, p.transition);
    AcceptedHasTx(cfg, ns, p, valid);
    AloneEffect(ns, p, channels);
    RecordState(cfg, store, p, tx, ns, valid, channels);
  }

  /** What follows once a transfer is stored: its mirror, and its transaction. */
  method FinishTransfer(cfg: Config, store: Store, p: State, ghost ns: NodeState, ghost valid: bool,
                        ghost channels: set<Id>)
    returns (ok: bool)
    requires Inv(cfg, ns) && CoSignable(cfg, ns, p, valid) && p.transition.kind == TransferSend
    requires store.Snapshot() == WithState(ns, p).(channels := ns.channels + channels)
    modifies store`chains, store`txs, store`locks
    ensures ok <==> TransferOk(cfg, ns, p)
    ensures store.locks == old(store.locks) + StateLocks(p)[1..]
    ensures ok ==> store.Snapshot() == Finished(ns, p, channels)
  {
    var received;
    ok, received := MirrorState(cfg, store, p, ns, valid);
    if !ok { return; }
    var tx := NewTransaction(Some(p.(nodeSigned := true)), Some(received), p.transition);
    AcceptedHasTx(cfg, ns, p, valid);
    TransferEffect(ns, p, channels, received);
    RecordState(cfg, store, p, tx, ns, valid, channels);
  }

  /** What follows once the user's state is stored. */
  method FinishState(cfg: Config, store: Store, p: State, finalizable: bool,
                     ghost ns: NodeState, ghost valid: bool, ghost channels: set<Id>) returns (ok: bool)
    requires Inv(cfg, ns) && CoSignable(cfg, ns, p, valid)
    requires store.Snapshot() == WithState(ns, p).(channels := ns.channels + channels)
    modifies store`chains, store`txs, store`locks
    ensures ok <==>
      FinishedKind(p.transition.kind, finalizable) && (p.transition.kind == TransferSend ==> TransferOk(cfg, ns, p))
    ensures store.locks == old(store.locks) + StateLocks(p)[1..]
    ensures ok ==> store.Snapshot() == Finished(ns, p, channels)
  {
    var kind := p.transition.kind;
    ok := true;
    if kind == Acknowledgement {
      AloneEffect(ns, p, channels);
    } else if kind == HomeDeposit || kind == HomeWithdrawal || (kind == Finalize && finalizable) {
      FinishAlone(cfg, store, p, ns, valid, channels);
    } else if kind == TransferSend {
      ok := FinishTransfer(cfg, store, p, ns, valid, channels);
    } else {
      ok := false;
    }
  }

  // ---------- The endpoints ----------

  /** The locks of a submitted state have been taken, or, if it is refused, the first few of them. */
  ghost predicate StateLocked(p: State, before: seq<Key>, now: seq<Key>, ok: bool) {
    before <= now <= before + StateLocks(p) && (ok ==> now == before + StateLocks(p))
  }

  lemma LockedTakes(p: State, before: seq<Key>, now: seq<Key>, ok: bool)
    requires StateLocked(p, before, now, ok)
    ensures now[|before|..] <= StateLocks(p) && (ok ==> now[|before|..] == StateLocks(p))
  {
    assert (before + StateLocks(p))[|before|..] == StateLocks(p);
  }

  /** Checks a state of a channel and stores it. */
  method CheckAndStore(cfg: Config, store: Store, cur: State, p: State, valid: bool) returns (ok: bool)
    requires Inv(cfg, store.Snapshot()) && cur == Current(store.Snapshot(), KeyOf(p))
    modifies store`chains, store`txs, store`locks
    ensures ok <==> CoSignable(cfg, old(store.Snapshot()), p, valid) && FinishedKind(p.transition.kind, true)
                    && (p.transition.kind == TransferSend ==> TransferOk(cfg, old(store.Snapshot()), p))
    ensures old(store.locks) <= store.locks <= old(store.locks) + StateLocks(p)[1..]
    ensures ok ==> store.locks == old(store.locks) + StateLocks(p)[1..]
    ensures ok ==> store.Snapshot() == Finished(old(store.Snapshot()), p, {})
  {
    ok := CheckState(cfg, store, cur, p, valid);
    if !ok { return; }
    ghost var ns := store.Snapshot();
    StoreCoSigned(cfg, store, p, ns, valid);
    ok := FinishState(cfg, store, p, true, ns, valid, {});
  }

  method SubmitStateTx(cfg: Config, store: Store, p: State, c: Checks) returns (ok: bool)
    requires Inv(cfg, store.Snapshot())
    modifies store`chains, store`txs, store`locks
    ensures ok <==> AcceptsState(cfg, old(store.Snapshot()), p, c)
    ensures StateLocked(p, old(store.locks), store.locks, ok)
    ensures ok ==> store.Snapshot() == Finished(old(store.Snapshot()), p, {})
  {
    if !c.actionAllowed { return false; }
    store.LockUserState(KeyOf(p));
    if !c.channelOpen { return false; }
    var cur := CurrentState(store, KeyOf(p));
    var kind := p.transition.kind;
    if kind == EscrowDeposit || kind == EscrowWithdraw || kind == Migrate { return false; }
    if !c.quiet { return false; }
    ok := CheckAndStore(cfg, store, cur, p, c.signatureValid);
  }

  /** Submitting a state: all or nothing. */
  method SubmitState(cfg: Config, store: Store, p: State, c: Checks) returns (ok: bool)
    requires Inv(cfg, store.Snapshot())
    modifies store
    ensures Inv(cfg, store.Snapshot())
    ensures ok <==> Accepts(cfg, old(store.Snapshot()), Op.SubmitState(p, c))
    ensures Step(cfg, old(store.Snapshot()), Op.SubmitState(p, c), store.Snapshot())
    ensures Locked(cfg, old(store.Snapshot()), Op.SubmitState(p, c), old(store.locks), store.locks)
  {
    var before := store.Snapshot();
    ghost var locks := store.locks;
    ok := SubmitStateTx(cfg, store, p, c);
    LockedTakes(p, locks, store.locks, ok);
    if !ok { store.Rollback(before); }
    FinishedApplies(before, p, {});
    StepKeepsInv(cfg, before, Op.SubmitState(p, c), store.Snapshot());
  }

  /** The co-signing of an escrow transition, which the protocol provides for. */
  method CoSignEscrowTx(cfg: Config, store: Store, p: State, c: Checks) returns (ok: bool)
    requires Inv(cfg, store.Snapshot())
    modifies store`chains, store`txs, store`locks
    ensures ok <==> AcceptsEscrow(cfg, old(store.Snapshot()), p, c)
    ensures StateLocked(p, old(store.locks), store.locks, ok)
    ensures ok ==> store.Snapshot() == Finished(old(store.Snapshot()), p, {})
  {
    if !c.actionAllowed { return false; }
    store.LockUserState(KeyOf(p));
    if !c.channelOpen || !IsEscrowKind(p.transition.kind) || !c.quiet { return false; }
    var cur := CurrentState(store, KeyOf(p));
    ok := CheckState(cfg, store, cur, p, c.signatureValid);
    if !ok { return; }
    ghost var ns := store.Snapshot();
    StoreCoSigned(cfg, store, p, ns, c.signatureValid);
    EscrowNamed(cfg, ns, p, c.signatureValid);
    AcceptedHasTx(cfg, ns, p, c.signatureValid);
    AloneEffect(ns, p, {});
    var tx := NewTransaction(Some(p.(nodeSigned := true)), None, p.transition);
    RecordState(cfg, store, p, tx, ns, c.signatureValid, {});
  }

  lemma EscrowNamed(cfg: Config, ns: NodeState, p: State, valid: bool)
    requires ChainsValid(cfg, ns) && CoSignable(cfg, ns, p, valid) && IsEscrowKind(p.transition.kind)
    ensures p.escrowChannel.Some?
  {
    CurrentSound(cfg, ns, KeyOf(p));
    UserStepSound(Current(ns, KeyOf(p)), p, cfg.store.AssetDecimals(p.asset));
  }

  method CoSignEscrow(cfg: Config, store: Store, p: State, c: Checks) returns (ok: bool)
    requires Inv(cfg, store.Snapshot())
    modifies store
    ensures Inv(cfg, store.Snapshot())
    ensures ok <==> Accepts(cfg, old(store.Snapshot()), Op.CoSignEscrow(p, c))
    ensures Step(cfg, old(store.Snapshot()), Op.CoSignEscrow(p, c), store.Snapshot())
    ensures Locked(cfg, old(store.Snapshot()), Op.CoSignEscrow(p, c), old(store.locks), store.locks)
  {
    var before := store.Snapshot();
    ghost var locks := store.locks;
    ok := CoSignEscrowTx(cfg, store, p, c);
    LockedTakes(p, locks, store.locks, ok);
    if !ok { store.Rollback(before); }
    FinishedApplies(before, p, {});
    StepKeepsInv(cfg, before, Op.CoSignEscrow(p, c), store.Snapshot());
  }

  /** Checks the first state of a channel, creates the channel, and stores the state. */
  method CreateAndStore(cfg: Config, store: Store, cur: State, p: State, id: Id, valid: bool) returns (ok: bool)
    requires Inv(cfg, store.Snapshot()) && cur == Current(store.Snapshot(), KeyOf(p))
    modifies store`chains, store`channels, store`txs, store`locks
    ensures ok <==> CoSignable(cfg, old(store.Snapshot()), p, valid) && id !in old(store.channels)
                    && FinishedKind(p.transition.kind, false)
                    && (p.transition.kind == TransferSend ==> TransferOk(cfg, old(store.Snapshot()), p))
    ensures old(store.locks) <= store.locks <= old(store.locks) + StateLocks(p)[1..]
    ensures ok ==> store.locks == old(store.locks) + StateLocks(p)[1..]
    ensures ok ==> store.Snapshot() == Finished(old(store.Snapshot()), p, {id})
  {
    ok := CheckState(cfg, store, cur, p, valid);
    if !ok { return; }
    ghost var ns := store.Snapshot();
    ok := store.CreateChannel(id);
    if !ok { return; }
    StoreCoSigned(cfg, store, p, ns, valid);
    ok := FinishState(cfg, store, p, false, ns, valid, {id});
  }

  method RequestCreationTx(cfg: Config, store: Store, p: State, def: ChannelDefinition, c: CreationChecks)
    returns (ok: bool)
    requires Inv(cfg, store.Snapshot())
    requires def.nonce != 0 && cfg.minChallenge <= def.challenge <= cfg.maxChallenge
    requires c.assetSupported && c.validatorsSupported
    modifies store
    ensures ok <==> AcceptsCreation(cfg, old(store.Snapshot()), p, def, c)
    ensures StateLocked(p, old(store.locks), store.locks, ok)
    ensures ok ==> store.Snapshot() == Finished(old(store.Snapshot()), p, {HomeIdOf(cfg, p, def)})
  {
    store.LockUserState(KeyOf(p));
    var cur := CurrentState(store, KeyOf(p));
    var id := HomeChannelId(cfg.node, p.wallet, p.asset, def.nonce, def.challenge, def.validators);
    if p.homeChannel != Some(id) { return false; }
    if cur.homeChannel.Some? {
      if cur.transition.kind != Finalize { return false; }
      if id == cur.homeChannel.value { return false; }
    }
    ok := CreateAndStore(cfg, store, cur, p, id, c.signatureValid);
  }

  /** Requesting a channel: all or nothing. */
  method RequestCreation(cfg: Config, store: Store, p: State, def: ChannelDefinition, c: CreationChecks)
    returns (ok: bool)
    requires Inv(cfg, store.Snapshot())
    modifies store
    ensures Inv(cfg, store.Snapshot())
    ensures ok <==> Accepts(cfg, old(store.Snapshot()), Op.RequestCreation(p, def, c))
    ensures Step(cfg, old(store.Snapshot()), Op.RequestCreation(p, def, c), store.Snapshot())
    ensures Locked(cfg, old(store.Snapshot()), Op.RequestCreation(p, def, c), old(store.locks), store.locks)
  {
    if def.nonce == 0 { return false; }
    if def.challenge < cfg.minChallenge || def.challenge > cfg.maxChallenge { return false; }
    if !c.assetSupported || !c.validatorsSupported { return false; }
    var before := store.Snapshot();
    ghost var locks := store.locks;
    ok := RequestCreationTx(cfg, store, p, def, c);
    LockedTakes(p, locks, store.locks, ok);
    if !ok { store.Rollback(before); }
    FinishedApplies(before, p, {HomeIdOf(cfg, p, def)});
    StepKeepsInv(cfg, before, Op.RequestCreation(p, def, c), store.Snapshot());
  }
}
