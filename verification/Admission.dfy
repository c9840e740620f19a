/** What the channel endpoints accept in a run: the conditions on the submitted state, on the chains
    of its user and of a recipient, and on the verdicts from outside. */
module Admission {
  import opened Options
  import opened Channels
  import opened Chains
  import opened Packing
  import opened NodeModel
  import opened Invariants
  import opened Runs
  import opened Acceptance

  // ---------- Incoming states ----------

  predicate CoSignedAt(chain: seq<State>, i: int) {
    0 <= i < |chain| && chain[i].userSigned && chain[i].nodeSigned
  }

  /** The last state that both have signed has no escrow channel. */
  ghost predicate NoOpenEscrow(chain: seq<State>) {
    forall i :: CoSignedAt(chain, i) && (forall j :: CoSignedAt(chain, j) ==> j <= i) ==> chain[i].escrowChannel.None?
  }

  lemma {:induction false} GateIff(chain: seq<State>)
    ensures Gate(chain) <==> NoOpenEscrow(chain)
  {
    if chain != [] {
      var n := |chain| - 1;
      var prefix := chain[..n];
      if CoSignedAt(chain, n) {
        assert forall j :: CoSignedAt(chain, j) ==> j <= n;
      } else {
        GateIff(prefix);
        assert forall j :: CoSignedAt(prefix, j) <==> CoSignedAt(chain, j);
      }
    }
  }

  /** The ledger after an amount has come in. */
  function Increased(l: Ledger, amount: real): Ledger {
    l.(userBalance := l.userBalance + amount, nodeNetFlow := l.nodeNetFlow + amount)
  }

  /** If there is a channel, its ledger stays in whole units when so much comes in. */
  predicate LedgerReceives(cfg: Config, chain: seq<State>, amount: real) {
    chain != [] ==>
      var s := chain[|chain| - 1];
      s.homeChannel.Some? && s.transition.kind != Finalize ==> Whole(Increased(s.home, amount), cfg.store)
  }

  /** The node may bring the user so much. */
  ghost predicate Receivable(cfg: Config, chain: seq<State>, amount: real) {
    NoOpenEscrow(chain) && LedgerReceives(cfg, chain, amount)
  }

  lemma IssuableIff(cfg: Config, ns: NodeState, k: Key, r: Request)
    requires ChainsValid(cfg, ns) && (r.ReceiveTransfer? || r.ReleaseFrom?)
    ensures CanIssue(cfg, ns, k, r) <==> Receivable(cfg, ChainOf(ns.chains, k), r.amount.value)
  {
    var chain := ChainOf(ns.chains, k);
    GateIff(chain);
    CurrentSound(cfg, ns, k);
    if chain != [] && IsLock(Last(k, chain).transition.kind) {
      LockClosesGate(k, chain, DecimalsOf(cfg, k));
    } else {
      IncomingPacks(cfg, k, chain, r);
    }
  }

  lemma IncomingIs(cur: State, r: Request)
    requires (r.ReceiveTransfer? || r.ReleaseFrom?) && Sound(cur) && !IsLock(cur.transition.kind)
    ensures var s := Issued(cur, r);
      && s.escrow.None? && (s.homeChannel.Some? <==> cur.homeChannel.Some? && cur.transition.kind != Finalize)
      && (s.homeChannel.Some? ==> s.home == Increased(cur.home, r.amount.value))
  {}

  lemma IncomingPacks(cfg: Config, k: Key, chain: seq<State>, r: Request)
    requires (r.ReceiveTransfer? || r.ReleaseFrom?) && Sound(Last(k, chain)) && !IsLock(Last(k, chain).transition.kind)
    ensures var s := Issued(Last(k, chain), r);
      (s.homeChannel.None? || PackLedgers(s, cfg.store).Some?) <==> LedgerReceives(cfg, chain, r.amount.value)
  {
    var s := Issued(Last(k, chain), r);
    PacksIff(s, cfg.store);
    IncomingIs(Last(k, chain), r);
  }

  /** A transfer goes to another wallet, which may receive it. */
  ghost predicate Transferable(cfg: Config, ns: NodeState, p: State) {
    && p.transition.account.WalletAccount? && p.transition.account.wallet != p.wallet
    && Receivable(cfg, ChainOf(ns.chains, Key(p.transition.account.wallet, p.asset)), p.transition.amount.value)
  }

  lemma TransferIff(cfg: Config, ns: NodeState, p: State)
    requires ChainsValid(cfg, ns)
    ensures TransferOk(cfg, ns, p) <==> Transferable(cfg, ns, p)
  {
    if p.transition.account.WalletAccount? {
      IssuableIff(cfg, ns, ReceiverKey(p), Mirror(p));
    }
  }

  // ---------- Submitted states ----------

  /** The state has the fields of a successor, is signed by its user, and is in whole units. */
  predicate Presentable(cfg: Config, ns: NodeState, p: State, signatureValid: bool) {
    && Acceptable(Current(ns, Key(p.wallet, p.asset)), p, cfg.store.AssetDecimals(p.asset))
    && p.userSigned && signatureValid
    && Whole(p.home, cfg.store) && (p.escrow.Some? ==> Whole(p.escrow.value, cfg.store))
  }

  lemma CoSignableIff(cfg: Config, ns: NodeState, p: State, signatureValid: bool)
    requires ChainsValid(cfg, ns)
    ensures CoSignable(cfg, ns, p, signatureValid) <==> Presentable(cfg, ns, p, signatureValid)
  {
    var k := Key(p.wallet, p.asset);
    CurrentSound(cfg, ns, k);
    AcceptedIff(Current(ns, k), p, cfg.store.AssetDecimals(p.asset));
    PacksIff(p, cfg.store);
  }

  predicate Permitted(c: Checks) {
    c.actionAllowed && c.channelOpen && c.quiet
  }

  /** In every run, submitting a state is accepted exactly if it is the next state of its chain, of
      one of five kinds, the verdicts from outside allow it, and a transfer can be received. */
  lemma StateAcceptedIff(cfg: Config, states: seq<NodeState>, ops: seq<Op>, n: nat, p: State, c: Checks)
    requires Run(cfg, states, ops) && n < |ops| && ops[n] == SubmitState(p, c)
    ensures Accepts(cfg, states[n], ops[n]) <==>
      && Permitted(c) && Presentable(cfg, states[n], p, c.signatureValid)
      && p.transition.kind in {Acknowledgement, HomeDeposit, HomeWithdrawal, TransferSend, Finalize}
      && (p.transition.kind == TransferSend ==> Transferable(cfg, states[n], p))
  {
    RunInv(cfg, states, ops, n);
    CoSignableIff(cfg, states[n], p, c.signatureValid);
    TransferIff(cfg, states[n], p);
  }

  /** The escrow step takes the four escrow kinds, under the same conditions. */
  lemma EscrowAcceptedIff(cfg: Config, states: seq<NodeState>, ops: seq<Op>, n: nat, p: State, c: Checks)
    requires Run(cfg, states, ops) && n < |ops| && ops[n] == CoSignEscrow(p, c)
    ensures Accepts(cfg, states[n], ops[n]) <==>
      && Permitted(c) && Presentable(cfg, states[n], p, c.signatureValid)
      && p.transition.kind in {MutualLock, EscrowDeposit, EscrowLock, EscrowWithdraw}
  {
    RunInv(cfg, states, ops, n);
    CoSignableIff(cfg, states[n], p, c.signatureValid);
  }

  /** The user has no channel, or has finalized another one. */
  predicate MayOpen(chain: seq<State>, id: Id) {
    chain != [] ==>
      var s := chain[|chain| - 1];
      s.homeChannel.None? || (s.transition.kind == Finalize && s.homeChannel != Some(id))
  }

  /** A channel is created exactly for the next state of a chain that names the channel of this
      definition, which does not exist yet, if the user may open one and the definition is in range. */
  lemma CreationAcceptedIff(cfg: Config, states: seq<NodeState>, ops: seq<Op>, n: nat, p: State,
                            def: ChannelDefinition, c: CreationChecks)
    requires Run(cfg, states, ops) && n < |ops| && ops[n] == RequestCreation(p, def, c)
    ensures var id := HomeChannelId(cfg.node, p.wallet, p.asset, def.nonce, def.challenge, def.validators);
      Accepts(cfg, states[n], ops[n]) <==>
      && def.nonce > 0 && cfg.minChallenge <= def.challenge <= cfg.maxChallenge
      && c.assetSupported && c.validatorsSupported && p.homeChannel == Some(id) && id !in states[n].channels
      && MayOpen(ChainOf(states[n].chains, Key(p.wallet, p.asset)), id)
      && Presentable(cfg, states[n], p, c.signatureValid)
      && p.transition.kind in {Acknowledgement, HomeDeposit, HomeWithdrawal, TransferSend}
      && (p.transition.kind == TransferSend ==> Transferable(cfg, states[n], p))
  {
    RunInv(cfg, states, ops, n);
    CoSignableIff(cfg, states[n], p, c.signatureValid);
    TransferIff(cfg, states[n], p);
  }
}
