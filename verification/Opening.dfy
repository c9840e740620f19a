/** The first step of the runs that serve as examples: a user creates a channel with a deposit. */
module Opening {
  import opened Options
  import opened Decimals
  import opened Channels
  import opened Advancer
  import opened Chains
  import opened Packing
  import opened NodeModel
  import opened ChannelEndpoints

  function Signed(s: State): State {
    s.(userSigned := true, nodeSigned := true)
  }

  /** A successor that is on no channel yet, with the channel, chain and token that a user names. */
  function On(next: State, channel: Id, chain: ChainId, token: Token): State {
    next.(homeChannel := Some(channel), home := next.home.(chain := chain, token := token))
  }

  /** A deposit into a channel that the successor of cur is not on. */
  function Deposited(cur: State, channel: Id, chain: ChainId, token: Token, amount: Decimal): State {
    Signed(Apply(On(NextState(cur), channel, chain, token), DepositHome(amount)).value)
  }

  /** Whose channel it is, how it is created, on which chain and token, and with which deposit. */
  datatype Setup = Setup(k: Key, def: ChannelDefinition, chain: ChainId, token: Token, amount: Decimal)

  /** The configuration knows the asset, and a token that is at least as fine. */
  ghost predicate Usable(cfg: Config, u: Setup) {
    && u.def.nonce != 0 && cfg.minChallenge <= u.def.challenge <= cfg.maxChallenge
    && u.chain != 0 && u.token != "" && u.amount.value > 0.0 && IsDecimal(u.amount)
    && var decimals := cfg.store.AssetDecimals(u.k.asset);
       decimals.Some? && PrecisionValid(u.amount, decimals.value)
       && FineToken(EMPTY_LEDGER.(chain := u.chain, token := u.token), decimals.value, cfg.store)
  }

  function ChannelOf(cfg: Config, u: Setup): Id {
    HomeChannelId(cfg.node, u.k.wallet, u.k.asset, u.def.nonce, u.def.challenge, u.def.validators)
  }

  function First(cfg: Config, u: Setup): State {
    Deposited(VoidState(u.k.wallet, u.k.asset), ChannelOf(cfg, u), u.chain, u.token, u.amount)
  }

  const PASSED := CreationChecks(true, true, true)

  function Creation(cfg: Config, u: Setup): Op {
    RequestCreation(First(cfg, u), u.def, PASSED)
  }

  function Created(cfg: Config, u: Setup): NodeState {
    Finished(INITIAL, First(cfg, u), {ChannelOf(cfg, u)})
  }

  /** A ledger of these multiples of an amount can be packed. */
  lemma MultiplesScale(l: Ledger, amount: Decimal, d: nat, store: AssetStore)
    requires IsDecimal(amount) && PrecisionValid(amount, d) && FineToken(l, d, store)
    requires l.userBalance == 0.0 || l.userBalance == amount.value
    requires l.userNetFlow == 0.0 || l.userNetFlow == amount.value
    requires l.nodeBalance == 0.0
    requires l.nodeNetFlow == 0.0 || l.nodeNetFlow == -amount.value
    ensures ScaleLedger(l, store).Some?
  {
    PrecisionSound(amount, d);
    MoveFits(0.0, amount.value, d);
    LedgerScales(l, d, store);
  }

  lemma DepositAdvances(cur: State, channel: Id, chain: ChainId, token: Token, amount: Decimal, decimals: nat)
    requires NextState(cur).homeChannel.None? && NextState(cur).home == EMPTY_LEDGER && !IsLock(cur.transition.kind)
    requires NextState(cur).escrow.None? && chain != 0 && token != ""
    requires amount.value > 0.0 && PrecisionValid(amount, decimals)
    ensures var p := Deposited(cur, channel, chain, token, amount);
      && Advances(cur, p, Some(decimals))
      && p.home == Ledger(token, chain, amount.value, amount.value, 0.0, 0.0) && p.homeChannel == Some(channel)
      && p.escrow.None? && p.escrowChannel == NextState(cur).escrowChannel && p.transition.kind == HomeDeposit
      && p.wallet == cur.wallet && p.asset == cur.asset
      && p.epoch == NextState(cur).epoch && p.version == NextState(cur).version
  {
    assert Builds(cur, Deposited(cur, channel, chain, token, amount), DepositHome(amount));
  }

  lemma FirstIs(cfg: Config, u: Setup)
    requires Usable(cfg, u)
    ensures var p := First(cfg, u);
      && CoSignable(cfg, INITIAL, p, true) && KeyOf(p) == u.k && CoSigned(p) == p
      && p.home == Ledger(u.token, u.chain, u.amount.value, u.amount.value, 0.0, 0.0)
      && p.homeChannel == Some(ChannelOf(cfg, u)) && p.escrow.None? && p.escrowChannel.None?
      && p.transition.kind == HomeDeposit && p.epoch == 0 && p.version == 1
  {
    var d := cfg.store.AssetDecimals(u.k.asset).value;
    DepositAdvances(VoidState(u.k.wallet, u.k.asset), ChannelOf(cfg, u), u.chain, u.token, u.amount, d);
    MultiplesScale(First(cfg, u).home, u.amount, d, cfg.store);
  }

  /** A state that is no transfer is appended to its own chain, and nothing else is stored but its
      transaction. */
  lemma Appends(ns: NodeState, p: State, channels: set<Id>)
    requires p.transition.kind != TransferSend
    ensures Finished(ns, p, channels).chains == AppendAll(ns.chains, map[KeyOf(p) := CoSigned(p)])
    ensures Applied(ns, StateEffect(ns, p, channels), Finished(ns, p, channels))
  {
    AloneEffect(ns, p, channels);
    FinishedApplies(ns, p, channels);
  }

  lemma CreationAccepted(cfg: Config, u: Setup)
    requires Usable(cfg, u)
    ensures AcceptsCreation(cfg, INITIAL, First(cfg, u), u.def, PASSED)
    ensures HomeIdOf(cfg, First(cfg, u), u.def) == ChannelOf(cfg, u)
  {
    FirstIs(cfg, u);
    assert ChainOf(INITIAL.chains, u.k) == [];
  }

  lemma AcceptedStep(cfg: Config, ns: NodeState, p: State, def: ChannelDefinition, c: CreationChecks)
    requires AcceptsCreation(cfg, ns, p, def, c) && p.transition.kind != TransferSend
    ensures var op := RequestCreation(p, def, c);
      Accepts(cfg, ns, op) && Step(cfg, ns, op, Finished(ns, p, {HomeIdOf(cfg, p, def)}))
  {
    Appends(ns, p, {HomeIdOf(cfg, p, def)});
  }

  /** The creation is accepted. */
  lemma CreationStep(cfg: Config, u: Setup)
    requires Usable(cfg, u)
    ensures Step(cfg, INITIAL, Creation(cfg, u), Created(cfg, u)) && Accepts(cfg, INITIAL, Creation(cfg, u))
  {
    CreationAccepted(cfg, u);
    FirstIs(cfg, u);
    AcceptedStep(cfg, INITIAL, First(cfg, u), u.def, PASSED);
  }

  /** It leads to a store with this one state. */
  lemma CreatedChain(cfg: Config, u: Setup)
    requires Usable(cfg, u)
    ensures Created(cfg, u).chains == map[u.k := [First(cfg, u)]]
  {
    FirstIs(cfg, u);
    Appends(INITIAL, First(cfg, u), {ChannelOf(cfg, u)});
    OneChain(u.k, First(cfg, u));
  }

  lemma OneChain(k: Key, p: State)
    ensures AppendAll(map[], map[k := p]) == map[k := [p]]
  {
    assert [] + [p] == [p];
  }
}
