/** Chains with an escrow exist, for any channel and any amounts: a deposit, a mutual lock and
    the escrow deposit that completes it. */
module LockExample {
  import opened Options
  import opened Decimals
  import opened Channels
  import opened Advancer
  import opened Chains
  import opened Flows

  /** A home channel with its chain and token, those of an escrow, and two amounts. */
  datatype Setup = Setup(channel: Id, chain: ChainId, token: Token, escrowChain: ChainId, escrowToken: Token,
                         deposit: Decimal, lock: Decimal)

  predicate Usable(u: Setup, decimals: nat) {
    && u.chain != 0 && u.token != "" && u.escrowChain != 0 && u.escrowToken != "" && u.chain != u.escrowChain
    && u.deposit.value > 0.0 && u.lock.value > 0.0
    && PrecisionValid(u.deposit, decimals) && PrecisionValid(u.lock, decimals)
  }

  function Signed(s: State): State {
    s.(userSigned := true, nodeSigned := true)
  }

  function Start(k: Key, u: Setup): State {
    NextState(VoidState(k.wallet, k.asset)).(homeChannel := Some(u.channel),
                                             home := EMPTY_LEDGER.(chain := u.chain, token := u.token))
  }

  /** The user's first state, on a new channel. */
  function First(k: Key, u: Setup): State {
    Signed(Apply(Start(k, u), DepositHome(u.deposit)).value)
  }

  function Locked(k: Key, u: Setup): State
    requires u.escrowChain != 0 && u.escrowToken != ""
  {
    Signed(Apply(NextState(First(k, u)), LockMutual(u.escrowChain, u.escrowToken, u.lock)).value)
  }

  function Completed(k: Key, u: Setup): State
    requires u.escrowChain != 0 && u.escrowToken != ""
  {
    Signed(Completion(Locked(k, u)).value)
  }

  lemma FirstStep(k: Key, u: Setup, decimals: nat)
    requires Usable(u, decimals)
    ensures UserStep(k, [], First(k, u), Some(decimals))
    ensures First(k, u).home.userBalance == u.deposit.value
  {
    assert Builds(VoidState(k.wallet, k.asset), First(k, u), DepositHome(u.deposit));
  }

  lemma LockStep(k: Key, u: Setup, decimals: nat)
    requires Usable(u, decimals)
    ensures UserStep(k, [First(k, u)], Locked(k, u), Some(decimals))
    ensures Locked(k, u).transition.kind == MutualLock
    ensures Claim(Locked(k, u)) == u.deposit.value + u.lock.value
  {
    assert Builds(First(k, u), Locked(k, u), LockMutual(u.escrowChain, u.escrowToken, u.lock));
  }

  lemma CompletionStep(k: Key, u: Setup, decimals: nat)
    requires Usable(u, decimals)
    ensures UserStep(k, [First(k, u), Locked(k, u)], Completed(k, u), Some(decimals))
    ensures Completed(k, u).transition.kind == EscrowDeposit
    ensures Completed(k, u).home.userBalance == u.deposit.value + u.lock.value
  {
    assert Builds(Locked(k, u), Completed(k, u), DepositEscrow(u.lock));
  }

  lemma ThreeSteps(k: Key, a: State, b: State, c: State, decimals: Option<nat>)
    requires UserStep(k, [], a, decimals) && UserStep(k, [a], b, decimals) && UserStep(k, [a, b], c, decimals)
    ensures ValidChain(k, [a, b, c], decimals)
  {
    assert [a][..0] == [] && [a, b][..1] == [a] && [a, b, c][..2] == [a, b];
    assert ValidChain(k, [a], decimals);
    assert ValidChain(k, [a, b], decimals);
  }

  /** The chain is valid: the lock adds to the user's claim at once, and completing it turns
      the claim into a balance that can be spent. */
  lemma LockPairReachable(k: Key, u: Setup, decimals: nat)
    requires Usable(u, decimals)
    ensures var chain := [First(k, u), Locked(k, u), Completed(k, u)];
      && ValidChain(k, chain, Some(decimals))
      && chain[1].transition.kind == MutualLock && chain[2].transition.kind == EscrowDeposit
      && chain[0].home.userBalance == u.deposit.value
      && Claim(chain[1]) == u.deposit.value + u.lock.value
      && chain[2].home.userBalance == u.deposit.value + u.lock.value
  {
    FirstStep(k, u, decimals);
    LockStep(k, u, decimals);
    CompletionStep(k, u, decimals);
    ThreeSteps(k, First(k, u), Locked(k, u), Completed(k, u), Some(decimals));
  }
}
