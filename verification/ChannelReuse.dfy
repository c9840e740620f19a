/** A run in which a user finalizes a channel and goes on with it in the next epoch: a challenge
    of its first state is not answered, although a newer co-signed state is stored. */
module ChannelReuse {
  import opened Options
  import opened Channels
  import opened Advancer
  import opened Chains
  import opened Packing
  import opened NodeModel
  import opened ChannelEndpoints
  import opened Runs
  import opened Events
  import opened Epochs
  import opened Opening

  const ALLOWED := Checks(true, true, true, true)

  /** The whole deposit is taken out. */
  function Finalized(cfg: Config, u: Setup): State {
    Signed(Apply(NextState(First(cfg, u)), FinalizeHome).value)
  }

  /** The first state of the next epoch, on the same channel. */
  function Reused(cfg: Config, u: Setup): State {
    Deposited(Finalized(cfg, u), ChannelOf(cfg, u), u.chain, u.token, u.amount)
  }

  function Submission(p: State): Op {
    Op.SubmitState(p, ALLOWED)
  }

  lemma SubmissionStep(cfg: Config, ns: NodeState, p: State, chain: seq<State>)
    requires CoSignable(cfg, ns, p, true) && ns.chains == map[KeyOf(p) := chain] && CoSigned(p) == p
    requires p.transition.kind == HomeDeposit || p.transition.kind == Finalize
    ensures Accepts(cfg, ns, Submission(p)) && Step(cfg, ns, Submission(p), Finished(ns, p, {}))
  {
    Appends(ns, p, {});
  }

  lemma FinalizedIs(cfg: Config, u: Setup)
    requires Usable(cfg, u)
    ensures var p := Finalized(cfg, u);
      && Advances(First(cfg, u), p, cfg.store.AssetDecimals(u.k.asset))
      && p.home == Ledger(u.token, u.chain, 0.0, 0.0, 0.0, 0.0) && p.homeChannel == Some(ChannelOf(cfg, u))
      && p.escrow.None? && p.escrowChannel.None? && p.transition.kind == Finalize
      && KeyOf(p) == u.k && p.epoch == 0 && p.version == 2 && CoSigned(p) == p && p.userSigned
  {
    FirstIs(cfg, u);
    assert Builds(First(cfg, u), Finalized(cfg, u), FinalizeHome);
  }

  lemma ReusedIs(cfg: Config, u: Setup)
    requires Usable(cfg, u)
    ensures var p := Reused(cfg, u);
      && Advances(Finalized(cfg, u), p, cfg.store.AssetDecimals(u.k.asset))
      && p.home == Ledger(u.token, u.chain, u.amount.value, u.amount.value, 0.0, 0.0)
      && p.homeChannel == Some(ChannelOf(cfg, u)) && p.escrow.None? && p.escrowChannel.None?
      && p.transition.kind == HomeDeposit
      && KeyOf(p) == u.k && p.epoch == 1 && p.version == 0 && CoSigned(p) == p && p.userSigned
  {
    FinalizedIs(cfg, u);
    DepositAdvances(Finalized(cfg, u), ChannelOf(cfg, u), u.chain, u.token, u.amount,
      cfg.store.AssetDecimals(u.k.asset).value);
  }

  /** It can be packed, as it has no escrow and a home ledger of such multiples. */
  lemma Packs(cfg: Config, u: Setup, p: State)
    requires Usable(cfg, u) && p.homeChannel.Some? && p.escrow.None?
    requires p.home == Ledger(u.token, u.chain, u.amount.value, u.amount.value, 0.0, 0.0)
          || p.home == Ledger(u.token, u.chain, 0.0, 0.0, 0.0, 0.0)
    ensures PackLedgers(p, cfg.store).Some?
  {
    MultiplesScale(p.home, u.amount, cfg.store.AssetDecimals(u.k.asset).value, cfg.store);
  }

  function Ops(cfg: Config, u: Setup): seq<Op> {
    [Creation(cfg, u), Submission(Finalized(cfg, u)), Submission(Reused(cfg, u))]
  }

  function Ended(cfg: Config, u: Setup): NodeState {
    Finished(Created(cfg, u), Finalized(cfg, u), {})
  }

  function Resumed(cfg: Config, u: Setup): NodeState {
    Finished(Ended(cfg, u), Reused(cfg, u), {})
  }

  function States(cfg: Config, u: Setup): seq<NodeState> {
    [INITIAL, Created(cfg, u), Ended(cfg, u), Resumed(cfg, u)]
  }

  lemma NextStep(cfg: Config, ns: NodeState, k: Key, chain: seq<State>, p: State)
    requires ns.chains == map[k := chain] && chain != [] && KeyOf(p) == k && CoSigned(p) == p && p.userSigned
    requires Advances(chain[|chain| - 1], p, cfg.store.AssetDecimals(k.asset)) && PackLedgers(p, cfg.store).Some?
    requires p.transition.kind == HomeDeposit || p.transition.kind == Finalize
    ensures Accepts(cfg, ns, Submission(p)) && Step(cfg, ns, Submission(p), Finished(ns, p, {}))
  {
    OnChain(cfg, ns, k, chain, p);
    SubmissionStep(cfg, ns, p, chain);
  }

  lemma NextChain(ns: NodeState, p: State, chain: seq<State>)
    requires ns.chains == map[KeyOf(p) := chain] && CoSigned(p) == p && p.transition.kind != TransferSend
    ensures Finished(ns, p, {}).chains == map[KeyOf(p) := chain + [p]]
  {
    Appends(ns, p, {});
    assert AppendAll(map[KeyOf(p) := chain], map[KeyOf(p) := p]) == map[KeyOf(p) := chain + [p]];
  }

  lemma EndedChain(cfg: Config, u: Setup)
    requires Usable(cfg, u)
    ensures Ended(cfg, u).chains == map[u.k := [First(cfg, u), Finalized(cfg, u)]]
  {
    CreatedChain(cfg, u);
    FinalizedIs(cfg, u);
    NextChain(Created(cfg, u), Finalized(cfg, u), [First(cfg, u)]);
    assert [First(cfg, u)] + [Finalized(cfg, u)] == [First(cfg, u), Finalized(cfg, u)];
  }

  lemma ResumedChain(cfg: Config, u: Setup)
    requires Usable(cfg, u)
    ensures Resumed(cfg, u).chains == map[u.k := [First(cfg, u), Finalized(cfg, u), Reused(cfg, u)]]
  {
    var chain := [First(cfg, u), Finalized(cfg, u)];
    EndedChain(cfg, u);
    ReusedIs(cfg, u);
    NextChain(Ended(cfg, u), Reused(cfg, u), chain);
    assert chain + [Reused(cfg, u)] == [First(cfg, u), Finalized(cfg, u), Reused(cfg, u)];
  }

  lemma SecondStep(cfg: Config, u: Setup)
    requires Usable(cfg, u)
    ensures Step(cfg, Created(cfg, u), Submission(Finalized(cfg, u)), Ended(cfg, u))
  {
    CreatedChain(cfg, u);
    FinalizedIs(cfg, u);
    Packs(cfg, u, Finalized(cfg, u));
    NextStep(cfg, Created(cfg, u), u.k, [First(cfg, u)], Finalized(cfg, u));
  }

  lemma ThirdStep(cfg: Config, u: Setup)
    requires Usable(cfg, u)
    ensures Step(cfg, Ended(cfg, u), Submission(Reused(cfg, u)), Resumed(cfg, u))
    ensures Accepts(cfg, Ended(cfg, u), Submission(Reused(cfg, u)))
  {
    EndedChain(cfg, u);
    ReusedIs(cfg, u);
    Packs(cfg, u, Reused(cfg, u));
    NextStep(cfg, Ended(cfg, u), u.k, [First(cfg, u), Finalized(cfg, u)], Reused(cfg, u));
  }

  /** The node accepts all three requests. */
  lemma ReuseRun(cfg: Config, u: Setup)
    requires Usable(cfg, u)
    ensures Run(cfg, States(cfg, u), Ops(cfg, u))
  {
    CreationStep(cfg, u);
    SecondStep(cfg, u);
    ThirdStep(cfg, u);
    ThreeSteps(cfg, Created(cfg, u), Ended(cfg, u), Resumed(cfg, u),
               Creation(cfg, u), Submission(Finalized(cfg, u)), Submission(Reused(cfg, u)));
  }

  lemma OnChain(cfg: Config, ns: NodeState, k: Key, chain: seq<State>, p: State)
    requires ns.chains == map[k := chain] && chain != [] && KeyOf(p) == k
    requires Advances(chain[|chain| - 1], p, cfg.store.AssetDecimals(k.asset)) && PackLedgers(p, cfg.store).Some?
      && p.userSigned
    ensures CoSignable(cfg, ns, p, true)
  {
    assert ChainOf(ns.chains, k) == chain;
  }

  lemma ThreeSteps(cfg: Config, a: NodeState, b: NodeState, c: NodeState, x: Op, y: Op, z: Op)
    requires Step(cfg, INITIAL, x, a) && Step(cfg, a, y, b) && Step(cfg, b, z, c)
    ensures Run(cfg, [INITIAL, a, b, c], [x, y, z])
  {}

  lemma StoredThree(chains: map<Key, seq<State>>, k: Key, a: State, b: State, c: State)
    requires chains == map[k := [a, b, c]]
    ensures forall s :: Stored(chains, s) <==> s == a || s == b || s == c
  {
    forall s ensures Stored(chains, s) <==> s == a || s == b || s == c {
      assert s in chains[k] <==> s == a || s == b || s == c;
    }
  }

  /** Of three co-signed states of a channel, the last is the latest if it is of a later epoch. */
  lemma MissedOf(chains: map<Key, seq<State>>, id: Id, k: Key, a: State, b: State, c: State)
    requires chains == map[k := [a, b, c]] && CoSignedOn(a, id) && CoSignedOn(b, id) && CoSignedOn(c, id)
    requires a.epoch < c.epoch && b.epoch < c.epoch && c.version <= 1 < b.version
    ensures LatestStored(chains, id, Some(c)) && NewerExists(chains, id, 1) && !Answered(chains, id, 1)
  {
    StoredThree(chains, k, a, b, c);
    assert LatestStored(chains, id, Some(c));
    LatestVersion(chains, id, c);
    assert Stored(chains, b);
  }

  lemma UsedTwice(chains: map<Key, seq<State>>, id: Id, k: Key, a: State, b: State, c: State)
    requires chains == map[k := [a, b, c]] && b.homeChannel == c.homeChannel == Some(id) && b.epoch != c.epoch
    ensures !OneEpochEach(chains)
  {
    assert chains[k][1] == b && chains[k][2] == c;
    assert Uses(chains, k, b.epoch, id) && Uses(chains, k, c.epoch, id);
  }

  /** In this run the latest co-signed state of the channel is that of the new epoch, with version
      0. So a challenge of version 1 is not answered, although version 2 is co-signed. */
  lemma ChallengeMissed(cfg: Config, u: Setup)
    requires Usable(cfg, u)
    ensures Run(cfg, States(cfg, u), Ops(cfg, u)) && !FreshUntil(cfg, States(cfg, u), Ops(cfg, u), 3)
    ensures var chains, id := States(cfg, u)[3].chains, ChannelOf(cfg, u);
      LatestStored(chains, id, Some(Reused(cfg, u))) && NewerExists(chains, id, 1) && !Answered(chains, id, 1)
  {
    var id, a, b, c := ChannelOf(cfg, u), First(cfg, u), Finalized(cfg, u), Reused(cfg, u);
    ReuseRun(cfg, u);
    ResumedChain(cfg, u);
    FirstIs(cfg, u);
    FinalizedIs(cfg, u);
    ReusedIs(cfg, u);
    MissedOf(Resumed(cfg, u).chains, id, u.k, a, b, c);
    UsedTwice(Resumed(cfg, u).chains, id, u.k, a, b, c);
    OneEpochIff(cfg, States(cfg, u), Ops(cfg, u), 3);
  }
}
