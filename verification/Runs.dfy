/** Theorems about whole runs of the node, from the empty store on. */
module Runs {
  import opened Options
  import opened Sums
  import opened Decimals
  import opened Channels
  import opened Advancer
  import opened Chains
  import opened Flows
  import opened Transactions
  import opened Allocations
  import opened NodeModel
  import opened Invariants
  import opened Conservation

  /** The stores that a sequence of operations, accepted or refused, leads through. */
  ghost predicate Run(cfg: Config, states: seq<NodeState>, ops: seq<Op>) {
    && |states| == |ops| + 1 && states[0] == INITIAL
    && forall i :: 0 <= i < |ops| ==> Step(cfg, states[i], ops[i], states[i + 1])
  }

  lemma {:induction false} RunInv(cfg: Config, states: seq<NodeState>, ops: seq<Op>, n: nat)
    requires Run(cfg, states, ops) && n <= |ops|
    ensures Inv(cfg, states[n])
  {
    if n == 0 {
      InitialInv(cfg);
    } else {
      RunInv(cfg, states, ops, n - 1);
      StepKeepsInv(cfg, states[n - 1], ops[n - 1], states[n]);
    }
  }

  // ---------- Conservation ----------

  ghost function BurnedBy(cfg: Config, ns: NodeState, op: Op, asset: Asset): real {
    if Accepts(cfg, ns, op) then Burned(ns, op, asset) else 0.0
  }

  ghost function SumOf(xs: seq<real>): real {
    if xs == [] then 0.0 else SumOf(xs[..|xs| - 1]) + xs[|xs| - 1]
  }

  lemma {:induction false} SumOfNonNegative(xs: seq<real>)
    requires forall i :: 0 <= i < |xs| ==> xs[i] >= 0.0
    ensures SumOf(xs) >= 0.0
    ensures SumOf(xs) == 0.0 <==> forall i :: 0 <= i < |xs| ==> xs[i] == 0.0
  {
    if xs != [] {
      SumOfNonNegative(xs[..|xs| - 1]);
    }
  }

  /** What each of the first n operations burned. */
  ghost function Burns(cfg: Config, states: seq<NodeState>, ops: seq<Op>, asset: Asset, n: nat): seq<real>
    requires n <= |ops| && |states| == |ops| + 1
  {
    seq(n, i requires 0 <= i < n => BurnedBy(cfg, states[i], ops[i], asset))
  }

  ghost function BurnedSoFar(cfg: Config, states: seq<NodeState>, ops: seq<Op>, asset: Asset, n: nat): real
    requires n <= |ops| && |states| == |ops| + 1
  {
    SumOf(Burns(cfg, states, ops, asset, n))
  }

  /** Not an accepted batch that gives some of the asset to a slot that is present at zero. */
  ghost predicate Clean(cfg: Config, ns: NodeState, op: Op, asset: Asset) {
    op.RebalanceSessions? && Accepts(cfg, ns, op) ==> NoneCountedTwice(ns, op.updates, asset)
  }

  lemma CleanBurnsNothing(cfg: Config, ns: NodeState, op: Op, asset: Asset)
    requires Inv(cfg, ns)
    ensures BurnedBy(cfg, ns, op, asset) >= 0.0
    ensures BurnedBy(cfg, ns, op, asset) == 0.0 <==> Clean(cfg, ns, op, asset)
  {
    if op.RebalanceSessions? && Accepts(cfg, ns, op) {
      BurnedIff(cfg, ns, op.updates, asset);
    }
  }

  /** The imbalance of an asset is, negated, what accepted batches have counted twice. */
  lemma {:induction false} RunImbalance(cfg: Config, states: seq<NodeState>, ops: seq<Op>, n: nat, asset: Asset)
    requires Run(cfg, states, ops) && n <= |ops|
    ensures Imbalance(states[n], asset) == -BurnedSoFar(cfg, states, ops, asset, n)
  {
    if n == 0 {
      assert ByAsset(Excesses(map[]), asset) == map[] && OfAsset(map[], asset) == map[];
    } else {
      RunImbalance(cfg, states, ops, n - 1, asset);
      RunInv(cfg, states, ops, n - 1);
      StepImbalance(cfg, states[n - 1], ops[n - 1], states[n], asset);
      assert Burns(cfg, states, ops, asset, n)[..n - 1] == Burns(cfg, states, ops, asset, n - 1);
    }
  }

  /** Whole-node conservation. After any run, the node flows of all home and escrow ledgers
      and the funds of all sessions equal the open locks, if and only if no accepted batch
      gave some of the asset to a slot that was present at zero. */
  lemma WholeNodeConservation(cfg: Config, states: seq<NodeState>, ops: seq<Op>, n: nat, asset: Asset)
    requires Run(cfg, states, ops) && n <= |ops|
    ensures Imbalance(states[n], asset) == 0.0
            <==> forall i :: 0 <= i < n ==> Clean(cfg, states[i], ops[i], asset)
  {
    RunImbalance(cfg, states, ops, n, asset);
    var burns := Burns(cfg, states, ops, asset, n);
    forall i | 0 <= i < n
      ensures burns[i] >= 0.0
      ensures burns[i] == 0.0 <==> Clean(cfg, states[i], ops[i], asset)
    {
      RunInv(cfg, states, ops, i);
      CleanBurnsNothing(cfg, states[i], ops[i], asset);
    }
    SumOfNonNegative(burns);
  }

  ghost function Claims(chains: map<Key, seq<State>>): map<Key, real> {
    map k | k in chains :: Claim(Last(k, chains[k]))
  }

  ghost function Inflows(chains: map<Key, seq<State>>): map<Key, real> {
    map k | k in chains :: Total(chains[k], UserFlow)
  }

  /** What users have brought in on chain backs their claims, their open mutual locks and the
      session funds; what accepted batches counted twice is no longer claimed by anyone. */
  lemma ClaimsBacked(cfg: Config, states: seq<NodeState>, ops: seq<Op>, n: nat, asset: Asset)
    requires Run(cfg, states, ops) && n <= |ops|
    ensures var ns := states[n];
      Sum(ByAsset(Claims(ns.chains), asset)) + Funds(ns.entries, asset)
      == Sum(ByAsset(Inflows(ns.chains), asset)) - BurnedSoFar(cfg, states, ops, asset, n)
  {
    RunInv(cfg, states, ops, n);
    RunImbalance(cfg, states, ops, n, asset);
    ClaimsSum(cfg, states[n], asset);
  }

  lemma ClaimsSum(cfg: Config, ns: NodeState, asset: Asset)
    requires ChainsValid(cfg, ns)
    ensures Sum(ByAsset(Claims(ns.chains), asset))
         == Sum(ByAsset(Inflows(ns.chains), asset)) + Sum(ByAsset(Excesses(ns.chains), asset))
  {
    forall k | k in ns.chains ensures Claims(ns.chains)[k] == Inflows(ns.chains)[k] + Excesses(ns.chains)[k] {
      ClaimIdentity(k, ns.chains[k], DecimalsOf(cfg, k));
    }
    SumPlus(ByAsset(Inflows(ns.chains), asset), ByAsset(Excesses(ns.chains), asset), ByAsset(Claims(ns.chains), asset));
  }

  // ---------- Chains in a run ----------

  /** In every run a lock is only ever followed by the state that completes it. */
  lemma LocksNotInterleaved(cfg: Config, states: seq<NodeState>, ops: seq<Op>, n: nat, k: Key, i: nat)
    requires Run(cfg, states, ops) && n <= |ops| && k in states[n].chains
    requires i + 1 < |states[n].chains[k]| && IsLock(states[n].chains[k][i].transition.kind)
    ensures var chain := states[n].chains[k];
      Completion(chain[i]).Some? && SameState(Completion(chain[i]).value, chain[i + 1])
  {
    RunInv(cfg, states, ops, n);
    LockIsCompletedNext(k, states[n].chains[k], i, DecimalsOf(cfg, k));
  }

  /** In every run a lock that is still open can be completed: the state that does so passes
      validation. */
  lemma LocksCompletable(cfg: Config, states: seq<NodeState>, ops: seq<Op>, n: nat, k: Key)
    requires Run(cfg, states, ops) && n <= |ops|
    requires IsLock(Current(states[n], k).transition.kind)
    ensures var cur := Current(states[n], k);
      Completion(cur).Some? && Advances(cur, Completion(cur).value, DecimalsOf(cfg, k))
  {
    RunInv(cfg, states, ops, n);
    var chain, decimals := ChainOf(states[n].chains, k), DecimalsOf(cfg, k);
    LastSound(k, chain, decimals);
    LockWasPrecise(k, chain, decimals);
    CompletionAccepted(Current(states[n], k), decimals.value);
  }

  lemma LockWasPrecise(k: Key, chain: seq<State>, decimals: Option<nat>)
    requires ValidChain(k, chain, decimals) && IsLock(Last(k, chain).transition.kind)
    ensures decimals.Some? && PrecisionValid(Last(k, chain).transition.amount, decimals.value)
  {
    var prefix, s := chain[..|chain| - 1], chain[|chain| - 1];
    if NodeStep(k, prefix, s) {
      NodeStepKind(k, prefix, s);
    }
  }

  /** No two stored states share an identifier. */
  lemma StatesDistinct(cfg: Config, states: seq<NodeState>, ops: seq<Op>, n: nat, k: Key, i: nat, j: Key, l: nat)
    requires Run(cfg, states, ops) && n <= |ops|
    requires k in states[n].chains && i < |states[n].chains[k]| && j in states[n].chains && l < |states[n].chains[j]|
    requires states[n].chains[k][i].id == states[n].chains[j][l].id
    ensures k == j && i == l
  {
    RunInv(cfg, states, ops, n);
    var a, b := states[n].chains[k], states[n].chains[j];
    ChainLinked(k, a, DecimalsOf(cfg, k));
    ChainLinked(j, b, DecimalsOf(cfg, j));
    if i < l {
      LinkedOrdered(a, i, l);
    } else if l < i {
      LinkedOrdered(a, l, i);
    }
  }

  /** No two recorded transactions share an identifier, nor a state. */
  lemma TransactionsDistinct(cfg: Config, states: seq<NodeState>, ops: seq<Op>, n: nat, t: Tx, u: Tx)
    requires Run(cfg, states, ops) && n <= |ops|
    requires t in states[n].txs && u in states[n].txs && SameOrigin(t.id, u.id)
    ensures t == u
  {
    RunInv(cfg, states, ops, n);
  }

  /** The endpoints by themselves, without the escrow step, never open an escrow ledger. */
  lemma NoEscrowWithoutEscrowStep(cfg: Config, states: seq<NodeState>, ops: seq<Op>, n: nat, k: Key, i: nat)
    requires Run(cfg, states, ops) && n <= |ops|
    requires forall j :: 0 <= j < n ==> !ops[j].CoSignEscrow?
    requires k in states[n].chains && i < |states[n].chains[k]|
    ensures states[n].chains[k][i].escrow.None? && states[n].chains[k][i].home.nodeBalance == 0.0
  {
    KindInRun(cfg, states, ops, n, k, i);
    RunInv(cfg, states, ops, n);
    ChainSound(k, states[n].chains[k], i, DecimalsOf(cfg, k));
    SoundAlone(states[n].chains[k][i]);
  }

  lemma SoundAlone(s: State)
    requires Sound(s) && !IsEscrowKind(s.transition.kind)
    ensures s.escrow.None? && s.home.nodeBalance == 0.0
  {}

  lemma {:induction false} KindInRun(cfg: Config, states: seq<NodeState>, ops: seq<Op>, n: nat, k: Key, i: nat)
    requires Run(cfg, states, ops) && n <= |ops|
    requires forall j :: 0 <= j < n ==> !ops[j].CoSignEscrow?
    requires k in states[n].chains && i < |states[n].chains[k]|
    ensures !IsEscrowKind(states[n].chains[k][i].transition.kind)
  {
    var before := states[n - 1];
    if k in before.chains && i < |before.chains[k]| {
      KindInRun(cfg, states, ops, n - 1, k, i);
    }
    KindInStep(cfg, before, ops[n - 1], states[n], k, i);
  }

  /** A state after a step was there before, or is not of an escrow kind. */
  lemma KindInStep(cfg: Config, ns: NodeState, op: Op, ns': NodeState, k: Key, i: nat)
    requires Step(cfg, ns, op, ns') && !op.CoSignEscrow? && k in ns'.chains && i < |ns'.chains[k]|
    ensures (k in ns.chains && i < |ns.chains[k]| && ns'.chains[k][i] == ns.chains[k][i])
         || !IsEscrowKind(ns'.chains[k][i].transition.kind)
  {
    if Accepts(cfg, ns, op) {
      AppendedOrOld(ns.chains, EffectOf(cfg, ns, op).appended, k, i);
      if k in EffectOf(cfg, ns, op).appended {
        AppendedKinds(cfg, ns, op, k);
      }
    }
  }

  lemma AppendedOrOld(chains: map<Key, seq<State>>, appended: map<Key, State>, k: Key, i: nat)
    requires k in AppendAll(chains, appended) && i < |AppendAll(chains, appended)[k]|
    ensures var s := AppendAll(chains, appended)[k][i];
      (k in chains && i < |chains[k]| && s == chains[k][i]) || (k in appended && s == appended[k])
  {}

  /** Without the escrow step, no accepted state is of an escrow kind. */
  lemma AcceptedKind(cfg: Config, ns: NodeState, op: Op)
    requires Accepts(cfg, ns, op) && (op.SubmitState? || op.RequestCreation? || op.SubmitDeposit?)
    ensures !IsEscrowKind(op.p.transition.kind)
  {}

  lemma AppendedKinds(cfg: Config, ns: NodeState, op: Op, k: Key)
    requires Accepts(cfg, ns, op) && !op.CoSignEscrow? && k in EffectOf(cfg, ns, op).appended
    ensures !IsEscrowKind(EffectOf(cfg, ns, op).appended[k].transition.kind)
  {
    if op.SubmitUpdate? {
      ReleaseKinds(ns, op.su.update.session, Delta(CurrentOf(ns, op.su.update.session), Target(op.su.update)));
    } else if op.SubmitState? || op.RequestCreation? || op.SubmitDeposit? {
      AcceptedKind(cfg, ns, op);
      StateKinds(ns, op.p, {}, k);
    }
  }

  lemma ReleaseKinds(ns: NodeState, session: Id, changes: map<Slot, real>)
    ensures forall k :: k in KeysOf(changes) ==> Releases(ns, session, changes)[k].transition.kind == Release
  {
    forall k | k in KeysOf(changes) ensures Releases(ns, session, changes)[k].transition.kind == Release {
      IssuedKind(Current(ns, k), Freed(session, -Get(changes, Slot(session, k.wallet, k.asset))));
    }
  }

  lemma StateKinds(ns: NodeState, p: State, channels: set<Id>, k: Key)
    requires k in StateEffect(ns, p, channels).appended
    ensures var kind := StateEffect(ns, p, channels).appended[k].transition.kind;
      kind == p.transition.kind || kind == TransferReceive
  {
    IssuedKind(Current(ns, k), Mirror(p));
  }

  lemma IssuedKind(cur: State, r: Request)
    requires r.ReceiveTransfer? || r.ReleaseFrom?
    ensures Issued(cur, r).transition.kind == if r.ReceiveTransfer? then TransferReceive else Release
  {}

  // ---------- Sessions in a run ----------

  lemma {:induction false} ClosedStays(cfg: Config, states: seq<NodeState>, ops: seq<Op>, i: nat, j: nat, id: Id)
    requires Run(cfg, states, ops) && i <= j <= |ops|
    requires id in states[i].sessions && states[i].sessions[id].status == Closed
    ensures id in states[j].sessions && states[j].sessions[id] == states[i].sessions[id]
    decreases j
  {
    if i < j {
      ClosedStays(cfg, states, ops, i, j - 1, id);
      if Accepts(cfg, states[j - 1], ops[j - 1]) {
        SessionsStep(cfg, states[j - 1], ops[j - 1], states[j], id);
      }
    }
  }

  /** A closed session stays as it is, and empty. */
  lemma ClosedIsFinal(cfg: Config, states: seq<NodeState>, ops: seq<Op>, i: nat, j: nat, k: Slot)
    requires Run(cfg, states, ops) && i <= j <= |ops|
    requires k.session in states[i].sessions && states[i].sessions[k.session].status == Closed
    ensures k.session in states[j].sessions && states[j].sessions[k.session] == states[i].sessions[k.session]
    ensures Get(Allocated(states[j].entries), k) == 0.0
  {
    ClosedStays(cfg, states, ops, i, j, k.session);
    RunInv(cfg, states, ops, j);
    if k in Allocated(states[j].entries) {
      assert SlotValid(states[j], k, Allocated(states[j].entries)[k]);
    }
  }

  /** Allocations are never negative, and only participants have any. */
  lemma AllocationsValid(cfg: Config, states: seq<NodeState>, ops: seq<Op>, n: nat, k: Slot)
    requires Run(cfg, states, ops) && n <= |ops|
    ensures Get(Allocated(states[n].entries), k) >= 0.0
    ensures Get(Allocated(states[n].entries), k) != 0.0 ==>
              k.session in states[n].sessions && k.wallet in WeightsIn(states[n], k.session)
  {
    RunInv(cfg, states, ops, n);
    if k in Allocated(states[n].entries) {
      assert SlotValid(states[n], k, Allocated(states[n].entries)[k]);
    }
  }

  /** The version of a session rises by one with each accepted operation that touches it, and
      not otherwise. */
  lemma VersionRises(cfg: Config, states: seq<NodeState>, ops: seq<Op>, i: nat, id: Id)
    requires Run(cfg, states, ops) && i < |ops| && id in states[i].sessions
    ensures id in states[i + 1].sessions
    ensures states[i + 1].sessions[id].version == states[i].sessions[id].version
              + (if Accepts(cfg, states[i], ops[i]) && id in Touched(ops[i]) then 1 else 0)
  {
    if Accepts(cfg, states[i], ops[i]) {
      VersionStep(cfg, states[i], ops[i], states[i + 1], id);
    }
  }

  ghost predicate VersionsKept(before: NodeState, after: NodeState) {
    forall id :: id in before.sessions ==>
      id in after.sessions && before.sessions[id].version <= after.sessions[id].version
  }

  lemma RunKeepsVersions(cfg: Config, states: seq<NodeState>, ops: seq<Op>)
    requires Run(cfg, states, ops)
    ensures forall i :: 0 <= i < |states| - 1 ==> VersionsKept(states[i], states[i + 1])
  {
    forall i | 0 <= i < |states| - 1 ensures VersionsKept(states[i], states[i + 1]) {
      forall id | id in states[i].sessions
        ensures id in states[i + 1].sessions && states[i].sessions[id].version <= states[i + 1].sessions[id].version
      {
        VersionRises(cfg, states, ops, i, id);
      }
    }
  }

  lemma {:induction false} KeptGrows(states: seq<NodeState>, i: nat, j: nat, id: Id)
    requires forall n :: 0 <= n < |states| - 1 ==> VersionsKept(states[n], states[n + 1])
    requires i <= j < |states| && id in states[i].sessions
    ensures id in states[j].sessions && states[i].sessions[id].version <= states[j].sessions[id].version
    decreases j
  {
    if i < j {
      KeptGrows(states, i, j - 1, id);
      assert VersionsKept(states[j - 1], states[(j - 1) + 1]);
    }
  }

  /** Versions never fall. */
  lemma VersionsGrow(cfg: Config, states: seq<NodeState>, ops: seq<Op>, i: nat, j: nat, id: Id)
    requires Run(cfg, states, ops) && i <= j <= |ops| && id in states[i].sessions
    ensures id in states[j].sessions && states[i].sessions[id].version <= states[j].sessions[id].version
  {
    RunKeepsVersions(cfg, states, ops);
    KeptGrows(states, i, j, id);
  }

  /** Operation i applied the update u. */
  ghost predicate AppliedAt(cfg: Config, states: seq<NodeState>, ops: seq<Op>, i: nat, u: Update)
    requires i < |ops| && |states| == |ops| + 1
  {
    Accepts(cfg, states[i], ops[i]) && Updates(ops[i], u)
  }

  lemma UpdateVersion(cfg: Config, ns: NodeState, op: Op, u: Update)
    requires Accepts(cfg, ns, op) && Updates(op, u)
    ensures u.session in Touched(op) && u.session in ns.sessions && u.version == ns.sessions[u.session].version + 1
  {
    if op.RebalanceSessions? {
      var i :| 0 <= i < |op.updates| && op.updates[i].update == u;
      assert op.updates[i] in op.updates;
      assert RebalanceUpdateOk(cfg, ns, op.updates[i]);
    }
  }

  /** Nothing replays: of one session, one version is applied at most once in a run. */
  lemma AppliedOnce(cfg: Config, states: seq<NodeState>, ops: seq<Op>, i: nat, j: nat, u: Update, v: Update)
    requires Run(cfg, states, ops) && i < |ops| && j < |ops|
    requires AppliedAt(cfg, states, ops, i, u) && AppliedAt(cfg, states, ops, j, v)
    requires u.session == v.session && u.version == v.version
    ensures i == j
  {
    UpdateVersion(cfg, states[i], ops[i], u);
    UpdateVersion(cfg, states[j], ops[j], v);
    VersionRises(cfg, states, ops, i, u.session);
    VersionRises(cfg, states, ops, j, u.session);
    if i < j {
      VersionsGrow(cfg, states, ops, i + 1, j, u.session);
    } else if j < i {
      VersionsGrow(cfg, states, ops, j + 1, i, u.session);
    }
  }
}
