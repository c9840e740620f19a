/** The records of a run: each stored state has its own one, and each record is that of a state or
    of a rebalance. */
module Records {
  import opened Options
  import opened Channels
  import opened Chains
  import opened Transitions
  import opened Transactions
  import opened Allocations
  import opened NodeModel
  import opened Invariants
  import opened Runs
  import opened Transfers
  import opened Statements

  /** Acknowledgements move nothing, and receives are recorded with what was sent. */
  predicate Recordable(s: State) {
    s.transition.kind != Acknowledgement && s.transition.kind != TransferReceive
  }

  /** A state that its user signs is recorded under its receiving account. */
  function PlainRecord(s: State): Tx {
    var (from, to) := Ends(s);
    Tx(TransactionId(to, s.id), s.asset, Transfer(s.transition.kind), from, to, Some(s.id), None,
       s.transition.amount.value)
  }

  /** A transfer is recorded with both of its states, under its sender and the state it issues. */
  function TransferRecord(s: State, r: State): Tx {
    var from, to := WalletAccount(s.wallet), WalletAccount(r.wallet);
    Tx(TransactionId(from, r.id), s.asset, Transfer(TransferSend), from, to, Some(s.id), Some(r.id),
       s.transition.amount.value)
  }

  /** A release is recorded for the state it issues. */
  function IssueRecord(s: State): Tx {
    var from := s.transition.account;
    Tx(TransactionId(from, s.id), s.asset, Transfer(Release), from, WalletAccount(s.wallet), None, Some(s.id),
       s.transition.amount.value)
  }

  ghost predicate Documents(chains: map<Key, seq<State>>, t: Tx, s: State) {
    match s.transition.kind
    case TransferSend => exists j, r :: ReceivedBy(chains, s, j, r) && t == TransferRecord(s, r)
    case Release => t == IssueRecord(s)
    case _ => t == PlainRecord(s)
  }

  // ---------- What is recorded with the states that are appended ----------

  lemma PlainIs(s: State)
    requires OwnAccount(s) && s.homeChannel.Some? && Recordable(s) && s.transition.kind != TransferSend
    ensures NewTransaction(Some(s), None, s.transition) == Some(PlainRecord(s))
  {}

  lemma TransferIs(s: State, r: State)
    requires s.transition.kind == TransferSend && s.transition.account == WalletAccount(r.wallet)
    ensures NewTransaction(Some(s), Some(r), s.transition) == Some(TransferRecord(s, r))
  {}

  lemma IssueIs(s: State)
    requires s.transition.kind == Release
    ensures NewTransaction(None, Some(s), s.transition) == Some(IssueRecord(s))
  {}

  ghost predicate HasRecord(chains: map<Key, seq<State>>, txs: set<Tx>, s: State) {
    exists t :: t in txs && Documents(chains, t, s)
  }

  ghost predicate OfState(chains: map<Key, seq<State>>, t: Tx, k: Key, s: State) {
    StoredAt(chains, k, s) && Recordable(s) && Documents(chains, t, s)
  }

  ghost predicate HasState(chains: map<Key, seq<State>>, t: Tx) {
    exists k, s :: OfState(chains, t, k, s)
  }

  /** The states that are appended and the transactions that are recorded go together. */
  ghost predicate Together(chains: map<Key, seq<State>>, appended: map<Key, State>, txs: set<Tx>) {
    var after := AppendAll(chains, appended);
    && (forall k :: k in appended && Recordable(appended[k]) ==> HasRecord(after, txs, appended[k]))
    && (forall t :: t in txs && t.kind.Transfer? ==> HasState(after, t))
  }

  lemma PlainTogether(chains: map<Key, seq<State>>, k: Key, s: State)
    requires Recordable(s) && s.transition.kind != TransferSend && s.transition.kind != Release
    ensures Together(chains, map[k := s], {PlainRecord(s)})
  {
    var after := AppendAll(chains, map[k := s]);
    StoredAppended(chains, map[k := s], k, s);
    assert Documents(after, PlainRecord(s), s);
    assert OfState(after, PlainRecord(s), k, s);
  }

  lemma TransferTogether(chains: map<Key, seq<State>>, appended: map<Key, State>, k: Key, j: Key)
    requires k != j && appended.Keys == {k, j} && Mirrors(appended[k], appended[j])
    ensures Together(chains, appended, {TransferRecord(appended[k], appended[j])})
  {
    var after, s, r := AppendAll(chains, appended), appended[k], appended[j];
    StoredAppended(chains, appended, k, s);
    StoredAppended(chains, appended, j, r);
    assert ReceivedBy(after, s, j, r);
    assert Documents(after, TransferRecord(s, r), s);
    assert OfState(after, TransferRecord(s, r), k, s);
  }

  lemma ReleasesTogether(chains: map<Key, seq<State>>, released: map<Key, State>)
    requires forall k :: k in released ==> released[k].transition.kind == Release
    ensures Together(chains, released, ReleaseTxs(released))
  {
    var after := AppendAll(chains, released);
    forall k | k in released ensures HasRecord(after, ReleaseTxs(released), released[k]) {
      ReleaseRecorded(after, released, k);
    }
    forall t | t in ReleaseTxs(released) ensures HasState(after, t) {
      RecordedRelease(chains, released, t);
    }
  }

  lemma ReleaseRecorded(after: map<Key, seq<State>>, released: map<Key, State>, k: Key)
    requires k in released && released[k].transition.kind == Release
    ensures HasRecord(after, ReleaseTxs(released), released[k])
  {
    IssueIs(released[k]);
    assert IssueRecord(released[k]) in ReleaseTxs(released);
    assert Documents(after, IssueRecord(released[k]), released[k]);
  }

  lemma RecordedRelease(chains: map<Key, seq<State>>, released: map<Key, State>, t: Tx)
    requires t in ReleaseTxs(released) && forall k :: k in released ==> released[k].transition.kind == Release
    ensures HasState(AppendAll(chains, released), t)
  {
    var k := ReleaseTxOf(released, t);
    IssueIs(released[k]);
    StoredAppended(chains, released, k, released[k]);
    assert OfState(AppendAll(chains, released), t, k, released[k]);
  }

  lemma StateTogether(cfg: Config, ns: NodeState, p: State, valid: bool, channels: set<Id>)
    requires ChainsValid(cfg, ns) && CoSignable(cfg, ns, p, valid)
    requires p.transition.kind == TransferSend ==> TransferOk(cfg, ns, p)
    ensures var eff := StateEffect(ns, p, channels); Together(ns.chains, eff.appended, eff.txs)
  {
    var s := CoSigned(p);
    AdvancesCarries(Current(ns, KeyOf(p)), p, cfg.store.AssetDecimals(p.asset));
    if p.transition.kind == TransferSend {
      PairMirrors(cfg, ns, p);
      TransferIs(s, Received(ns, p).value);
      TransferTogether(ns.chains, StateEffect(ns, p, channels).appended, KeyOf(p), ReceiverKey(p));
    } else if p.transition.kind != Acknowledgement {
      PlainIs(s);
      PlainTogether(ns.chains, KeyOf(p), s);
    }
  }

  lemma UpdateTogether(ns: NodeState, u: Update)
    requires u.session in ns.sessions
    ensures var eff := UpdateEffect(ns, u); Together(ns.chains, eff.appended, eff.txs)
  {
    ReleaseKinds(ns, u.session, Delta(CurrentOf(ns, u.session), Target(u)));
    ReleasesTogether(ns.chains, UpdateEffect(ns, u).appended);
  }

  lemma OpTogether(cfg: Config, ns: NodeState, op: Op)
    requires Inv(cfg, ns) && Accepts(cfg, ns, op)
    ensures var eff := EffectOf(cfg, ns, op); Together(ns.chains, eff.appended, eff.txs)
  {
    match op
    case SubmitState(p, c) => StateTogether(cfg, ns, p, c.signatureValid, {});
    case CoSignEscrow(p, c) => StateTogether(cfg, ns, p, c.signatureValid, {});
    case RequestCreation(p, def, c) => StateTogether(cfg, ns, p, c.signatureValid, {HomeIdOf(cfg, p, def)});
    case SubmitDeposit(p, su, c) => StateTogether(cfg, ns, p, c.signatureValid, {});
    case SubmitUpdate(su) => UpdateTogether(ns, su.update);
    case CreateSession(def, data, signers, allowed) =>
    case RebalanceSessions(updates) =>
  }

  // ---------- Runs ----------

  ghost predicate AllRecorded(ns: NodeState) {
    forall k, s :: StoredAt(ns.chains, k, s) && Recordable(s) ==> HasRecord(ns.chains, ns.txs, s)
  }

  ghost predicate AllOfStates(ns: NodeState) {
    forall t :: t in ns.txs && t.kind.Transfer? ==> HasState(ns.chains, t)
  }

  lemma DocumentsStill(chains: map<Key, seq<State>>, appended: map<Key, State>, t: Tx, s: State)
    requires Documents(chains, t, s)
    ensures Documents(AppendAll(chains, appended), t, s)
  {
    if s.transition.kind == TransferSend {
      var j, r :| ReceivedBy(chains, s, j, r) && t == TransferRecord(s, r);
      StoredAppended(chains, appended, j, r);
      assert ReceivedBy(AppendAll(chains, appended), s, j, r);
    }
  }

  lemma GrowRecorded(ns: NodeState, eff: Effect, ns': NodeState, k: Key, s: State)
    requires AllRecorded(ns) && Applied(ns, eff, ns') && Together(ns.chains, eff.appended, eff.txs)
    requires StoredAt(ns'.chains, k, s) && Recordable(s)
    ensures HasRecord(ns'.chains, ns'.txs, s)
  {
    StoredAppended(ns.chains, eff.appended, k, s);
    if StoredAt(ns.chains, k, s) {
      var t :| t in ns.txs && Documents(ns.chains, t, s);
      DocumentsStill(ns.chains, eff.appended, t, s);
      assert t in ns'.txs;
    } else {
      var t :| t in eff.txs && Documents(ns'.chains, t, s);
      assert t in ns'.txs;
    }
  }

  lemma GrowOfStates(ns: NodeState, eff: Effect, ns': NodeState, t: Tx)
    requires AllOfStates(ns) && Applied(ns, eff, ns') && Together(ns.chains, eff.appended, eff.txs)
    requires t in ns'.txs && t.kind.Transfer?
    ensures HasState(ns'.chains, t)
  {
    if t in ns.txs {
      var k, s :| OfState(ns.chains, t, k, s);
      DocumentsStill(ns.chains, eff.appended, t, s);
      StoredAppended(ns.chains, eff.appended, k, s);
      assert OfState(ns'.chains, t, k, s);
    }
  }

  lemma GrowBoth(ns: NodeState, eff: Effect, ns': NodeState)
    requires AllRecorded(ns) && AllOfStates(ns) && Applied(ns, eff, ns')
    requires Together(ns.chains, eff.appended, eff.txs)
    ensures AllRecorded(ns') && AllOfStates(ns')
  {
    forall k, s | StoredAt(ns'.chains, k, s) && Recordable(s) ensures HasRecord(ns'.chains, ns'.txs, s) {
      GrowRecorded(ns, eff, ns', k, s);
    }
    forall t | t in ns'.txs && t.kind.Transfer? ensures HasState(ns'.chains, t) {
      GrowOfStates(ns, eff, ns', t);
    }
  }

  lemma StepRecords(cfg: Config, ns: NodeState, op: Op, ns': NodeState)
    requires Inv(cfg, ns) && Step(cfg, ns, op, ns') && AllRecorded(ns) && AllOfStates(ns)
    ensures AllRecorded(ns') && AllOfStates(ns')
  {
    if Accepts(cfg, ns, op) {
      StepApplied(cfg, ns, op, ns');
      OpTogether(cfg, ns, op);
      GrowBoth(ns, EffectOf(cfg, ns, op), ns');
    }
  }

  lemma {:induction false} RunRecorded(cfg: Config, states: seq<NodeState>, ops: seq<Op>, n: nat)
    requires Run(cfg, states, ops) && n <= |ops|
    ensures AllRecorded(states[n]) && AllOfStates(states[n])
  {
    if n > 0 {
      RunRecorded(cfg, states, ops, n - 1);
      RunInv(cfg, states, ops, n - 1);
      StepRecords(cfg, states[n - 1], ops[n - 1], states[n]);
    }
  }

  /** In every run each stored state but acknowledgements and receives has exactly one record: of its
      kind and amount, between its accounts, and naming it, and, of a transfer, what it was issued as. */
  lemma RecordOfState(cfg: Config, states: seq<NodeState>, ops: seq<Op>, n: nat, k: Key, s: State) returns (t: Tx)
    requires Run(cfg, states, ops) && n <= |ops|
    requires StoredAt(states[n].chains, k, s) && Recordable(s)
    ensures t in states[n].txs && Documents(states[n].chains, t, s)
    ensures forall u :: u in states[n].txs && Documents(states[n].chains, u, s) ==> u == t
  {
    RunRecorded(cfg, states, ops, n);
    t :| t in states[n].txs && Documents(states[n].chains, t, s);
    forall u | u in states[n].txs && Documents(states[n].chains, u, s) ensures u == t {
      DocumentsOnce(cfg, states, ops, n, t, u, s);
    }
  }

  lemma DocumentsOnce(cfg: Config, states: seq<NodeState>, ops: seq<Op>, n: nat, t: Tx, u: Tx, s: State)
    requires Run(cfg, states, ops) && n <= |ops|
    requires Documents(states[n].chains, t, s) && Documents(states[n].chains, u, s)
    ensures t == u
  {
    if s.transition.kind == TransferSend {
      var j, r :| ReceivedBy(states[n].chains, s, j, r) && t == TransferRecord(s, r);
      var l, q :| ReceivedBy(states[n].chains, s, l, q) && u == TransferRecord(s, q);
      OneReceive(cfg, states, ops, n, j, r, l, q);
    }
  }

  /** And each recorded transaction but a rebalance is the record of one stored state. */
  lemma StateOfRecord(cfg: Config, states: seq<NodeState>, ops: seq<Op>, n: nat, t: Tx) returns (k: Key, s: State)
    requires Run(cfg, states, ops) && n <= |ops| && t in states[n].txs && t.kind.Transfer?
    ensures StoredAt(states[n].chains, k, s) && Recordable(s) && Documents(states[n].chains, t, s)
    ensures forall l, q :: StoredAt(states[n].chains, l, q) && Documents(states[n].chains, t, q) && Recordable(q)
                           ==> l == k && q == s
  {
    RunRecorded(cfg, states, ops, n);
    k, s :| OfState(states[n].chains, t, k, s);
    forall l, q | StoredAt(states[n].chains, l, q) && Documents(states[n].chains, t, q) && Recordable(q)
      ensures l == k && q == s
    {
      SameNamed(states[n].chains, t, s, q);
      SameStored(cfg, states, ops, n, k, s, l, q);
    }
  }

  /** A record names its state. */
  lemma SameNamed(chains: map<Key, seq<State>>, t: Tx, s: State, q: State)
    requires Documents(chains, t, s) && Documents(chains, t, q)
    ensures s.id == q.id
  {}

  lemma SameStored(cfg: Config, states: seq<NodeState>, ops: seq<Op>, n: nat, k: Key, s: State, l: Key, q: State)
    requires Run(cfg, states, ops) && n <= |ops|
    requires StoredAt(states[n].chains, k, s) && StoredAt(states[n].chains, l, q) && s.id == q.id
    ensures l == k && q == s
  {
    var i :| 0 <= i < |states[n].chains[k]| && states[n].chains[k][i] == s;
    var m :| 0 <= m < |states[n].chains[l]| && states[n].chains[l][m] == q;
    StatesDistinct(cfg, states, ops, n, k, i, l, m);
  }
}
