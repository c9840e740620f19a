/** Transfers in a run: every transfer that is sent is received once, and the other way round. */
module Transfers {
  import opened Channels
  import opened Chains
  import opened Transitions
  import opened Allocations
  import opened NodeModel
  import opened Invariants
  import opened Runs

  ghost predicate StoredAt(chains: map<Key, seq<State>>, k: Key, s: State) {
    k in chains && s in chains[k]
  }

  /** The receive is the other side of the send: each names the wallet of the other, with the same
      asset, transaction identifier and amount. */
  predicate Mirrors(send: State, receive: State) {
    var out, back := send.transition, receive.transition;
    && out.kind == TransferSend && back.kind == TransferReceive
    && send.asset == receive.asset && send.wallet != receive.wallet
    && out.account == WalletAccount(receive.wallet) && back.account == WalletAccount(send.wallet)
    && out.txId == back.txId && out.amount == back.amount
  }

  ghost predicate SentBy(chains: map<Key, seq<State>>, receive: State, k: Key, send: State) {
    StoredAt(chains, k, send) && Mirrors(send, receive)
  }

  ghost predicate ReceivedBy(chains: map<Key, seq<State>>, send: State, k: Key, receive: State) {
    StoredAt(chains, k, receive) && Mirrors(send, receive)
  }

  /** Both are receives, under the same identifier. */
  predicate SameReceive(r: State, q: State) {
    && r.transition.kind == TransferReceive && q.transition.kind == TransferReceive
    && r.transition.txId == q.transition.txId
  }

  /** Every receive has its send. */
  ghost predicate AllSent(chains: map<Key, seq<State>>) {
    forall j, r :: StoredAt(chains, j, r) && r.transition.kind == TransferReceive ==>
      exists k, s :: SentBy(chains, r, k, s)
  }

  /** Every send has its receive. */
  ghost predicate AllReceived(chains: map<Key, seq<State>>) {
    forall k, s :: StoredAt(chains, k, s) && s.transition.kind == TransferSend ==>
      exists j, r :: ReceivedBy(chains, s, j, r)
  }

  /** No two receives share an identifier. */
  ghost predicate Apart(chains: map<Key, seq<State>>) {
    forall j, r, l, q :: StoredAt(chains, j, r) && StoredAt(chains, l, q) && SameReceive(r, q) ==> j == l && r == q
  }

  lemma StoredAppended(chains: map<Key, seq<State>>, appended: map<Key, State>, k: Key, s: State)
    ensures StoredAt(AppendAll(chains, appended), k, s) <==>
      StoredAt(chains, k, s) || (k in appended && appended[k] == s)
  {
    if k in appended {
      assert AppendAll(chains, appended)[k] == ChainOf(chains, k) + [appended[k]];
    }
  }

  predicate IsTransfer(s: State) {
    s.transition.kind == TransferSend || s.transition.kind == TransferReceive
  }

  /** What is appended is no transfer, or a send and its receive under a new identifier. */
  ghost predicate PairOrNone(chains: map<Key, seq<State>>, appended: map<Key, State>) {
    || (forall k :: k in appended ==> !IsTransfer(appended[k]))
    || exists k, j :: NewPair(chains, appended, k, j)
  }

  ghost predicate NewPair(chains: map<Key, seq<State>>, appended: map<Key, State>, k: Key, j: Key) {
    && k != j && appended.Keys == {k, j} && Mirrors(appended[k], appended[j])
    && forall l, q :: StoredAt(chains, l, q) && q.transition.kind == TransferReceive ==>
         q.transition.txId != appended[k].transition.txId
  }

  lemma ReceivesMatched(chains: map<Key, seq<State>>, appended: map<Key, State>, j: Key, r: State)
    requires AllSent(chains) && PairOrNone(chains, appended)
    requires StoredAt(AppendAll(chains, appended), j, r) && r.transition.kind == TransferReceive
    ensures exists k, s :: SentBy(AppendAll(chains, appended), r, k, s)
  {
    StoredAppended(chains, appended, j, r);
    if StoredAt(chains, j, r) {
      var k, s :| SentBy(chains, r, k, s);
      StoredAppended(chains, appended, k, s);
      assert SentBy(AppendAll(chains, appended), r, k, s);
    } else {
      var k, l :| NewPair(chains, appended, k, l);
      assert appended[k].transition.kind == TransferSend;
      StoredAppended(chains, appended, k, appended[k]);
      assert SentBy(AppendAll(chains, appended), r, k, appended[k]);
    }
  }

  lemma SendsMatched(chains: map<Key, seq<State>>, appended: map<Key, State>, k: Key, s: State)
    requires AllReceived(chains) && PairOrNone(chains, appended)
    requires StoredAt(AppendAll(chains, appended), k, s) && s.transition.kind == TransferSend
    ensures exists j, r :: ReceivedBy(AppendAll(chains, appended), s, j, r)
  {
    StoredAppended(chains, appended, k, s);
    if StoredAt(chains, k, s) {
      var j, r :| ReceivedBy(chains, s, j, r);
      StoredAppended(chains, appended, j, r);
      assert ReceivedBy(AppendAll(chains, appended), s, j, r);
    } else {
      var l, j :| NewPair(chains, appended, l, j);
      assert appended[j].transition.kind == TransferReceive;
      StoredAppended(chains, appended, j, appended[j]);
      assert ReceivedBy(AppendAll(chains, appended), s, j, appended[j]);
    }
  }

  lemma ReceivesApart(chains: map<Key, seq<State>>, appended: map<Key, State>, j: Key, r: State, l: Key, q: State)
    requires Apart(chains) && PairOrNone(chains, appended)
    requires StoredAt(AppendAll(chains, appended), j, r) && StoredAt(AppendAll(chains, appended), l, q)
    requires SameReceive(r, q)
    ensures j == l && r == q
  {
    StoredAppended(chains, appended, j, r);
    StoredAppended(chains, appended, l, q);
    if !(StoredAt(chains, j, r) && StoredAt(chains, l, q)) {
      var a, b :| NewPair(chains, appended, a, b);
      assert appended[a].transition.kind == TransferSend;
    }
  }

  lemma GrowSent(chains: map<Key, seq<State>>, appended: map<Key, State>)
    requires AllSent(chains) && PairOrNone(chains, appended)
    ensures AllSent(AppendAll(chains, appended))
  {
    var after := AppendAll(chains, appended);
    forall j, r | StoredAt(after, j, r) && r.transition.kind == TransferReceive
      ensures exists k, s :: SentBy(after, r, k, s)
    {
      ReceivesMatched(chains, appended, j, r);
    }
  }

  lemma GrowReceived(chains: map<Key, seq<State>>, appended: map<Key, State>)
    requires AllReceived(chains) && PairOrNone(chains, appended)
    ensures AllReceived(AppendAll(chains, appended))
  {
    var after := AppendAll(chains, appended);
    forall k, s | StoredAt(after, k, s) && s.transition.kind == TransferSend
      ensures exists j, r :: ReceivedBy(after, s, j, r)
    {
      SendsMatched(chains, appended, k, s);
    }
  }

  lemma GrowApart(chains: map<Key, seq<State>>, appended: map<Key, State>)
    requires Apart(chains) && PairOrNone(chains, appended)
    ensures Apart(AppendAll(chains, appended))
  {
    var after := AppendAll(chains, appended);
    forall j, r, l, q | StoredAt(after, j, r) && StoredAt(after, l, q) && SameReceive(r, q)
      ensures j == l && r == q
    {
      ReceivesApart(chains, appended, j, r, l, q);
    }
  }

  // ---------- What is appended ----------

  /** A stored send carries the identifier made from its own state. */
  lemma SendCarries(cfg: Config, ns: NodeState, k: Key, s: State)
    requires ChainsValid(cfg, ns) && StoredAt(ns.chains, k, s) && s.transition.kind == TransferSend
    ensures s.transition.txId == TransactionId(s.transition.account, s.id) && StoredId(ns.chains, s.id)
  {
    var i :| 0 <= i < |ns.chains[k]| && ns.chains[k][i] == s;
    if s.userSigned {
      SignedCarries(k, ns.chains[k], i, DecimalsOf(cfg, k));
    } else {
      IssuedCarries(k, ns.chains[k], i, DecimalsOf(cfg, k));
    }
  }

  /** So no receive is stored under the identifier of a transfer that is new. */
  lemma NewTxId(cfg: Config, ns: NodeState, p: State, valid: bool, l: Key, q: State)
    requires ChainsValid(cfg, ns) && AllSent(ns.chains) && CoSignable(cfg, ns, p, valid)
    requires p.transition.kind == TransferSend && !StoredId(ns.chains, p.id)
    requires StoredAt(ns.chains, l, q) && q.transition.kind == TransferReceive
    ensures q.transition.txId != p.transition.txId
  {
    AdvancesCarries(Current(ns, KeyOf(p)), p, cfg.store.AssetDecimals(p.asset));
    var k, s :| SentBy(ns.chains, q, k, s);
    SendCarries(cfg, ns, k, s);
  }

  lemma TransferPair(cfg: Config, ns: NodeState, p: State, valid: bool)
    requires ChainsValid(cfg, ns) && AllSent(ns.chains) && CoSignable(cfg, ns, p, valid)
    requires p.transition.kind == TransferSend && TransferOk(cfg, ns, p)
    ensures NewPair(ns.chains, StateEffect(ns, p, {}).appended, KeyOf(p), ReceiverKey(p))
  {
    var appended := StateEffect(ns, p, {}).appended;
    StateAppendsValid(cfg, ns, p, valid, {});
    AppendedFresh(cfg, ns, appended, KeyOf(p));
    PairMirrors(cfg, ns, p);
    forall l, q | StoredAt(ns.chains, l, q) && q.transition.kind == TransferReceive
      ensures q.transition.txId != p.transition.txId
    {
      NewTxId(cfg, ns, p, valid, l, q);
    }
  }

  lemma PairMirrors(cfg: Config, ns: NodeState, p: State)
    requires ChainsValid(cfg, ns) && p.transition.kind == TransferSend && TransferOk(cfg, ns, p)
    ensures var appended := StateEffect(ns, p, {}).appended;
      && appended.Keys == {KeyOf(p), ReceiverKey(p)} && KeyOf(p) != ReceiverKey(p)
      && appended[KeyOf(p)] == CoSigned(p) && Mirrors(appended[KeyOf(p)], appended[ReceiverKey(p)])
  {
    CurrentSound(cfg, ns, ReceiverKey(p));
    ReceiveIs(Current(ns, ReceiverKey(p)), Mirror(p));
  }

  lemma ReceiveIs(cur: State, r: Request)
    requires r.ReceiveTransfer?
    ensures var s := Issued(cur, r);
      && s.wallet == cur.wallet && s.asset == cur.asset
      && s.transition == Transition(TransferReceive, r.txId, r.sender, r.amount)
  {}

  /** A submitted state is a transfer that is accepted with its receive, or no transfer. */
  lemma SubmittedOk(cfg: Config, ns: NodeState, op: Op) returns (valid: bool)
    requires Accepts(cfg, ns, op) && Submitted(op).Some?
    ensures CoSignable(cfg, ns, Submitted(op).value, valid)
    ensures Submitted(op).value.transition.kind == TransferSend ==> TransferOk(cfg, ns, Submitted(op).value)
  {
    valid := true;
  }

  lemma NoTransfer(cfg: Config, ns: NodeState, p: State, valid: bool)
    requires CoSignable(cfg, ns, p, valid) && p.transition.kind != TransferSend
    ensures forall k :: k in StateEffect(ns, p, {}).appended ==> !IsTransfer(StateEffect(ns, p, {}).appended[k])
  {
    AdvancesCarries(Current(ns, KeyOf(p)), p, cfg.store.AssetDecimals(p.asset));
  }

  lemma ReleasesOnly(ns: NodeState, u: Update, k: Key)
    requires u.session in ns.sessions && k in UpdateEffect(ns, u).appended
    ensures !IsTransfer(UpdateEffect(ns, u).appended[k])
  {
    ReleaseKinds(ns, u.session, Delta(CurrentOf(ns, u.session), Target(u)));
  }

  lemma StepPairs(cfg: Config, ns: NodeState, op: Op)
    requires Inv(cfg, ns) && AllSent(ns.chains) && Accepts(cfg, ns, op)
    ensures PairOrNone(ns.chains, EffectOf(cfg, ns, op).appended)
  {
    EffectAppends(cfg, ns, op);
    var appended := AppendedOf(ns, op);
    if Submitted(op).Some? {
      var p := Submitted(op).value;
      var valid := SubmittedOk(cfg, ns, op);
      if p.transition.kind == TransferSend {
        TransferPair(cfg, ns, p, valid);
      } else {
        NoTransfer(cfg, ns, p, valid);
      }
    } else {
      forall k | k in appended ensures !IsTransfer(appended[k]) {
        ReleasesOnly(ns, op.su.update, k);
      }
    }
  }

  lemma StepMatched(cfg: Config, ns: NodeState, op: Op, ns': NodeState)
    requires Inv(cfg, ns) && Step(cfg, ns, op, ns')
    requires AllSent(ns.chains) && AllReceived(ns.chains) && Apart(ns.chains)
    ensures AllSent(ns'.chains) && AllReceived(ns'.chains) && Apart(ns'.chains)
  {
    if Accepts(cfg, ns, op) {
      var appended := EffectOf(cfg, ns, op).appended;
      StepApplied(cfg, ns, op, ns');
      StepPairs(cfg, ns, op);
      GrowSent(ns.chains, appended);
      GrowReceived(ns.chains, appended);
      GrowApart(ns.chains, appended);
    }
  }

  // ---------- Runs ----------

  lemma {:induction false} RunMatched(cfg: Config, states: seq<NodeState>, ops: seq<Op>, n: nat)
    requires Run(cfg, states, ops) && n <= |ops|
    ensures AllSent(states[n].chains) && AllReceived(states[n].chains) && Apart(states[n].chains)
  {
    if n > 0 {
      RunMatched(cfg, states, ops, n - 1);
      RunInv(cfg, states, ops, n - 1);
      StepMatched(cfg, states[n - 1], ops[n - 1], states[n]);
    }
  }

  lemma RunSent(cfg: Config, states: seq<NodeState>, ops: seq<Op>, n: nat)
    requires Run(cfg, states, ops) && n <= |ops|
    ensures AllSent(states[n].chains)
  {
    RunMatched(cfg, states, ops, n);
  }

  lemma RunReceived(cfg: Config, states: seq<NodeState>, ops: seq<Op>, n: nat)
    requires Run(cfg, states, ops) && n <= |ops|
    ensures AllReceived(states[n].chains)
  {
    RunMatched(cfg, states, ops, n);
  }

  lemma SendOf(cfg: Config, states: seq<NodeState>, ops: seq<Op>, n: nat, j: Key, r: State)
    returns (k: Key, s: State)
    requires Run(cfg, states, ops) && n <= |ops|
    requires StoredAt(states[n].chains, j, r) && r.transition.kind == TransferReceive
    ensures SentBy(states[n].chains, r, k, s)
  {
    RunSent(cfg, states, ops, n);
    k, s :| SentBy(states[n].chains, r, k, s);
  }

  lemma ReceiveOf(cfg: Config, states: seq<NodeState>, ops: seq<Op>, n: nat, k: Key, s: State)
    returns (j: Key, r: State)
    requires Run(cfg, states, ops) && n <= |ops|
    requires StoredAt(states[n].chains, k, s) && s.transition.kind == TransferSend
    ensures ReceivedBy(states[n].chains, s, j, r)
  {
    RunReceived(cfg, states, ops, n);
    j, r :| ReceivedBy(states[n].chains, s, j, r);
  }

  lemma OneReceive(cfg: Config, states: seq<NodeState>, ops: seq<Op>, n: nat, j: Key, r: State, l: Key, q: State)
    requires Run(cfg, states, ops) && n <= |ops|
    requires StoredAt(states[n].chains, j, r) && StoredAt(states[n].chains, l, q) && SameReceive(r, q)
    ensures l == j && q == r
  {
    RunMatched(cfg, states, ops, n);
  }

  /** In every run each receive on a user's chain is the other side of a send that is stored on the
      chain of the wallet it names; no other receive has the same send. */
  lemma ReceiveWasSent(cfg: Config, states: seq<NodeState>, ops: seq<Op>, n: nat, j: Key, r: State)
    returns (k: Key, s: State)
    requires Run(cfg, states, ops) && n <= |ops|
    requires StoredAt(states[n].chains, j, r) && r.transition.kind == TransferReceive
    ensures StoredAt(states[n].chains, k, s) && Mirrors(s, r)
    ensures k == Key(s.wallet, s.asset) && j == Key(r.wallet, r.asset) && k != j
    ensures forall l, q :: StoredAt(states[n].chains, l, q) && Mirrors(s, q) ==> l == j && q == r
  {
    RunInv(cfg, states, ops, n);
    k, s := SendOf(cfg, states, ops, n, j, r);
    KeyOfStored(cfg, states[n], k, s);
    KeyOfStored(cfg, states[n], j, r);
    forall l, q | StoredAt(states[n].chains, l, q) && Mirrors(s, q) ensures l == j && q == r {
      OneReceive(cfg, states, ops, n, j, r, l, q);
    }
  }

  /** And each send has its receive on the chain of the wallet it names; no other send has the same. */
  lemma SendIsReceived(cfg: Config, states: seq<NodeState>, ops: seq<Op>, n: nat, k: Key, s: State)
    returns (j: Key, r: State)
    requires Run(cfg, states, ops) && n <= |ops|
    requires StoredAt(states[n].chains, k, s) && s.transition.kind == TransferSend
    ensures StoredAt(states[n].chains, j, r) && Mirrors(s, r) && j == Key(r.wallet, r.asset)
    ensures forall l, q :: StoredAt(states[n].chains, l, q) && Mirrors(q, r) ==> l == k && q == s
  {
    RunInv(cfg, states, ops, n);
    j, r := ReceiveOf(cfg, states, ops, n, k, s);
    KeyOfStored(cfg, states[n], j, r);
    forall l, q | StoredAt(states[n].chains, l, q) && Mirrors(q, r) ensures l == k && q == s {
      OneSend(cfg, states, ops, n, k, s, l, q);
    }
  }

  lemma KeyOfStored(cfg: Config, ns: NodeState, k: Key, s: State)
    requires ChainsValid(cfg, ns) && StoredAt(ns.chains, k, s)
    ensures k == Key(s.wallet, s.asset)
  {
    var i :| 0 <= i < |ns.chains[k]| && ns.chains[k][i] == s;
    ChainSound(k, ns.chains[k], i, DecimalsOf(cfg, k));
  }

  lemma OneSend(cfg: Config, states: seq<NodeState>, ops: seq<Op>, n: nat, k: Key, s: State, l: Key, q: State)
    requires Run(cfg, states, ops) && n <= |ops|
    requires StoredAt(states[n].chains, k, s) && s.transition.kind == TransferSend
    requires StoredAt(states[n].chains, l, q) && q.transition.kind == TransferSend
    requires s.transition.txId == q.transition.txId
    ensures l == k && q == s
  {
    RunInv(cfg, states, ops, n);
    SendCarries(cfg, states[n], k, s);
    SendCarries(cfg, states[n], l, q);
    var i :| 0 <= i < |states[n].chains[k]| && states[n].chains[k][i] == s;
    var m :| 0 <= m < |states[n].chains[l]| && states[n].chains[l][m] == q;
    StatesDistinct(cfg, states, ops, n, k, i, l, m);
  }
}
