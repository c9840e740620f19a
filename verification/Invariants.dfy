/** What every step of the node keeps. */
module Invariants {
  import opened Options
  import opened Sums
  import opened Decimals
  import opened Channels
  import opened Advancer
  import opened Chains
  import opened Transactions
  import opened Allocations
  import opened NodeModel

  function DecimalsOf(cfg: Config, k: Key): Option<nat> {
    cfg.store.AssetDecimals(k.asset)
  }

  /** Every chain grew by valid steps. */
  ghost predicate ChainsValid(cfg: Config, ns: NodeState) {
    forall k :: k in ns.chains ==> ValidChain(k, ns.chains[k], DecimalsOf(cfg, k))
  }

  /** Allocations belong to participants of sessions, are never negative, and are zero once
      the session is closed. */
  ghost predicate SlotsValid(ns: NodeState) {
    forall k :: k in Allocated(ns.entries) ==> SlotValid(ns, k, Allocated(ns.entries)[k])
  }

  predicate SlotValid(ns: NodeState, k: Slot, amount: real) {
    && k.session in ns.sessions
    && k.wallet in WeightsIn(ns, k.session)
    && amount >= 0.0
    && (ns.sessions[k.session].status == Closed ==> amount == 0.0)
  }

  ghost predicate StoredId(chains: map<Key, seq<State>>, id: Id) {
    exists k, i :: k in chains && 0 <= i < |chains[k]| && chains[k][i].id == id
  }

  /** Every transaction belongs to a stored state, or to a version of a session that has been reached. */
  ghost predicate TxKnown(ns: NodeState, id: Id) {
    match id
    case TransactionId(account, state) => StoredId(ns.chains, state)
    case RebalanceId(batch, session, asset) =>
      batch.BatchId? && session in ns.sessions
      && exists v :: (session, v) in batch.sessions && v <= ns.sessions[session].version
    case _ => false
  }

  /** No two transactions share an identifier, nor do two transactions of states share a state. */
  predicate SameOrigin(a: Id, b: Id) {
    a == b || (a.TransactionId? && b.TransactionId? && a.state == b.state)
  }

  ghost predicate TxsValid(ns: NodeState) {
    && (forall t :: t in ns.txs ==> TxKnown(ns, t.id))
    && (forall t, u :: t in ns.txs && u in ns.txs && SameOrigin(t.id, u.id) ==> t == u)
  }

  /** Sessions are stored under session identifiers. */
  predicate SessionsNamed(ns: NodeState) {
    forall id :: id in ns.sessions ==> id.SessionId?
  }

  ghost predicate Inv(cfg: Config, ns: NodeState) {
    ChainsValid(cfg, ns) && SlotsValid(ns) && TxsValid(ns) && SessionsNamed(ns)
  }

  lemma InitialInv(cfg: Config)
    ensures Inv(cfg, INITIAL)
  {}

  lemma CurrentSound(cfg: Config, ns: NodeState, k: Key)
    requires ChainsValid(cfg, ns)
    ensures ValidChain(k, ChainOf(ns.chains, k), DecimalsOf(cfg, k))
    ensures Sound(Current(ns, k)) && Current(ns, k).wallet == k.wallet && Current(ns, k).asset == k.asset
  {
    LastSound(k, ChainOf(ns.chains, k), DecimalsOf(cfg, k));
  }

  // ---------- Chains ----------

  /** Every appended state is a valid step of its chain. */
  ghost predicate AppendsValid(cfg: Config, ns: NodeState, appended: map<Key, State>) {
    forall k :: k in appended ==> Extends(k, ChainOf(ns.chains, k), appended[k], DecimalsOf(cfg, k))
  }

  lemma CoSignedExtends(cfg: Config, ns: NodeState, p: State, valid: bool)
    requires CoSignable(cfg, ns, p, valid)
    ensures Extends(KeyOf(p), ChainOf(ns.chains, KeyOf(p)), CoSigned(p), DecimalsOf(cfg, KeyOf(p)))
  {
    var cur := Current(ns, KeyOf(p));
    var r :| Builds(cur, p, r);
    assert Base(cur, CoSigned(p)) == Base(cur, p);
    assert Builds(cur, CoSigned(p), r);
  }

  /** An accepted transfer carries a positive amount. */
  lemma AcceptedPositive(cur: State, p: State, decimals: Option<nat>)
    requires Advances(cur, p, decimals)
    requires p.transition.kind == TransferSend || p.transition.kind == Commit
    ensures p.transition.amount.value > 0.0
  {
    CheckedIsAdvancing(cur, p, decimals);
  }

  lemma StateAppendsValid(cfg: Config, ns: NodeState, p: State, valid: bool, channels: set<Id>)
    requires CoSignable(cfg, ns, p, valid)
    requires p.transition.kind == TransferSend ==> TransferOk(cfg, ns, p)
    ensures AppendsValid(cfg, ns, StateEffect(ns, p, channels).appended)
    ensures p.transition.kind == TransferSend ==> ReceiverKey(p) != KeyOf(p)
  {
    CoSignedExtends(cfg, ns, p, valid);
    if p.transition.kind == TransferSend {
      ReceivedExtends(cfg, ns, p, valid);
    }
  }

  lemma ReceivedExtends(cfg: Config, ns: NodeState, p: State, valid: bool)
    requires CoSignable(cfg, ns, p, valid) && p.transition.kind == TransferSend && TransferOk(cfg, ns, p)
    ensures ReceiverKey(p) != KeyOf(p) && Received(ns, p).Some?
    ensures Extends(ReceiverKey(p), ChainOf(ns.chains, ReceiverKey(p)), Received(ns, p).value,
                    DecimalsOf(cfg, ReceiverKey(p)))
  {
    AcceptedPositive(Current(ns, KeyOf(p)), p, cfg.store.AssetDecimals(p.asset));
    IssuedExtends(cfg, ns, ReceiverKey(p), Mirror(p));
  }

  lemma IssuedExtends(cfg: Config, ns: NodeState, k: Key, r: Request)
    requires IsIncoming(r) && CanIssue(cfg, ns, k, r)
    ensures NodeStep(k, ChainOf(ns.chains, k), Issued(Current(ns, k), r))
  {}

  /** A slot of the session that loses funds, and whose participant may be issued the release. */
  predicate Leaving(cfg: Config, ns: NodeState, session: Id, changes: map<Slot, real>, k: Slot) {
    && k.session == session && Get(changes, k) < 0.0
    && CanIssue(cfg, ns, Key(k.wallet, k.asset), Freed(session, -Get(changes, k)))
  }

  lemma ReleaseAt(ns: NodeState, session: Id, changes: map<Slot, real>, k: Key, r: Request)
    requires k in KeysOf(changes) && r == Freed(session, -Get(changes, Slot(session, k.wallet, k.asset)))
    ensures Releases(ns, session, changes)[k] == Issued(Current(ns, k), r)
  {
    assert Releases(ns, session, changes)[k] == ReleaseOf(ns, session, changes, k);
  }

  /** What a slot loses is what its participant is issued. */
  lemma ReleaseIs(ns: NodeState, session: Id, changes: map<Slot, real>, k: Key, amount: real)
    requires k in KeysOf(changes) && Get(changes, Slot(session, k.wallet, k.asset)) == -amount
    ensures Releases(ns, session, changes)[k] == Issued(Current(ns, k), Freed(session, amount))
  {
    ReleaseAt(ns, session, changes, k, Freed(session, amount));
  }

  lemma LeavingAt(cfg: Config, ns: NodeState, session: Id, changes: map<Slot, real>, k: Key)
    requires Leaving(cfg, ns, session, changes, Slot(session, k.wallet, k.asset))
    ensures Get(changes, Slot(session, k.wallet, k.asset)) < 0.0
    ensures CanIssue(cfg, ns, k, Freed(session, -Get(changes, Slot(session, k.wallet, k.asset))))
  {}

  /** The state released for a slot that loses funds is a valid step of its chain. */
  lemma ReleaseValid(cfg: Config, ns: NodeState, session: Id, changes: map<Slot, real>, k: Key)
    requires k in KeysOf(changes) && Leaving(cfg, ns, session, changes, Slot(session, k.wallet, k.asset))
    ensures NodeStep(k, ChainOf(ns.chains, k), Releases(ns, session, changes)[k])
  {
    LeavingAt(cfg, ns, session, changes, k);
    ReleaseExtends(cfg, ns, session, changes, k, -Get(changes, Slot(session, k.wallet, k.asset)));
  }

  lemma ReleasesAppendValid(cfg: Config, ns: NodeState, session: Id, changes: map<Slot, real>)
    requires forall k :: k in changes ==> Leaving(cfg, ns, session, changes, k)
    ensures AppendsValid(cfg, ns, Releases(ns, session, changes))
  {
    LeavingHere(cfg, ns, session, changes);
    forall k | k in Releases(ns, session, changes)
      ensures NodeStep(k, ChainOf(ns.chains, k), Releases(ns, session, changes)[k])
    {
      ReleasedSlot(changes, session, k);
      ReleaseValid(cfg, ns, session, changes, k);
    }
  }

  lemma ReleaseExtends(cfg: Config, ns: NodeState, session: Id, changes: map<Slot, real>, k: Key, amount: real)
    requires k in KeysOf(changes) && Get(changes, Slot(session, k.wallet, k.asset)) == -amount && amount > 0.0
    requires CanIssue(cfg, ns, k, Freed(session, amount))
    ensures NodeStep(k, ChainOf(ns.chains, k), Releases(ns, session, changes)[k])
  {
    ReleaseIs(ns, session, changes, k, amount);
    IssuedExtends(cfg, ns, k, Freed(session, amount));
  }

  lemma LeavingHere(cfg: Config, ns: NodeState, session: Id, changes: map<Slot, real>)
    requires forall s :: s in changes ==> Leaving(cfg, ns, session, changes, s)
    ensures forall s :: s in changes ==> s.session == session
  {
    forall s | s in changes ensures s.session == session {
      assert Leaving(cfg, ns, session, changes, s);
    }
  }

  lemma ReleasedSlot(changes: map<Slot, real>, session: Id, k: Key)
    requires forall s :: s in changes ==> s.session == session
    ensures k in KeysOf(changes) <==> Slot(session, k.wallet, k.asset) in changes
  {
    if Slot(session, k.wallet, k.asset) in changes {
      var s := Slot(session, k.wallet, k.asset);
      assert Key(s.wallet, s.asset) == k;
    }
  }

  /** What an accepted withdraw or close changes only leaves the session, and may be issued. */
  lemma LeavingSlots(cfg: Config, ns: NodeState, u: Update)
    requires SlotsValid(ns)
    requires (u.intent == Withdraw && WithdrawOk(cfg, ns, u)) || (u.intent == Close && CloseOk(cfg, ns, u))
    ensures var changes := Delta(CurrentOf(ns, u.session), Target(u));
      forall k :: k in changes ==> Leaving(cfg, ns, u.session, changes, k)
  {
    var changes := Delta(CurrentOf(ns, u.session), Target(u));
    forall k | k in changes ensures Leaving(cfg, ns, u.session, changes, k) {
      if u.intent == Withdraw {
        WithdrawLeaves(cfg, ns, u, k);
      } else {
        CloseLeaves(cfg, ns, u, k);
      }
    }
  }

  lemma WithdrawLeaves(cfg: Config, ns: NodeState, u: Update, k: Slot)
    requires WithdrawOk(cfg, ns, u) && k in Delta(CurrentOf(ns, u.session), ListedBy(u))
    ensures Leaving(cfg, ns, u.session, Delta(CurrentOf(ns, u.session), ListedBy(u)), k)
  {
    var cur, listed := CurrentOf(ns, u.session), ListedBy(u);
    assert k in cur && cur[k] != 0.0;
    assert WithdrawSlotOk(cfg, ns, u, k);
    assert -Get(Delta(cur, listed), k) == Get(cur, k) - listed[k];
  }

  lemma CloseLeaves(cfg: Config, ns: NodeState, u: Update, k: Slot)
    requires SlotsValid(ns) && CloseOk(cfg, ns, u) && k in Delta(CurrentOf(ns, u.session), map[])
    ensures Leaving(cfg, ns, u.session, Delta(CurrentOf(ns, u.session), map[]), k)
  {
    HeldOnly(ns, u.session, k);
    assert Freed(u.session, -Get(Delta(CurrentOf(ns, u.session), map[]), k))
      == Freed(u.session, CurrentOf(ns, u.session)[k]);
  }

  /** What a session stands to lose altogether is what it holds. */
  lemma HeldOnly(ns: NodeState, session: Id, k: Slot)
    requires SlotsValid(ns) && k in Delta(CurrentOf(ns, session), map[])
    ensures var cur := CurrentOf(ns, session);
      k in cur && k.session == session && cur[k] > 0.0 && -Get(Delta(cur, map[]), k) == cur[k]
  {
    var cur := CurrentOf(ns, session);
    assert k in cur && cur[k] != 0.0;
    assert SlotValid(ns, k, Allocated(ns.entries)[k]);
  }

  lemma {:induction false} ListedSlots(session: Id, allocations: seq<Allocation>)
    ensures forall k :: k in Listed(session, allocations) ==>
      k.session == session
      && exists i :: 0 <= i < |allocations| && SlotOf(session, allocations[i]) == k
                     && allocations[i].amount.value == Listed(session, allocations)[k]
  {
    if allocations != [] {
      var n := |allocations| - 1;
      ListedSlots(session, allocations[..n]);
      forall k | k in Listed(session, allocations)
        ensures k.session == session
          && exists i :: 0 <= i < |allocations| && SlotOf(session, allocations[i]) == k
                         && allocations[i].amount.value == Listed(session, allocations)[k]
      {
        if k != SlotOf(session, allocations[n]) {
          var i :| 0 <= i < n && SlotOf(session, allocations[..n][i]) == k
                   && allocations[..n][i].amount.value == Listed(session, allocations[..n])[k];
          assert SlotOf(session, allocations[i]) == k;
        }
      }
    }
  }

  /** A listed slot carries the value and the exponent of one of its allocations. */
  lemma {:induction false} ListedWritten(session: Id, allocations: seq<Allocation>, k: Slot) returns (i: nat)
    requires k in Listed(session, allocations)
    ensures i < |allocations| && SlotOf(session, allocations[i]) == k && k in Exponents(session, allocations)
    ensures allocations[i].amount == Decimal(Listed(session, allocations)[k], Exponents(session, allocations)[k])
  {
    var n := |allocations| - 1;
    if SlotOf(session, allocations[n]) == k {
      i := n;
    } else {
      i := ListedWritten(session, allocations[..n], k);
    }
  }

  lemma AcceptedAppends(cfg: Config, ns: NodeState, op: Op)
    requires Inv(cfg, ns) && Accepts(cfg, ns, op)
    ensures AppendsValid(cfg, ns, EffectOf(cfg, ns, op).appended)
  {
    match op
    case SubmitState(p, c) => StateAppendsValid(cfg, ns, p, c.signatureValid, {});
    case CoSignEscrow(p, c) => StateAppendsValid(cfg, ns, p, c.signatureValid, {});
    case RequestCreation(p, def, c) => StateAppendsValid(cfg, ns, p, c.signatureValid, {HomeIdOf(cfg, p, def)});
    case CreateSession(def, data, signers, allowed) =>
    case SubmitUpdate(su) =>
      if su.update.intent != Operate {
        LeavingSlots(cfg, ns, su.update);
        ReleasesAppendValid(cfg, ns, su.update.session, Delta(CurrentOf(ns, su.update.session), Target(su.update)));
      }
    case SubmitDeposit(p, su, c) => StateAppendsValid(cfg, ns, p, c.signatureValid, {});
    case RebalanceSessions(updates) =>
  }

  lemma ChainsStayValid(cfg: Config, ns: NodeState, eff: Effect, ns': NodeState)
    requires ChainsValid(cfg, ns) && AppendsValid(cfg, ns, eff.appended) && Applied(ns, eff, ns')
    ensures ChainsValid(cfg, ns')
  {
    forall k | k in ns'.chains ensures ValidChain(k, ns'.chains[k], DecimalsOf(cfg, k)) {
      if k in eff.appended {
        var chain, s := ChainOf(ns.chains, k), eff.appended[k];
        assert (chain + [s])[..|chain|] == chain;
      }
    }
  }

  // ---------- Allocations ----------

  /** Afterwards the slots of these sessions hold their targets, and no other slot has changed. */
  ghost predicate SettledTo(ns: NodeState, ns': NodeState, sessions: set<Id>, target: map<Slot, real>) {
    forall k :: Get(Allocated(ns'.entries), k) ==
                (if k.session in sessions then Get(target, k) else Get(Allocated(ns.entries), k))
  }

  lemma ChangesSettle(ns: NodeState, eff: Effect, ns': NodeState, sessions: set<Id>, target: map<Slot, real>)
    requires Applied(ns, eff, ns')
    requires eff.changes == Delta(CurrentOfAll(ns, sessions), target)
    requires forall k :: k in target ==> k.session in sessions
    ensures SettledTo(ns, ns', sessions, target)
    ensures forall k :: k in Allocated(ns'.entries) ==>
      k in Allocated(ns.entries) || (k in target && target[k] != 0.0)
  {
    var added := ns'.entries[|ns.entries|..];
    assert ns'.entries == ns.entries + added;
    RecordingAdds(ns.entries, added, eff.changes);
    forall k ensures Get(Allocated(ns'.entries), k) ==
                     (if k.session in sessions then Get(target, k) else Get(Allocated(ns.entries), k)) {
      DeltaReached(CurrentOfAll(ns, sessions), target, k);
      if k.session in sessions {
        assert Get(CurrentOfAll(ns, sessions), k) == Get(Allocated(ns.entries), k);
      }
    }
  }

  /** The sessions an operation updates, and what they are to hold afterwards. */
  function Touched(op: Op): set<Id> {
    match op
    case SubmitUpdate(su) => {su.update.session}
    case SubmitDeposit(p, su, c) => {su.update.session}
    case RebalanceSessions(updates) => SessionsOf(updates)
    case _ => {}
  }

  function Goal(ns: NodeState, op: Op): map<Slot, real> {
    match op
    case SubmitUpdate(su) => Target(su.update)
    case SubmitDeposit(p, su, c) => CurrentOf(ns, su.update.session) + ListedBy(su.update)
    case RebalanceSessions(updates) => ListedByAll(updates)
    case _ => map[]
  }

  lemma StepApplied(cfg: Config, ns: NodeState, op: Op, ns': NodeState)
    requires Accepts(cfg, ns, op) && Step(cfg, ns, op, ns')
    ensures Applied(ns, EffectOf(cfg, ns, op), ns')
  {}

  lemma OneSession(ns: NodeState, session: Id)
    ensures CurrentOfAll(ns, {session}) == CurrentOf(ns, session)
  {}

  lemma NoSession(ns: NodeState)
    ensures Delta(CurrentOfAll(ns, {}), map[]) == map[]
  {
    assert CurrentOfAll(ns, {}) == map[];
  }

  lemma {:induction false} ListedByAllSlots(updates: seq<SignedUpdate>)
    ensures forall k :: k in ListedByAll(updates) ==>
      exists su :: su in updates && k in ListedBy(su.update) && k.session == su.update.session
                   && ListedByAll(updates)[k] == ListedBy(su.update)[k]
  {
    if updates != [] {
      var n := |updates| - 1;
      var last := updates[n];
      ListedByAllSlots(updates[..n]);
      ListedSlots(last.update.session, last.update.allocations);
      forall k | k in ListedByAll(updates)
        ensures exists su :: su in updates && k in ListedBy(su.update) && k.session == su.update.session
                             && ListedByAll(updates)[k] == ListedBy(su.update)[k]
      {
        if k in ListedBy(last.update) {
          assert last in updates;
        } else {
          var su :| su in updates[..n] && k in ListedBy(su.update) && k.session == su.update.session
                    && ListedByAll(updates[..n])[k] == ListedBy(su.update)[k];
          assert su in updates;
        }
      }
    }
  }

  lemma ListedInSession(u: Update)
    ensures forall k :: k in ListedBy(u) ==> k.session == u.session
  {
    ListedSlots(u.session, u.allocations);
  }

  lemma BatchInSessions(updates: seq<SignedUpdate>)
    ensures forall k :: k in ListedByAll(updates) ==> k.session in SessionsOf(updates)
  {
    ListedByAllSlots(updates);
  }

  lemma GoalSlots(cfg: Config, ns: NodeState, op: Op)
    requires Accepts(cfg, ns, op)
    ensures forall k :: k in Goal(ns, op) ==> k.session in Touched(op)
    ensures EffectOf(cfg, ns, op).changes == Delta(CurrentOfAll(ns, Touched(op)), Goal(ns, op))
  {
    GoalInSessions(ns, op);
    ChangesAre(cfg, ns, op);
    if op.SubmitUpdate? || op.SubmitDeposit? {
      OneSession(ns, op.su.update.session);
    } else if !op.RebalanceSessions? {
      NoSession(ns);
    }
  }

  lemma GoalInSessions(ns: NodeState, op: Op)
    ensures forall k :: k in Goal(ns, op) ==> k.session in Touched(op)
  {
    match op
    case SubmitUpdate(su) => ListedInSession(su.update);
    case SubmitDeposit(p, su, c) => ListedInSession(su.update);
    case RebalanceSessions(updates) => BatchInSessions(updates);
    case _ =>
  }

  lemma ChangesAre(cfg: Config, ns: NodeState, op: Op)
    requires Accepts(cfg, ns, op)
    ensures EffectOf(cfg, ns, op).changes ==
            if op.SubmitUpdate? || op.SubmitDeposit? then Delta(CurrentOf(ns, op.su.update.session), Goal(ns, op))
            else if op.RebalanceSessions? then BatchChanges(ns, op.updates)
            else map[]
  {}

  lemma ListedNonNegative(u: Update, k: Slot)
    requires NonNegative(u.allocations) && k in ListedBy(u)
    ensures ListedBy(u)[k] >= 0.0
  {
    ListedSlots(u.session, u.allocations);
  }

  lemma ListedParticipant(ns: NodeState, u: Update, k: Slot)
    requires ForParticipants(u.allocations, WeightsIn(ns, u.session)) && k in ListedBy(u)
    ensures k.session == u.session && k.wallet in WeightsIn(ns, k.session)
  {
    ListedSlots(u.session, u.allocations);
  }

  lemma DepositGoalValid(ns: NodeState, p: State, u: Update, k: Slot)
    requires SlotsValid(ns) && NonNegative(u.allocations) && k in CurrentOf(ns, u.session) + ListedBy(u)
    requires forall j :: j in ListedBy(u) ==> DepositSlotOk(ns, p, u, j)
    ensures var goal := CurrentOf(ns, u.session) + ListedBy(u);
      goal[k] >= 0.0 && (k !in Allocated(ns.entries) && goal[k] != 0.0 ==> k.wallet in WeightsIn(ns, k.session))
  {
    if k in ListedBy(u) {
      ListedNonNegative(u, k);
      ListedSlots(u.session, u.allocations);
      assert DepositSlotOk(ns, p, u, k);
    } else {
      assert SlotValid(ns, k, Allocated(ns.entries)[k]);
    }
  }

  lemma BatchGoalValid(cfg: Config, ns: NodeState, updates: seq<SignedUpdate>, k: Slot)
    requires (forall su :: su in updates ==> RebalanceUpdateOk(cfg, ns, su)) && k in ListedByAll(updates)
    ensures ListedByAll(updates)[k] >= 0.0 && k.wallet in WeightsIn(ns, k.session)
  {
    ListedByAllSlots(updates);
    var su :| su in updates && k in ListedBy(su.update) && k.session == su.update.session
              && ListedByAll(updates)[k] == ListedBy(su.update)[k];
    assert RebalanceUpdateOk(cfg, ns, su);
    ListedNonNegative(su.update, k);
    ListedParticipant(ns, su.update, k);
  }

  /** What an accepted operation sets a slot to is not negative, and new slots are participants'. */
  lemma GoalValid(cfg: Config, ns: NodeState, op: Op, k: Slot)
    requires SlotsValid(ns) && Accepts(cfg, ns, op) && k in Goal(ns, op)
    ensures Goal(ns, op)[k] >= 0.0
    ensures k !in Allocated(ns.entries) && Goal(ns, op)[k] != 0.0 ==> k.wallet in WeightsIn(ns, k.session)
  {
    match op
    case SubmitUpdate(su) =>
      ListedNonNegative(su.update, k);
      ListedParticipant(ns, su.update, k);
    case SubmitDeposit(p, su, c) => DepositGoalValid(ns, p, su.update, k);
    case RebalanceSessions(updates) => BatchGoalValid(cfg, ns, updates, k);
    case SubmitState(p, c) =>
    case CoSignEscrow(p, c) =>
    case RequestCreation(p, def, c) =>
    case CreateSession(def, data, signers, allowed) =>
  }

  lemma UpdateForIs(updates: seq<SignedUpdate>, su: SignedUpdate)
    requires DistinctSessions(updates) && su in updates
    ensures su.update.session in SessionsOf(updates) && UpdateFor(updates, su.update.session) == su.update
  {
    var u := UpdateFor(updates, su.update.session);
    var other :| other in updates && other.update == u;
    var i :| 0 <= i < |updates| && updates[i] == su;
    var j :| 0 <= j < |updates| && updates[j] == other;
    assert i == j;
  }

  /** The update that an operation makes to a session. */
  ghost predicate Updates(op: Op, u: Update) {
    match op
    case SubmitUpdate(su) => u == su.update
    case SubmitDeposit(p, su, c) => u == su.update
    case RebalanceSessions(updates) => exists i :: 0 <= i < |updates| && updates[i].update == u
    case _ => false
  }

  function StatusAfter(u: Update): Status {
    if u.intent == Close then Closed else Open
  }

  /** The update u moves a session to its next version. */
  predicate MovedBy(before: Session, after: Session, u: Update) {
    u.version == before.version + 1 && after == Advanced(before, u, StatusAfter(u))
  }

  ghost predicate MovedByOp(op: Op, id: Id, before: Session, after: Session) {
    exists u :: Updates(op, u) && u.session == id && MovedBy(before, after, u)
  }

  /** An accepted operation moves the open sessions it touches to their next version, and
      leaves every other session alone. */
  lemma SessionsStep(cfg: Config, ns: NodeState, op: Op, ns': NodeState, id: Id)
    requires Accepts(cfg, ns, op) && Applied(ns, EffectOf(cfg, ns, op), ns') && id in ns.sessions
    ensures id in ns'.sessions
    ensures id !in Touched(op) ==> ns'.sessions[id] == ns.sessions[id]
    ensures id in Touched(op) ==> ns.sessions[id].status == Open
    ensures id in Touched(op) ==> MovedByOp(op, id, ns.sessions[id], ns'.sessions[id])
  {
    EffectSessions(cfg, ns, op, id);
  }

  lemma BatchAuthorized(cfg: Config, ns: NodeState, updates: seq<SignedUpdate>)
    requires AcceptsRebalance(cfg, ns, updates)
    ensures forall su :: su in updates ==> Authorized(cfg, ns, su) && su.update.intent == Rebalance
  {
    forall su | su in updates ensures Authorized(cfg, ns, su) && su.update.intent == Rebalance {
      assert RebalanceUpdateOk(cfg, ns, su);
    }
  }

  /** What an operation's effect leaves of a session. */
  ghost predicate SessionMoved(ns: NodeState, op: Op, sessions: map<Id, Session>, id: Id)
    requires id in ns.sessions
  {
    var after := ns.sessions + sessions;
    && id in after && (id !in Touched(op) ==> after[id] == ns.sessions[id])
    && (id in Touched(op) ==> ns.sessions[id].status == Open && MovedByOp(op, id, ns.sessions[id], after[id]))
  }

  lemma OneSessionMoved(cfg: Config, ns: NodeState, op: Op, su: SignedUpdate, id: Id)
    requires Authorized(cfg, ns, su) && Updates(op, su.update) && Touched(op) == {su.update.session}
      && id in ns.sessions
    ensures SessionMoved(ns, op,
      map[su.update.session := Advanced(ns.sessions[su.update.session], su.update, StatusAfter(su.update))], id)
  {
    UpdateMoves(cfg, ns, op, su, id);
  }

  lemma BatchSessionMoved(cfg: Config, ns: NodeState, updates: seq<SignedUpdate>, id: Id)
    requires AcceptsRebalance(cfg, ns, updates) && id in ns.sessions
    ensures SessionMoved(ns, RebalanceSessions(updates), AdvancedAll(ns, updates), id)
  {
    BatchAuthorized(cfg, ns, updates);
    BatchMoves(cfg, ns, updates, id);
  }

  lemma NoSessionMoved(cfg: Config, ns: NodeState, op: Op, id: Id)
    requires Accepts(cfg, ns, op) && id in ns.sessions && Touched(op) == {}
    requires op.SubmitState? || op.CoSignEscrow? || op.RequestCreation? || op.CreateSession?
    ensures SessionMoved(ns, op, EffectOf(cfg, ns, op).sessions, id)
  {}

  lemma EffectSessions(cfg: Config, ns: NodeState, op: Op, id: Id)
    requires Accepts(cfg, ns, op) && id in ns.sessions
    ensures SessionMoved(ns, op, EffectOf(cfg, ns, op).sessions, id)
  {
    match op
    case SubmitUpdate(su) => OneSessionMoved(cfg, ns, op, su, id);
    case SubmitDeposit(p, su, c) => OneSessionMoved(cfg, ns, op, su, id);
    case RebalanceSessions(updates) => BatchSessionMoved(cfg, ns, updates, id);
    case _ => NoSessionMoved(cfg, ns, op, id);
  }

  lemma UpdateMoves(cfg: Config, ns: NodeState, op: Op, su: SignedUpdate, id: Id)
    requires Authorized(cfg, ns, su) && Updates(op, su.update) && id in ns.sessions
    ensures id == su.update.session ==> ns.sessions[id].status == Open
    ensures id == su.update.session ==>
      MovedByOp(op, id, ns.sessions[id], Advanced(ns.sessions[id], su.update, StatusAfter(su.update)))
  {
    if id == su.update.session {
      assert MovedBy(ns.sessions[id], Advanced(ns.sessions[id], su.update, StatusAfter(su.update)), su.update);
    }
  }

  lemma BatchMoves(cfg: Config, ns: NodeState, updates: seq<SignedUpdate>, id: Id)
    requires forall su :: su in updates ==> Authorized(cfg, ns, su) && su.update.intent == Rebalance
    requires id in ns.sessions
    ensures var after := ns.sessions + AdvancedAll(ns, updates);
      && id in after && (id !in SessionsOf(updates) ==> after[id] == ns.sessions[id])
      && (id in SessionsOf(updates) ==>
            ns.sessions[id].status == Open && MovedByOp(RebalanceSessions(updates), id, ns.sessions[id], after[id]))
  {
    if id in SessionsOf(updates) {
      var u := UpdateFor(updates, id);
      var su :| su in updates && su.update == u;
      var i :| 0 <= i < |updates| && updates[i] == su;
      assert Updates(RebalanceSessions(updates), u);
      assert MovedBy(ns.sessions[id], Advanced(ns.sessions[id], u, Open), u);
    }
  }

  lemma TouchedKnown(cfg: Config, ns: NodeState, op: Op, id: Id)
    requires Accepts(cfg, ns, op) && id in Touched(op)
    ensures id in ns.sessions
  {
    match op
    case SubmitUpdate(su) =>
    case SubmitDeposit(p, su, c) =>
    case RebalanceSessions(updates) =>
      var su :| su in updates && su.update.session == id;
      assert RebalanceUpdateOk(cfg, ns, su);
    case SubmitState(p, c) =>
    case CoSignEscrow(p, c) =>
    case RequestCreation(p, def, c) =>
    case CreateSession(def, data, signers, allowed) =>
  }

  lemma OpSettles(cfg: Config, ns: NodeState, op: Op, ns': NodeState)
    requires Accepts(cfg, ns, op) && Applied(ns, EffectOf(cfg, ns, op), ns')
    ensures SettledTo(ns, ns', Touched(op), Goal(ns, op))
    ensures forall k :: k in Allocated(ns'.entries) ==>
      k in Allocated(ns.entries) || (k in Goal(ns, op) && Goal(ns, op)[k] != 0.0)
  {
    GoalSlots(cfg, ns, op);
    ChangesSettle(ns, EffectOf(cfg, ns, op), ns', Touched(op), Goal(ns, op));
  }

  lemma SlotStaysValid(cfg: Config, ns: NodeState, op: Op, ns': NodeState, k: Slot)
    requires Inv(cfg, ns) && Accepts(cfg, ns, op) && Applied(ns, EffectOf(cfg, ns, op), ns')
    requires k in Allocated(ns'.entries)
    ensures SlotValid(ns', k, Allocated(ns'.entries)[k])
  {
    OpSettles(cfg, ns, op, ns');
    SlotStaysOwned(cfg, ns, op, k);
    SessionsStep(cfg, ns, op, ns', k.session);
    assert Allocated(ns'.entries)[k] == Get(Allocated(ns'.entries), k);
    if k in Allocated(ns.entries) {
      assert SlotValid(ns, k, Allocated(ns.entries)[k]);
    }
    if k in Goal(ns, op) {
      GoalValid(cfg, ns, op, k);
    }
    if k.session in Touched(op) {
      var u :| Updates(op, u) && u.session == k.session && MovedBy(ns.sessions[k.session], ns'.sessions[k.session], u);
      UpdateIntent(cfg, ns, op, u);
    }
  }

  lemma SlotStaysOwned(cfg: Config, ns: NodeState, op: Op, k: Slot)
    requires Inv(cfg, ns) && Accepts(cfg, ns, op)
    requires k in Allocated(ns.entries) || (k in Goal(ns, op) && Goal(ns, op)[k] != 0.0)
    ensures k.session in ns.sessions && k.wallet in WeightsIn(ns, k.session)
  {
    GoalSlots(cfg, ns, op);
    if k in Allocated(ns.entries) {
      assert SlotValid(ns, k, Allocated(ns.entries)[k]);
    } else {
      TouchedKnown(cfg, ns, op, k.session);
      GoalValid(cfg, ns, op, k);
    }
  }

  /** Only a submitted close carries the close intent, and it leaves nothing. */
  lemma UpdateIntent(cfg: Config, ns: NodeState, op: Op, u: Update)
    requires Accepts(cfg, ns, op) && Updates(op, u)
    ensures u.intent == Close ==> Goal(ns, op) == map[]
  {
    if op.RebalanceSessions? {
      var i :| 0 <= i < |op.updates| && op.updates[i].update == u;
      assert op.updates[i] in op.updates;
    }
  }

  // ---------- Transactions ----------

  /** The identifier of a state that is about to be appended has never been stored. */
  lemma AppendedFresh(cfg: Config, ns: NodeState, appended: map<Key, State>, k: Key)
    requires ChainsValid(cfg, ns) && AppendsValid(cfg, ns, appended) && k in appended
    ensures !StoredId(ns.chains, appended[k].id)
    ensures appended[k].id.StateId? && appended[k].id.wallet == k.wallet && appended[k].id.asset == k.asset
  {
    var chain, s := ChainOf(ns.chains, k), appended[k];
    var whole := chain + [s];
    assert whole[..|chain|] == chain;
    ChainLinked(k, whole, DecimalsOf(cfg, k));
    assert whole[|chain|] == s;
    if StoredId(ns.chains, s.id) {
      var j, i :| j in ns.chains && 0 <= i < |ns.chains[j]| && ns.chains[j][i].id == s.id;
      ChainLinked(j, ns.chains[j], DecimalsOf(cfg, j));
      assert j == k;
      assert whole[i] == chain[i];
      LinkedOrdered(whole, i, |chain|);
    }
  }

  lemma StoredStays(ns: NodeState, eff: Effect, ns': NodeState, id: Id)
    requires Applied(ns, eff, ns') && StoredId(ns.chains, id)
    ensures StoredId(ns'.chains, id)
  {
    var k, i :| k in ns.chains && 0 <= i < |ns.chains[k]| && ns.chains[k][i].id == id;
    assert k in ns'.chains && ns'.chains[k][i].id == id;
  }

  lemma AppendedStored(ns: NodeState, eff: Effect, ns': NodeState, k: Key)
    requires Applied(ns, eff, ns') && k in eff.appended
    ensures StoredId(ns'.chains, eff.appended[k].id)
  {
    assert k in ns'.chains && ns'.chains[k][|ChainOf(ns.chains, k)|].id == eff.appended[k].id;
  }

  /** New transactions are known afterwards, of no old origin, and of different origins. */
  ghost predicate TxsFresh(ns: NodeState, txs: set<Tx>, ns': NodeState) {
    && (forall t :: t in txs ==> TxKnown(ns', t.id))
    && (forall t, u :: t in txs && u in ns.txs ==> !SameOrigin(t.id, u.id))
    && (forall t, u :: t in txs && u in txs && SameOrigin(t.id, u.id) ==> t == u)
  }

  /** Transactions that each belong to the appended state of a chain of their own. */
  ghost predicate OfAppended(appended: map<Key, State>, t: Tx) {
    t.id.TransactionId? && exists k :: k in appended && appended[k].id == t.id.state
  }

  lemma StateTxsFresh(cfg: Config, ns: NodeState, eff: Effect, ns': NodeState)
    requires Inv(cfg, ns) && AppendsValid(cfg, ns, eff.appended) && Applied(ns, eff, ns')
    requires forall t :: t in eff.txs ==> OfAppended(eff.appended, t)
    requires forall t, u :: t in eff.txs && u in eff.txs && SameOrigin(t.id, u.id) ==> t == u
    ensures TxsFresh(ns, eff.txs, ns')
  {
    forall t | t in eff.txs ensures TxKnown(ns', t.id) {
      var k :| k in eff.appended && eff.appended[k].id == t.id.state;
      AppendedStored(ns, eff, ns', k);
    }
    forall t | t in eff.txs ensures !StoredId(ns.chains, t.id.state) {
      var k :| k in eff.appended && eff.appended[k].id == t.id.state;
      AppendedFresh(cfg, ns, eff.appended, k);
    }
    forall t, u | t in eff.txs && u in ns.txs ensures !SameOrigin(t.id, u.id) {
      UnstoredIsNew(ns, t.id, u);
    }
  }

  lemma UnstoredIsNew(ns: NodeState, id: Id, u: Tx)
    requires TxsValid(ns) && u in ns.txs && id.TransactionId? && !StoredId(ns.chains, id.state)
    ensures !SameOrigin(id, u.id)
  {
    assert TxKnown(ns, u.id);
  }

  lemma StateEffectTxs(ns: NodeState, p: State, channels: set<Id>, t: Tx)
    requires t in StateEffect(ns, p, channels).txs
    ensures OfAppended(StateEffect(ns, p, channels).appended, t)
  {
    var appended := StateEffect(ns, p, channels).appended;
    var received := Received(ns, p);
    if received.Some? {
      assert ReceiverKey(p) in appended && appended[ReceiverKey(p)].id == t.id.state;
    } else {
      assert KeyOf(p) in appended && appended[KeyOf(p)].id == t.id.state;
    }
  }

  lemma ReleaseTxOf(released: map<Key, State>, t: Tx) returns (k: Key)
    requires t in ReleaseTxs(released)
    ensures k in released && NewTransaction(None, Some(released[k]), released[k].transition) == Some(t)
    ensures t.id.TransactionId? && t.id.state == released[k].id && OfAppended(released, t)
  {
    k :| k in released && NewTransaction(None, Some(released[k]), released[k].transition) == Some(t);
  }

  lemma ReleaseTxsDistinct(cfg: Config, ns: NodeState, released: map<Key, State>, t: Tx, u: Tx)
    requires ChainsValid(cfg, ns) && AppendsValid(cfg, ns, released)
    requires t in ReleaseTxs(released) && u in ReleaseTxs(released) && SameOrigin(t.id, u.id)
    ensures t == u
  {
    var k := ReleaseTxOf(released, t);
    var j := ReleaseTxOf(released, u);
    AppendedFresh(cfg, ns, released, k);
    AppendedFresh(cfg, ns, released, j);
  }

  /** The records of a batch name its next versions, which no earlier batch has reached. */
  lemma RebalanceTxsFresh(cfg: Config, ns: NodeState, updates: seq<SignedUpdate>, ns': NodeState)
    requires Inv(cfg, ns) && AcceptsRebalance(cfg, ns, updates)
    requires Applied(ns, RebalanceEffect(ns, updates), ns')
    ensures TxsFresh(ns, RebalanceEffect(ns, updates).txs, ns')
  {
    var changes, batch := BatchChanges(ns, updates), BatchOf(updates);
    var txs := RebalanceTxs(batch, changes);
    forall t | t in txs
      ensures TxKnown(ns', t.id)
      ensures forall u :: u in ns.txs ==> !SameOrigin(t.id, u.id)
    {
      var k := RebalanceTxOf(batch, changes, t);
      RebalanceTxFresh(cfg, ns, updates, ns', k);
    }
    RebalanceTxsApart(batch, changes);
  }

  lemma RebalanceTxsApart(batch: Id, changes: map<Slot, real>)
    ensures forall t, u ::
      t in RebalanceTxs(batch, changes) && u in RebalanceTxs(batch, changes) && SameOrigin(t.id, u.id) ==> t == u
  {
    var txs := RebalanceTxs(batch, changes);
    forall t, u | t in txs && u in txs && SameOrigin(t.id, u.id) ensures t == u {
      var k := RebalanceTxOf(batch, changes, t);
      var j := RebalanceTxOf(batch, changes, u);
    }
  }

  lemma RebalanceTxOf(batch: Id, changes: map<Slot, real>, t: Tx) returns (k: Slot)
    requires t in RebalanceTxs(batch, changes)
    ensures k in changes && t.id == RebalanceId(batch, k.session, k.asset)
    ensures t == RebalanceTx(batch, k.session, k.asset, NetGain(changes, k.session, k.asset))
  {
    k :| k in changes && t == RebalanceTx(batch, k.session, k.asset, NetGain(changes, k.session, k.asset));
    var tx := RebalanceTx(batch, k.session, k.asset, NetGain(changes, k.session, k.asset));
    assert t == tx && tx.id == RebalanceId(batch, k.session, k.asset);
  }

  lemma RebalanceTxFresh(cfg: Config, ns: NodeState, updates: seq<SignedUpdate>, ns': NodeState, k: Slot)
    requires Inv(cfg, ns) && AcceptsRebalance(cfg, ns, updates)
    requires Applied(ns, RebalanceEffect(ns, updates), ns') && k in BatchChanges(ns, updates)
    ensures TxKnown(ns', RebalanceId(BatchOf(updates), k.session, k.asset))
    ensures forall u :: u in ns.txs ==> !SameOrigin(RebalanceId(BatchOf(updates), k.session, k.asset), u.id)
  {
    BatchSlot(cfg, ns, updates, k);
    BatchMovesOn(cfg, ns, updates, ns', k.session);
    BatchIdFresh(cfg, ns, updates, ns', k.session, k.asset);
  }

  lemma BatchMovesOn(cfg: Config, ns: NodeState, updates: seq<SignedUpdate>, ns': NodeState, session: Id)
    requires Inv(cfg, ns) && AcceptsRebalance(cfg, ns, updates) && Applied(ns, RebalanceEffect(ns, updates), ns')
    requires session in SessionsOf(updates) && session in ns.sessions
    ensures session in ns'.sessions && ns'.sessions[session].version == ns.sessions[session].version + 1
  {
    VersionStep(cfg, ns, RebalanceSessions(updates), ns', session);
  }

  /** The version of a session rises by exactly one with every operation that touches it. */
  lemma VersionStep(cfg: Config, ns: NodeState, op: Op, ns': NodeState, id: Id)
    requires Accepts(cfg, ns, op) && Applied(ns, EffectOf(cfg, ns, op), ns') && id in ns.sessions
    ensures id in ns'.sessions
    ensures ns'.sessions[id].version == ns.sessions[id].version + (if id in Touched(op) then 1 else 0)
  {
    SessionsStep(cfg, ns, op, ns', id);
  }

  lemma BatchIdFresh(cfg: Config, ns: NodeState, updates: seq<SignedUpdate>, ns': NodeState, session: Id, asset: Asset)
    requires TxsValid(ns) && AcceptsRebalance(cfg, ns, updates)
    requires session in SessionsOf(updates) && session in ns.sessions && session in ns'.sessions
    requires ns'.sessions[session].version == ns.sessions[session].version + 1
    ensures TxKnown(ns', RebalanceId(BatchOf(updates), session, asset))
    ensures forall u :: u in ns.txs ==> !SameOrigin(RebalanceId(BatchOf(updates), session, asset), u.id)
  {
    BatchVersion(cfg, ns, updates, session);
    forall u | u in ns.txs ensures !SameOrigin(RebalanceId(BatchOf(updates), session, asset), u.id) {
      assert TxKnown(ns, u.id);
    }
  }

  lemma BatchSlot(cfg: Config, ns: NodeState, updates: seq<SignedUpdate>, k: Slot)
    requires AcceptsRebalance(cfg, ns, updates) && k in BatchChanges(ns, updates)
    ensures k.session in SessionsOf(updates) && k.session in ns.sessions
  {
    GoalSlots(cfg, ns, RebalanceSessions(updates));
    TouchedKnown(cfg, ns, RebalanceSessions(updates), k.session);
  }

  /** A batch names each of its sessions once, with the version after the current one. */
  lemma BatchVersion(cfg: Config, ns: NodeState, updates: seq<SignedUpdate>, session: Id)
    requires AcceptsRebalance(cfg, ns, updates) && session in SessionsOf(updates) && session in ns.sessions
    ensures (session, ns.sessions[session].version + 1) in BatchOf(updates).sessions
    ensures forall v :: (session, v) in BatchOf(updates).sessions ==> v == ns.sessions[session].version + 1
  {
    var named := BatchOf(updates).sessions;
    var su :| su in updates && su.update.session == session;
    var i :| 0 <= i < |updates| && updates[i] == su;
    assert RebalanceUpdateOk(cfg, ns, su);
    assert named[i] == (session, ns.sessions[session].version + 1);
    forall v | (session, v) in named ensures v == ns.sessions[session].version + 1 {
      var j :| 0 <= j < |named| && named[j] == (session, v);
      assert updates[j].update.session == session;
      assert i == j;
    }
  }

  lemma AcceptedTxsFresh(cfg: Config, ns: NodeState, op: Op, ns': NodeState)
    requires Inv(cfg, ns) && Accepts(cfg, ns, op) && Applied(ns, EffectOf(cfg, ns, op), ns')
    ensures TxsFresh(ns, EffectOf(cfg, ns, op).txs, ns')
  {
    var eff := EffectOf(cfg, ns, op);
    if op.RebalanceSessions? {
      RebalanceTxsFresh(cfg, ns, op.updates, ns');
    } else {
      AcceptedAppends(cfg, ns, op);
      AcceptedTxs(cfg, ns, op);
      StateTxsFresh(cfg, ns, eff, ns');
    }
  }

  lemma AcceptedTxs(cfg: Config, ns: NodeState, op: Op)
    requires Inv(cfg, ns) && Accepts(cfg, ns, op) && !op.RebalanceSessions?
    ensures var eff := EffectOf(cfg, ns, op);
      && (forall t :: t in eff.txs ==> OfAppended(eff.appended, t))
      && (forall t, u :: t in eff.txs && u in eff.txs && SameOrigin(t.id, u.id) ==> t == u)
  {
    match op
    case SubmitState(p, c) => StateTxsOf(ns, p, {});
    case CoSignEscrow(p, c) => StateTxsOf(ns, p, {});
    case RequestCreation(p, def, c) => StateTxsOf(ns, p, {HomeIdOf(cfg, p, def)});
    case SubmitDeposit(p, su, c) => StateTxsOf(ns, p, {});
    case CreateSession(def, data, signers, allowed) =>
    case SubmitUpdate(su) =>
      AcceptedAppends(cfg, ns, op);
      ReleaseTxsOf(cfg, ns, UpdateEffect(ns, su.update).appended);
  }

  lemma StateTxsOf(ns: NodeState, p: State, channels: set<Id>)
    ensures var eff := StateEffect(ns, p, channels);
      && (forall t :: t in eff.txs ==> OfAppended(eff.appended, t))
      && (forall t, u :: t in eff.txs && u in eff.txs && SameOrigin(t.id, u.id) ==> t == u)
  {
    var eff := StateEffect(ns, p, channels);
    forall t | t in eff.txs ensures OfAppended(eff.appended, t) {
      StateEffectTxs(ns, p, channels, t);
    }
  }

  lemma ReleaseTxsOf(cfg: Config, ns: NodeState, released: map<Key, State>)
    requires ChainsValid(cfg, ns) && AppendsValid(cfg, ns, released)
    ensures forall t :: t in ReleaseTxs(released) ==> OfAppended(released, t)
    ensures forall t, u :: t in ReleaseTxs(released) && u in ReleaseTxs(released) && SameOrigin(t.id, u.id) ==> t == u
  {
    forall t | t in ReleaseTxs(released) ensures OfAppended(released, t) {
      var k := ReleaseTxOf(released, t);
    }
    forall t, u | t in ReleaseTxs(released) && u in ReleaseTxs(released) && SameOrigin(t.id, u.id) ensures t == u {
      ReleaseTxsDistinct(cfg, ns, released, t, u);
    }
  }

  lemma TxKnownStays(cfg: Config, ns: NodeState, op: Op, ns': NodeState, id: Id)
    requires Accepts(cfg, ns, op) && Applied(ns, EffectOf(cfg, ns, op), ns') && TxKnown(ns, id)
    ensures TxKnown(ns', id)
  {
    match id
    case TransactionId(account, state) => StoredStays(ns, EffectOf(cfg, ns, op), ns', state);
    case RebalanceId(batch, session, asset) => VersionStep(cfg, ns, op, ns', session);
    case _ =>
  }

  lemma TxsStayValid(cfg: Config, ns: NodeState, op: Op, ns': NodeState)
    requires Inv(cfg, ns) && Accepts(cfg, ns, op) && Applied(ns, EffectOf(cfg, ns, op), ns')
    ensures TxsValid(ns')
  {
    AcceptedTxsFresh(cfg, ns, op, ns');
    forall t | t in ns'.txs ensures TxKnown(ns', t.id) {
      if t in ns.txs {
        TxKnownStays(cfg, ns, op, ns', t.id);
      }
    }
  }

  /** The states that an accepted operation appends. */
  function AppendedOf(ns: NodeState, op: Op): map<Key, State> {
    if Submitted(op).Some? then StateEffect(ns, Submitted(op).value, {}).appended
    else if op.SubmitUpdate? && op.su.update.session in ns.sessions then UpdateEffect(ns, op.su.update).appended
    else map[]
  }

  lemma EffectAppends(cfg: Config, ns: NodeState, op: Op)
    requires Accepts(cfg, ns, op)
    ensures EffectOf(cfg, ns, op).appended == AppendedOf(ns, op)
    ensures op.SubmitUpdate? ==> op.su.update.session in ns.sessions
  {}

  /** Every step of the node keeps the invariant. */
  lemma StepKeepsInv(cfg: Config, ns: NodeState, op: Op, ns': NodeState)
    requires Inv(cfg, ns) && Step(cfg, ns, op, ns')
    ensures Inv(cfg, ns')
  {
    if Accepts(cfg, ns, op) {
      var eff := EffectOf(cfg, ns, op);
      AcceptedAppends(cfg, ns, op);
      ChainsStayValid(cfg, ns, eff, ns');
      forall k | k in Allocated(ns'.entries) ensures SlotValid(ns', k, Allocated(ns'.entries)[k]) {
        SlotStaysValid(cfg, ns, op, ns', k);
      }
      TxsStayValid(cfg, ns, op, ns');
      NamesStay(cfg, ns, op);
    }
  }

  lemma NamesStay(cfg: Config, ns: NodeState, op: Op)
    requires SessionsNamed(ns) && Accepts(cfg, ns, op)
    ensures forall id :: id in EffectOf(cfg, ns, op).sessions ==> id.SessionId?
  {
    MovedSessions(cfg, ns, op);
    forall id | id in EffectOf(cfg, ns, op).sessions ensures id.SessionId? {
      if id in Touched(op) {
        TouchedKnown(cfg, ns, op, id);
      }
    }
  }

  /** An operation touches the sessions it moves on, or creates one. */
  lemma MovedSessions(cfg: Config, ns: NodeState, op: Op)
    requires Accepts(cfg, ns, op)
    ensures forall id :: id in EffectOf(cfg, ns, op).sessions ==>
              id in Touched(op) || (op.CreateSession? && id == SessionIdOf(op.definition))
  {}
}
