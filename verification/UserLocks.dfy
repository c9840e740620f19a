/** Which user states a request locks, and in what order. */
module UserLocks {
  import opened Channels
  import opened Chains
  import opened Allocations
  import opened NodeModel
  import opened Ordering

  /** A submitted state locks its user, and a transfer then its recipient, unless they are the same. */
  function StateLocks(p: State): seq<Key> {
    var t := p.transition;
    if t.kind == TransferSend && t.account.WalletAccount? && t.account.wallet != p.wallet
    then [KeyOf(p), ReceiverKey(p)]
    else [KeyOf(p)]
  }

  /** The chains that a withdraw or a close is to release funds to. */
  function ReleasedTo(ns: NodeState, u: Update): set<Key> {
    if u.intent == Withdraw || u.intent == Close then KeysOf(Delta(CurrentOf(ns, u.session), Target(u))) else {}
  }

  /** The first of these keys, in increasing order. */
  ghost predicate FirstOf(taken: seq<Key>, keys: set<Key>) {
    && KeysIncrease(taken) && (forall k :: k in taken ==> k in keys)
    && forall j, k :: j in keys && k in taken && KeyLess(j, k) ==> j in taken
  }

  /** The locks taken since before are the first of these, in order. */
  ghost predicate LockedFirst(before: seq<Key>, now: seq<Key>, keys: set<Key>) {
    before <= now && FirstOf(now[|before|..], keys)
  }

  /** The locks taken since before are these, in order. */
  ghost predicate LockedAll(before: seq<Key>, now: seq<Key>, keys: set<Key>) {
    before <= now && KeysIncrease(now[|before|..]) && forall k :: k in now[|before|..] <==> k in keys
  }

  lemma NoneLocked(locks: seq<Key>, keys: set<Key>)
    ensures LockedFirst(locks, locks, keys)
  {
    assert locks[|locks|..] == [];
  }

  lemma AllLocked(before: seq<Key>, now: seq<Key>, keys: set<Key>)
    requires LockedAll(before, now, keys)
    ensures LockedFirst(before, now, keys)
  {}

  /** The locks that a request has taken, in order, when its transaction ends. A refused request
      may have ended early, with the first few of them. */
  ghost predicate TakesLocks(cfg: Config, ns: NodeState, op: Op, taken: seq<Key>) {
    match op
    case SubmitState(p, c) => taken <= StateLocks(p) && (Accepts(cfg, ns, op) ==> taken == StateLocks(p))
    case CoSignEscrow(p, c) => taken <= StateLocks(p) && (Accepts(cfg, ns, op) ==> taken == StateLocks(p))
    case RequestCreation(p, def, c) => taken <= StateLocks(p) && (Accepts(cfg, ns, op) ==> taken == StateLocks(p))
    case SubmitDeposit(p, su, c) => taken <= [KeyOf(p)] && (Accepts(cfg, ns, op) ==> taken == [KeyOf(p)])
    case SubmitUpdate(su) =>
      FirstOf(taken, ReleasedTo(ns, su.update))
        && (Accepts(cfg, ns, op) ==> forall k :: k in ReleasedTo(ns, su.update) ==> k in taken)
    case _ => taken == []
  }

  /** A request has added its locks to the log of the store. */
  ghost predicate Locked(cfg: Config, ns: NodeState, op: Op, before: seq<Key>, now: seq<Key>) {
    before <= now && TakesLocks(cfg, ns, op, now[|before|..])
  }

  /** An accepted request has locked exactly the chains that it appends to. */
  lemma LocksWhatItAppends(cfg: Config, ns: NodeState, op: Op, taken: seq<Key>, k: Key)
    requires Accepts(cfg, ns, op) && TakesLocks(cfg, ns, op, taken)
    ensures k in taken <==> k in EffectOf(cfg, ns, op).appended
  {
    match op
    case SubmitState(p, c) => StateAppends(ns, p, {}, k);
    case CoSignEscrow(p, c) => StateAppends(ns, p, {}, k);
    case RequestCreation(p, def, c) => StateAppends(ns, p, {HomeIdOf(cfg, p, def)}, k);
    case SubmitDeposit(p, su, c) => StateAppends(ns, p, {}, k);
    case SubmitUpdate(su) => UpdateAppends(cfg, ns, su);
    case _ =>
  }

  lemma UpdateAppends(cfg: Config, ns: NodeState, su: SignedUpdate)
    requires AcceptsUpdate(cfg, ns, su)
    ensures su.update.session in ns.sessions && UpdateEffect(ns, su.update).appended.Keys == ReleasedTo(ns, su.update)
  {}

  lemma StateAppends(ns: NodeState, p: State, channels: set<Id>, k: Key)
    requires p.transition.kind == TransferSend ==>
      p.transition.account.WalletAccount? && p.transition.account.wallet != p.wallet
    ensures k in StateLocks(p) <==> k in StateEffect(ns, p, channels).appended
  {}
}
