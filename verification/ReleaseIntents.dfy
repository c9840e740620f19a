/** The withdraw and close intents: what leaves a session is released to its participants. */
module ReleaseIntents {
  import opened Options
  import opened Sums
  import opened Decimals
  import opened Channels
  import opened Chains
  import opened Packing
  import opened Transactions
  import opened Quorum
  import opened Allocations
  import opened NodeModel
  import opened Invariants
  import opened Ordering
  import opened Database
  import opened UserLocks
  import opened ChannelEndpoints
  import opened SessionUpdates

  // ---------- One release ----------

  /** The store after a state has been issued and its transaction recorded. */
  function WithIssued(ns: NodeState, k: Key, s: State): NodeState {
    var tx := NewTransaction(None, Some(s), s.transition);
    ns.(chains := AppendAll(ns.chains, map[k := s]), txs := ns.txs + if tx.Some? then {tx.value} else {})
  }

  lemma ReleaseHasTx(cur: State, session: Id, amount: real)
    ensures var s := Issued(cur, Freed(session, amount));
      var tx := NewTransaction(None, Some(s), s.transition);
      s.id == NextState(cur).id && tx.Some? && tx.value.id == TransactionId(HashAccount(session), s.id)
  {}

  /** No transaction is recorded for a state. */
  ghost predicate Unrecorded(txs: set<Tx>, state: Id) {
    forall u :: u in txs && u.id.TransactionId? ==> u.id.state != state
  }

  /** Issues the state that releases an amount to a participant, and records its transaction. */
  method IssueReleaseReceiverState(cfg: Config, store: Store, k: Key, session: Id, amount: real) returns (ok: bool)
    requires CanIssue(cfg, store.Snapshot(), k, Freed(session, amount)) ==>
      NewFor(store.Snapshot(), k) && Unrecorded(store.txs, NextState(Current(store.Snapshot(), k)).id)
    modifies store`chains, store`txs, store`locks
    ensures store.locks == old(store.locks) + [k]
    ensures ok <==> CanIssue(cfg, old(store.Snapshot()), k, Freed(session, amount))
    ensures ok ==>
      store.Snapshot()
      == WithIssued(old(store.Snapshot()), k, Issued(Current(old(store.Snapshot()), k), Freed(session, amount)))
  {
    store.LockUserState(k);
    var cur := CurrentState(store, k);
    var next := new MutableState(NextState(cur));
    var applied := next.ApplyRelease(HashAccount(session), Decimal(amount, 0));
    if !applied { return false; }
    var lastSigned := store.GetLastUserState(k, true);
    if lastSigned.Some? && lastSigned.value.escrowChannel.Some? { return false; }
    ok := StoreIssued(cfg, store, next, k, Freed(session, amount));
    if !ok { return; }
    ReleaseHasTx(cur, session, amount);
    var tx := NewTransaction(None, Some(next.Value()), next.transition);
    var recorded := store.RecordTransaction(tx.value);
    assert recorded;
  }

  // ---------- Several releases ----------

  /** Since ns these states have been appended, these changes and these transactions recorded. */
  ghost predicate CarriedOut(ns: NodeState, appended: map<Key, State>, changes: map<Slot, real>, txs: set<Tx>,
                             now: NodeState)
  {
    && Recorded(ns, changes, ns.(entries := now.entries))
    && now == NodeState(AppendAll(ns.chains, appended), ns.channels, ns.sessions, now.entries, ns.txs + txs)
  }

  lemma CarriedApplies(ns: NodeState, appended: map<Key, State>, changes: map<Slot, real>, txs: set<Tx>,
                       sessions: map<Id, Session>, now: NodeState)
    requires CarriedOut(ns, appended, changes, txs, now)
    ensures Applied(ns, Effect(appended, changes, sessions, {}, txs), now.(sessions := ns.sessions + sessions))
  {}

  /** The store once part of a session's changes has been carried out: entries, issued states
      and transactions. */
  ghost predicate Partly(ns: NodeState, session: Id, changes: map<Slot, real>, now: NodeState) {
    && CarriedOut(ns, Releases(ns, session, changes), changes, ReleaseTxs(Releases(ns, session, changes)), now)
    && forall k :: k in changes ==> k.session == session
  }

  lemma NothingReleased(ns: NodeState, session: Id)
    ensures Partly(ns, session, map[], ns)
  {
    assert Releases(ns, session, map[]) == map[];
    assert AppendAll(ns.chains, map[]) == ns.chains;
    NothingRecorded(ns);
  }

  lemma KeysOfMore(changes: map<Slot, real>, session: Id, k: Slot, x: real)
    requires k !in changes && k.session == session && forall s :: s in changes ==> s.session == session
    ensures KeysOf(changes[k := x]) == KeysOf(changes) + {KeyAt(k)}
    ensures KeyAt(k) !in KeysOf(changes)
    ensures forall j :: j in KeysOf(changes) ==>
              Get(changes[k := x], Slot(session, j.wallet, j.asset)) == Get(changes, Slot(session, j.wallet, j.asset))
  {
    ReleasedSlot(changes, session, KeyAt(k));
    forall j ensures j in KeysOf(changes[k := x]) <==> j in KeysOf(changes) || j == KeyAt(k) {
      ReleasedSlot(changes, session, j);
      ReleasedSlot(changes[k := x], session, j);
    }
  }

  lemma MapMore<K, V>(m: map<K, V>, more: map<K, V>, k: K, v: V)
    requires k !in m && more.Keys == m.Keys + {k} && more[k] == v
    requires forall j :: j in m ==> more[j] == m[j]
    ensures more == m[k := v]
  {}

  lemma ReleaseSame(ns: NodeState, session: Id, changes: map<Slot, real>, more: map<Slot, real>, j: Key)
    requires j in KeysOf(changes) && j in KeysOf(more)
    requires Get(more, Slot(session, j.wallet, j.asset)) == Get(changes, Slot(session, j.wallet, j.asset))
    ensures Releases(ns, session, more)[j] == Releases(ns, session, changes)[j]
  {
    var amount := -Get(changes, Slot(session, j.wallet, j.asset));
    ReleaseIs(ns, session, changes, j, amount);
    ReleaseIs(ns, session, more, j, amount);
  }

  lemma ReleasesKeys(ns: NodeState, session: Id, changes: map<Slot, real>)
    ensures Releases(ns, session, changes).Keys == KeysOf(changes)
  {}

  lemma ReleasesSame(ns: NodeState, session: Id, changes: map<Slot, real>, more: map<Slot, real>)
    requires KeysOf(changes) <= KeysOf(more)
    requires forall j :: j in KeysOf(changes) ==>
               Get(more, Slot(session, j.wallet, j.asset)) == Get(changes, Slot(session, j.wallet, j.asset))
    ensures forall j :: j in KeysOf(changes) ==> Releases(ns, session, more)[j] == Releases(ns, session, changes)[j]
  {
    forall j | j in KeysOf(changes) ensures Releases(ns, session, more)[j] == Releases(ns, session, changes)[j] {
      ReleaseSame(ns, session, changes, more, j);
    }
  }

  /** One more slot of the session changes. */
  predicate OneMore(session: Id, changes: map<Slot, real>, more: map<Slot, real>, k: Slot) {
    && k !in changes && k in more && more == changes[k := more[k]]
    && k.session == session && forall s :: s in changes ==> s.session == session
  }

  lemma ReleasesPut(ns: NodeState, session: Id, changes: map<Slot, real>, more: map<Slot, real>, k: Slot, state: State)
    requires OneMore(session, changes, more, k)
    requires KeyAt(k) in KeysOf(more) && Releases(ns, session, more)[KeyAt(k)] == state
    ensures KeyAt(k) !in Releases(ns, session, changes)
    ensures Releases(ns, session, more) == Releases(ns, session, changes)[KeyAt(k) := state]
  {
    KeysOfMore(changes, session, k, more[k]);
    ReleasesSame(ns, session, changes, more);
    ReleasesKeys(ns, session, changes);
    ReleasesKeys(ns, session, more);
    MapMore(Releases(ns, session, changes), Releases(ns, session, more), KeyAt(k), state);
  }

  lemma ReleasedNow(ns: NodeState, session: Id, changes: map<Slot, real>, k: Slot, amount: real, state: State)
    requires k in changes && changes[k] == -amount && k.session == session
    requires state == Issued(Current(ns, KeyAt(k)), Freed(session, amount))
    ensures KeyAt(k) in KeysOf(changes) && Releases(ns, session, changes)[KeyAt(k)] == state
  {
    ReleaseIs(ns, session, changes, KeyAt(k), amount);
  }

  lemma ReleaseTxsMore(released: map<Key, State>, k: Key, s: State)
    requires k !in released
    ensures var tx := NewTransaction(None, Some(s), s.transition);
      ReleaseTxs(released[k := s]) == ReleaseTxs(released) + if tx.Some? then {tx.value} else {}
  {
    var more := released[k := s];
    forall t ensures t in ReleaseTxs(more) <==>
      t in ReleaseTxs(released) || NewTransaction(None, Some(s), s.transition) == Some(t)
    {
      if t in ReleaseTxs(more) {
        var j :| j in more && NewTransaction(None, Some(more[j]), more[j].transition) == Some(t);
        assert j != k ==> released[j] == more[j];
      }
      if t in ReleaseTxs(released) {
        var j :| j in released && NewTransaction(None, Some(released[j]), released[j].transition) == Some(t);
        assert more[j] == released[j];
      }
      if NewTransaction(None, Some(s), s.transition) == Some(t) {
        assert more[k] == s;
      }
    }
  }

  lemma AppendMore(chains: map<Key, seq<State>>, appended: map<Key, State>, k: Key, s: State)
    requires k !in appended
    ensures AppendAll(AppendAll(chains, appended), map[k := s]) == AppendAll(chains, appended[k := s])
    ensures ChainOf(AppendAll(chains, appended), k) == ChainOf(chains, k)
  {}

  /** What the issuing of one state looks at is its own chain. */
  lemma OwnChain(cfg: Config, ns: NodeState, after: NodeState, k: Key, r: Request)
    requires r.ReceiveTransfer? || r.ReleaseFrom?
    requires ChainOf(after.chains, k) == ChainOf(ns.chains, k)
    ensures CanIssue(cfg, after, k, r) <==> CanIssue(cfg, ns, k, r)
    ensures Current(after, k) == Current(ns, k)
  {}

  lemma CarriedMore(ns: NodeState, appended: map<Key, State>, changes: map<Slot, real>, txs: set<Tx>, mid: NodeState,
                    k: Key, s: State, changes': map<Slot, real>, now: NodeState)
    requires CarriedOut(ns, appended, changes, txs, mid) && k !in appended
    requires Recorded(ns, changes', ns.(entries := now.entries))
    requires now == WithIssued(mid.(entries := now.entries), k, s)
    ensures var tx := NewTransaction(None, Some(s), s.transition);
      CarriedOut(ns, appended[k := s], changes', txs + if tx.Some? then {tx.value} else {}, now)
  {
    AppendMore(ns.chains, appended, k, s);
  }

  lemma CarriedPut(ns: NodeState, released: map<Key, State>, more: map<Key, State>, changes: map<Slot, real>,
                   changes': map<Slot, real>, mid: NodeState, now: NodeState, k: Key, s: State)
    requires CarriedOut(ns, released, changes, ReleaseTxs(released), mid) && k !in released && more == released[k := s]
    requires Recorded(ns, changes', ns.(entries := now.entries))
    requires now == WithIssued(mid.(entries := now.entries), k, s)
    ensures CarriedOut(ns, more, changes', ReleaseTxs(more), now)
  {
    ReleaseTxsMore(released, k, s);
    CarriedMore(ns, released, changes, ReleaseTxs(released), mid, k, s, changes', now);
  }

  /** One more release carried out. */
  lemma PartlyMore(ns: NodeState, session: Id, changes: map<Slot, real>, more: map<Slot, real>, mid: NodeState,
                   now: NodeState, k: Slot, amount: real, state: State)
    requires Partly(ns, session, changes, mid) && OneMore(session, changes, more, k) && more[k] == -amount
    requires Recorded(ns, more, ns.(entries := now.entries))
    requires state == Issued(Current(ns, KeyAt(k)), Freed(session, amount))
    requires now == WithIssued(mid.(entries := now.entries), KeyAt(k), state)
    ensures Partly(ns, session, more, now)
  {
    ReleasedNow(ns, session, more, k, amount, state);
    ReleasesPut(ns, session, changes, more, k, state);
    CarriedPut(ns, Releases(ns, session, changes), Releases(ns, session, more), changes, more, mid, now, KeyAt(k),
               state);
  }

  // ---------- What has been released so far does not stand in the way ----------

  /** States of other chains, and transactions of such states. */
  ghost predicate Others(appended: map<Key, State>, txs: set<Tx>, k: Key) {
    && (forall j :: j in appended ==> appended[j].id.StateId? && Key(appended[j].id.wallet, appended[j].id.asset) == j)
    && (forall t :: t in txs ==> OfAppended(appended, t))
    && k !in appended
  }

  lemma OthersLeaveNew(ns: NodeState, appended: map<Key, State>, txs: set<Tx>, k: Key, mid: NodeState)
    requires NewFor(ns, k) && Unrecorded(ns.txs, NextState(Current(ns, k)).id) && Others(appended, txs, k)
    requires mid.chains == AppendAll(ns.chains, appended) && mid.txs == ns.txs + txs
    ensures Current(mid, k) == Current(ns, k)
    ensures NewFor(mid, k) && Unrecorded(mid.txs, NextState(Current(mid, k)).id)
  {}

  lemma NextUnrecorded(ns: NodeState, k: Key)
    requires TxsValid(ns) && NewFor(ns, k)
    ensures Unrecorded(ns.txs, NextState(Current(ns, k)).id)
  {
    forall u | u in ns.txs && u.id.TransactionId? ensures u.id.state != NextState(Current(ns, k)).id {
      assert TxKnown(ns, u.id);
    }
  }

  lemma IssuedOwn(cfg: Config, ns: NodeState, j: Key, r: Request)
    requires ChainsValid(cfg, ns) && (r.ReceiveTransfer? || r.ReleaseFrom?)
    ensures var id := Issued(Current(ns, j), r).id; id.StateId? && Key(id.wallet, id.asset) == j
  {
    CurrentSound(cfg, ns, j);
  }

  lemma ReleasesAreOthers(cfg: Config, ns: NodeState, session: Id, changes: map<Slot, real>, k: Key)
    requires ChainsValid(cfg, ns) && k !in Releases(ns, session, changes)
    ensures Others(Releases(ns, session, changes), ReleaseTxs(Releases(ns, session, changes)), k)
  {
    var released := Releases(ns, session, changes);
    forall j | j in released ensures released[j].id.StateId? && Key(released[j].id.wallet, released[j].id.asset) == j {
      IssuedOwn(cfg, ns, j, Freed(session, -Get(changes, Slot(session, j.wallet, j.asset))));
    }
    forall t | t in ReleaseTxs(released) ensures OfAppended(released, t) {
      var j := ReleaseTxOf(released, t);
    }
  }

  /** A release that may be issued on top of ns may be issued later on as well. */
  lemma StillNew(cfg: Config, ns: NodeState, session: Id, changes: map<Slot, real>, k: Slot, amount: real,
                 mid: NodeState)
    requires Inv(cfg, ns) && k !in changes && k.session == session && amount > 0.0
    requires forall s :: s in changes ==> s.session == session
    requires mid.chains == AppendAll(ns.chains, Releases(ns, session, changes))
    requires mid.txs == ns.txs + ReleaseTxs(Releases(ns, session, changes))
    ensures CanIssue(cfg, mid, KeyAt(k), Freed(session, amount)) <==>
      CanIssue(cfg, ns, KeyAt(k), Freed(session, amount))
    ensures Current(mid, KeyAt(k)) == Current(ns, KeyAt(k))
    ensures CanIssue(cfg, ns, KeyAt(k), Freed(session, amount)) ==>
              NewFor(mid, KeyAt(k)) && Unrecorded(mid.txs, NextState(Current(mid, KeyAt(k))).id)
  {
    var key, released := KeyAt(k), Releases(ns, session, changes);
    KeysOfMore(changes, session, k, -amount);
    AppendMore(ns.chains, released, key, Current(ns, key));
    OwnChain(cfg, ns, mid, key, Freed(session, amount));
    if CanIssue(cfg, ns, key, Freed(session, amount)) {
      IssuedFresh(cfg, ns, key, Freed(session, amount));
      NextUnrecorded(ns, key);
      ReleasesAreOthers(cfg, ns, session, changes, key);
      OthersLeaveNew(ns, released, ReleaseTxs(released), key, mid);
    }
  }

  /** Records that an amount leaves a slot. */
  method RecordLeaving(store: Store, k: Slot, amount: real, ghost ns: NodeState, ghost changes: map<Slot, real>)
    requires Recorded(ns, changes, ns.(entries := store.entries)) && k !in changes && amount > 0.0
    modifies store`entries
    ensures store.Snapshot() == old(store.Snapshot()).(entries := store.entries)
    ensures Recorded(ns, changes[k := -amount], ns.(entries := store.entries))
  {
    RecordedMore(store.entries, |ns.entries|, changes, k, -amount);
    store.RecordLedgerEntry(k, -amount);
    assert store.entries == old(store.entries) + [Entry(k, -amount)];
  }

  /** Issues what leaves a slot to its participant, once it has been recorded. */
  method ReleaseSlot(cfg: Config, store: Store, k: Slot, amount: real, ghost ns: NodeState,
                     ghost changes: map<Slot, real>, ghost mid: NodeState)
    returns (ok: bool)
    requires Inv(cfg, ns) && Partly(ns, k.session, changes, mid) && k !in changes && amount > 0.0
    requires store.Snapshot() == mid.(entries := store.entries)
    requires Recorded(ns, changes[k := -amount], ns.(entries := store.entries))
    modifies store`chains, store`txs, store`locks
    ensures store.locks == old(store.locks) + [KeyAt(k)]
    ensures ok <==> CanIssue(cfg, ns, KeyAt(k), Freed(k.session, amount))
    ensures ok ==> Partly(ns, k.session, changes[k := -amount], store.Snapshot())
  {
    StillNew(cfg, ns, k.session, changes, k, amount, store.Snapshot());
    ok := IssueReleaseReceiverState(cfg, store, KeyAt(k), k.session, amount);
    if ok {
      PartlyMore(ns, k.session, changes, changes[k := -amount], mid, store.Snapshot(), k, amount,
                 Issued(Current(ns, KeyAt(k)), Freed(k.session, amount)));
    }
  }

  // ---------- Locks ----------

  /** Locks have been taken in increasing order. */
  ghost predicate LockedInOrder(before: seq<Key>, now: seq<Key>) {
    before <= now && KeysIncrease(now[|before|..])
  }

  /** The locks taken so far are those of the changed slots, and come before those of the slots
      that are left. */
  ghost predicate LockedFor(before: seq<Key>, now: seq<Key>, changes: map<Slot, real>, slots: seq<Slot>, i: nat) {
    && LockedInOrder(before, now)
    && (forall k :: k in now[|before|..] <==> k in KeysOf(changes))
    && forall l, j :: l in now[|before|..] && i <= j < |slots| ==> KeyLess(l, KeyAt(slots[j]))
  }

  lemma NothingLocked(locks: seq<Key>, slots: seq<Slot>)
    ensures LockedFor(locks, locks, map[], slots, 0)
  {
    assert locks[|locks|..] == [];
  }

  lemma SlotPassed(before: seq<Key>, now: seq<Key>, changes: map<Slot, real>, slots: seq<Slot>, i: nat)
    requires LockedFor(before, now, changes, slots, i)
    ensures LockedFor(before, now, changes, slots, i + 1)
  {}

  /** The lock of the next slot keeps the order. */
  lemma SlotLocked(before: seq<Key>, now: seq<Key>, changes: map<Slot, real>, slots: seq<Slot>, i: nat)
    requires LockedFor(before, now, changes, slots, i) && i < |slots| && KeysIncrease(KeysAt(slots))
    ensures LockedInOrder(before, now + [KeyAt(slots[i])])
    ensures (now + [KeyAt(slots[i])])[|before|..] == now[|before|..] + [KeyAt(slots[i])]
    ensures forall l, j :: l in now[|before|..] + [KeyAt(slots[i])] && i + 1 <= j < |slots| ==>
      KeyLess(l, KeyAt(slots[j]))
  {
    var taken, k := now[|before|..], KeyAt(slots[i]);
    assert (now + [k])[|before|..] == taken + [k];
    forall a, b | 0 <= a < b < |taken + [k]| ensures KeyLess((taken + [k])[a], (taken + [k])[b]) {
      assert (taken + [k])[a] in taken;
    }
    forall l, j | l in taken + [k] && i + 1 <= j < |slots| ensures KeyLess(l, KeyAt(slots[j])) {
      assert KeyLess(KeysAt(slots)[i], KeysAt(slots)[j]);
    }
  }

  lemma SlotChanged(before: seq<Key>, now: seq<Key>, changes: map<Slot, real>, slots: seq<Slot>, i: nat, session: Id,
                    x: real)
    requires LockedFor(before, now, changes, slots, i) && i < |slots| && KeysIncrease(KeysAt(slots))
    requires slots[i] !in changes && slots[i].session == session && forall s :: s in changes ==> s.session == session
    ensures LockedFor(before, now + [KeyAt(slots[i])], changes[slots[i] := x], slots, i + 1)
  {
    SlotLocked(before, now, changes, slots, i);
    KeysOfMore(changes, session, slots[i], x);
  }

  // ---------- Withdraw ----------

  /** The listed amounts of a withdraw, with the exponents that they are written with. */
  datatype Incoming = Incoming(amounts: map<Slot, real>, exponents: map<Slot, int>)

  function IncomingOf(u: Update): Incoming {
    Incoming(ListedBy(u), Exponents(u.session, u.allocations))
  }

  lemma {:induction false} SameSlots(session: Id, allocations: seq<Allocation>)
    ensures Exponents(session, allocations).Keys == Listed(session, allocations).Keys
  {
    if allocations != [] {
      SameSlots(session, allocations[..|allocations| - 1]);
    }
  }

  /** An amount may be released: it is as precise as its asset, and the state may be issued. */
  predicate Withdrawable(cfg: Config, ns: NodeState, k: Slot, amount: Decimal) {
    PreciseFor(cfg, k.asset, amount) && CanIssue(cfg, ns, KeyAt(k), Freed(k.session, amount.value))
  }

  /** A slot of a withdraw is listed with no more than it holds, and the rest may be released. */
  predicate ListedOk(cfg: Config, ns: NodeState, cur: map<Slot, real>, incoming: Incoming, k: Slot) {
    && k in cur && k in incoming.amounts && incoming.amounts[k] <= cur[k]
    && (incoming.amounts[k] < cur[k] ==>
          k in incoming.exponents
          && Withdrawable(cfg, ns, k, Difference(cfg, cur[k], incoming.amounts[k], incoming.exponents[k])))
  }

  lemma WithdrawableIs(cfg: Config, ns: NodeState, k: Slot, balance: real, listed: real, exponent: int)
    ensures Withdrawable(cfg, ns, k, Difference(cfg, balance, listed, exponent))
       <==> PreciseFor(cfg, k.asset, Difference(cfg, balance, listed, exponent))
            && CanIssue(cfg, ns, Key(k.wallet, k.asset), Freed(k.session, balance - listed))
  {
    assert Difference(cfg, balance, listed, exponent).value == balance - listed;
  }

  lemma WithdrawSlotIs(cfg: Config, ns: NodeState, u: Update, k: Slot)
    requires k in CurrentOf(ns, u.session)
    ensures WithdrawSlotOk(cfg, ns, u, k) <==> ListedOk(cfg, ns, CurrentOf(ns, u.session), IncomingOf(u), k)
  {
    var cur, listed, exponents := CurrentOf(ns, u.session), ListedBy(u), Exponents(u.session, u.allocations);
    assert Get(cur, k) == cur[k] && k.session == u.session;
    if k in listed && k in exponents {
      WithdrawableIs(cfg, ns, k, cur[k], listed[k], exponents[k]);
    }
  }

  /** Withdraws a positive amount from a slot, if it is precise. */
  method WithdrawAmount(cfg: Config, store: Store, k: Slot, amount: real, precise: bool,
                        ghost ns: NodeState, ghost changes: map<Slot, real>) returns (ok: bool)
    requires Inv(cfg, ns) && Partly(ns, k.session, changes, store.Snapshot()) && k !in changes && amount > 0.0
    modifies store
    ensures ok <==> precise && CanIssue(cfg, ns, KeyAt(k), Freed(k.session, amount))
    ensures ok ==> Partly(ns, k.session, changes[k := -amount], store.Snapshot())
    ensures store.locks == old(store.locks) + if precise then [KeyAt(k)] else []
  {
    ghost var mid := store.Snapshot();
    RecordLeaving(store, k, amount, ns, changes);
    if !precise { return false; }
    ok := ReleaseSlot(cfg, store, k, amount, ns, changes, mid);
  }

  lemma FromCurrentLess(cur: map<Slot, real>, incoming: map<Slot, real>, done: set<Slot>, k: Slot, amount: real)
    requires k !in done && k in cur && cur[k] != 0.0 && k in incoming && amount == cur[k] - incoming[k]
    ensures k !in FromCurrent(cur, incoming, done)
    ensures FromCurrent(cur, incoming, done + {k}) ==
            if amount == 0.0 then FromCurrent(cur, incoming, done) else FromCurrent(cur, incoming, done)[k := -amount]
  {
    FromCurrentMore(cur, incoming, done, k);
    assert -amount == incoming[k] - cur[k];
  }

  /** Withdraws the difference of a slot that is listed with less than it holds. */
  method WithdrawListed(cfg: Config, store: Store, cur: map<Slot, real>, incoming: map<Slot, real>, k: Slot,
                        amount: Decimal,
                        ghost ns: NodeState, ghost done: set<Slot>) returns (ok: bool)
    requires Inv(cfg, ns) && k in cur && cur[k] != 0.0 && k in incoming && k !in done
    requires amount.value == cur[k] - incoming[k] && amount.value > 0.0
    requires Partly(ns, k.session, FromCurrent(cur, incoming, done), store.Snapshot())
    modifies store
    ensures ok <==> Withdrawable(cfg, ns, k, amount)
    ensures ok ==> Partly(ns, k.session, FromCurrent(cur, incoming, done + {k}), store.Snapshot())
    ensures store.locks == old(store.locks) + if PreciseFor(cfg, k.asset, amount) then [KeyAt(k)] else []
  {
    var value := amount.value;
    FromCurrentLess(cur, incoming, done, k, value);
    ghost var changes := FromCurrent(cur, incoming, done);
    ok := WithdrawAmount(cfg, store, k, value, PreciseFor(cfg, k.asset, amount), ns, changes);
    assert FromCurrent(cur, incoming, done + {k}) == changes[k := -value];
  }

  /** One slot of a withdraw: it is listed with no more than it holds, and the difference is
      released. */
  method WithdrawSlot(cfg: Config, store: Store, cur: map<Slot, real>, incoming: Incoming, k: Slot,
                      ghost ns: NodeState, ghost done: set<Slot>) returns (ok: bool)
    requires Inv(cfg, ns) && k in cur && cur[k] != 0.0 && k !in done
    requires incoming.amounts.Keys <= incoming.exponents.Keys
    requires Partly(ns, k.session, FromCurrent(cur, incoming.amounts, done), store.Snapshot())
    modifies store
    ensures ok <==> ListedOk(cfg, ns, cur, incoming, k)
    ensures ok ==> Partly(ns, k.session, FromCurrent(cur, incoming.amounts, done + {k}), store.Snapshot())
    ensures store.locks == old(store.locks)
         || (store.locks == old(store.locks) + [KeyAt(k)] && Get(incoming.amounts, k) != cur[k])
    ensures ok ==> store.locks == old(store.locks) + if incoming.amounts[k] == cur[k] then [] else [KeyAt(k)]
  {
    var amounts := incoming.amounts;
    if k !in amounts { return false; }
    if amounts[k] > cur[k] { return false; }
    if amounts[k] == cur[k] {
      FromCurrentLess(cur, amounts, done, k, 0.0);
      return true;
    }
    ok := WithdrawListed(cfg, store, cur, amounts, k, Difference(cfg, cur[k], amounts[k], incoming.exponents[k]), ns,
      done);
  }

  /** Nothing is listed for a slot that holds nothing. */
  method NothingNew(cur: map<Slot, real>, incoming: map<Slot, real>) returns (ok: bool)
    ensures ok <==> forall k :: k in incoming && incoming[k] != 0.0 ==> Get(cur, k) != 0.0
  {
    var rest := incoming.Keys;
    while rest != {}
      invariant rest <= incoming.Keys
      invariant forall k :: k in incoming.Keys - rest && incoming[k] != 0.0 ==> Get(cur, k) != 0.0
      decreases |rest|
    {
      var k :| k in rest;
      rest := rest - {k};
      if Get(cur, k) == 0.0 && incoming[k] != 0.0 { return false; }
    }
    assert forall k :: k in incoming ==> k in incoming.Keys - {};
    return true;
  }

  function Seen(slots: seq<Slot>, i: nat): set<Slot>
    requires i <= |slots|
  {
    set j | 0 <= j < i :: slots[j]
  }

  lemma SeenMore(slots: seq<Slot>, i: nat)
    requires i < |slots| && KeysIncrease(KeysAt(slots))
    ensures slots[i] !in Seen(slots, i) && Seen(slots, i + 1) == Seen(slots, i) + {slots[i]}
  {
    if slots[i] in Seen(slots, i) {
      var j :| 0 <= j < i && slots[j] == slots[i];
      assert KeyLess(KeysAt(slots)[j], KeysAt(slots)[i]);
      KeyLessIrreflexive(KeysAt(slots)[i]);
    }
  }

  lemma SeenAll(slots: seq<Slot>, cur: map<Slot, real>)
    requires forall k :: k in slots <==> k in cur
    ensures Seen(slots, |slots|) == cur.Keys
  {
    forall k | k in cur ensures k in Seen(slots, |slots|) {
      var j :| 0 <= j < |slots| && slots[j] == k;
    }
  }

  /** Every one of these slots may be withdrawn from as listed. */
  ghost predicate AllListedOk(cfg: Config, ns: NodeState, cur: map<Slot, real>, incoming: Incoming, done: set<Slot>) {
    forall k :: k in done && Get(cur, k) != 0.0 ==> ListedOk(cfg, ns, cur, incoming, k)
  }

  lemma AllListedMore(cfg: Config, ns: NodeState, cur: map<Slot, real>, incoming: Incoming, done: set<Slot>, k: Slot)
    requires AllListedOk(cfg, ns, cur, incoming, done)
    ensures AllListedOk(cfg, ns, cur, incoming, done + {k}) <==>
      Get(cur, k) == 0.0 || ListedOk(cfg, ns, cur, incoming, k)
  {
    assert k in done + {k};
  }

  /** What one more slot adds to the locks: nothing, unless it changes. */
  lemma LockedMore(before: seq<Key>, was: seq<Key>, now: seq<Key>, cur: map<Slot, real>, target: map<Slot, real>,
                   slots: seq<Slot>, i: nat, session: Id)
    requires i < |slots| && slots[i] in cur && slots[i].session == session && KeysIncrease(KeysAt(slots))
    requires slots[i] !in Seen(slots, i) && Seen(slots, i + 1) == Seen(slots, i) + {slots[i]}
    requires LockedFor(before, was, FromCurrent(cur, target, Seen(slots, i)), slots, i)
    requires forall s :: s in FromCurrent(cur, target, Seen(slots, i)) ==> s.session == session
    requires var k := slots[i]; now == was + if cur[k] == 0.0 || Get(target, k) == cur[k] then [] else [KeyAt(k)]
    ensures LockedFor(before, now, FromCurrent(cur, target, Seen(slots, i + 1)), slots, i + 1)
  {
    var k, changes := slots[i], FromCurrent(cur, target, Seen(slots, i));
    FromCurrentMore(cur, target, Seen(slots, i), k);
    if cur[k] == 0.0 || Get(target, k) == cur[k] {
      assert was + [] == was;
      SlotPassed(before, was, changes, slots, i);
    } else {
      SlotChanged(before, was, changes, slots, i, session, Get(target, k) - cur[k]);
    }
  }

  /** Whatever becomes of the next slot, the locks are the first of those of all changed slots. */
  lemma FirstLocks(before: seq<Key>, was: seq<Key>, now: seq<Key>, cur: map<Slot, real>, target: map<Slot, real>,
                   slots: seq<Slot>, i: nat)
    requires i < |slots| && KeysIncrease(KeysAt(slots)) && forall k :: k in slots <==> k in cur
    requires LockedFor(before, was, FromCurrent(cur, target, Seen(slots, i)), slots, i)
    requires now == was || (now == was + [KeyAt(slots[i])] && slots[i] in FromCurrent(cur, target, cur.Keys))
    ensures LockedFirst(before, now, KeysOf(FromCurrent(cur, target, cur.Keys)))
  {
    var changed, taken := FromCurrent(cur, target, cur.Keys), now[|before|..];
    SlotLocked(before, was, FromCurrent(cur, target, Seen(slots, i)), slots, i);
    forall k | k in taken ensures k in KeysOf(changed) {
      var a := TakenAt(before, was, now, cur, target, slots, i, k);
    }
    forall j, k | j in KeysOf(changed) && k in taken && KeyLess(j, k) ensures j in taken {
      var a := TakenAt(before, was, now, cur, target, slots, i, k);
      EarlierTaken(before, was, cur, target, slots, i, j, a);
    }
  }

  lemma TakenAt(before: seq<Key>, was: seq<Key>, now: seq<Key>, cur: map<Slot, real>, target: map<Slot, real>,
                slots: seq<Slot>, i: nat, k: Key) returns (a: nat)
    requires i < |slots| && KeysIncrease(KeysAt(slots)) && forall k :: k in slots <==> k in cur
    requires LockedFor(before, was, FromCurrent(cur, target, Seen(slots, i)), slots, i)
    requires now == was || (now == was + [KeyAt(slots[i])] && slots[i] in FromCurrent(cur, target, cur.Keys))
    requires before <= now && k in now[|before|..]
    ensures a <= i && KeyAt(slots[a]) == k && k in KeysOf(FromCurrent(cur, target, cur.Keys))
  {
    SlotLocked(before, was, FromCurrent(cur, target, Seen(slots, i)), slots, i);
    if k in was[|before|..] {
      var s :| s in FromCurrent(cur, target, Seen(slots, i)) && KeyAt(s) == k;
      a :| 0 <= a < i && slots[a] == s;
      assert s in slots;
    } else {
      a := i;
    }
  }

  lemma EarlierTaken(before: seq<Key>, was: seq<Key>, cur: map<Slot, real>, target: map<Slot, real>,
                     slots: seq<Slot>, i: nat, j: Key, a: nat)
    requires a <= i < |slots| && KeysIncrease(KeysAt(slots)) && forall k :: k in slots <==> k in cur
    requires LockedFor(before, was, FromCurrent(cur, target, Seen(slots, i)), slots, i)
    requires j in KeysOf(FromCurrent(cur, target, cur.Keys)) && KeyLess(j, KeyAt(slots[a]))
    ensures j in was[|before|..]
  {
    var s :| s in FromCurrent(cur, target, cur.Keys) && KeyAt(s) == j;
    var b :| 0 <= b < |slots| && slots[b] == s;
    if b >= a {
      assert b > a ==> KeyLess(KeysAt(slots)[a], KeysAt(slots)[b]);
      if b > a { KeyLessTransitive(j, KeyAt(slots[a]), j); }
      KeyLessIrreflexive(j);
    }
    assert s in Seen(slots, i);
  }

  /** The next slot of a withdraw, whether it holds something or not. */
  method WithdrawNext(cfg: Config, store: Store, cur: map<Slot, real>, incoming: Incoming, slots: seq<Slot>, i: nat,
                      ghost before: seq<Key>, ghost ns: NodeState, ghost session: Id) returns (ok: bool)
    requires Inv(cfg, ns) && i < |slots| && slots[i] in cur && slots[i].session == session
      && KeysIncrease(KeysAt(slots))
    requires incoming.amounts.Keys <= incoming.exponents.Keys && forall k :: k in slots <==> k in cur
    requires AllListedOk(cfg, ns, cur, incoming, Seen(slots, i))
    requires LockedFor(before, store.locks, FromCurrent(cur, incoming.amounts, Seen(slots, i)), slots, i)
    requires Partly(ns, session, FromCurrent(cur, incoming.amounts, Seen(slots, i)), store.Snapshot())
    modifies store
    ensures LockedFirst(before, store.locks, KeysOf(FromCurrent(cur, incoming.amounts, cur.Keys)))
    ensures ok <==> AllListedOk(cfg, ns, cur, incoming, Seen(slots, i + 1))
    ensures ok ==> LockedFor(before, store.locks, FromCurrent(cur, incoming.amounts, Seen(slots, i + 1)), slots, i + 1)
    ensures ok ==> Partly(ns, session, FromCurrent(cur, incoming.amounts, Seen(slots, i + 1)), store.Snapshot())
  {
    var k := slots[i];
    ghost var was := store.locks;
    SeenMore(slots, i);
    AllListedMore(cfg, ns, cur, incoming, Seen(slots, i), k);
    FromCurrentMore(cur, incoming.amounts, Seen(slots, i), k);
    ok := true;
    if cur[k] != 0.0 {
      ok := WithdrawSlot(cfg, store, cur, incoming, k, ns, Seen(slots, i));
    }
    FirstLocks(before, was, store.locks, cur, incoming.amounts, slots, i);
    if ok {
      LockedMore(before, was, store.locks, cur, incoming.amounts, slots, i, session);
    }
  }

  lemma AllListed(cfg: Config, ns: NodeState, cur: map<Slot, real>, incoming: Incoming, slots: seq<Slot>, i: nat)
    requires i <= |slots| && (forall k :: k in slots <==> k in cur)
    ensures AllListedOk(cfg, ns, cur, incoming, cur.Keys) ==> AllListedOk(cfg, ns, cur, incoming, Seen(slots, i))
  {
    forall k | k in Seen(slots, i) ensures k in cur {
      var j :| 0 <= j < i && slots[j] == k;
      assert slots[j] in slots;
    }
  }

  /** Goes through the sorted slots of the session, and releases what each of them loses. */
  method WithdrawSlots(cfg: Config, store: Store, session: Id, cur: map<Slot, real>, incoming: Incoming,
                       ghost ns: NodeState)
    returns (ok: bool)
    requires Inv(cfg, ns) && store.Snapshot() == ns && forall k :: k in cur ==> k.session == session
    requires incoming.amounts.Keys <= incoming.exponents.Keys
    modifies store
    ensures ok <==> AllListedOk(cfg, ns, cur, incoming, cur.Keys)
    ensures ok ==> Partly(ns, session, FromCurrent(cur, incoming.amounts, cur.Keys), store.Snapshot())
    ensures LockedFirst(old(store.locks), store.locks, KeysOf(FromCurrent(cur, incoming.amounts, cur.Keys)))
    ensures ok ==> LockedAll(old(store.locks), store.locks, KeysOf(FromCurrent(cur, incoming.amounts, cur.Keys)))
  {
    ghost var before := store.locks;
    var slots := SortedSlots(session, cur);
    NothingReleased(ns, session);
    NoneSeen(cur, incoming.amounts, slots);
    NothingLocked(before, slots);
    for i := 0 to |slots|
      invariant AllListedOk(cfg, ns, cur, incoming, Seen(slots, i))
      invariant LockedFor(before, store.locks, FromCurrent(cur, incoming.amounts, Seen(slots, i)), slots, i)
      invariant Partly(ns, session, FromCurrent(cur, incoming.amounts, Seen(slots, i)), store.Snapshot())
    {
      assert slots[i] in slots;
      AllListed(cfg, ns, cur, incoming, slots, i + 1);
      ok := WithdrawNext(cfg, store, cur, incoming, slots, i, before, ns, session);
      if !ok { return; }
    }
    SeenAll(slots, cur);
    AllLocked(before, store.locks, KeysOf(FromCurrent(cur, incoming.amounts, cur.Keys)));
    ok := true;
  }

  lemma NoneSeen(cur: map<Slot, real>, target: map<Slot, real>, slots: seq<Slot>)
    ensures FromCurrent(cur, target, Seen(slots, 0)) == map[]
  {}

  lemma WithdrawChecks(cfg: Config, ns: NodeState, u: Update)
    ensures var cur, listed := CurrentOf(ns, u.session), ListedBy(u);
      WithdrawOk(cfg, ns, u) <==>
      && AllocationsOk(u.session, u.allocations, Some(WeightsIn(ns, u.session)), None)
      && (forall k :: k in listed && listed[k] != 0.0 ==> Get(cur, k) != 0.0)
      && AllListedOk(cfg, ns, cur, IncomingOf(u), cur.Keys)
  {
    CollectedOk(ns, u);
    SlotsListed(cfg, ns, u);
  }

  lemma SlotsListed(cfg: Config, ns: NodeState, u: Update)
    ensures var cur := CurrentOf(ns, u.session);
      (forall k :: k in cur && cur[k] != 0.0 ==> WithdrawSlotOk(cfg, ns, u, k))
      <==> AllListedOk(cfg, ns, cur, IncomingOf(u), cur.Keys)
  {
    var cur := CurrentOf(ns, u.session);
    forall k | k in cur
      ensures WithdrawSlotOk(cfg, ns, u, k) <==> ListedOk(cfg, ns, cur, IncomingOf(u), k)
      ensures Get(cur, k) == cur[k]
    {
      WithdrawSlotIs(cfg, ns, u, k);
    }
  }

  /** Collecting the allocations without a precision check. */
  lemma CollectedOk(ns: NodeState, u: Update)
    ensures AllocationsOk(u.session, u.allocations, Some(WeightsIn(ns, u.session)), None) <==>
      ForParticipants(u.allocations, WeightsIn(ns, u.session)) && NonNegative(u.allocations)
        && NoDuplicates(u.session, u.allocations)
  {
    var weights, store: Option<AssetStore> := Some(WeightsIn(ns, u.session)), None;
    forall a: Allocation
      ensures AllocationOk(a, weights, store) <==> a.participant in weights.value && a.amount.value >= 0.0 {}
  }

  lemma LeavingIsDelta(cur: map<Slot, real>, target: map<Slot, real>)
    requires forall k :: k in target && target[k] != 0.0 ==> Get(cur, k) != 0.0
    ensures FromCurrent(cur, target, cur.Keys) == Delta(cur, target)
  {}

  method HandleWithdrawIntent(cfg: Config, store: Store, u: Update, cur: map<Slot, real>, weights: map<Wallet, Weight>)
    returns (ok: bool)
    requires Inv(cfg, store.Snapshot()) && cur == CurrentOf(store.Snapshot(), u.session)
    requires weights == WeightsIn(store.Snapshot(), u.session)
    modifies store
    ensures ok <==> WithdrawOk(cfg, old(store.Snapshot()), u)
    ensures ok ==> Partly(old(store.Snapshot()), u.session, Delta(cur, ListedBy(u)), store.Snapshot())
    ensures LockedFirst(old(store.locks), store.locks, KeysOf(Delta(cur, ListedBy(u))))
    ensures ok ==> LockedAll(old(store.locks), store.locks, KeysOf(Delta(cur, ListedBy(u))))
  {
    ghost var ns := store.Snapshot();
    WithdrawChecks(cfg, ns, u);
    NoneLocked(store.locks, KeysOf(Delta(cur, ListedBy(u))));
    var incoming, exponents;
    ok, incoming, exponents := CollectAllocations(u.session, u.allocations, Some(weights), None);
    if !ok { return; }
    ok := NothingNew(cur, incoming);
    if !ok { return; }
    LeavingIsDelta(cur, incoming);
    SameSlots(u.session, u.allocations);
    ok := WithdrawSlots(cfg, store, u.session, cur, Incoming(incoming, exponents), ns);
  }

  // ---------- Close ----------

  /** Every slot that holds something is listed with what it holds. */
  method MatchesCurrent(cur: map<Slot, real>, incoming: map<Slot, real>) returns (ok: bool)
    ensures ok <==> forall k :: k in cur && cur[k] != 0.0 ==> k in incoming && incoming[k] == cur[k]
  {
    var rest := cur.Keys;
    while rest != {}
      invariant rest <= cur.Keys
      invariant forall k :: k in cur.Keys - rest && cur[k] != 0.0 ==> k in incoming && incoming[k] == cur[k]
      decreases |rest|
    {
      var k :| k in rest;
      rest := rest - {k};
      if cur[k] == 0.0 { continue; }
      if k !in incoming { return false; }
      if incoming[k] != cur[k] { return false; }
    }
    assert forall k :: k in cur ==> k in cur.Keys - {};
    return true;
  }

  lemma ClosedMore(cur: map<Slot, real>, done: set<Slot>, k: Slot, amount: real)
    requires k in cur && k !in done && cur[k] == amount > 0.0
    ensures k !in FromCurrent(cur, map[], done)
    ensures FromCurrent(cur, map[], done + {k}) == FromCurrent(cur, map[], done)[k := -amount]
  {
    FromCurrentMore(cur, map[], done, k);
    assert Get(map[], k) - cur[k] == -amount;
  }

  /** What the slot holds may be released to its participant. */
  predicate CloseSlotOk(cfg: Config, ns: NodeState, session: Id, cur: map<Slot, real>, k: Slot) {
    k in cur && CanIssue(cfg, ns, Key(k.wallet, k.asset), Freed(session, cur[k]))
  }

  /** One slot of a close: everything it holds is released. */
  method CloseSlot(cfg: Config, store: Store, session: Id, cur: map<Slot, real>, k: Slot,
                   ghost ns: NodeState, ghost done: set<Slot>) returns (ok: bool)
    requires Inv(cfg, ns) && k in cur && cur[k] > 0.0 && k !in done && k.session == session
    requires Partly(ns, session, FromCurrent(cur, map[], done), store.Snapshot())
    modifies store
    ensures store.locks == old(store.locks) + [KeyAt(k)]
    ensures ok <==> CloseSlotOk(cfg, ns, session, cur, k)
    ensures ok ==> Partly(ns, session, FromCurrent(cur, map[], done + {k}), store.Snapshot())
  {
    ghost var changes, mid := FromCurrent(cur, map[], done), store.Snapshot();
    var amount := cur[k];
    ClosedMore(cur, done, k, amount);
    RecordLeaving(store, k, amount, ns, changes);
    ok := ReleaseSlot(cfg, store, k, amount, ns, changes, mid);
  }

  /** What each of these slots holds may be released. */
  ghost predicate AllClosable(cfg: Config, ns: NodeState, session: Id, cur: map<Slot, real>, done: set<Slot>) {
    forall k :: k in done && Get(cur, k) != 0.0 ==> CloseSlotOk(cfg, ns, session, cur, k)
  }

  lemma AllClosableMore(cfg: Config, ns: NodeState, session: Id, cur: map<Slot, real>, done: set<Slot>, k: Slot)
    requires AllClosable(cfg, ns, session, cur, done)
    ensures AllClosable(cfg, ns, session, cur, done + {k}) <==>
      Get(cur, k) == 0.0 || CloseSlotOk(cfg, ns, session, cur, k)
  {
    assert k in done + {k};
  }

  lemma AllClosableSeen(cfg: Config, ns: NodeState, session: Id, cur: map<Slot, real>, slots: seq<Slot>, i: nat)
    requires i <= |slots| && (forall k :: k in slots <==> k in cur)
    ensures AllClosable(cfg, ns, session, cur, cur.Keys) ==> AllClosable(cfg, ns, session, cur, Seen(slots, i))
  {
    forall k | k in Seen(slots, i) ensures k in cur {
      var j :| 0 <= j < i && slots[j] == k;
      assert slots[j] in slots;
    }
  }

  /** The next slot of a close, whether it holds something or not. */
  method CloseNext(cfg: Config, store: Store, session: Id, cur: map<Slot, real>, slots: seq<Slot>, i: nat,
                   ghost before: seq<Key>, ghost ns: NodeState) returns (ok: bool)
    requires Inv(cfg, ns) && i < |slots| && slots[i] in cur && slots[i].session == session
      && KeysIncrease(KeysAt(slots))
    requires cur[slots[i]] >= 0.0 && forall k :: k in slots <==> k in cur
    requires AllClosable(cfg, ns, session, cur, Seen(slots, i))
    requires LockedFor(before, store.locks, FromCurrent(cur, map[], Seen(slots, i)), slots, i)
    requires Partly(ns, session, FromCurrent(cur, map[], Seen(slots, i)), store.Snapshot())
    modifies store
    ensures LockedFirst(before, store.locks, KeysOf(FromCurrent(cur, map[], cur.Keys)))
    ensures ok <==> AllClosable(cfg, ns, session, cur, Seen(slots, i + 1))
    ensures ok ==> LockedFor(before, store.locks, FromCurrent(cur, map[], Seen(slots, i + 1)), slots, i + 1)
    ensures ok ==> Partly(ns, session, FromCurrent(cur, map[], Seen(slots, i + 1)), store.Snapshot())
  {
    var k := slots[i];
    ghost var was := store.locks;
    SeenMore(slots, i);
    AllClosableMore(cfg, ns, session, cur, Seen(slots, i), k);
    FromCurrentMore(cur, map[], Seen(slots, i), k);
    ok := true;
    if cur[k] != 0.0 {
      ok := CloseSlot(cfg, store, session, cur, k, ns, Seen(slots, i));
    }
    FirstLocks(before, was, store.locks, cur, map[], slots, i);
    if ok {
      LockedMore(before, was, store.locks, cur, map[], slots, i, session);
    }
  }

  /** Goes through the sorted slots of the session, and releases everything they hold. */
  method CloseSlots(cfg: Config, store: Store, session: Id, cur: map<Slot, real>, ghost ns: NodeState)
    returns (ok: bool)
    requires Inv(cfg, ns) && store.Snapshot() == ns
    requires forall k :: k in cur ==> k.session == session && cur[k] >= 0.0
    modifies store
    ensures ok <==> AllClosable(cfg, ns, session, cur, cur.Keys)
    ensures ok ==> Partly(ns, session, FromCurrent(cur, map[], cur.Keys), store.Snapshot())
    ensures LockedFirst(old(store.locks), store.locks, KeysOf(FromCurrent(cur, map[], cur.Keys)))
    ensures ok ==> LockedAll(old(store.locks), store.locks, KeysOf(FromCurrent(cur, map[], cur.Keys)))
  {
    ghost var before := store.locks;
    var slots := SortedSlots(session, cur);
    NothingReleased(ns, session);
    NoneSeen(cur, map[], slots);
    NothingLocked(before, slots);
    for i := 0 to |slots|
      invariant AllClosable(cfg, ns, session, cur, Seen(slots, i))
      invariant LockedFor(before, store.locks, FromCurrent(cur, map[], Seen(slots, i)), slots, i)
      invariant Partly(ns, session, FromCurrent(cur, map[], Seen(slots, i)), store.Snapshot())
    {
      assert slots[i] in slots;
      AllClosableSeen(cfg, ns, session, cur, slots, i + 1);
      ok := CloseNext(cfg, store, session, cur, slots, i, before, ns);
      if !ok { return; }
    }
    SeenAll(slots, cur);
    AllLocked(before, store.locks, KeysOf(FromCurrent(cur, map[], cur.Keys)));
    ok := true;
  }

  lemma CloseChecks(cfg: Config, ns: NodeState, u: Update)
    ensures var cur, listed := CurrentOf(ns, u.session), ListedBy(u);
      CloseOk(cfg, ns, u) <==>
      && AllocationsOk(u.session, u.allocations, Some(WeightsIn(ns, u.session)), None)
      && (forall k :: k in cur && cur[k] != 0.0 ==> k in listed && listed[k] == cur[k])
      && (forall k :: k in listed && listed[k] != 0.0 ==> Get(cur, k) != 0.0)
      && AllClosable(cfg, ns, u.session, cur, cur.Keys)
  {
    CollectedOk(ns, u);
  }

  method HandleCloseIntent(cfg: Config, store: Store, u: Update, cur: map<Slot, real>, weights: map<Wallet, Weight>)
    returns (ok: bool)
    requires Inv(cfg, store.Snapshot()) && cur == CurrentOf(store.Snapshot(), u.session)
    requires weights == WeightsIn(store.Snapshot(), u.session)
    modifies store
    ensures ok <==> CloseOk(cfg, old(store.Snapshot()), u)
    ensures ok ==> Partly(old(store.Snapshot()), u.session, Delta(cur, map[]), store.Snapshot())
    ensures LockedFirst(old(store.locks), store.locks, KeysOf(Delta(cur, map[])))
    ensures ok ==> LockedAll(old(store.locks), store.locks, KeysOf(Delta(cur, map[])))
  {
    ghost var ns := store.Snapshot();
    CloseChecks(cfg, ns, u);
    NoneLocked(store.locks, KeysOf(Delta(cur, map[])));
    var incoming, exponents;
    ok, incoming, exponents := CollectAllocations(u.session, u.allocations, Some(weights), None);
    if !ok { return; }
    ok := MatchesCurrent(cur, incoming);
    if !ok { return; }
    ok := NothingNew(cur, incoming);
    if !ok { return; }
    HoldsNonNegative(ns, u.session);
    LeavingIsDelta(cur, map[]);
    ok := CloseSlots(cfg, store, u.session, cur, ns);
  }

  lemma HoldsNonNegative(ns: NodeState, session: Id)
    requires SlotsValid(ns)
    ensures forall k :: k in CurrentOf(ns, session) ==> CurrentOf(ns, session)[k] >= 0.0
  {
    forall k | k in CurrentOf(ns, session) ensures CurrentOf(ns, session)[k] >= 0.0 {
      assert SlotValid(ns, k, Allocated(ns.entries)[k]);
    }
  }
}
