/** The endpoint that redistributes funds between several app sessions at once. */
module RebalanceEndpoint {
  import opened Options
  import opened Sums
  import opened Channels
  import opened Packing
  import opened Transactions
  import opened Allocations
  import opened NodeModel
  import opened Invariants
  import opened Settlement
  import opened Database
  import opened SessionUpdates
  import opened OperateIntent
  import opened SessionEndpoints

  // ---------- The changes of one session ----------

  /** The changes that the loop over the current allocations finds. */
  function KnownChanges(cur: map<Slot, real>, target: map<Slot, real>, done: set<Slot>): map<Slot, real> {
    map k | k in done && Get(target, k) != Get(cur, k) :: Get(target, k) - Get(cur, k)
  }

  lemma KnownMore(cur: map<Slot, real>, target: map<Slot, real>, done: set<Slot>, k: Slot)
    requires k !in done
    ensures k !in KnownChanges(cur, target, done)
    ensures KnownChanges(cur, target, done + {k}) ==
            if Get(target, k) == Get(cur, k) then KnownChanges(cur, target, done)
            else KnownChanges(cur, target, done)[k := Get(target, k) - Get(cur, k)]
  {}

  /** What the two loops find, with what they count. */
  lemma BothLoops(cur: map<Slot, real>, target: map<Slot, real>)
    ensures KnownChanges(cur, target, cur.Keys) + FromIncoming(cur, target, target.Keys) == Delta(cur, target)
  {}

  function Plus(a: map<Slot, real>, b: map<Slot, real>): map<Slot, real> {
    map k | k in a.Keys + b.Keys :: Get(a, k) + Get(b, k)
  }

  lemma SumOfPlus(a: map<Slot, real>, b: map<Slot, real>)
    ensures Sum(Plus(a, b)) == Sum(a) + Sum(b)
  {
    SumPlus(a, b, Plus(a, b));
  }

  lemma SumFour(a: map<Slot, real>, b: map<Slot, real>, c: map<Slot, real>, d: map<Slot, real>)
    requires forall k :: Get(a, k) + Get(b, k) == Get(c, k) + Get(d, k)
    ensures Sum(a) + Sum(b) == Sum(c) + Sum(d)
  {
    forall k ensures Get(Plus(a, b), k) == Get(Plus(c, d), k) {
      assert Get(Plus(a, b), k) == Get(a, k) + Get(b, k);
      assert Get(Plus(c, d), k) == Get(c, k) + Get(d, k);
    }
    SumSame(Plus(a, b), Plus(c, d));
    SumOfPlus(a, b);
    SumOfPlus(c, d);
  }

  lemma BothCount(cur: map<Slot, real>, target: map<Slot, real>, asset: Asset)
    ensures Sum(OfAsset(KnownChanges(cur, target, cur.Keys), asset))
      + Sum(OfAsset(FromIncoming(cur, target, target.Keys), asset))
         == Sum(OfAsset(Delta(cur, target), asset)) + Sum(OfAsset(Twice(cur, target), asset))
  {
    SumFour(OfAsset(KnownChanges(cur, target, cur.Keys), asset), OfAsset(FromIncoming(cur, target, target.Keys), asset),
            OfAsset(Delta(cur, target), asset), OfAsset(Twice(cur, target), asset));
  }

  /** totals is what it was before plus the changes of each asset. */
  ghost predicate Totalled(before: map<Asset, real>, changes: map<Slot, real>, totals: map<Asset, real>) {
    forall a :: Get(totals, a) == Get(before, a) + Sum(OfAsset(changes, a))
  }

  lemma TotalledNone(before: map<Asset, real>)
    ensures Totalled(before, map[], before)
  {
    forall a ensures Get(before, a) == Get(before, a) + Sum(OfAsset(map[], a)) {
      assert OfAsset(map[], a) == map[];
    }
  }

  lemma TotalledMore(before: map<Asset, real>, changes: map<Slot, real>, totals: map<Asset, real>, k: Slot, x: real)
    requires Totalled(before, changes, totals) && k !in changes
    ensures Totalled(before, changes[k := x], totals[k.asset := Get(totals, k.asset) + x])
  {
    forall a
      ensures Get(totals[k.asset := Get(totals, k.asset) + x], a) == Get(before, a) + Sum(OfAsset(changes[k := x], a)) {
      SumChange(changes, k, x, a);
    }
  }

  /** The loop over the current allocations. */
  method ChangesOfCurrent(cur: map<Slot, real>, target: map<Slot, real>, before: map<Asset, real>)
    returns (changes: map<Slot, real>, totals: map<Asset, real>)
    ensures changes == KnownChanges(cur, target, cur.Keys) && Totalled(before, changes, totals)
  {
    changes, totals := map[], before;
    TotalledNone(before);
    var rest := cur.Keys;
    while rest != {}
      invariant rest <= cur.Keys
      invariant changes == KnownChanges(cur, target, cur.Keys - rest) && Totalled(before, changes, totals)
      decreases |rest|
    {
      var k :| k in rest;
      KnownMore(cur, target, cur.Keys - rest, k);
      DoneMore(cur.Keys, rest, k);
      rest := rest - {k};
      var change := Get(target, k) - cur[k];
      if change != 0.0 {
        TotalledMore(before, changes, totals, k, change);
        changes := changes[k := change];
        totals := totals[k.asset := Get(totals, k.asset) + change];
      }
    }
    DoneAll(cur.Keys);
  }

  lemma UnionMore(known: map<Slot, real>, found: map<Slot, real>, k: Slot, x: real)
    ensures (known + found)[k := x] == known + found[k := x]
  {}

  /** The loop over the new allocations. */
  method ChangesOfNew(cur: map<Slot, real>, target: map<Slot, real>, known: map<Slot, real>, before: map<Asset, real>)
    returns (changes: map<Slot, real>, totals: map<Asset, real>)
    ensures changes == known + FromIncoming(cur, target, target.Keys)
    ensures Totalled(before, FromIncoming(cur, target, target.Keys), totals)
  {
    changes, totals := known, before;
    ghost var found: map<Slot, real> := map[];
    TotalledNone(before);
    var rest := target.Keys;
    while rest != {}
      invariant rest <= target.Keys
      invariant found == FromIncoming(cur, target, target.Keys - rest)
      invariant changes == known + found && Totalled(before, found, totals)
      decreases |rest|
    {
      var k :| k in rest;
      FromIncomingMore(cur, target, target.Keys - rest, k);
      DoneMore(target.Keys, rest, k);
      rest := rest - {k};
      if Get(cur, k) == 0.0 && target[k] != 0.0 {
        TotalledMore(before, found, totals, k, target[k]);
        UnionMore(known, found, k, target[k]);
        changes := changes[k := target[k]];
        found := found[k := target[k]];
        totals := totals[k.asset := Get(totals, k.asset) + target[k]];
      }
    }
    DoneAll(target.Keys);
  }

  /** The changes of one session, and the totals with them added. */
  method SessionChanges(cur: map<Slot, real>, target: map<Slot, real>, before: map<Asset, real>)
    returns (changes: map<Slot, real>, totals: map<Asset, real>)
    ensures changes == Delta(cur, target)
    ensures forall a ::
      Get(totals, a) == Get(before, a) + Sum(OfAsset(changes, a)) + Sum(OfAsset(Twice(cur, target), a))
  {
    var known, mid := ChangesOfCurrent(cur, target, before);
    changes, totals := ChangesOfNew(cur, target, known, mid);
    BothLoops(cur, target);
    forall a ensures Get(totals, a) == Get(before, a) + Sum(OfAsset(changes, a)) + Sum(OfAsset(Twice(cur, target), a)) {
      BothCount(cur, target, a);
    }
  }

  // ---------- The changes of a batch ----------

  lemma DeltaHas(cur: map<Slot, real>, target: map<Slot, real>, k: Slot)
    ensures k in Delta(cur, target) <==> Get(target, k) != Get(cur, k)
    ensures k in Delta(cur, target) ==> Delta(cur, target)[k] == Get(target, k) - Get(cur, k)
  {}

  lemma GetUnion(a: map<Slot, real>, b: map<Slot, real>, k: Slot)
    ensures Get(a + b, k) == if k in b then b[k] else Get(a, k)
  {}

  lemma DeltaUnion(cur: map<Slot, real>, target: map<Slot, real>, cur': map<Slot, real>, target': map<Slot, real>)
    requires (cur.Keys + target.Keys) !! (cur'.Keys + target'.Keys)
    ensures Delta(cur + cur', target + target') == Delta(cur, target) + Delta(cur', target')
    ensures Delta(cur, target).Keys !! Delta(cur', target').Keys
  {
    var whole, parts := Delta(cur + cur', target + target'), Delta(cur, target) + Delta(cur', target');
    forall k ensures (k in whole <==> k in parts) && (k in whole ==> whole[k] == parts[k]) {
      DeltaUnionAt(cur, target, cur', target', k);
    }
  }

  lemma DeltaUnionAt(cur: map<Slot, real>, target: map<Slot, real>, cur': map<Slot, real>, target': map<Slot, real>,
                     k: Slot)
    requires (k !in cur' && k !in target') || (k !in cur && k !in target)
    ensures var whole, parts := Delta(cur + cur', target + target'), Delta(cur, target) + Delta(cur', target');
      (k in whole <==> k in parts) && (k in whole ==> whole[k] == parts[k])
  {
    DeltaHas(cur + cur', target + target', k);
    DeltaHas(cur, target, k);
    DeltaHas(cur', target', k);
    GetUnion(cur, cur', k);
    GetUnion(target, target', k);
  }

  lemma TwiceUnion(cur: map<Slot, real>, target: map<Slot, real>, cur': map<Slot, real>, target': map<Slot, real>)
    requires (cur.Keys + target.Keys) !! (cur'.Keys + target'.Keys)
    ensures Twice(cur + cur', target + target') == Twice(cur, target) + Twice(cur', target')
    ensures Twice(cur, target).Keys !! Twice(cur', target').Keys
  {}

  lemma SumUnion(m: map<Slot, real>, m': map<Slot, real>, asset: Asset)
    requires m.Keys !! m'.Keys
    ensures Sum(OfAsset(m + m', asset)) == Sum(OfAsset(m, asset)) + Sum(OfAsset(m', asset))
  {
    SumPlus(OfAsset(m, asset), OfAsset(m', asset), OfAsset(m + m', asset));
  }

  lemma SessionsMore(updates: seq<SignedUpdate>, i: nat)
    requires i < |updates|
    ensures SessionsOf(updates[..i + 1]) == SessionsOf(updates[..i]) + {updates[i].update.session}
  {
    var prefix, more, session := updates[..i], updates[..i + 1], updates[i].update.session;
    assert more == prefix + [updates[i]];
    forall id ensures id in SessionsOf(more) <==> id in SessionsOf(prefix) || id == session {
      if id in SessionsOf(prefix) {
        var su :| su in prefix && su.update.session == id;
        assert su in more;
      }
      assert updates[i] in more;
    }
  }

  lemma SessionNew(updates: seq<SignedUpdate>, i: nat)
    requires i < |updates| && DistinctSessions(updates)
    ensures updates[i].update.session !in SessionsOf(updates[..i])
  {
    forall j | 0 <= j < i ensures updates[..i][j].update.session != updates[i].update.session {
      assert updates[j].update.session != updates[i].update.session;
    }
  }

  lemma ListedMoreUpdates(updates: seq<SignedUpdate>, i: nat)
    requires i < |updates|
    ensures ListedByAll(updates[..i + 1]) == ListedByAll(updates[..i]) + ListedBy(updates[i].update)
  {
    assert updates[..i + 1][..i] == updates[..i];
  }

  lemma CurrentMore(ns: NodeState, sessions: set<Id>, session: Id)
    ensures CurrentOfAll(ns, sessions + {session}) == CurrentOfAll(ns, sessions) + CurrentOf(ns, session)
  {}

  /** One more update of the batch brings in one more session. */
  lemma BatchParts(ns: NodeState, updates: seq<SignedUpdate>, i: nat)
    requires i < |updates| && DistinctSessions(updates)
    ensures var u, prefix, more := updates[i].update, updates[..i], updates[..i + 1];
      && u.session !in SessionsOf(prefix) && SessionsOf(more) == SessionsOf(prefix) + {u.session}
      && ListedByAll(more) == ListedByAll(prefix) + ListedBy(u)
      && CurrentOfAll(ns, SessionsOf(more)) == CurrentOfAll(ns, SessionsOf(prefix)) + CurrentOf(ns, u.session)
  {
    SessionsMore(updates, i);
    SessionNew(updates, i);
    ListedMoreUpdates(updates, i);
    CurrentMore(ns, SessionsOf(updates[..i]), updates[i].update.session);
  }

  lemma BatchMore(ns: NodeState, updates: seq<SignedUpdate>, i: nat)
    requires i < |updates| && DistinctSessions(updates)
    ensures var u, prefix, more := updates[i].update, updates[..i], updates[..i + 1];
      var cur, target := CurrentOf(ns, u.session), ListedBy(u);
      && BatchChanges(ns, more) == BatchChanges(ns, prefix) + Delta(cur, target)
      && BatchChanges(ns, prefix).Keys !! Delta(cur, target).Keys
      && CountedTwice(ns, more) == CountedTwice(ns, prefix) + Twice(cur, target)
      && CountedTwice(ns, prefix).Keys !! Twice(cur, target).Keys
  {
    var u, prefix := updates[i].update, updates[..i];
    BatchParts(ns, updates, i);
    BatchInSessions(prefix);
    ListedSlots(u.session, u.allocations);
    DeltaUnion(CurrentOfAll(ns, SessionsOf(prefix)), ListedByAll(prefix), CurrentOf(ns, u.session), ListedBy(u));
    TwiceUnion(CurrentOfAll(ns, SessionsOf(prefix)), ListedByAll(prefix), CurrentOf(ns, u.session), ListedBy(u));
  }

  /** The totals are the tally of the batch. */
  ghost predicate Tallied(ns: NodeState, updates: seq<SignedUpdate>, totals: map<Asset, real>) {
    forall a :: Get(totals, a) == Tally(ns, updates, a)
  }

  lemma TallyMore(ns: NodeState, updates: seq<SignedUpdate>, i: nat, asset: Asset)
    requires i < |updates| && DistinctSessions(updates)
    ensures var u := updates[i].update;
      var cur, target := CurrentOf(ns, u.session), ListedBy(u);
      Tally(ns, updates[..i + 1], asset)
      == Tally(ns, updates[..i], asset) + Sum(OfAsset(Delta(cur, target), asset))
        + Sum(OfAsset(Twice(cur, target), asset))
  {
    var u := updates[i].update;
    BatchMore(ns, updates, i);
    SumUnion(BatchChanges(ns, updates[..i]), Delta(CurrentOf(ns, u.session), ListedBy(u)), asset);
    SumUnion(CountedTwice(ns, updates[..i]), Twice(CurrentOf(ns, u.session), ListedBy(u)), asset);
  }

  lemma TallyNone(ns: NodeState)
    ensures BatchChanges(ns, []) == map[] && Tallied(ns, [], map[])
  {
    NoSession(ns);
    assert CurrentOfAll(ns, SessionsOf([])) == map[] && CountedTwice(ns, []) == map[];
    assert forall a :: OfAsset(map[], a) == map[];
  }

  // ---------- The sessions of a batch ----------

  /** The store while a batch moves its sessions on, one after the other. */
  ghost function WithSessions(ns: NodeState, updates: seq<SignedUpdate>): NodeState {
    ns.(sessions := ns.sessions + AdvancedAll(ns, updates))
  }

  lemma UpdateForSame(updates: seq<SignedUpdate>, i: nat, id: Id)
    requires i < |updates| && DistinctSessions(updates) && id in SessionsOf(updates[..i])
    ensures id in SessionsOf(updates[..i + 1]) && UpdateFor(updates[..i + 1], id) == UpdateFor(updates[..i], id)
  {
    var su :| su in updates[..i] && su.update.session == id;
    assert su in updates[..i + 1];
    UpdateForIs(updates[..i], su);
    UpdateForIs(updates[..i + 1], su);
  }

  lemma AdvancedAllMore(ns: NodeState, updates: seq<SignedUpdate>, i: nat)
    requires i < |updates| && DistinctSessions(updates) && updates[i].update.session in ns.sessions
    ensures var u := updates[i].update;
      AdvancedAll(ns, updates[..i + 1])
        == AdvancedAll(ns, updates[..i])[u.session := Advanced(ns.sessions[u.session], u, Open)]
  {
    var u, prefix, more := updates[i].update, updates[..i], updates[..i + 1];
    BatchParts(ns, updates, i);
    assert updates[i] in more;
    UpdateForIs(more, updates[i]);
    forall id | id in SessionsOf(prefix)
      ensures id in SessionsOf(more) && UpdateFor(more, id) == UpdateFor(prefix, id) {
      UpdateForSame(updates, i, id);
    }
  }

  lemma SessionUntouched(ns: NodeState, updates: seq<SignedUpdate>, i: nat)
    requires i < |updates| && DistinctSessions(updates)
    ensures var id, after := updates[i].update.session, WithSessions(ns, updates[..i]);
      (id in after.sessions <==> id in ns.sessions) && (id in ns.sessions ==> after.sessions[id] == ns.sessions[id])
  {
    BatchParts(ns, updates, i);
  }

  lemma PutLast(sessions: map<Id, Session>, advanced: map<Id, Session>, id: Id, s: Session)
    ensures sessions + advanced[id := s] == (sessions + advanced)[id := s]
  {}

  lemma AdvancedMore(ns: NodeState, updates: seq<SignedUpdate>, i: nat)
    requires i < |updates| && DistinctSessions(updates) && updates[i].update.session in ns.sessions
    requires updates[i].update.intent == Rebalance
    requires updates[i].update.session in WithSessions(ns, updates[..i]).sessions
    ensures WithSessions(ns, updates[..i + 1]) == WithAdvanced(WithSessions(ns, updates[..i]), updates[i].update)
  {
    var u := updates[i].update;
    SessionUntouched(ns, updates, i);
    AdvancedAllMore(ns, updates, i);
    PutLast(ns.sessions, AdvancedAll(ns, updates[..i]), u.session, Advanced(ns.sessions[u.session], u, Open));
  }

  /** Whether an update is authorized depends on its own session only. */
  lemma AuthorizedSame(cfg: Config, ns: NodeState, after: NodeState, su: SignedUpdate)
    requires var id := su.update.session;
      (id in after.sessions <==> id in ns.sessions) && (id in ns.sessions ==> after.sessions[id] == ns.sessions[id])
    ensures Authorized(cfg, after, su) <==> Authorized(cfg, ns, su)
    ensures WeightsIn(after, su.update.session) == WeightsIn(ns, su.update.session)
  {}

  lemma UpdateOkIs(cfg: Config, ns: NodeState, su: SignedUpdate)
    requires su.update.intent == Rebalance
    ensures RebalanceUpdateOk(cfg, ns, su) <==>
      Authorized(cfg, ns, su)
      && AllocationsOk(su.update.session, su.update.allocations, Some(WeightsIn(ns, su.update.session)), None)
    ensures Authorized(cfg, ns, su) ==>
      su.update.session in ns.sessions && ns.sessions[su.update.session].status == Open
  {
    var weights, store: Option<AssetStore> := Some(WeightsIn(ns, su.update.session)), None;
    forall a: Allocation
      ensures AllocationOk(a, weights, store) <==> a.participant in weights.value && a.amount.value >= 0.0 {}
  }

  /** Checks one update of a batch, finds its changes, and moves its session on. */
  method RebalanceSession(cfg: Config, store: Store, updates: seq<SignedUpdate>, i: nat, before: map<Asset, real>,
                          ghost ns: NodeState)
    returns (ok: bool, changes: map<Slot, real>, totals: map<Asset, real>)
    requires SlotsValid(ns) && i < |updates| && DistinctSessions(updates) && updates[i].update.intent == Rebalance
    requires store.Snapshot() == WithSessions(ns, updates[..i]) && Tallied(ns, updates[..i], before)
    modifies store`sessions
    ensures ok <==> RebalanceUpdateOk(cfg, ns, updates[i])
    ensures ok ==> store.Snapshot() == WithSessions(ns, updates[..i + 1]) && Tallied(ns, updates[..i + 1], totals)
    ensures ok ==> changes == Delta(CurrentOf(ns, updates[i].update.session), ListedBy(updates[i].update))
  {
    var su := updates[i];
    var u := su.update;
    SessionUntouched(ns, updates, i);
    AuthorizedSame(cfg, ns, store.Snapshot(), su);
    UpdateOkIs(cfg, ns, su);
    changes, totals := map[], before;
    var session, weights, target, exponents;
    ok, session, weights := Authorize(cfg, store, su);
    if !ok { return; }
    var cur := CurrentAllocations(store, u.session, weights, ns);
    ok, target, exponents := CollectAllocations(u.session, u.allocations, Some(weights), None);
    if !ok { return; }
    changes, totals := SessionChanges(cur, target, before);
    forall a ensures Get(totals, a) == Tally(ns, updates[..i + 1], a) {
      TallyMore(ns, updates, i, a);
    }
    AdvancedMore(ns, updates, i);
    AdvanceSession(store, u, session);
  }

  /** Goes through the updates of a batch. */
  method RebalanceAll(cfg: Config, store: Store, updates: seq<SignedUpdate>, ghost ns: NodeState)
    returns (ok: bool, changes: map<Slot, real>, totals: map<Asset, real>)
    requires SlotsValid(ns) && DistinctSessions(updates) && forall su :: su in updates ==> su.update.intent == Rebalance
    requires store.Snapshot() == ns
    modifies store`sessions
    ensures ok <==> forall su :: su in updates ==> RebalanceUpdateOk(cfg, ns, su)
    ensures ok ==> store.Snapshot() == WithSessions(ns, updates) && Tallied(ns, updates, totals)
    ensures ok ==> changes == BatchChanges(ns, updates)
  {
    changes, totals := map[], map[];
    TallyNone(ns);
    NoneAdvanced(ns);
    assert updates[..0] == [];
    for i := 0 to |updates|
      invariant store.Snapshot() == WithSessions(ns, updates[..i]) && Tallied(ns, updates[..i], totals)
      invariant changes == BatchChanges(ns, updates[..i])
      invariant forall su :: su in updates[..i] ==> RebalanceUpdateOk(cfg, ns, su)
    {
      BatchMore(ns, updates, i);
      assert updates[i] in updates && updates[..i + 1] == updates[..i] + [updates[i]];
      var more;
      ok, more, totals := RebalanceSession(cfg, store, updates, i, totals, ns);
      if !ok { return; }
      changes := changes + more;
    }
    assert updates[..|updates|] == updates;
    ok := true;
  }

  lemma NoneAdvanced(ns: NodeState)
    ensures WithSessions(ns, []) == ns
  {
    assert AdvancedAll(ns, []) == map[];
  }

  // ---------- Recording a batch ----------

  /** Every asset's total must be zero. */
  method AllZero(totals: map<Asset, real>) returns (ok: bool)
    ensures ok <==> forall a :: Get(totals, a) == 0.0
  {
    var rest := totals.Keys;
    while rest != {}
      invariant rest <= totals.Keys && forall a :: a in totals.Keys - rest ==> totals[a] == 0.0
      decreases |rest|
    {
      var a :| a in rest;
      rest := rest - {a};
      if totals[a] != 0.0 {
        assert Get(totals, a) != 0.0;
        return false;
      }
    }
    assert forall a :: a in totals ==> a in totals.Keys - {};
    return true;
  }

  lemma OneLessLeft(changes: map<Slot, real>, rest: set<Slot>, k: Slot)
    requires k in changes && k in rest
    ensures k !in changes - rest
    ensures changes - (rest - {k}) == (changes - rest)[k := changes[k]]
  {}

  lemma AllLeft(changes: map<Slot, real>)
    ensures changes - changes.Keys == map[] && changes - {} == changes
  {}

  /** Records the changes of a batch, one entry each. */
  method RecordChanges(store: Store, changes: map<Slot, real>)
    requires forall k :: k in changes ==> changes[k] != 0.0
    modifies store`entries
    ensures Recorded(old(store.Snapshot()), changes, store.Snapshot())
  {
    ghost var ns := store.Snapshot();
    NothingRecorded(ns);
    AllLeft(changes);
    var rest := changes.Keys;
    while rest != {}
      invariant rest <= changes.Keys
      invariant Recorded(ns, changes - rest, store.Snapshot())
      decreases |rest|
    {
      var k :| k in rest;
      OneLessLeft(changes, rest, k);
      RecordChange(store, k, changes[k], ns, changes - rest);
      rest := rest - {k};
    }
  }

  type SessionAsset = (Id, Asset)

  function AccountsOf(slots: set<Slot>): set<SessionAsset> {
    set k | k in slots :: (k.session, k.asset)
  }

  /** nets holds the net gain of every session in every asset. */
  ghost predicate NetsAre(nets: map<SessionAsset, real>, changes: map<Slot, real>) {
    forall j: SessionAsset :: Get(nets, j) == NetGain(changes, j.0, j.1)
  }

  lemma NoGains()
    ensures NetsAre(map[], map[])
  {
    forall j: SessionAsset ensures NetGain(map[], j.0, j.1) == 0.0 {
      assert OfAsset(OfSession(map[], j.0), j.1) == map[];
    }
  }

  lemma AddGain(changes: map<Slot, real>, nets: map<SessionAsset, real>, k: Slot, x: real)
    requires k !in changes && NetsAre(nets, changes)
    ensures var j := (k.session, k.asset); NetsAre(nets[j := Get(nets, j) + x], changes[k := x])
  {
    var more := nets[(k.session, k.asset) := Get(nets, (k.session, k.asset)) + x];
    forall j: SessionAsset ensures Get(more, j) == NetGain(changes[k := x], j.0, j.1) {
      NetGainMore(changes, k, x, j.1, j.0);
      assert Get(nets, j) == NetGain(changes, j.0, j.1);
    }
  }

  lemma SeenAccounts(slots: set<Slot>, rest: set<Slot>, k: Slot)
    requires rest <= slots && k in rest
    ensures AccountsOf(slots - (rest - {k})) == AccountsOf(slots - rest) + {(k.session, k.asset)}
  {
    DoneMore(slots, rest, k);
  }

  /** The changes of all slots but the rest have been added up. */
  ghost predicate Aggregated(nets: map<SessionAsset, real>, changes: map<Slot, real>, rest: set<Slot>) {
    nets.Keys == AccountsOf(changes.Keys - rest) && NetsAre(nets, changes - rest)
  }

  lemma NoneAggregated(changes: map<Slot, real>)
    ensures Aggregated(map[], changes, changes.Keys)
  {
    AllLeft(changes);
    NoGains();
    assert AccountsOf(changes.Keys - changes.Keys) == {};
  }

  lemma AllAggregated(nets: map<SessionAsset, real>, changes: map<Slot, real>)
    requires Aggregated(nets, changes, {})
    ensures nets.Keys == AccountsOf(changes.Keys) && NetsAre(nets, changes)
  {
    AllLeft(changes);
    DoneAll(changes.Keys);
  }

  lemma AggregatedMore(nets: map<SessionAsset, real>, changes: map<Slot, real>, rest: set<Slot>, k: Slot)
    requires Aggregated(nets, changes, rest) && rest <= changes.Keys && k in rest
    ensures var j := (k.session, k.asset); Aggregated(nets[j := Get(nets, j) + changes[k]], changes, rest - {k})
  {
    OneLessLeft(changes, rest, k);
    AddGain(changes - rest, nets, k, changes[k]);
    SeenAccounts(changes.Keys, rest, k);
  }

  /** Adds the changes up by session and asset. */
  method AggregateChanges(changes: map<Slot, real>) returns (nets: map<SessionAsset, real>)
    ensures nets.Keys == AccountsOf(changes.Keys) && NetsAre(nets, changes)
  {
    nets := map[];
    var rest := changes.Keys;
    NoneAggregated(changes);
    while rest != {}
      invariant rest <= changes.Keys && Aggregated(nets, changes, rest)
      decreases |rest|
    {
      var k :| k in rest;
      AggregatedMore(nets, changes, rest, k);
      nets := nets[(k.session, k.asset) := Get(nets, (k.session, k.asset)) + changes[k]];
      rest := rest - {k};
    }
    AllAggregated(nets, changes);
  }

  /** The records of those of these accounts that gain or lose something. */
  function TxsFor(batch: Id, nets: map<SessionAsset, real>, done: set<SessionAsset>): set<Tx> {
    set j | j in done && Get(nets, j) != 0.0 :: RebalanceTx(batch, j.0, j.1, Get(nets, j))
  }

  lemma TxsForMore(batch: Id, nets: map<SessionAsset, real>, done: set<SessionAsset>, j: SessionAsset)
    requires j !in done
    ensures TxsFor(batch, nets, done + {j}) ==
            TxsFor(batch, nets, done) + if Get(nets, j) == 0.0 then {} else {RebalanceTx(batch, j.0, j.1, Get(nets, j))}
    ensures forall u :: u in TxsFor(batch, nets, done) ==> u.id != RebalanceId(batch, j.0, j.1)
  {}

  lemma TxOfAccount(batch: Id, changes: map<Slot, real>, nets: map<SessionAsset, real>, t: Tx)
    requires nets.Keys == AccountsOf(changes.Keys) && NetsAre(nets, changes) && t in TxsFor(batch, nets, nets.Keys)
    ensures t in RebalanceTxs(batch, changes)
  {
    var j :| j in nets && Get(nets, j) != 0.0 && t == RebalanceTx(batch, j.0, j.1, Get(nets, j));
    var k :| k in changes && (k.session, k.asset) == j;
    assert Get(nets, j) == NetGain(changes, k.session, k.asset);
  }

  lemma TxOfChange(batch: Id, changes: map<Slot, real>, nets: map<SessionAsset, real>, t: Tx)
    requires nets.Keys == AccountsOf(changes.Keys) && NetsAre(nets, changes) && t in RebalanceTxs(batch, changes)
    ensures t in TxsFor(batch, nets, nets.Keys)
  {
    var k :| k in changes && NetGain(changes, k.session, k.asset) != 0.0
             && t == RebalanceTx(batch, k.session, k.asset, NetGain(changes, k.session, k.asset));
    var j := (k.session, k.asset);
    assert j in nets && Get(nets, j) == NetGain(changes, k.session, k.asset);
  }

  lemma TxsForAll(batch: Id, changes: map<Slot, real>, nets: map<SessionAsset, real>)
    requires nets.Keys == AccountsOf(changes.Keys) && NetsAre(nets, changes)
    ensures TxsFor(batch, nets, nets.Keys) == RebalanceTxs(batch, changes)
  {
    forall t ensures t in TxsFor(batch, nets, nets.Keys) <==> t in RebalanceTxs(batch, changes) {
      if t in TxsFor(batch, nets, nets.Keys) {
        TxOfAccount(batch, changes, nets, t);
      }
      if t in RebalanceTxs(batch, changes) {
        TxOfChange(batch, changes, nets, t);
      }
    }
  }

  /** Records the transaction of one session and asset, unless it gains and loses nothing. */
  method RecordNet(store: Store, batch: Id, nets: map<SessionAsset, real>, j: SessionAsset, ghost txs: set<Tx>,
                   ghost done: set<SessionAsset>)
    requires j in nets && j !in done && store.txs == txs + TxsFor(batch, nets, done)
    requires forall u :: u in txs ==> u.id != RebalanceId(batch, j.0, j.1)
    modifies store`txs
    ensures store.Snapshot() == old(store.Snapshot()).(txs := txs + TxsFor(batch, nets, done + {j}))
  {
    TxsForMore(batch, nets, done, j);
    var diff := nets[j];
    if diff != 0.0 {
      var ok := store.RecordTransaction(RebalanceTx(batch, j.0, j.1, diff));
      assert ok;
    }
  }

  /** None of these accounts has a record under this batch yet. */
  ghost predicate NoneRecorded(txs: set<Tx>, batch: Id, nets: map<SessionAsset, real>) {
    forall j, u :: j in nets && u in txs ==> u.id != RebalanceId(batch, j.0, j.1)
  }

  /** Records one transaction for each session and asset with a net gain or loss. */
  method RecordTransactions(store: Store, batch: Id, nets: map<SessionAsset, real>)
    requires NoneRecorded(store.txs, batch, nets)
    modifies store`txs
    ensures store.Snapshot() == old(store.Snapshot()).(txs := old(store.txs) + TxsFor(batch, nets, nets.Keys))
  {
    ghost var txs := store.txs;
    var rest := nets.Keys;
    assert TxsFor(batch, nets, nets.Keys - rest) == {};
    while rest != {}
      invariant rest <= nets.Keys
      invariant store.Snapshot() == old(store.Snapshot()).(txs := txs + TxsFor(batch, nets, nets.Keys - rest))
      decreases |rest|
    {
      var j :| j in rest;
      RecordNet(store, batch, nets, j, txs, nets.Keys - rest);
      DoneMore(nets.Keys, rest, j);
      rest := rest - {j};
    }
    DoneAll(nets.Keys);
  }

  // ---------- The endpoint ----------

  /** One update per session, each with the rebalance intent and session data that is not too long. */
  ghost predicate BatchFine(cfg: Config, updates: seq<SignedUpdate>) {
    && 2 <= |updates| <= cfg.maxSignedUpdates && DistinctSessions(updates)
    && forall su :: su in updates ==> su.update.intent == Rebalance && |su.update.data| <= cfg.maxSessionData
  }

  method CheckBatch(cfg: Config, updates: seq<SignedUpdate>) returns (ok: bool)
    ensures ok <==> BatchFine(cfg, updates)
  {
    if |updates| > cfg.maxSignedUpdates || |updates| < 2 { return false; }
    var seen: set<Id> := {};
    for i := 0 to |updates|
      invariant seen == SessionsOf(updates[..i]) && DistinctSessions(updates[..i])
      invariant forall su :: su in updates[..i] ==>
        su.update.intent == Rebalance && |su.update.data| <= cfg.maxSessionData
    {
      var u := updates[i].update;
      assert updates[i] in updates && updates[..i + 1] == updates[..i] + [updates[i]];
      SeenSession(updates, i);
      if |u.data| > cfg.maxSessionData { return false; }
      if u.intent != Rebalance { return false; }
      if u.session in seen { return false; }
      seen := seen + {u.session};
    }
    assert updates[..|updates|] == updates;
    return true;
  }

  lemma SeenSession(updates: seq<SignedUpdate>, i: nat)
    requires i < |updates| && DistinctSessions(updates[..i])
    ensures updates[i].update.session in SessionsOf(updates[..i]) ==> !DistinctSessions(updates)
    ensures updates[i].update.session !in SessionsOf(updates[..i]) ==> DistinctSessions(updates[..i + 1])
    ensures SessionsOf(updates[..i + 1]) == SessionsOf(updates[..i]) + {updates[i].update.session}
  {
    SessionsMore(updates, i);
    if DistinctSessions(updates) {
      SessionNew(updates, i);
    }
    forall j | 0 <= j < i ensures updates[j].update.session in SessionsOf(updates[..i]) {
      assert updates[..i][j] in updates[..i];
    }
  }

  lemma BatchIdsNew(cfg: Config, ns: NodeState, updates: seq<SignedUpdate>, nets: map<SessionAsset, real>)
    requires Inv(cfg, ns) && AcceptsRebalance(cfg, ns, updates)
    requires nets.Keys == AccountsOf(BatchChanges(ns, updates).Keys)
    ensures NoneRecorded(ns.txs, BatchOf(updates), nets)
  {
    forall j, u | j in nets && u in ns.txs ensures u.id != RebalanceId(BatchOf(updates), j.0, j.1) {
      var k :| k in BatchChanges(ns, updates) && (k.session, k.asset) == j;
      BatchSlot(cfg, ns, updates, k);
      BatchVersion(cfg, ns, updates, k.session);
      assert TxKnown(ns, u.id);
    }
  }

  lemma RebalanceApplies(ns: NodeState, updates: seq<SignedUpdate>, now: NodeState)
    requires Recorded(WithSessions(ns, updates), BatchChanges(ns, updates), now.(txs := ns.txs))
    requires now.txs == ns.txs + RebalanceTxs(BatchOf(updates), BatchChanges(ns, updates))
    ensures Applied(ns, RebalanceEffect(ns, updates), now)
  {
    assert AppendAll(ns.chains, map[]) == ns.chains;
  }

  lemma DeltaNonZero(cur: map<Slot, real>, target: map<Slot, real>)
    ensures forall k :: k in Delta(cur, target) ==> Delta(cur, target)[k] != 0.0
  {}

  /** Records the entries and the transactions of a batch that balances. */
  method RecordBatch(cfg: Config, store: Store, updates: seq<SignedUpdate>, changes: map<Slot, real>,
                     ghost ns: NodeState)
    requires Inv(cfg, ns) && AcceptsRebalance(cfg, ns, updates)
    requires store.Snapshot() == WithSessions(ns, updates) && changes == BatchChanges(ns, updates)
    modifies store`entries, store`txs
    ensures Applied(ns, RebalanceEffect(ns, updates), store.Snapshot())
  {
    DeltaNonZero(CurrentOfAll(ns, SessionsOf(updates)), ListedByAll(updates));
    RecordChanges(store, changes);
    var nets := AggregateChanges(changes);
    BatchIdsNew(cfg, ns, updates, nets);
    TxsForAll(BatchOf(updates), changes, nets);
    RecordTransactions(store, BatchOf(updates), nets);
    RebalanceApplies(ns, updates, store.Snapshot());
  }

  lemma TalliedZero(ns: NodeState, updates: seq<SignedUpdate>, totals: map<Asset, real>)
    requires Tallied(ns, updates, totals)
    ensures (forall a :: Get(totals, a) == 0.0) <==> (forall a :: Tally(ns, updates, a) == 0.0)
  {
    if forall a :: Get(totals, a) == 0.0 {
      forall a ensures Tally(ns, updates, a) == 0.0 {
        assert Get(totals, a) == 0.0;
      }
    }
    if forall a :: Tally(ns, updates, a) == 0.0 {
      forall a ensures Get(totals, a) == 0.0 {
        assert Tally(ns, updates, a) == 0.0;
      }
    }
  }

  /** Once every update of a batch has been checked, its verdict is that of the totals. */
  lemma BatchVerdict(cfg: Config, ns: NodeState, updates: seq<SignedUpdate>, totals: map<Asset, real>)
    requires 2 <= |updates| <= cfg.maxSignedUpdates && DistinctSessions(updates)
    requires (forall su :: su in updates ==> RebalanceUpdateOk(cfg, ns, su)) && Tallied(ns, updates, totals)
    ensures AcceptsRebalance(cfg, ns, updates) <==> forall a :: Get(totals, a) == 0.0
  {
    TalliedZero(ns, updates, totals);
  }

  method RebalanceTxn(cfg: Config, store: Store, updates: seq<SignedUpdate>) returns (ok: bool)
    requires Inv(cfg, store.Snapshot()) && 2 <= |updates| <= cfg.maxSignedUpdates && DistinctSessions(updates)
    requires forall su :: su in updates ==> su.update.intent == Rebalance
    modifies store`sessions, store`entries, store`txs
    ensures ok <==> AcceptsRebalance(cfg, old(store.Snapshot()), updates)
    ensures ok ==> Applied(old(store.Snapshot()), RebalanceEffect(old(store.Snapshot()), updates), store.Snapshot())
  {
    ghost var ns := store.Snapshot();
    var changes, totals;
    ok, changes, totals := RebalanceAll(cfg, store, updates, ns);
    if !ok { return; }
    ok := AllZero(totals);
    BatchVerdict(cfg, ns, updates, totals);
    if !ok { return; }
    RecordBatch(cfg, store, updates, changes, ns);
  }

  lemma RebalanceStep(cfg: Config, ns: NodeState, updates: seq<SignedUpdate>, now: NodeState)
    requires Inv(cfg, ns)
    requires if AcceptsRebalance(cfg, ns, updates) then Applied(ns, RebalanceEffect(ns, updates), now) else now == ns
    ensures Step(cfg, ns, RebalanceSessions(updates), now) && Inv(cfg, now)
    ensures Accepts(cfg, ns, RebalanceSessions(updates)) <==> AcceptsRebalance(cfg, ns, updates)
  {
    StepKeepsInv(cfg, ns, RebalanceSessions(updates), now);
  }

  lemma BatchRefused(cfg: Config, ns: NodeState, updates: seq<SignedUpdate>)
    requires !BatchFine(cfg, updates)
    ensures !Accepts(cfg, ns, RebalanceSessions(updates)) && Step(cfg, ns, RebalanceSessions(updates), ns)
  {}

  /** Rebalancing sessions: all or nothing. */
  method RebalanceAppSessions(cfg: Config, store: Store, updates: seq<SignedUpdate>) returns (ok: bool)
    requires Inv(cfg, store.Snapshot())
    modifies store
    ensures Inv(cfg, store.Snapshot())
    ensures ok <==> Accepts(cfg, old(store.Snapshot()), RebalanceSessions(updates))
    ensures Step(cfg, old(store.Snapshot()), RebalanceSessions(updates), store.Snapshot())
    ensures store.locks == old(store.locks)
  {
    var before := store.Snapshot();
    ok := CheckBatch(cfg, updates);
    if !ok {
      BatchRefused(cfg, before, updates);
      return;
    }
    ok := RebalanceTxn(cfg, store, updates);
    if !ok { store.Rollback(before); }
    RebalanceStep(cfg, before, updates, store.Snapshot());
  }
}
